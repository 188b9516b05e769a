# audio-transcoder, modelled in Dafny

This project models the core of audio-transcoder, a service that turns a list of
audio segment URLs into one stitched audio file. A job has five steps:

1. It downloads every segment to a uniquely named temporary file.
2. It passes only if more than 60% of the segments arrived.
3. It builds one ffmpeg `concat` command over the segments that arrived, in
   their original order.
4. It runs that command, which re-encodes to 128 kbit/s mp3 titled
   "Stitched Audio".
5. It forwards the result to a caller-supplied stream, if there is one.

A `SessionMetrics` object records the job's state, its timing, the download
success rate and the encoding time. A 250 s deadline timer marks the job as
timed out unless the job ends first.

The model has these modules:

- `Js` holds the JavaScript values the code relies on:
  - numbers that may be NaN;
  - the errors thrown;
  - `Math.round`, with its half-up conversions to hundredths.
- `Decimal` holds decimal text: what `n.toString()` and `${n}` write for a whole
  number, and what `Number(s)` reads back.
- `Strings` holds `split` on one character and its inverse, joining.
- `Constants` holds the two configured names.
- `Utilities` holds the numeric sort and the maximum of digit strings, the
  `YYYY-MM-DD` date text and the five-character random identifier. The sort
  and the maximum are methods over an array.
- `Session` holds the `SessionMetrics` class: its state machine, the armed or
  cleared deadline timer and the metric conversions.
- `AudioDownloads` holds the `AudioDownload` class and the temporary-path
  derivation.
- `StitchCommand` holds the concat and probe command strings. Each is proved
  equal to its list of shell words joined by spaces.
- `AudioManagement` holds the rest:
  - the `AudioManager` class: its constructor, the download pass, the file
    selection, the stitching run and the job result;
  - the success-rate gate;
  - the members that model the defects listed under Findings, as written.

The model stands in for three kinds of input:

- Network transfers, the ffmpeg process and forwarding to the output stream
  become outcomes passed in: one `bool` per download, an `Option` of the
  process output, and an `Outcome` for the forwarding.
- Clock readings become whole milliseconds.
- `Math.random()` becomes the sequence of values it returned.

Where the code has a defect, the model follows the evidently intended
behaviour. A separate member models the code as written, and a lemma shows the
difference (see Findings).

Four facts about the code shape the model:

- No failed segment is ever recorded in `downloadFailures`, because the manager
  never calls `addAudioFailureForDownload`. The session method is modelled on
  its own.
- A fatal error is not recorded in the session. `startAudioProcessing` returns
  the error and never calls `endSessionWithError`.
- A transcoding timeout kills the process. Its callback then reports an error,
  exactly like an ffmpeg failure.
- The stitched file is deleted only after a successful forward.

## Model

| member | source | states |
|---|---|---|
| Js.MathRound | audio-handling/session_metrics.js:80 | `Math.round(x)` is an integer within half of `x`, with halves rounded up |
| Js.MathRoundUnique | audio-handling/session_metrics.js:80 | every integer in (x − ½, x + ½] equals `Math.round(x)`, so the rounding is determined |
| Js.RoundToHundredths | audio-handling/session_metrics.js:103 | `Math.round(x*100)/100` is a whole number of hundredths within 0.005 of `x` |
| Js.RoundToHundredthsUnique | audio-handling/session_metrics.js:103 | it is the only such number of hundredths |
| Js.SecondsFromMillis | audio-handling/session_metrics.js:115 | ms/1000 rounded half-up to hundredths of a second |
| Js.SecondsFromMillisInIntegers | audio-handling/session_metrics.js:115 | hundredths of a second equal `(ms + 5) / 10` with floor division |
| Js.MinutesFromMillis | audio-handling/session_metrics.js:80 | ms/60000 rounded half-up to hundredths of a minute |
| Js.MinutesFromMillisInIntegers | audio-handling/session_metrics.js:80 | hundredths of a minute equal `(ms + 300) / 600` with floor division |
| Decimal.NatToString | audio-handling/audio_manager.js:228 | `${k}` is canonical decimal text (no leading zero), one character exactly when k < 10 |
| Decimal.NatToStringRoundTrip | utilities/utilities.js:86-99 | `Number(n.toString()) == n` |
| Decimal.CanonicalRoundTrip | utilities/utilities.js:86-99 | canonical digit text is what `toString` writes for its value (the other direction) |
| Decimal.NatToStringInjective | audio-handling/audio_manager.js:228 | distinct stream indices get distinct labels |
| Decimal.IntToString | utilities/utilities.js:75 | a year is written as its decimal digits, with `-` in front when negative, and reads back as the year |
| Decimal.Pad2 | utilities/utilities.js:67-73 | a month or day below 100 becomes exactly two digits that read back as that value |
| Strings.Split | audio-handling/audio_download.js:22 | `split` always yields at least one part |
| Strings.JoinSplit | audio-handling/audio_download.js:22 | joining the parts with the separator gives back the string |
| Strings.SplitJoin | audio-handling/audio_manager.js:216-240 | parts without the separator, once joined, split back into exactly those parts |
| Strings.JoinPrefixed | audio-handling/audio_manager.js:233 | joining more words appends each one after a separator |
| Strings.SplitLastPart | audio-handling/audio_download.js:22-23 | the last part of `split` is the text after the last separator |
| Strings.LastPartIsSuffix | audio-handling/audio_download.js:22-23 | that text is a suffix of the string and holds no separator |
| Strings.LastPartFollowsSeparator | audio-handling/audio_download.js:22-23 | that text is the whole string, or a separator comes right before it |
| Utilities.ToNumArray | utilities/utilities.js:84-88 | the array holds `Number(s)` for each string, in order |
| Utilities.SortNumbers | utilities/utilities.js:91-93 | the array ends up ascending and is a permutation of its old contents |
| Utilities.SortArrOfStringNumbers | utilities/utilities.js:80-103 | the result has the same length, is canonical decimal text in ascending numeric order, and holds the input values as a multiset |
| Utilities.MaxValueOfStringNumbers | utilities/utilities.js:105-122 | it fails exactly on an empty list, with a TypeError; otherwise it returns the canonical text of an input value that is at least every input |
| Utilities.DateStringFromDate | utilities/utilities.js:54-77 | a non-Date gives exactly `undefined_date`; a Date gives year, `-`, two digits reading as month+1, `-`, two digits reading as the day |
| Utilities.DashedFields | utilities/utilities.js:75 | where the fields sit in `y-mm-dd`, and that such text never equals `undefined_date` |
| Utilities.AlphabetIndex | utilities/utilities.js:129 | `Math.floor(Math.random() * 62)` is a valid position in the alphabet |
| Utilities.CreateUID | utilities/utilities.js:124-132 | five characters of the 62-character alphabet, the k-th picked by the k-th draw |
| Utilities.EveryUidIsDrawable | utilities/utilities.js:128-129 | every five-character identifier over the alphabet is produced by some draws in [0, 1) |
| AudioDownloads.TempAudioFileDirIs | audio-handling/audio_download.js:18 | the downloads directory is `/tmp/downloads` |
| AudioDownloads.FileExtension | audio-handling/audio_download.js:22-23 | the extension holds no `.`; it is a suffix of the URL, either the whole URL or preceded by `.`; a URL without `.` is its own extension |
| AudioDownloads.TempFilePath | audio-handling/audio_download.js:24-26 | the path is the downloads directory, `/`, the identifier, `.`, and the extension, each at its position |
| AudioDownloads.DistinctUidsDistinctPaths | audio-handling/audio_download.js:24-26 | downloads with different identifiers get different paths, whatever their URLs |
| AudioDownloads.TempFilePathAsWritten | audio-handling/audio_download.js:22 | as written, path derivation throws a ReferenceError for `audioPath` |
| AudioDownloads.ConstructorAsWrittenAlwaysThrows | audio-handling/audio_download.js:22-26 | no URL gets a path as written; with the correction every path starts with `/tmp/downloads/` |
| AudioDownloads.ExtensionAfterLastDot | audio-handling/audio_download.js:22-23 | the extension of `front.rest`, where `rest` holds no `.`, is exactly `rest` |
| AudioDownloads.ExtensionMayHoldSlash | audio-handling/audio_download.js:22-23 | a URL whose last `.` is in the host, such as `https://cdn.host.com/seg/42`, gets the extension `com/seg/42`, which holds `/` |
| AudioDownloads.ExtensionWithoutSlash | audio-handling/audio_download.js:22-23 | when every `/` in the URL has a `.` somewhere after it, the extension holds no `/` |
| AudioDownloads.AudioDownload.constructor | audio-handling/audio_download.js:15-29 | a new download has not succeeded, has no duration, keeps its URL; its directory is `/tmp/downloads`, its file is `<identifier>.<extension>`, and its path is the directory, `/`, then that file |
| AudioDownloads.AudioDownload.DownloadAudio | audio-handling/audio_download.js:38-58 | settles after the transfer: passes exactly when the segment arrived (and then marks the download), otherwise fails with a download error |
| AudioDownloads.DownloadFlagAsWritten | audio-handling/audio_download.js:48-54 | as written, the success flag after an attempt is what it was before, whether or not the segment arrived |
| Session.FailureEntry | audio-handling/session_metrics.js:106-112 | a non-intro failure maps its episode id to its download path; an intro maps `<id>_intro` to its audio path |
| Session.IntroKeyDistinct | audio-handling/session_metrics.js:107-111 | an episode's failure and its intro's never share a key |
| Session.PercentOf | audio-handling/session_metrics.js:101-104 | the percentage is NaN exactly when the rate is; otherwise whole hundredths within 0.005 of rate×100 |
| Session.PercentInRange | audio-handling/session_metrics.js:101-104 | a rate in [0, 1] gives a percentage in [0, 100] |
| Session.SessionMetrics.GetMetrics | audio-handling/session_metrics.js:83-95 | the snapshot has no end metrics before the end; after it, the duration runs from the start; a terminal state has an end time |
| Session.SessionMetrics.constructor | audio-handling/session_metrics.js:20-35 | queued, no end time, every metric 0, no failures, no error, deadline timer armed |
| Session.SessionMetrics.StartTask | audio-handling/session_metrics.js:41 | only the state changes, to RUN |
| Session.SessionMetrics.StopTask | audio-handling/session_metrics.js:42 | only the state changes, to STOP |
| Session.SessionMetrics.ComputeSessionEndMetrics | audio-handling/session_metrics.js:77-81 | end time set; duration = end − start; minutes rounded half-up to hundredths; nothing else changes |
| Session.SessionMetrics.EndSessionSuccess | audio-handling/session_metrics.js:48-54 | timer cleared, COMPLETE, end metrics computed, nothing else changes; the object invariant holds |
| Session.SessionMetrics.EndSessionWithError | audio-handling/session_metrics.js:56-63 | as the success end but ERROR, and the error is kept |
| Session.SessionMetrics.OnTimeout | audio-handling/session_metrics.js:65-75 | it fires at least 250000 ms after creation; a pending timer marks TIMEOUT and computes the end metrics, so the duration is at least 250000 ms; a cleared one changes nothing |
| Session.SessionMetrics.SetDownloadSuccessRate | audio-handling/session_metrics.js:101-104 | only the rate changes, to `PercentOf(rate)`; each call is one report |
| Session.SessionMetrics.SetEncodingTime | audio-handling/session_metrics.js:114-116 | only the encoding time changes, to seconds in hundredths |
| Session.SessionMetrics.AddAudioFailureForDownload | audio-handling/session_metrics.js:106-112 | one entry is written; every other entry and field is unchanged |
| Session.EndThenTimeout | audio-handling/session_metrics.js:48-75 | after a successful end, a late deadline leaves the job complete with its end time |
| StitchCommand.InputClauses | audio-handling/audio_manager.js:220-223 | one `-i <file>` pair per input, in input order |
| StitchCommand.MetadataArgsAt | audio-handling/audio_manager.js:234-237 | one `key="value"` word per metadata entry, in insertion order |
| StitchCommand.ConcatArgumentsLayout | audio-handling/audio_manager.js:216-238 | the invocation: ffmpeg path, `-i` per input in order, `-filter_complex` with the quoted filter over exactly those inputs, the output options, the metadata words, the output file last |
| StitchCommand.ConcatArgumentsFront | audio-handling/audio_manager.js:217-230 | the first half of that layout |
| StitchCommand.ConcatArgumentsBack | audio-handling/audio_manager.js:233-238 | the second half of that layout |
| StitchCommand.OutputOptionsText | audio-handling/audio_manager.js:233 | the output options read ` -map [output] -map_metadata -1 -c:a <codec> -b:a <bitrate>k -metadata` |
| StitchCommand.ConcatCmdWithReEncoding | audio-handling/audio_manager.js:216-240 | the string built step by step is exactly the invocation's words joined by single spaces |
| StitchCommand.CommandLineSplitsIntoArguments | audio-handling/audio_manager.js:216-240 | when no word holds a space, the command line splits back into exactly its words |
| StitchCommand.FilterLabelsForTwoInputs | audio-handling/audio_manager.js:227-229 | the labels for two inputs are `[0:0][1:0]` |
| StitchCommand.FilterGraphForNoInputs | audio-handling/audio_manager.js:226-230 | with no inputs the filter is `concat=n=0:v=0:a=1[output]`, with no stream label |
| StitchCommand.ConcatFilterForTwoInputs | audio-handling/audio_manager.js:230 | the concat filter for two inputs is `concat=n=2:v=0:a=1[output]` |
| StitchCommand.FilterGraphForTwoInputs | audio-handling/audio_manager.js:226-230 | the filter for two inputs is `[0:0][1:0]concat=n=2:v=0:a=1[output]` |
| StitchCommand.ProbeCommandWords | audio-handling/audio_manager.js:245 | the probe string is its words (path, `-i`, file, duration query) joined by spaces |
| StitchCommand.ProbeCommandSplits | audio-handling/audio_manager.js:245 | with space-free paths the probe string splits back into exactly those words |
| AudioManagement.StitchedAudioFileIs | audio-handling/audio_manager.js:164 | the stitched file is `/tmp/stitched_audio.mp3` |
| AudioManagement.SuccessRate | audio-handling/audio_manager.js:114 | the rate is NaN exactly for an empty batch, and otherwise rate × total = successes |
| AudioManagement.Gate | audio-handling/audio_manager.js:117-124 | passes exactly when the rate is above 0.6; otherwise an integrity error carrying the rate |
| AudioManagement.PassesIff | audio-handling/audio_manager.js:16 | a batch passes iff it is non-empty and 5 × successes > 3 × total |
| AudioManagement.GateExamples | audio-handling/audio_manager.js:117-124 | 3 of 5 (exactly 0.6) fails, 4 of 5 passes, an empty batch is NaN and fails |
| AudioManagement.SurvivorIndicesExact | audio-handling/audio_manager.js:158-161 | the selected positions are exactly the successful ones, each once, increasing |
| AudioManagement.SurvivorsAtIndices | audio-handling/audio_manager.js:158-161 | the selected files are the paths at those positions, in that order |
| AudioManagement.SurvivorsExtremes | audio-handling/audio_manager.js:158-161 | all succeeded gives every path in order; none gives no file |
| AudioManagement.ProcessingOutcome | audio-handling/audio_manager.js:51-79 | success iff every step succeeds; the message tells apart "not uploaded" (no stream) from "transcoded"; otherwise the first failing step's error is returned |
| AudioManagement.StitchResult | audio-handling/audio_manager.js:176-194 | succeeds with the stitched file exactly when ffmpeg reports no error, else fails with its output |
| AudioManagement.NewDownloads | audio-handling/audio_manager.js:33-37 | one fresh, not-yet-successful download per URL, in URL order, each named by its own draws; no two are the same object |
| AudioManagement.AudioManager.constructor | audio-handling/audio_manager.js:26-43 | one fresh, distinct, not-yet-successful download per URL in URL order, each named by its draws; total = URL count; counter 0 |
| AudioManagement.AudioManager.AttemptDownloads | audio-handling/audio_manager.js:129-140 | every download is attempted once in order; the counter grows by the number that arrived; exactly those are marked |
| AudioManagement.AudioManager.DownloadAudioFiles | audio-handling/audio_manager.js:111-141 | as above, then the rate successes/total is reported exactly once, stored as a percentage, and the result is the gate on that rate |
| AudioManagement.AudioManager.StitchInputFiles | audio-handling/audio_manager.js:158-161 | the paths of the successful downloads, in download order |
| AudioManagement.AudioManager.BuildStitchCommand | audio-handling/audio_manager.js:164-165 | the concat command over the surviving files into `/tmp/stitched_audio.mp3`, mp3 at 128k, titled "Stitched Audio" |
| AudioManagement.AudioManager.StitchDownloadedAudio | audio-handling/audio_manager.js:152-203 | runs that command; success records the encoding time end − start and resolves with the file; failure leaves the metrics and rejects with ffmpeg's output |
| AudioManagement.AudioManager.StartAudioProcessing | audio-handling/audio_manager.js:51-79 | every download is attempted and exactly the arrived ones are marked; the rate is reported once and stored as a percentage; the encoding time is set exactly when the gate passes and ffmpeg succeeds, and no other metric changes; the result is `ProcessingOutcome` of the gate, the stitching and the forwarding, returned, not thrown |
| AudioManagement.AttemptAsWritten | audio-handling/audio_manager.js:131 | as written, each attempt throws a ReferenceError for `i` |
| AudioManagement.EveryBatchFailsAsWritten | audio-handling/audio_manager.js:130-140 | as written, the counter stays 0 and no batch passes |
| AudioManagement.FiveArrivalsAsWritten | audio-handling/audio_manager.js:131 | five arrivals: the corrected pass counts 5 and passes, the written one fails |
| AudioManagement.DownloadAudioAsWritten | audio-handling/audio_download.js:43-57 | as written, `downloadAudio` settles successfully at once, whatever the transfer does |
| AudioManagement.UnawaitedCountsEveryAttempt | audio-handling/audio_download.js:43 | with that, the pass counts every attempt as a success |
| AudioManagement.FiveFailuresPassAsWritten | audio-handling/audio_download.js:43 | five failed transfers pass the gate as written; the corrected count is 0, which fails |
| AudioManagement.StartAudioProcessingAsWritten | audio-handling/audio_manager.js:53 | as written, every job returns a TypeError reading `userUID` |
| AudioManagement.StartAsWrittenNeverSucceeds | audio-handling/audio_manager.js:53-73 | as written no job succeeds; with the corrected steps a successful job returns either message |
| AudioManagement.DownloadStepAsWritten | audio-handling/audio_manager.js:56 | as written, the download step throws a ReferenceError for `self` |
| AudioManagement.SelfAsWrittenFails | audio-handling/audio_manager.js:56-60 | with it, the job ends in that ReferenceError whatever the later steps do |
| AudioManagement.ForwardAsWritten | audio-handling/audio_manager.js:68 | as written, waiting for the end of the stream throws a TypeError reading `on` |
| AudioManagement.ForwardAsWrittenNeverTranscodes | audio-handling/audio_manager.js:66-73 | with it, a job with a stream never reports that it transcoded |
| AudioManagement.StitchesNothingAsWritten | audio-handling/audio_download.js:50 | as written no download is ever marked, so no file is selected and the filter concatenates zero inputs, while the corrected flags select every path of a batch that all arrived |

## Left out

- index.js is not part of this model. That includes the request handler, payload parsing, the API-key check and its callbacks.
- Network transfers are outcomes passed in. Creating the write stream for a download (`fs.createWriteStream`) is not modelled.
- AudioDownloads.AudioDownload.DownloadAudio: a failed transfer rejects with a `DownloadError` naming the URL, not with the HTTP client's own error object.
- `createDirs`, `deleteDirectorySync`, `deleteFileSync`, `listContentsOfDir` and `fs.statSync` are left out, because they are filesystem effects. The deletion of the stitched file after forwarding is left out for the same reason.
- The ffmpeg subprocess, its 180000 ms kill timer and the `transcodeTimer` field are left out. The process is modelled by its report: no error, or its output. A kill by the timer reaches the callback as an error, so it is one of the failures.
- `getAudioDuration` is left out: running ffprobe and parsing its output with `Number(data)`. Only its command string is modelled.
- Forwarding is an outcome passed in, because it pipes a read stream into the caller's stream. The stream itself is reduced to whether one was supplied.
- `downloadAudioPromiseWrapper` is not modelled separately. Its completion callback is the `Outcome` that `DownloadAudioFiles` returns.
- `downloadAudioFiles` recurses on the index. It is modelled as a loop over the index, which visits the same indices in the same order.
- Logging is left out, including `logSessionMetrics`.
- Clock readings are whole milliseconds passed in, and `startTime` in the metrics is that number rather than a `Date`. `Math.random()` results are passed in as values in [0, 1).
- Js.RoundToHundredths: numbers are exact reals, so `Math.round(x * 100) / 100` is exact half-up rounding. Binary floating point can round differently at .5 boundaries and can print values such as 0.1 + 0.2 with extra digits.
- Utilities.SortArrOfStringNumbers: inputs must be digit strings. `Number()` of other text (signs, decimals, exponents, blanks, non-numbers) is not modelled, nor are values above 2^53.
- Utilities.MaxValueOfStringNumbers: the same restriction to digit strings applies.
- Utilities.SortNumbers: the engine's sort algorithm is not modelled, only its result: ascending order and a permutation of the input.
- Utilities.DateStringFromDate: a `Date` is reduced to its local calendar fields. An invalid `Date`, which would print `NaN-NaN-NaN`, and time zones are not modelled.
- The `duration` field of a download is never assigned in the code. It stays `None`.
- AudioDownloads.FileExtension: the extension is the text after the last `.` of the whole URL, exactly as the code takes it. The model adds no check that it is a real file extension. When the last `.` is in the host name, the extension can hold `/` (ExtensionMayHoldSlash), and the path then reaches below `/tmp/downloads`. ExtensionWithoutSlash gives the condition under which it cannot.
- Session.SessionMetrics.OnTimeout: the source's timer can fire in any state, including STOP or RUN, and the model allows the same. The model adds no guard against ending a job twice or against setters called after the end, because the code has none.
- AudioManagement.AudioManager.StitchDownloadedAudio: shell quoting is not modelled. The title metadata word `title="Stitched Audio"` holds a space, so `CommandLineSplitsIntoArguments` does not apply to the full stitch command. It applies to command lines whose words hold no space.

## Findings

| source | as written | input that shows it | evidently intended | confidence | as-written member | corrected member |
|---|---|---|---|---|---|---|
| audio-handling/audio_manager.js:131 | `self.audioDownloads[i]` reads `i`, which is not declared, so every attempt throws and is counted as a failure | five segments that all arrive: the count is 0 and the batch fails | `self.audioDownloads[index]` | not executed; high | AudioManagement.FiveArrivalsAsWritten | AudioManagement.AudioManager.AttemptDownloads |
| audio-handling/audio_download.js:43 | the transfer's promise is neither awaited nor returned, so `downloadAudio` resolves at once and a failed transfer escapes as an unhandled rejection | five segments that all fail to arrive: every attempt counts and the batch passes | await the transfer; resolve once the segment has arrived, reject otherwise | not executed; high | AudioManagement.FiveFailuresPassAsWritten | AudioDownloads.AudioDownload.DownloadAudio |
| audio-handling/audio_download.js:22 | splits `audioPath`, which is not declared, so the constructor throws | any URL, e.g. `https://host/a.mp3` | split `audioURL` | not executed; high | AudioDownloads.ConstructorAsWrittenAlwaysThrows | AudioDownloads.TempFilePath |
| audio-handling/audio_manager.js:53 | reads `this.radcast.userUID`, but `radcast` is never assigned, so every job returns a TypeError | any job | drop the read, or log a field the manager has | not executed; high | AudioManagement.StartAsWrittenNeverSucceeds | AudioManagement.AudioManager.StartAudioProcessing |
| audio-handling/audio_manager.js:56 | calls `self.downloadAudioPromiseWrapper()` and, at line 60, `self.stitchDownloadedAudio()`; `self` is not defined in this method | any job that gets past line 53 | `this` | not executed; high | AudioManagement.SelfAsWrittenFails | AudioManagement.AudioManager.StartAudioProcessing |
| audio-handling/audio_download.js:50 | registers the end listener with `res.on`, on the HTTP response object, which is not a stream, so the call throws and `downloadSuccess` is never set | a batch whose segments all arrive: no file is selected for the concat | `res.data.on('end', …)` | not executed; high | AudioManagement.StitchesNothingAsWritten | AudioDownloads.AudioDownload.DownloadAudio |
| audio-handling/audio_manager.js:68 | calls `endEventPromiseWrapper()` without the read stream, so registering its `end` listener throws | a job with a write stream | `endEventPromiseWrapper(readStream)` | not executed; high | AudioManagement.ForwardAsWrittenNeverTranscodes | AudioManagement.ProcessingOutcome |
