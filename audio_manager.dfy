/** audio-handling/audio_manager.js: one job's downloads, the success-rate gate
    that decides whether enough segments arrived, the choice of the files to
    stitch, the stitching run and the result `startAudioProcessing` returns.
    The network transfers, the ffmpeg process, the output stream and the clock
    are outcomes and readings passed in. */
module AudioManagement {
  import opened Wrappers
  import opened Js
  import opened Strings
  import opened Utilities
  import opened Session
  import opened AudioDownloads
  import opened StitchCommand
  import Constants

  /* ---------------------------------------------------------------------
   *  Constants of the module
   * --------------------------------------------------------------------- */

  /** More than this fraction of the segments must arrive. */
  const MinDownloadIntegrity := 0.6
  const Codec := "mp3"
  const Bitrate := "128"
  const AudioTitle := "Stitched Audio"

  /** `${AUDIO_FILE_DIR}/${STITCHED_FILE}.${codec}`. */
  const StitchedAudioFile := Constants.AudioFileDir + "/" + Constants.StitchedFile + "." + Codec

  /** The metadata object `{title: audioTitle}`, its entries in insertion order. */
  const TrackMetadata := [("title", AudioTitle)]

  const NotUploadedMessage := "Successfully downloaded and stitched, but not uploaded"
  const TranscodedMessage := "Successfully transcoded and stitched audio"

  /** The stitched file is `/tmp/stitched_audio.mp3`. */
  lemma StitchedAudioFileIs()
    ensures StitchedAudioFile == "/tmp/stitched_audio.mp3"
  {
    assert Constants.AudioFileDir + "/" == "/tmp/";
    assert "/tmp/" + Constants.StitchedFile == "/tmp/stitched_audio";
    assert "/tmp/stitched_audio" + "." == "/tmp/stitched_audio.";
  }

  /* ---------------------------------------------------------------------
   *  The success-rate gate
   * --------------------------------------------------------------------- */

  /** How many outcomes are successes. */
  function CountTrue(outcomes: seq<bool>): (k: nat)
    ensures k <= |outcomes|
  {
    if outcomes == [] then 0
    else CountTrue(outcomes[..|outcomes| - 1]) + (if outcomes[|outcomes| - 1] then 1 else 0)
  }

  /** `successfulAudioDownloads / totalAudioDownloads`: 0/0 is NaN. */
  function SuccessRate(successes: nat, total: nat): (rate: JsNumber)
    requires total == 0 ==> successes == 0
    ensures rate.NaN? <==> total == 0
    ensures rate.Num? ==> rate.value * total as real == successes as real
  {
    if total == 0 then NaN else Num(successes as real / total as real)
  }

  /** `successRate > minDownloadIntegrity`; any comparison with NaN is false. */
  predicate Passes(rate: JsNumber) {
    rate.Num? && rate.value > MinDownloadIntegrity
  }

  /** What the completion callback reports for a rate. */
  function Gate(rate: JsNumber): (r: Outcome<JsError>)
    ensures r.Pass? <==> Passes(rate)
    ensures r.Fail? ==> r.error == IntegrityError(rate)
  {
    if Passes(rate) then Pass else Fail(IntegrityError(rate))
  }

  /** The gate in whole numbers: a batch passes exactly when it is not empty
      and more than three fifths of it arrived. */
  lemma PassesIff(successes: nat, total: nat)
    requires total == 0 ==> successes == 0
    ensures Passes(SuccessRate(successes, total)) <==> total > 0 && 5 * successes > 3 * total
  {
    if total > 0 {
      var rate := successes as real / total as real;
      assert rate * total as real == successes as real;
      if rate > 0.6 {
        assert rate * total as real > 0.6 * total as real;
        assert successes as real > 0.6 * total as real;
      }
      if 5 * successes > 3 * total {
        assert successes as real > 0.6 * total as real;
        if rate <= 0.6 {
          assert rate * total as real <= 0.6 * total as real;
        }
      }
    }
  }

  /** Three of five is exactly 0.6 and fails, four of five passes, and an empty
      list fails because its rate is NaN. */
  lemma GateExamples()
    ensures !Passes(SuccessRate(3, 5))
    ensures Passes(SuccessRate(4, 5))
    ensures !Passes(SuccessRate(0, 0)) && SuccessRate(0, 0).NaN?
  {
    PassesIff(3, 5);
    PassesIff(4, 5);
  }

  /* ---------------------------------------------------------------------
   *  The files to stitch
   * --------------------------------------------------------------------- */

  /** The paths whose downloads succeeded, in download order. */
  function Survivors(flags: seq<bool>, paths: seq<string>): seq<string>
    requires |flags| == |paths|
  {
    if flags == [] then []
    else
      Survivors(flags[..|flags| - 1], paths[..|paths| - 1])
      + (if flags[|flags| - 1] then [paths[|paths| - 1]] else [])
  }

  /** The positions of the successful downloads, in increasing order. */
  function SurvivorIndices(flags: seq<bool>): seq<nat> {
    if flags == [] then []
    else SurvivorIndices(flags[..|flags| - 1]) + (if flags[|flags| - 1] then [|flags| - 1] else [])
  }

  /** The positions of the successful downloads are exactly the positions whose
      flag is set, each once and in increasing order. */
  lemma {:induction false} SurvivorIndicesExact(flags: seq<bool>)
    ensures var idx := SurvivorIndices(flags);
            && |idx| == CountTrue(flags)
            && (forall j :: 0 <= j < |idx| ==> idx[j] < |flags| && flags[idx[j]])
            && (forall j, j' :: 0 <= j < j' < |idx| ==> idx[j] < idx[j'])
            && (forall i :: 0 <= i < |flags| && flags[i] ==> i in idx)
  {
    if flags != [] {
      var init := flags[..|flags| - 1];
      SurvivorIndicesExact(init);
      var idx := SurvivorIndices(flags);
      forall i | 0 <= i < |flags| && flags[i]
        ensures i in idx
      {
        if i < |init| {
          assert init[i];
        }
      }
    }
  }

  /** The survivors are the paths at those positions: never reordered, none
      dropped, none added. */
  lemma {:induction false} SurvivorsAtIndices(flags: seq<bool>, paths: seq<string>)
    requires |flags| == |paths|
    ensures var idx := SurvivorIndices(flags);
            var files := Survivors(flags, paths);
            && |files| == |idx|
            && (forall j :: 0 <= j < |idx| ==> idx[j] < |paths| && files[j] == paths[idx[j]])
  {
    if flags != [] {
      SurvivorsAtIndices(flags[..|flags| - 1], paths[..|paths| - 1]);
    }
  }

  /** When every download succeeds, every file is stitched, in order; when
      none does, nothing is. */
  lemma {:induction false} SurvivorsExtremes(flags: seq<bool>, paths: seq<string>)
    requires |flags| == |paths|
    ensures (forall i :: 0 <= i < |flags| ==> flags[i]) ==> Survivors(flags, paths) == paths
    ensures (forall i :: 0 <= i < |flags| ==> !flags[i]) ==> Survivors(flags, paths) == []
  {
    if flags != [] {
      SurvivorsExtremes(flags[..|flags| - 1], paths[..|paths| - 1]);
      assert paths == paths[..|paths| - 1] + [paths[|paths| - 1]];
    }
  }

  /* ---------------------------------------------------------------------
   *  The result of a whole job
   * --------------------------------------------------------------------- */

  /** `startAudioProcessing` as a function of its steps: the download gate, the
      stitching run, whether there is a stream to write to, and the forwarding
      of the file to it. The first error met is returned as the value (never
      thrown), and the two success messages tell apart whether the file was
      forwarded. */
  function ProcessingOutcome(gate: Outcome<JsError>, stitched: Result<string, JsError>,
                             hasWriteStream: bool, forwarded: Outcome<JsError>): (r: Result<string, JsError>)
    ensures r.Success? <==> gate.Pass? && stitched.Success? && (!hasWriteStream || forwarded.Pass?)
    ensures r.Success? ==> r.value == (if hasWriteStream then TranscodedMessage else NotUploadedMessage)
    ensures gate.Fail? ==> r == Failure(gate.error)
    ensures gate.Pass? && stitched.Failure? ==> r == Failure(stitched.error)
    ensures gate.Pass? && stitched.Success? && hasWriteStream && forwarded.Fail? ==> r == Failure(forwarded.error)
  {
    if gate.Fail? then Failure(gate.error)
    else if stitched.Failure? then Failure(stitched.error)
    else if !hasWriteStream then Success(NotUploadedMessage)
    else if forwarded.Fail? then Failure(forwarded.error)
    else Success(TranscodedMessage)
  }

  /** What the ffmpeg process reports: success, or failure with its output. */
  function StitchResult(ffmpegFailure: Option<string>): (r: Result<string, JsError>)
    ensures r.Success? <==> ffmpegFailure.None?
    ensures r.Success? ==> r.value == StitchedAudioFile
    ensures r.Failure? ==> r.error == FfmpegError(ffmpegFailure.value)
  {
    match ffmpegFailure
    case None => Success(StitchedAudioFile)
    case Some(stdout) => Failure(FfmpegError(stdout))
  }

  /* ---------------------------------------------------------------------
   *  The manager
   * --------------------------------------------------------------------- */

  /** A download as its constructor leaves it for `url` and the draws that
      name its file. */
  ghost predicate IsNewDownload(d: AudioDownload, url: string, draws: seq<real>)
    requires |draws| >= UidLength && AreRandomDraws(draws)
    reads d
  {
    && d.downloadURL == url
    && !d.downloadSuccess
    && d.tempFilePath == TempFilePath(UidFromDraws(draws), url)
  }

  /** The constructor's loop: one new download per URL, in URL order, each
      named by its own draws; all distinct. */
  method NewDownloads(audioURLs: seq<string>, draws: seq<seq<real>>) returns (downloads: seq<AudioDownload>)
    requires |draws| == |audioURLs|
    requires forall i :: 0 <= i < |draws| ==> |draws[i]| >= UidLength && AreRandomDraws(draws[i])
    ensures |downloads| == |audioURLs|
    ensures forall i :: 0 <= i < |audioURLs| ==> fresh(downloads[i])
    ensures forall i :: 0 <= i < |audioURLs| ==> IsNewDownload(downloads[i], audioURLs[i], draws[i])
    ensures forall i, j :: 0 <= i < j < |downloads| ==> downloads[i] != downloads[j]
  {
    downloads := [];
    for i := 0 to |audioURLs|
      invariant |downloads| == i
      invariant forall k :: 0 <= k < i ==> fresh(downloads[k]) && IsNewDownload(downloads[k], audioURLs[k], draws[k])
      invariant forall k, l :: 0 <= k < l < i ==> downloads[k] != downloads[l]
    {
      var audioDownload := new AudioDownload(audioURLs[i], draws[i]);
      assert audioDownload !in downloads;
      downloads := downloads + [audioDownload];
    }
  }

  class AudioManager {
    var audioDownloads: seq<AudioDownload>
    var successfulAudioDownloads: nat
    var totalAudioDownloads: nat
    /** Whether a target write stream was supplied. */
    var hasWriteStream: bool
    var creationSession: SessionMetrics

    /** The downloads are distinct objects, the total is their number, nothing
        can have succeeded when there is nothing to download, and the session
        is well formed. */
    ghost predicate Valid()
      reads this, creationSession
    {
      && (forall i, j :: 0 <= i < j < |audioDownloads| ==> audioDownloads[i] != audioDownloads[j])
      && totalAudioDownloads == |audioDownloads|
      && (totalAudioDownloads == 0 ==> successfulAudioDownloads == 0)
      && creationSession.Valid()
    }

    /** Each download's `downloadSuccess`, in order. */
    function DownloadFlags(): (flags: seq<bool>)
      reads this, audioDownloads
      ensures |flags| == |audioDownloads|
      ensures forall i :: 0 <= i < |flags| ==> flags[i] == audioDownloads[i].downloadSuccess
    {
      seq(|audioDownloads|, i reads this, audioDownloads requires 0 <= i < |audioDownloads| =>
            audioDownloads[i].downloadSuccess)
    }

    /** Each download's `tempFilePath`, in order. */
    function DownloadPaths(): (paths: seq<string>)
      reads this, audioDownloads
      ensures |paths| == |audioDownloads|
      ensures forall i :: 0 <= i < |paths| ==> paths[i] == audioDownloads[i].tempFilePath
    {
      seq(|audioDownloads|, i reads this, audioDownloads requires 0 <= i < |audioDownloads| =>
            audioDownloads[i].tempFilePath)
    }

    /** One fresh download per URL, in URL order, each named by its own draws;
        no successes yet. */
    constructor (audioURLs: seq<string>, draws: seq<seq<real>>, hasTargetWriteStream: bool, session: SessionMetrics)
      requires session.Valid()
      requires |draws| == |audioURLs|
      requires forall i :: 0 <= i < |draws| ==> |draws[i]| >= UidLength && AreRandomDraws(draws[i])
      ensures Valid()
      ensures |audioDownloads| == totalAudioDownloads == |audioURLs|
      ensures successfulAudioDownloads == 0
      ensures hasWriteStream == hasTargetWriteStream && creationSession == session
      ensures forall i :: 0 <= i < |audioURLs| ==> fresh(audioDownloads[i])
      ensures forall i :: 0 <= i < |audioURLs| ==> IsNewDownload(audioDownloads[i], audioURLs[i], draws[i])
    {
      var downloads := NewDownloads(audioURLs, draws);
      audioDownloads := downloads;
      successfulAudioDownloads := 0;
      hasWriteStream := hasTargetWriteStream;
      creationSession := session;
      totalAudioDownloads := |downloads|;
    }

    /** The recursive steps of `downloadAudioFiles`, from index 0 to the end
        (the source recurses on the index; here it is a loop). Each download is
        attempted once, in order; a success adds one to the counter and marks
        that download, and a failure is skipped. */
    method AttemptDownloads(outcomes: seq<bool>)
      requires Valid() && |outcomes| == totalAudioDownloads
      modifies this`successfulAudioDownloads, audioDownloads`downloadSuccess
      ensures Valid()
      ensures successfulAudioDownloads == old(successfulAudioDownloads) + CountTrue(outcomes)
      ensures forall i :: 0 <= i < |audioDownloads| ==>
                audioDownloads[i].downloadSuccess == (old(audioDownloads[i].downloadSuccess) || outcomes[i])
    {
      var index := 0;
      while index < totalAudioDownloads
        invariant 0 <= index <= totalAudioDownloads
        invariant Valid()
        invariant successfulAudioDownloads == old(successfulAudioDownloads) + CountTrue(outcomes[..index])
        invariant forall k :: 0 <= k < index ==>
                    audioDownloads[k].downloadSuccess == (old(audioDownloads[k].downloadSuccess) || outcomes[k])
        invariant forall k :: index <= k < |audioDownloads| ==>
                    audioDownloads[k].downloadSuccess == old(audioDownloads[k].downloadSuccess)
      {
        assert outcomes[..index + 1][..index] == outcomes[..index];
        var nextDownload := audioDownloads[index];
        var attempt := nextDownload.DownloadAudio(outcomes[index]);
        if attempt.Pass? {
          successfulAudioDownloads := successfulAudioDownloads + 1;
        }
        index := index + 1;
      }
      assert outcomes[..index] == outcomes;
    }

    /** `downloadAudioFiles` from index 0: every download is attempted, then the
        rate is reported to the session exactly once, and the batch passes
        exactly when the rate is above 0.6. */
    method DownloadAudioFiles(outcomes: seq<bool>) returns (r: Outcome<JsError>)
      requires Valid() && |outcomes| == totalAudioDownloads
      modifies this`successfulAudioDownloads, creationSession, audioDownloads`downloadSuccess
      ensures Valid()
      ensures successfulAudioDownloads == old(successfulAudioDownloads) + CountTrue(outcomes)
      ensures forall i :: 0 <= i < |audioDownloads| ==>
                audioDownloads[i].downloadSuccess == (old(audioDownloads[i].downloadSuccess) || outcomes[i])
      ensures var rate := SuccessRate(successfulAudioDownloads, totalAudioDownloads);
              && creationSession.successRateReports == old(creationSession.successRateReports) + [rate]
              && creationSession.GetMetrics() == old(creationSession.GetMetrics()).(audioDownloadSuccessRate := PercentOf(rate))
              && r == Gate(rate)
    {
      AttemptDownloads(outcomes);
      var successRate := SuccessRate(successfulAudioDownloads, totalAudioDownloads);
      creationSession.SetDownloadSuccessRate(successRate);
      if Passes(successRate) {
        r := Pass;
      } else {
        r := Fail(IntegrityError(successRate));
      }
    }

    /** The file selection in `stitchDownloadedAudio`: the temporary paths of
        the successful downloads, in download order. */
    method StitchInputFiles() returns (audioFiles: seq<string>)
      ensures audioFiles == Survivors(DownloadFlags(), DownloadPaths())
    {
      audioFiles := [];
      for i := 0 to |audioDownloads|
        invariant audioFiles == Survivors(DownloadFlags()[..i], DownloadPaths()[..i])
      {
        var audioDownload := audioDownloads[i];
        assert DownloadFlags()[..i + 1][..i] == DownloadFlags()[..i];
        assert DownloadPaths()[..i + 1][..i] == DownloadPaths()[..i];
        if audioDownload.downloadSuccess {
          audioFiles := audioFiles + [audioDownload.tempFilePath];
        }
      }
      assert DownloadFlags()[..|audioDownloads|] == DownloadFlags();
      assert DownloadPaths()[..|audioDownloads|] == DownloadPaths();
    }

    /** The command `stitchDownloadedAudio` runs: the concat command over the
        surviving files, writing `/tmp/stitched_audio.mp3` as 128 kbit/s mp3
        titled "Stitched Audio". */
    method BuildStitchCommand(ffmpegPath: string) returns (stitchFfmpegCommand: string)
      ensures stitchFfmpegCommand
           == CommandLine(ConcatArguments(ffmpegPath, Survivors(DownloadFlags(), DownloadPaths()),
                                          StitchedAudioFile, Codec, Bitrate, TrackMetadata))
    {
      var audioFiles := StitchInputFiles();
      stitchFfmpegCommand := ConcatCmdWithReEncoding(ffmpegPath, audioFiles, StitchedAudioFile,
                                                     Codec, Bitrate, TrackMetadata);
    }

    /** `stitchDownloadedAudio`: the concat command over the surviving files,
        writing `/tmp/stitched_audio.mp3` as 128 kbit/s mp3 titled "Stitched
        Audio". The process either succeeds, and the encoding time from
        `startTime` to `endTime` is recorded, or fails (a timeout kills it, which
        is a failure too) with its output as the error. */
    method StitchDownloadedAudio(ffmpegPath: string, startTime: int, endTime: int, ffmpegFailure: Option<string>)
      returns (stitchFfmpegCommand: string, r: Result<string, JsError>)
      requires Valid()
      modifies creationSession
      ensures Valid()
      ensures stitchFfmpegCommand
           == CommandLine(ConcatArguments(ffmpegPath, old(Survivors(DownloadFlags(), DownloadPaths())),
                                          StitchedAudioFile, Codec, Bitrate, TrackMetadata))
      ensures r == StitchResult(ffmpegFailure)
      ensures r.Success? ==>
                creationSession.GetMetrics()
                == old(creationSession.GetMetrics()).(audioEncodingTime := SecondsFromMillis(endTime - startTime))
      ensures r.Failure? ==> creationSession.GetMetrics() == old(creationSession.GetMetrics())
      ensures creationSession.successRateReports == old(creationSession.successRateReports)
    {
      stitchFfmpegCommand := BuildStitchCommand(ffmpegPath);
      if ffmpegFailure.None? {
        var encodingTime := endTime - startTime;
        creationSession.SetEncodingTime(encodingTime);
        r := Success(StitchedAudioFile);
      } else {
        r := Failure(FfmpegError(ffmpegFailure.value));
      }
    }

    /** `startAudioProcessing`: download, gate, stitch, then either stop (no
        stream to write to) or forward the file. Its result is the job's
        outcome as `ProcessingOutcome` gives it for the gate this batch
        produced; nothing is stitched when the gate fails. */
    method StartAudioProcessing(outcomes: seq<bool>, ffmpegPath: string, startTime: int, endTime: int,
                                ffmpegFailure: Option<string>, forwarded: Outcome<JsError>)
      returns (r: Result<string, JsError>)
      requires Valid() && |outcomes| == totalAudioDownloads
      modifies this`successfulAudioDownloads, creationSession, audioDownloads`downloadSuccess
      ensures Valid()
      ensures successfulAudioDownloads == old(successfulAudioDownloads) + CountTrue(outcomes)
      ensures forall i :: 0 <= i < |audioDownloads| ==>
                audioDownloads[i].downloadSuccess == (old(audioDownloads[i].downloadSuccess) || outcomes[i])
      ensures var rate := SuccessRate(successfulAudioDownloads, totalAudioDownloads);
              var stitched := Passes(rate) && ffmpegFailure.None?;
              && creationSession.successRateReports == old(creationSession.successRateReports) + [rate]
              && creationSession.GetMetrics()
                 == old(creationSession.GetMetrics()).(
                      audioDownloadSuccessRate := PercentOf(rate),
                      audioEncodingTime := if stitched then SecondsFromMillis(endTime - startTime)
                                           else old(creationSession.GetMetrics()).audioEncodingTime)
              && r == ProcessingOutcome(Gate(rate), StitchResult(ffmpegFailure), hasWriteStream, forwarded)
    {
      var downloaded := DownloadAudioFiles(outcomes);
      if downloaded.Fail? {
        r := Failure(downloaded.error);
      } else {
        var command, stitched := StitchDownloadedAudio(ffmpegPath, startTime, endTime, ffmpegFailure);
        if stitched.Failure? {
          r := Failure(stitched.error);
        } else if !hasWriteStream {
          r := Success(NotUploadedMessage);
        } else if forwarded.Fail? {
          r := Failure(forwarded.error);
        } else {
          r := Success(TranscodedMessage);
        }
      }
    }
  }

  /** All successes count as every one. */
  lemma {:induction false} AllTrueCount(outcomes: seq<bool>)
    requires forall i :: 0 <= i < |outcomes| ==> outcomes[i]
    ensures CountTrue(outcomes) == |outcomes|
  {
    if outcomes != [] {
      AllTrueCount(outcomes[..|outcomes| - 1]);
    }
  }

  /** All failures count as none. */
  lemma {:induction false} AllFalseCount(outcomes: seq<bool>)
    requires forall i :: 0 <= i < |outcomes| ==> !outcomes[i]
    ensures CountTrue(outcomes) == 0
  {
    if outcomes != [] {
      AllFalseCount(outcomes[..|outcomes| - 1]);
    }
  }

  /* ---------------------------------------------------------------------
   *  The code as written
   * --------------------------------------------------------------------- */

  /** One download attempt as written: `self.audioDownloads[i]` names `i`,
      which is not declared, so the attempt throws before downloading and is
      counted as a failure. */
  function AttemptAsWritten(arrived: bool): (r: Outcome<JsError>)
    ensures r == Fail(ReferenceError("i"))
  {
    Fail(ReferenceError("i"))
  }

  /** How many attempts the pass counts as successful. */
  function CountPasses(attempts: seq<Outcome<JsError>>): (k: nat)
    ensures k <= |attempts|
  {
    if attempts == [] then 0
    else CountPasses(attempts[..|attempts| - 1]) + (if attempts[|attempts| - 1].Pass? then 1 else 0)
  }

  /** Successful attempts only all count. */
  lemma {:induction false} CountPassesAllPassed(attempts: seq<Outcome<JsError>>)
    requires forall i :: 0 <= i < |attempts| ==> attempts[i].Pass?
    ensures CountPasses(attempts) == |attempts|
  {
    if attempts != [] {
      CountPassesAllPassed(attempts[..|attempts| - 1]);
    }
  }

  /** The successes a fresh manager counts as written. */
  function SuccessesAsWritten(outcomes: seq<bool>): nat {
    CountPasses(seq(|outcomes|, i requires 0 <= i < |outcomes| => AttemptAsWritten(outcomes[i])))
  }

  /** Failures only are never counted. */
  lemma {:induction false} CountPassesAllFailed(attempts: seq<Outcome<JsError>>)
    requires forall i :: 0 <= i < |attempts| ==> attempts[i].Fail?
    ensures CountPasses(attempts) == 0
  {
    if attempts != [] {
      CountPassesAllFailed(attempts[..|attempts| - 1]);
    }
  }

  /** As written, no batch ever passes the gate, whatever arrives. */
  lemma EveryBatchFailsAsWritten(outcomes: seq<bool>)
    ensures SuccessesAsWritten(outcomes) == 0
    ensures !Passes(SuccessRate(SuccessesAsWritten(outcomes), |outcomes|))
  {
    CountPassesAllFailed(seq(|outcomes|, i requires 0 <= i < |outcomes| => AttemptAsWritten(outcomes[i])));
  }

  /** Five segments that all arrive: the intended pass counts five and passes,
      the pass as written counts none and fails. */
  lemma FiveArrivalsAsWritten()
    ensures CountTrue([true, true, true, true, true]) == 5
    ensures Passes(SuccessRate(CountTrue([true, true, true, true, true]), 5))
    ensures !Passes(SuccessRate(SuccessesAsWritten([true, true, true, true, true]), 5))
  {
    AllTrueCount([true, true, true, true, true]);
    PassesIff(5, 5);
    EveryBatchFailsAsWritten([true, true, true, true, true]);
  }

  /** `downloadAudio` as written: the transfer's promise is not awaited, so
      the call settles at once, successfully, whether or not the segment
      arrives (its failure escapes as an unhandled rejection). */
  function DownloadAudioAsWritten(arrived: bool): (r: Outcome<JsError>)
    ensures r.Pass?
  {
    Pass
  }

  /** The attempts a pass makes with `downloadAudio` as written. */
  function AttemptsUnawaited(outcomes: seq<bool>): seq<Outcome<JsError>> {
    seq(|outcomes|, i requires 0 <= i < |outcomes| => DownloadAudioAsWritten(outcomes[i]))
  }

  /** With `downloadAudio` as written, the pass counts every attempt, whether
      or not its segment arrived. */
  lemma UnawaitedCountsEveryAttempt(outcomes: seq<bool>)
    ensures CountPasses(AttemptsUnawaited(outcomes)) == |outcomes|
  {
    CountPassesAllPassed(AttemptsUnawaited(outcomes));
  }

  /** Five segments that all fail to arrive pass the gate as written; the
      intended count is none, which fails. */
  lemma FiveFailuresPassAsWritten()
    ensures Passes(SuccessRate(CountPasses(AttemptsUnawaited([false, false, false, false, false])), 5))
    ensures !Passes(SuccessRate(CountTrue([false, false, false, false, false]), 5))
  {
    UnawaitedCountsEveryAttempt([false, false, false, false, false]);
    PassesIff(5, 5);
    AllFalseCount([false, false, false, false, false]);
    PassesIff(0, 5);
  }

  /** The flags a pass leaves on fresh downloads with `downloadAudio` as
      written (see `DownloadFlagAsWritten`). */
  function MarkedAsWritten(outcomes: seq<bool>): seq<bool> {
    seq(|outcomes|, i requires 0 <= i < |outcomes| => DownloadFlagAsWritten(false, outcomes[i]))
  }

  /** With the flag as written, even a batch whose segments all arrive marks no
      download, so the stitch step selects no file and its filter concatenates
      zero inputs; the corrected pass marks exactly the arrived downloads, so
      then every path is stitched, in order. */
  lemma StitchesNothingAsWritten(outcomes: seq<bool>, paths: seq<string>)
    requires |outcomes| == |paths|
    ensures Survivors(MarkedAsWritten(outcomes), paths) == []
    ensures FilterGraph(|Survivors(MarkedAsWritten(outcomes), paths)|) == "concat=n=0:v=0:a=1[output]"
    ensures (forall i :: 0 <= i < |outcomes| ==> outcomes[i]) ==> Survivors(outcomes, paths) == paths
  {
    SurvivorsExtremes(MarkedAsWritten(outcomes), paths);
    SurvivorsExtremes(outcomes, paths);
    FilterGraphForNoInputs();
  }

  /** `startAudioProcessing` as written: its first statement reads
      `this.radcast.userUID`, and `radcast` is never set, so every call
      returns that TypeError. */
  function StartAudioProcessingAsWritten(outcomes: seq<bool>, hasWriteStream: bool): (r: Result<string, JsError>)
    ensures r == Failure(TypeError("Cannot read properties of undefined (reading 'userUID')"))
  {
    Failure(TypeError("Cannot read properties of undefined (reading 'userUID')"))
  }

  /** The download step as written: `self` is not defined inside
      `startAudioProcessing`, so the first step throws. */
  function DownloadStepAsWritten(): (r: Outcome<JsError>)
    ensures r == Fail(ReferenceError("self"))
  {
    Fail(ReferenceError("self"))
  }

  /** The forwarding step as written: `endEventPromiseWrapper` is called without
      the read stream, so registering its listener throws. */
  function ForwardAsWritten(): (r: Outcome<JsError>)
    ensures r == Fail(TypeError("Cannot read properties of undefined (reading 'on')"))
  {
    Fail(TypeError("Cannot read properties of undefined (reading 'on')"))
  }

  /** As written, a job never succeeds; a job whose steps all succeed does
      with the intended steps, with either message. */
  lemma StartAsWrittenNeverSucceeds(outcomes: seq<bool>, hasWriteStream: bool)
    ensures StartAudioProcessingAsWritten(outcomes, hasWriteStream).Failure?
    ensures ProcessingOutcome(Pass, Success(StitchedAudioFile), false, Pass) == Success(NotUploadedMessage)
    ensures ProcessingOutcome(Pass, Success(StitchedAudioFile), true, Pass) == Success(TranscodedMessage)
  {
  }

  /** With `self` as written, the job ends in a ReferenceError before any
      download, whatever the later steps would do. */
  lemma SelfAsWrittenFails(stitched: Result<string, JsError>, hasWriteStream: bool, forwarded: Outcome<JsError>)
    ensures ProcessingOutcome(DownloadStepAsWritten(), stitched, hasWriteStream, forwarded)
         == Failure(ReferenceError("self"))
  {
  }

  /** With the forwarding step as written, a job with a stream to write to
      never reports that it transcoded and forwarded the audio. */
  lemma ForwardAsWrittenNeverTranscodes(gate: Outcome<JsError>, stitched: Result<string, JsError>)
    ensures ProcessingOutcome(gate, stitched, true, ForwardAsWritten()) != Success(TranscodedMessage)
  {
  }
}
