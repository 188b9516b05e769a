/** audio-handling/audio_download.js: one segment download. The constructor
    derives a unique temporary file path from a random identifier and the URL's
    file extension; `downloadAudio` fetches the segment and records whether it
    arrived. The transfer itself is an outcome passed in. */
module AudioDownloads {
  import opened Wrappers
  import opened Js
  import opened Strings
  import opened Utilities
  import Constants

  /** `${Constants.AUDIO_FILE_DIR}/downloads`. */
  const TempAudioFileDir := Constants.AudioFileDir + "/downloads"

  /** The downloads directory is `/tmp/downloads`. */
  lemma TempAudioFileDirIs()
    ensures TempAudioFileDir == "/tmp/downloads"
  {
  }

  /** The last part of `url.split(".")`: the text after the last `.`. */
  function FileExtension(url: string): (ext: string)
    ensures '.' !in ext
    ensures |ext| <= |url| && ext == url[|url| - |ext|..]
    ensures ext == url || url[|url| - |ext| - 1] == '.'
    ensures '.' !in url ==> ext == url
  {
    SplitLastPart(url, '.');
    LastPartIsSuffix(url, '.');
    LastPartFollowsSeparator(url, '.');
    var parts := Split(url, '.');
    parts[|parts| - 1]
  }

  /** The extension is everything after the last `.`, so a URL whose last `.`
      sits in the host name gives an extension holding `/`. */
  lemma ExtensionAfterLastDot(front: string, rest: string)
    requires '.' !in rest
    ensures FileExtension(front + "." + rest) == rest
  {
    var url := front + "." + rest;
    var ext := FileExtension(url);
    assert url[|url| - |rest|..] == rest;
    assert url[|url| - |rest| - 1] == '.';
  }

  /** A URL without a file name extension after its last `/`: the derived
      extension is a path, e.g. `com/seg/42` for `https://cdn.host.com/seg/42`. */
  lemma ExtensionMayHoldSlash()
    ensures FileExtension("https://cdn.host.com/seg/42") == "com/seg/42"
    ensures '/' in FileExtension("https://cdn.host.com/seg/42")
  {
    assert "https://cdn.host" + "." + "com/seg/42" == "https://cdn.host.com/seg/42";
    ExtensionAfterLastDot("https://cdn.host", "com/seg/42");
    assert "com/seg/42"[3] == '/';
  }

  /** When every `/` of the URL is followed later by a `.` (the last path
      segment has an extension), the extension holds no `/`, so the file lies
      directly in the downloads directory. */
  lemma ExtensionWithoutSlash(url: string)
    requires forall i :: 0 <= i < |url| && url[i] == '/' ==> '.' in url[i + 1..]
    ensures '/' !in FileExtension(url)
  {
    var ext := FileExtension(url);
    forall j | 0 <= j < |ext|
      ensures ext[j] != '/'
    {
      var p := |url| - |ext| + j;
      assert url[p + 1..] == ext[j + 1..];
    }
  }

  /** `${fileUID}.${fileExt}`. */
  function TempFileName(uid: string, url: string): string {
    uid + "." + FileExtension(url)
  }

  /** `${tempAudioFileDir}/${tempFile}`: the file lives in the downloads
      directory, and its name is the identifier, a dot and the URL's extension. */
  function TempFilePath(uid: string, url: string): (path: string)
    ensures |path| == |TempAudioFileDir| + 1 + |uid| + 1 + |FileExtension(url)|
    ensures path[..|TempAudioFileDir| + 1] == TempAudioFileDir + "/"
    ensures path[|TempAudioFileDir| + 1..|TempAudioFileDir| + 1 + |uid|] == uid
    ensures path[|TempAudioFileDir| + 1 + |uid|] == '.'
    ensures path[|TempAudioFileDir| + 2 + |uid|..] == FileExtension(url)
  {
    PathLayout(TempAudioFileDir + "/", uid, FileExtension(url));
    TempAudioFileDir + "/" + TempFileName(uid, url)
  }

  /** A directory, an identifier, a dot and an extension, laid end to end. */
  lemma PathLayout(dir: string, uid: string, ext: string)
    ensures var p := dir + (uid + "." + ext);
            && |p| == |dir| + |uid| + 1 + |ext|
            && p[..|dir|] == dir
            && p[|dir|..|dir| + |uid|] == uid
            && p[|dir| + |uid|] == '.'
            && p[|dir| + |uid| + 1..] == ext
  {
    var name := uid + "." + ext;
    var p := dir + name;
    assert p[|dir|..] == name;
    assert name[..|uid|] == uid;
    assert name[|uid| + 1..] == ext;
  }

  /** Downloads whose identifiers differ get different temporary files, whatever
      their URLs, because the identifier is a fixed-length prefix of the name. */
  lemma DistinctUidsDistinctPaths(uid1: string, url1: string, uid2: string, url2: string)
    requires IsUid(uid1) && IsUid(uid2) && uid1 != uid2
    ensures TempFilePath(uid1, url1) != TempFilePath(uid2, url2)
  {
    var n := |TempAudioFileDir| + 1;
    assert TempFilePath(uid1, url1)[n..n + UidLength] == uid1;
    assert TempFilePath(uid2, url2)[n..n + UidLength] == uid2;
  }

  /** As written, the constructor splits `audioPath`, a name that is not declared
      there, so it throws before any path exists. */
  function TempFilePathAsWritten(uid: string, url: string): (r: Result<string, JsError>)
    ensures r.Failure? && r.error == ReferenceError("audioPath")
  {
    Failure(ReferenceError("audioPath"))
  }

  /** No URL survives the constructor as written, while the corrected one gives
      every URL a path in the downloads directory. */
  lemma ConstructorAsWrittenAlwaysThrows(uid: string, url: string)
    ensures TempFilePathAsWritten(uid, url).Failure?
    ensures TempFilePath(uid, url)[..|TempAudioFileDir| + 1] == TempAudioFileDir + "/"
  {
  }

  class AudioDownload {
    var downloadSuccess: bool
    var duration: Option<real>
    var tempAudioFileDir: string
    var downloadURL: string
    var tempFile: string
    var tempFilePath: string

    /** A fresh download of `audioURL`: not yet successful, no duration, and a
        temporary file named by the identifier the draws select. */
    constructor (audioURL: string, draws: seq<real>)
      requires |draws| >= UidLength && AreRandomDraws(draws)
      ensures !downloadSuccess && duration == None
      ensures downloadURL == audioURL
      ensures tempAudioFileDir == TempAudioFileDir
      ensures tempFile == TempFileName(UidFromDraws(draws), audioURL)
      ensures tempFilePath == TempFilePath(UidFromDraws(draws), audioURL)
    {
      var fileUID := CreateUID(draws);
      downloadSuccess := false;
      duration := None;
      tempAudioFileDir := TempAudioFileDir;
      downloadURL := audioURL;
      tempFile := TempFileName(fileUID, audioURL);
      tempFilePath := TempFilePath(fileUID, audioURL);
    }

    /** `downloadAudio` as it is meant to behave: it settles only once the
        transfer has ended, marks the download successful when the segment
        arrived, and otherwise reports the failure to its caller. Two defects
        of the code are corrected here: the transfer is awaited, and the end of
        the transfer is observed on the response's data stream (the code
        registers the listener on the response object, which has no `on`; see
        `DownloadFlagAsWritten`). */
    method DownloadAudio(arrived: bool) returns (r: Outcome<JsError>)
      modifies this`downloadSuccess
      ensures r.Pass? <==> arrived
      ensures r.Fail? ==> r.error == DownloadError(downloadURL)
      ensures downloadSuccess == (old(downloadSuccess) || arrived)
    {
      if arrived {
        downloadSuccess := true;
        r := Pass;
      } else {
        r := Fail(DownloadError(downloadURL));
      }
    }
  }

  /** The flag `downloadAudio` leaves as written: the `.then` callback calls
      `on` on the response object, which has none, so it throws right after
      starting the pipe and the line that sets `downloadSuccess` never runs,
      whether or not the segment arrives. */
  function DownloadFlagAsWritten(downloadSuccess: bool, arrived: bool): (after: bool)
    ensures after == downloadSuccess
  {
    downloadSuccess
  }
}
