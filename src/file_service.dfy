/** Uploaded-file handling (internal/service/file_service.go). The file system is outside the
    model: each step (`MkdirAll`, opening the upload, `Create`, `io.Copy`) has its outcome passed
    in, and the calls that change the file system are recorded in a ghost trace. */
module FileService {
  import opened Wrappers
  import opened Text
  import opened Helpers
  import Config

  /** `./uploads` after `filepath.Join` has cleaned it. */
  const UploadRoot := "uploads"
  const NameLength := 16
  const DefaultMime := "application/octet-stream"

  const MimeTypes: map<string, string> := map[
    ".jpg" := "image/jpeg",
    ".jpeg" := "image/jpeg",
    ".png" := "image/png",
    ".gif" := "image/gif",
    ".webp" := "image/webp",
    ".mp4" := "video/mp4",
    ".webm" := "video/webm",
    ".pdf" := "application/pdf",
    ".doc" := "application/msword",
    ".docx" := "application/vnd.openxmlformats-officedocument.wordprocessingml.document"
  ]

  /** The multipart header of an upload. */
  datatype FileHeader = FileHeader(filename: string, size: int)

  datatype FileInfo = FileInfo(
    originalName: string,
    fileName: string,
    filePath: string,
    fileSize: int,
    mimeType: string,
    url: string)

  /** What the file system answers at each step of `SaveFile`; `copied` is the byte count
      `io.Copy` reports, or its error. */
  datatype FsAnswers = FsAnswers(mkdir: Outcome, open: Outcome, create: Outcome, copied: Result<int>)

  datatype FsCall = MkdirAll(dir: string) | Create(path: string) | Remove(path: string)

  /** `filepath.Ext`: the suffix from the last dot of the last path element, or `""`. */
  function Ext(path: string): (e: string)
    ensures e != "" ==> e[0] == '.' && |e| <= |path| && path[|path| - |e|..] == e
    ensures forall i :: 1 <= i < |e| ==> e[i] != '.' && e[i] != '/'
    ensures '.' !in path ==> e == ""
  {
    if path == [] || path[|path| - 1] == '/' then ""
    else if path[|path| - 1] == '.' then "."
    else
      var e := Ext(path[..|path| - 1]);
      if e == "" then "" else e + [path[|path| - 1]]
  }

  /** A name ending in an extension without dots or slashes has that extension. */
  lemma {:induction false} ExtOfSuffix(stem: string, suffix: string)
    requires forall i :: 0 <= i < |suffix| ==> suffix[i] != '.' && suffix[i] != '/'
    ensures Ext(stem + "." + suffix) == "." + suffix
    decreases |suffix|
  {
    var p := stem + "." + suffix;
    if suffix == [] {
      assert p[|p| - 1] == '.';
    } else {
      var shorter := suffix[..|suffix| - 1];
      ExtOfSuffix(stem, shorter);
      assert p[..|p| - 1] == stem + "." + shorter;
      assert "." + shorter + [suffix[|suffix| - 1]] == "." + suffix;
    }
  }

  /** `ToLower` changes nothing on a second application. */
  lemma ToLowerIdempotent(s: string)
    ensures ToLower(ToLower(s)) == ToLower(s)
  {
    var once := ToLower(s);
    assert forall i :: 0 <= i < |s| ==> LowerChar(once[i]) == once[i];
  }

  /** `getMimeType`: the extension is looked up lower-cased; an unknown one gives
      `application/octet-stream`. */
  function MimeType(ext: string): (m: string)
    ensures ToLower(ext) in MimeTypes ==> m == MimeTypes[ToLower(ext)]
    ensures ToLower(ext) !in MimeTypes ==> m == DefaultMime
  {
    var key := ToLower(ext);
    if key in MimeTypes then MimeTypes[key] else DefaultMime
  }

  /** The lookup ignores the case of the extension. */
  lemma MimeTypeIgnoresCase(ext: string)
    ensures MimeType(ext) == MimeType(ToLower(ext))
  {
    ToLowerIdempotent(ext);
  }

  /** `.jpg` and `.jpeg`, in any case, are JPEG images. */
  lemma JpegExtensions()
    ensures MimeType(".jpg") == "image/jpeg" && MimeType(".jpeg") == "image/jpeg"
    ensures MimeType(".JPG") == "image/jpeg" && MimeType(".JPEG") == "image/jpeg"
  {
    assert ToLower(".jpg") == ".jpg";
    assert ToLower(".JPG") == ".jpg";
    assert ToLower(".jpeg") == ".jpeg";
    assert ToLower(".JPEG") == ".jpeg";
  }

  /** `filepath.Join(dir, name)` for a clean `dir`; an empty name adds nothing. */
  function Join(dir: string, name: string): string {
    if name == "" then dir else dir + "/" + name
  }

  /** `GenerateRecordFilename`: the room, an underscore, the timestamp and `.mp4`. */
  function RecordFilename(room: string, timestamp: string): (name: string)
    ensures |name| == |room| + |timestamp| + 5
    ensures name[..|room|] == room && name[|room|] == '_'
  {
    room + "_" + timestamp + ".mp4"
  }

  /** A recording's name is stored as an MP4 video, whatever the room or timestamp. */
  lemma RecordFilenameIsVideo(room: string, timestamp: string)
    ensures Ext(RecordFilename(room, timestamp)) == ".mp4"
    ensures MimeType(Ext(RecordFilename(room, timestamp))) == "video/mp4"
  {
    assert RecordFilename(room, timestamp) == (room + "_" + timestamp) + "." + "mp4";
    ExtOfSuffix(room + "_" + timestamp, "mp4");
    Mp4IsVideo();
  }

  lemma Mp4IsVideo()
    ensures MimeType(".mp4") == "video/mp4"
  {
    assert ToLower(".mp4") == ".mp4";
  }

  class FileService {
    const cfg: Config.Settings
    const rng: Rand

    constructor (cfg: Config.Settings, rng: Rand)
      ensures this.cfg == cfg && this.rng == rng
    {
      this.cfg := cfg;
      this.rng := rng;
    }

    /** `SaveFile`: a file larger than the limit is refused before anything is drawn or
        written; otherwise it is stored as 16 random alphanumerics plus its own extension
        under `uploads/<subPath>`, and served from `<apiUrl>/<subPath>/<name>`. */
    method SaveFile(file: FileHeader, subPath: string, fs: FsAnswers)
      returns (info: Option<FileInfo>, err: Error, ghost calls: seq<FsCall>)
      modifies rng`used
      ensures info.Some? <==> err.None?
      ensures file.size > cfg.fileSizeLimit ==>
        && err == Some("file size exceeds limit of " + Config.FormatInt(cfg.fileSizeLimit) + " bytes")
        && calls == [] && rng.used == old(rng.used)
      ensures file.size <= cfg.fileSizeLimit ==> rng.used == old(rng.used) + NameLength
      ensures file.size <= cfg.fileSizeLimit && fs.mkdir.Failure? ==>
        err == ErrorOf(fs.mkdir) && calls == [MkdirAll(Join(UploadRoot, subPath))]
      ensures info.Some? ==>
        var name := info.value.fileName;
        && file.size <= cfg.fileSizeLimit
        && fs.mkdir.Success? && fs.open.Success? && fs.create.Success? && fs.copied.Ok?
        && |name| == NameLength + |Ext(file.filename)|
        && name[NameLength..] == Ext(file.filename)
        && (forall i :: 0 <= i < NameLength ==> name[i] in AlphanumericCharset)
        && info.value.originalName == file.filename
        && info.value.filePath == Join(Join(UploadRoot, subPath), name)
        && info.value.fileSize == fs.copied.value
        && info.value.mimeType == MimeType(Ext(file.filename))
        && info.value.url == cfg.apiUrl + "/" + subPath + "/" + name
        && calls == [MkdirAll(Join(UploadRoot, subPath)), Create(info.value.filePath)]
      ensures file.size <= cfg.fileSizeLimit && fs.mkdir.Success? && fs.open.Success? && fs.create.Success? ==>
        (info.Some? <==> fs.copied.Ok?)
      ensures fs.copied.Err? && info.None? && |calls| == 3 ==> err == Some(fs.copied.error) && calls[2].Remove?
    {
      calls := [];
      if file.size > cfg.fileSizeLimit {
        return None, Some("file size exceeds limit of " + Config.FormatInt(cfg.fileSizeLimit) + " bytes"), calls;
      }
      var ext := Ext(file.filename);
      var stem := GenerateRandomString(NameLength, AlphanumericCharset, rng);
      var name := stem + ext;
      var saveDir := Join(UploadRoot, subPath);
      calls := calls + [MkdirAll(saveDir)];
      if fs.mkdir.Failure? {
        return None, ErrorOf(fs.mkdir), calls;
      }
      if fs.open.Failure? {
        return None, ErrorOf(fs.open), calls;
      }
      var dstPath := Join(saveDir, name);
      calls := calls + [Create(dstPath)];
      if fs.create.Failure? {
        return None, ErrorOf(fs.create), calls;
      }
      if fs.copied.Err? {
        calls := calls + [Remove(dstPath)];
        return None, Some(fs.copied.error), calls;
      }
      info := Some(FileInfo(file.filename, name, dstPath, fs.copied.value, MimeType(ext),
                            cfg.apiUrl + "/" + subPath + "/" + name));
      err := None;
    }

    /** `SaveVideo`: stored under `videos`; the room argument is not used. */
    method SaveVideo(file: FileHeader, room: string, fs: FsAnswers)
      returns (info: Option<FileInfo>, err: Error, ghost calls: seq<FsCall>)
      modifies rng`used
      ensures info.Some? <==> err.None?
      ensures file.size > cfg.fileSizeLimit ==> info.None? && calls == []
      ensures info.Some? ==>
        && info.value.filePath == Join(Join(UploadRoot, "videos"), info.value.fileName)
        && info.value.url == cfg.apiUrl + "/videos/" + info.value.fileName
        && info.value.mimeType == MimeType(Ext(file.filename))
    {
      info, err, calls := SaveFile(file, "videos", fs);
    }

    /** `SaveImage`: stored under `images`. */
    method SaveImage(file: FileHeader, fs: FsAnswers)
      returns (info: Option<FileInfo>, err: Error, ghost calls: seq<FsCall>)
      modifies rng`used
      ensures info.Some? <==> err.None?
      ensures file.size > cfg.fileSizeLimit ==> info.None? && calls == []
      ensures info.Some? ==>
        && info.value.filePath == Join(Join(UploadRoot, "images"), info.value.fileName)
        && info.value.url == cfg.apiUrl + "/images/" + info.value.fileName
    {
      info, err, calls := SaveFile(file, "images", fs);
    }
  }
}
