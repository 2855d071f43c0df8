/** The validation gate, storage-path construction and result shape of
    `FileUploadService.uploadFile` (src/services/fileUploadService.ts). The
    storage bucket is an oracle; the clock and the UUID generator are
    parameters. */
module FileUpload {
  import opened Prelude
  import opened Js

  const MaxFileSize := 50 * 1024 * 1024
  const AllowedMimeTypes: seq<string> := ["video/webm", "audio/webm"]
  const SizeError := "File size exceeds maximum limit of 50MB"
  const TypeError := "Invalid file type. Only WebM files are allowed."

  /** The multer file fields the service reads. */
  datatype UploadedFile = UploadedFile(originalName: string, size: nat, mimetype: string)

  datatype FileValidationResult = FileValidationResult(isValid: bool, error: Option<string>)

  datatype UploadResult = UploadResult(fileUrl: string, filePath: string, fileName: string, fileSize: nat, mimeType: string)

  /** What the storage bucket answered to the upload: an error message, or
      success with the public URL of the stored object. */
  datatype StorageReply = StorageError(message: string) | Stored(publicUrl: string)

  /** The result of `uploadFile`, with the path handed to storage (`None`
      when storage was not called). */
  datatype UploadOutcome = UploadOutcome(result: Result<UploadResult, string>, storedAt: Option<string>)

  /** `validateFile(file)`: size first, then the MIME type. */
  function ValidateFile(file: UploadedFile): (v: FileValidationResult)
    ensures v.isValid <==> file.size <= MaxFileSize && file.mimetype in AllowedMimeTypes
    ensures v.isValid <==> v.error.None?
    ensures file.size > MaxFileSize ==> v.error == Some(SizeError)
    ensures file.size <= MaxFileSize && file.mimetype !in AllowedMimeTypes ==> v.error == Some(TypeError)
  {
    if file.size > MaxFileSize then
      FileValidationResult(false, Some(SizeError))
    else if file.mimetype !in AllowedMimeTypes then
      FileValidationResult(false, Some(TypeError))
    else
      FileValidationResult(true, None)
  }

  /** The size bound is inclusive: 50 MiB passes, one byte more does not. */
  lemma SizeBoundary(mimetype: string)
    requires mimetype in AllowedMimeTypes
    ensures ValidateFile(UploadedFile("", MaxFileSize, mimetype)).isValid
    ensures ValidateFile(UploadedFile("", MaxFileSize + 1, mimetype)).error == Some(SizeError)
  {
  }

  /** Index just past the last character that is not '/'; 0 when the path
      is all slashes. */
  function StripTrailingSlashes(p: string): (end: nat)
    ensures end <= |p|
    ensures forall i :: end <= i < |p| ==> p[i] == '/'
    ensures end > 0 ==> p[end - 1] != '/'
  {
    if |p| > 0 && p[|p| - 1] == '/' then StripTrailingSlashes(p[..|p| - 1]) else |p|
  }

  /** Index of the last occurrence of `c` in `s`. */
  function LastIndexOf(s: string, c: char): (r: Option<nat>)
    ensures r.Some? ==> r.value < |s| && s[r.value] == c
    ensures r.Some? ==> forall i :: r.value < i < |s| ==> s[i] != c
    ensures r.None? ==> forall i :: 0 <= i < |s| ==> s[i] != c
  {
    if |s| == 0 then None
    else if s[|s| - 1] == c then Some(|s| - 1)
    else LastIndexOf(s[..|s| - 1], c)
  }

  /** The last path segment, trailing slashes dropped. */
  function Basename(p: string): (b: string)
    ensures forall i :: 0 <= i < |b| ==> b[i] != '/'
  {
    var end := StripTrailingSlashes(p);
    var stem := p[..end];
    match LastIndexOf(stem, '/')
    case None => stem
    case Some(k) => stem[k + 1..]
  }

  /** `path.extname(p)` (POSIX): the extension of the last segment. */
  function Extname(p: string): (e: string)
    ensures e == "" || (e[0] == '.' && EndsWith(Basename(p), e))
    ensures forall i :: 1 <= i < |e| ==> e[i] != '.' && e[i] != '/'
    ensures e == "" <==> Basename(p) == ".." || forall i :: 0 < i < |Basename(p)| ==> Basename(p)[i] != '.'
  {
    SegmentExtension(Basename(p))
  }

  /** From the last '.' of a segment to its end, or "" when the segment has
      no '.', when its only '.'s lead it, or when it is "..". */
  function SegmentExtension(base: string): (e: string)
    requires forall i :: 0 <= i < |base| ==> base[i] != '/'
    ensures e == "" || (e[0] == '.' && EndsWith(base, e))
    ensures forall i :: 1 <= i < |e| ==> e[i] != '.' && e[i] != '/'
    ensures e == "" <==> base == ".." || forall i :: 0 < i < |base| ==> base[i] != '.'
  {
    match LastIndexOf(base, '.')
    case None => ""
    case Some(k) =>
      if k == 0 || base == ".." then ""
      else base[k..]
  }

  /** A name whose last segment is a non-empty stem, a dot and a dot-free
      extension keeps exactly that extension (the segment ".." excepted). */
  lemma ExtnameOfStemAndExtension(dir: string, stem: string, ext: string)
    requires stem != "" && (forall i :: 0 <= i < |stem| ==> stem[i] != '/')
    requires forall i :: 0 <= i < |ext| ==> ext[i] != '.' && ext[i] != '/'
    requires stem + "." + ext != ".."
    ensures Extname(dir + "/" + stem + "." + ext) == "." + ext
  {
    var base := stem + "." + ext;
    forall i | 0 <= i < |base| ensures base[i] != '/' {
      if i < |stem| { assert base[i] == stem[i]; }
      else if i > |stem| { assert base[i] == ext[i - |stem| - 1]; }
    }
    assert dir + "/" + stem + "." + ext == dir + "/" + base;
    BasenameOfLastSegment(dir, base);
    SegmentOfStemAndExtension(stem, ext);
  }

  lemma SegmentOfStemAndExtension(stem: string, ext: string)
    requires stem != "" && (forall i :: 0 <= i < |stem| ==> stem[i] != '/')
    requires forall i :: 0 <= i < |ext| ==> ext[i] != '.' && ext[i] != '/'
    requires stem + "." + ext != ".."
    ensures var base := stem + "." + ext;
      (forall i :: 0 <= i < |base| ==> base[i] != '/') && SegmentExtension(base) == "." + ext
  {
    var base := stem + "." + ext;
    forall i | 0 <= i < |base| ensures base[i] != '/' {
      if i < |stem| { assert base[i] == stem[i]; }
      else if i > |stem| { assert base[i] == ext[i - |stem| - 1]; }
    }
    assert base[|stem|] == '.';
    forall i | |stem| < i < |base| ensures base[i] != '.' {
      assert base[i] == ext[i - |stem| - 1];
    }
    LastIndexOfIsLast(base, '.', |stem|);
    assert base[|stem|..] == "." + ext;
  }

  /** The last segment of `dir/name` is `name` when `name` holds no slash. */
  lemma BasenameOfLastSegment(dir: string, name: string)
    requires name != "" && forall i :: 0 <= i < |name| ==> name[i] != '/'
    ensures Basename(dir + "/" + name) == name
  {
    var p := dir + "/" + name;
    assert p[|p| - 1] == name[|name| - 1];
    assert StripTrailingSlashes(p) == |p|;
    assert p[..|p|] == p;
    assert p[|dir|] == '/';
    forall i | |dir| < i < |p| ensures p[i] != '/' {
      assert p[i] == name[i - |dir| - 1];
    }
    LastIndexOfIsLast(p, '/', |dir|);
    assert p[|dir| + 1..] == name;
  }

  lemma {:induction false} LastIndexOfIsLast(s: string, c: char, k: nat)
    requires k < |s| && s[k] == c
    requires forall i :: k < i < |s| ==> s[i] != c
    ensures LastIndexOf(s, c) == Some(k)
    decreases |s|
  {
    if k < |s| - 1 {
      LastIndexOfIsLast(s[..|s| - 1], c, k);
    }
  }

  /** `generateFilePath(userId, originalName)` with the clock reading and the
      generated UUID as parameters. */
  function GenerateFilePath(userId: string, originalName: string, timestamp: nat, fileId: string): (path: string)
    ensures StartsWith(path, "users/" + userId + "/meetings/")
    ensures EndsWith(path, "_" + fileId + Extname(originalName))
    ensures |path| == |"users/" + userId + "/meetings/"| + |NatToString(timestamp)| + |"_" + fileId + Extname(originalName)|
    ensures path[|"users/" + userId + "/meetings/"|..|path| - |"_" + fileId + Extname(originalName)|]
         == NatToString(timestamp)
  {
    var dir := "users/" + userId + "/meetings/";
    var suffix := "_" + fileId + Extname(originalName);
    PrefixAndSuffix(dir, NatToString(timestamp), suffix);
    dir + NatToString(timestamp) + suffix
  }

  lemma PrefixAndSuffix(a: string, b: string, c: string)
    ensures StartsWith(a + b + c, a) && EndsWith(a + b + c, c)
  {
    assert (a + b + c)[..|a|] == a;
    assert (a + b + c)[|a| + |b|..] == c;
  }

  /** `uploadFile(file, userId)`: an invalid file is refused before storage
      is called; a storage error becomes "Upload failed: <message>";
      otherwise the result echoes the generated path and the file's name,
      size and type. */
  function UploadFile(file: UploadedFile, userId: string, timestamp: nat, fileId: string,
                      storage: string -> StorageReply): (o: UploadOutcome)
    ensures !ValidateFile(file).isValid ==> o == UploadOutcome(Err(ValidateFile(file).error.value), None)
    ensures ValidateFile(file).isValid ==> o.storedAt == Some(GenerateFilePath(userId, file.originalName, timestamp, fileId))
    ensures o.result.Ok? ==>
      o.result.value.filePath == GenerateFilePath(userId, file.originalName, timestamp, fileId)
      && o.result.value.fileName == file.originalName && o.result.value.fileSize == file.size
      && o.result.value.mimeType == file.mimetype
      && storage(o.result.value.filePath) == Stored(o.result.value.fileUrl)
    ensures o.result.Err? && ValidateFile(file).isValid ==>
      var path := GenerateFilePath(userId, file.originalName, timestamp, fileId);
      storage(path).StorageError? && o.result.error == "Upload failed: " + storage(path).message
  {
    var validation := ValidateFile(file);
    if !validation.isValid then
      UploadOutcome(Err(validation.error.value), None)
    else
      var path := GenerateFilePath(userId, file.originalName, timestamp, fileId);
      match storage(path)
      case StorageError(message) => UploadOutcome(Err("Upload failed: " + message), Some(path))
      case Stored(url) => UploadOutcome(Ok(UploadResult(url, path, file.originalName, file.size, file.mimetype)), Some(path))
  }
}
