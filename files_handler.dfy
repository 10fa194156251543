/** The files handler (modules/files/filesHandlers/filesHandler.go). An upload checks every file
    in order (its extension against an allow-list, its size against the configured limit) and
    names each accepted file under the requested destination; the first file that fails answers
    400 and nothing is uploaded. A delete passes the parsed requests to storage. The random file
    names (`utils.RanFileName`) are an input. */
module FilesHandlers {
  import opened Wrappers
  import opened Models
  import opened Text
  import opened Storage
  import opened Paging
  import opened Responses

  const UploadFileErr := "files-001"
  const DeleteFileErr := "files-002"

  const MiB := 1024 * 1024

  /** The multipart form: the files under "files" and the "destination" value. */
  datatype UploadForm = UploadForm(files: seq<FileHeader>, destination: string)

  /** The random name generated for the i-th accepted file, given its extension. */
  type Namer = (nat, string) -> string

  /** A file's extension: what follows the last '.' of its name, without the dot. */
  function Extension(fileName: string): string {
    TrimDot(Ext(fileName))
  }

  /** The allow-list, compared case-sensitively. */
  predicate Acceptable(ext: string) {
    ext == "png" || ext == "jpg" || ext == "jpeg"
  }

  /** The size error names the limit in MiB, rounded up. */
  function SizeMessage(fileLimit: int): string {
    "file size must less than " + IntToDecimal(TotalPage(fileLimit, MiB)) + " MiB"
  }

  /** Why a file is refused, if it is: its extension first, then its size. */
  function FileError(file: FileHeader, fileLimit: int): (r: Option<string>)
    ensures r == None <==> Acceptable(Extension(file.fileName)) && file.size <= fileLimit
  {
    if !Acceptable(Extension(file.fileName)) then Some("extension is not acceptable")
    else if file.size > fileLimit then Some(SizeMessage(fileLimit))
    else None
  }

  /** The error of the first refused file, if any. */
  function FirstFileError(files: seq<FileHeader>, fileLimit: int): Option<string> {
    if files == [] then None
    else if FirstFileError(files[..|files| - 1], fileLimit).Some? then FirstFileError(files[..|files| - 1], fileLimit)
    else FileError(files[|files| - 1], fileLimit)
  }

  /** The upload request made for the i-th file. */
  function UploadReq(file: FileHeader, i: nat, destination: string, nameFor: Namer): FileReq {
    var ext := Extension(file.fileName);
    var name := nameFor(i, ext);
    FileReq(file, destination + "/" + name, ext, name)
  }

  /** One upload request per file, in the files' order. */
  function UploadReqs(files: seq<FileHeader>, destination: string, nameFor: Namer): (r: seq<FileReq>)
    ensures |r| == |files|
    ensures forall i :: 0 <= i < |files| ==> r[i] == UploadReq(files[i], i, destination, nameFor)
  {
    seq(|files|, i requires 0 <= i < |files| => UploadReq(files[i], i, destination, nameFor))
  }

  function ExpectedUpload(form: Result<UploadForm, string>, fileLimit: int, nameFor: Namer,
                          answer: Result<seq<FileRes>, string>): Sent<seq<FileRes>> {
    if form.Failure? then ErrorSent(StatusBadRequest, UploadFileErr, form.error)
    else if FirstFileError(form.value.files, fileLimit).Some? then
      ErrorSent(StatusBadRequest, UploadFileErr, FirstFileError(form.value.files, fileLimit).value)
    else if answer.Failure? then ErrorSent(StatusInternalServerError, UploadFileErr, answer.error)
    else DataSent(StatusCreated, Some(answer.value))
  }

  function ExpectedDeleteFile(parsed: Result<seq<DeleteFileReq>, string>, answer: Option<string>): Sent<()> {
    if parsed.Failure? then ErrorSent(StatusBadRequest, DeleteFileErr, parsed.error)
    else if answer.Some? then ErrorSent(StatusInternalServerError, DeleteFileErr, answer.value)
    else DataSent(StatusCreated, None)
  }

  // ---------------------------------------------------------------- what the checks mean

  /** No file is refused exactly when every file has an allowed extension and fits the limit. */
  lemma {:induction false} FirstFileErrorNone(files: seq<FileHeader>, fileLimit: int)
    ensures FirstFileError(files, fileLimit) == None <==>
      forall i :: 0 <= i < |files| ==>
        Acceptable(Extension(files[i].fileName)) && files[i].size <= fileLimit
  {
    if files != [] {
      var init := files[..|files| - 1];
      FirstFileErrorNone(init, fileLimit);
      assert forall i :: 0 <= i < |init| ==> init[i] == files[i];
    }
  }

  /** Once a prefix of the files holds a refused one, later files change nothing. */
  lemma {:induction false} FirstFileErrorPrefix(files: seq<FileHeader>, k: nat, fileLimit: int)
    requires k <= |files| && FirstFileError(files[..k], fileLimit).Some?
    ensures FirstFileError(files, fileLimit) == FirstFileError(files[..k], fileLimit)
    decreases |files|
  {
    if k < |files| {
      var init := files[..|files| - 1];
      assert init[..k] == files[..k];
      FirstFileErrorPrefix(init, k, fileLimit);
    } else {
      assert files[..k] == files;
    }
  }

  /** One more file checked: while no earlier file was refused, the first error is the new
      file's own. */
  lemma FirstFileErrorStep(files: seq<FileHeader>, i: nat, fileLimit: int)
    requires i < |files| && FirstFileError(files[..i], fileLimit) == None
    ensures FirstFileError(files[..i + 1], fileLimit) == FileError(files[i], fileLimit)
  {
    assert files[..i + 1][..i] == files[..i];
  }

  /** One more file named: its request follows those of the files before it. */
  lemma UploadReqsStep(files: seq<FileHeader>, i: nat, destination: string, nameFor: Namer)
    requires i < |files|
    ensures UploadReqs(files[..i + 1], destination, nameFor) ==
      UploadReqs(files[..i], destination, nameFor) + [UploadReq(files[i], i, destination, nameFor)]
  {
  }

  /** One entry of the allow-list: the extension is `e` exactly when the name ends in `dotted`. */
  lemma ExtensionIs(fileName: string, e: string, dotted: string)
    requires |e| > 0 && forall i :: 0 <= i < |e| ==> e[i] != '.' && e[i] != '/'
    requires dotted == "." + e
    ensures Extension(fileName) == e <==> EndsWith(fileName, dotted)
  {
    ExtensionIsDottedSuffix(fileName, e);
  }

  /** The allow-list as three independent tests. */
  lemma AcceptableIff(ext: string, png: bool, jpg: bool, jpeg: bool)
    requires (ext == "png" <==> png) && (ext == "jpg" <==> jpg) && (ext == "jpeg" <==> jpeg)
    ensures Acceptable(ext) <==> png || jpg || jpeg
  {
  }

  /** A file's extension is allowed exactly when its name ends in ".png", ".jpg" or ".jpeg". */
  lemma ExtensionAllowedIff(fileName: string)
    ensures Acceptable(Extension(fileName)) <==>
      EndsWith(fileName, ".png") || EndsWith(fileName, ".jpg") || EndsWith(fileName, ".jpeg")
  {
    var ext := Extension(fileName);
    assert ext == "png" <==> EndsWith(fileName, ".png") by {
      ExtensionIs(fileName, "png", ".png");
    }
    assert ext == "jpg" <==> EndsWith(fileName, ".jpg") by {
      ExtensionIs(fileName, "jpg", ".jpg");
    }
    assert ext == "jpeg" <==> EndsWith(fileName, ".jpeg") by {
      ExtensionIs(fileName, "jpeg", ".jpeg");
    }
    AcceptableIff(ext, EndsWith(fileName, ".png"), EndsWith(fileName, ".jpg"), EndsWith(fileName, ".jpeg"));
  }

  /** The check is case-sensitive: an upper-case extension is refused. */
  lemma UpperCaseRefused()
    ensures !Acceptable(Extension("photo.PNG"))
    ensures Acceptable(Extension("photo.png"))
  {
    assert EndsWith("photo.PNG", "." + "PNG") by {
      assert "photo.PNG"[|"photo.PNG"| - 4..] == ".PNG";
    }
    ExtensionIsDottedSuffix("photo.PNG", "PNG");
    assert EndsWith("photo.png", "." + "png") by {
      assert "photo.png"[|"photo.png"| - 4..] == ".png";
    }
    ExtensionIsDottedSuffix("photo.png", "png");
  }

  /** A file exactly at the limit is accepted; one byte more is refused. */
  lemma SizeLimitInclusive(name: string, fileLimit: int)
    requires Acceptable(Extension(name))
    ensures FileError(FileHeader(name, fileLimit), fileLimit) == None
    ensures FileError(FileHeader(name, fileLimit + 1), fileLimit) == Some(SizeMessage(fileLimit))
  {
  }

  /** An upload is created (201) exactly when the form parses, every file passes and storage
      accepts the upload. */
  lemma UploadCreatedIff(form: Result<UploadForm, string>, fileLimit: int, nameFor: Namer,
                         answer: Result<seq<FileRes>, string>)
    ensures ExpectedUpload(form, fileLimit, nameFor, answer).status == StatusCreated <==>
      form.Success? && answer.Success? &&
      forall i :: 0 <= i < |form.value.files| ==>
        Acceptable(Extension(form.value.files[i].fileName)) && form.value.files[i].size <= fileLimit
  {
    if form.Success? {
      FirstFileErrorNone(form.value.files, fileLimit);
    }
  }

  // ---------------------------------------------------------------- the handler

  class FilesHandler {
    /** The configured file limit, in bytes. */
    const fileLimit: int
    /** The files usecase, through which files are uploaded and deleted. */
    const storage: FileStorage

    constructor (fileLimit: int, storage: FileStorage)
      ensures this.fileLimit == fileLimit && this.storage == storage
    {
      this.fileLimit := fileLimit;
      this.storage := storage;
    }

    /** Checks the files one by one, collecting one request per accepted file; the first refused
        file ends the check with its error. */
    method CheckFiles(filesReq: seq<FileHeader>, destination: string, nameFor: Namer)
      returns (err: Option<string>, req: seq<FileReq>)
      ensures err == FirstFileError(filesReq, fileLimit)
      ensures err.None? ==> req == UploadReqs(filesReq, destination, nameFor)
    {
      req := [];
      for i := 0 to |filesReq|
        invariant FirstFileError(filesReq[..i], fileLimit) == None
        invariant req == UploadReqs(filesReq[..i], destination, nameFor)
      {
        FirstFileErrorStep(filesReq, i, fileLimit);
        var file := filesReq[i];
        var ext := Extension(file.fileName);
        if !Acceptable(ext) {
          FirstFileErrorPrefix(filesReq, i + 1, fileLimit);
          return Some("extension is not acceptable"), req;
        }
        if file.size > fileLimit {
          FirstFileErrorPrefix(filesReq, i + 1, fileLimit);
          return Some(SizeMessage(fileLimit)), req;
        }
        var filesname := nameFor(i, ext);
        UploadReqsStep(filesReq, i, destination, nameFor);
        req := req + [FileReq(file, destination + "/" + filesname, ext, filesname)];
      }
      assert filesReq[..|filesReq|] == filesReq;
      err := None;
    }

    /** Uploads the files once every one of them passes the checks. */
    method UploadFiles(form: Result<UploadForm, string>, nameFor: Namer, answer: Result<seq<FileRes>, string>)
      returns (s: Sent<seq<FileRes>>)
      modifies storage
      ensures s == ExpectedUpload(form, fileLimit, nameFor, answer)
      ensures storage.deletions == old(storage.deletions)
      ensures storage.uploads == old(storage.uploads) +
        if form.Success? && FirstFileError(form.value.files, fileLimit).None?
        then [UploadReqs(form.value.files, form.value.destination, nameFor)]
        else []
    {
      if form.Failure? {
        s := RespondError(StatusBadRequest, UploadFileErr, form.error);
        return;
      }
      var err, req := CheckFiles(form.value.files, form.value.destination, nameFor);
      if err.Some? {
        s := RespondError(StatusBadRequest, UploadFileErr, err.value);
        return;
      }
      var res := storage.Upload(req, answer);
      if res.Failure? {
        s := RespondError(StatusInternalServerError, UploadFileErr, res.error);
        return;
      }
      s := RespondSuccess(StatusCreated, Some(res.value));
    }

    /** Passes the parsed delete requests to storage. */
    method DeleteFile(parsed: Result<seq<DeleteFileReq>, string>, answer: Option<string>) returns (s: Sent<()>)
      modifies storage
      ensures s == ExpectedDeleteFile(parsed, answer)
      ensures storage.uploads == old(storage.uploads)
      ensures storage.deletions == old(storage.deletions) + if parsed.Success? then [parsed.value] else []
    {
      if parsed.Failure? {
        s := RespondError(StatusBadRequest, DeleteFileErr, parsed.error);
        return;
      }
      var err := storage.DeleteFiles(parsed.value, answer);
      if err.Some? {
        s := RespondError(StatusInternalServerError, DeleteFileErr, err.value);
        return;
      }
      s := RespondSuccess(StatusCreated, None);
    }
  }
}
