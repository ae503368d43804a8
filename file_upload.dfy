/** The image upload widget: of a selection only the first file is taken;
    it must be a PNG, JPEG or WebP image of at most 10 MiB; it is then read
    as a data URL and handed to `onUpload` with its own name, type and size.
    `isUploading` is set for the duration of the read; while it is set the
    widget's input and button are disabled.

    The read is awaited without a `try`: when the reader fails, the handler
    throws before `setIsUploading(false)`, so the widget stays disabled.
    `UploadingAfterReadAsWritten` models that; `FileUpload.FinishRead` is
    the corrected step, which ends the upload state on either outcome. */
module FileUpload {
  import opened Common

  const MAX_SIZE_MB: int := 10
  const MAX_SIZE: int := MAX_SIZE_MB * 1024 * 1024
  const ALLOWED_TYPES: seq<string> := ["image/png", "image/jpeg", "image/webp"]
  const UNSUPPORTED_MESSAGE: string := "Only PNG, JPG, and WebP images are supported for Together AI vision."
  const TOO_LARGE_MESSAGE: string := "File too large (max 10MB)"

  /** A selected file: its name, MIME type and size in bytes. */
  datatype FileInfo = FileInfo(name: string, mime: string, size: int)

  /** What `onUpload` receives. */
  datatype UploadPayload = UploadPayload(base64: string, name: string, mime: string, size: int)

  /** The validation verdict on the first file of a selection. */
  datatype Verdict = Ignored | Rejected(message: string) | Accepted(file: FileInfo)

  function Validate(files: Option<seq<FileInfo>>): (v: Verdict)
    ensures v.Ignored? <==> files.None? || files.value == []
    ensures v.Accepted? ==> v.file == files.value[0] && v.file.mime in ALLOWED_TYPES && v.file.size <= MAX_SIZE
    ensures files.Some? && files.value != [] && files.value[0].mime !in ALLOWED_TYPES ==>
              v == Rejected(UNSUPPORTED_MESSAGE)
    ensures files.Some? && files.value != [] && files.value[0].mime in ALLOWED_TYPES && files.value[0].size > MAX_SIZE ==>
              v == Rejected(TOO_LARGE_MESSAGE)
  {
    if files.None? || files.value == [] then Ignored
    else
      var file := files.value[0];
      if file.mime !in ALLOWED_TYPES then Rejected(UNSUPPORTED_MESSAGE)
      else if file.size > MAX_SIZE then Rejected(TOO_LARGE_MESSAGE)
      else Accepted(file)
  }

  /** Files after the first never change the verdict. */
  lemma OnlyFirstFileCounts(first: FileInfo, rest: seq<FileInfo>, others: seq<FileInfo>)
    ensures Validate(Some([first] + rest)) == Validate(Some([first] + others))
  {
  }

  /** A file of exactly 10 MiB of an allowed type passes; one byte more does
      not. */
  lemma SizeCeilingIsInclusive(name: string, mime: string)
    requires mime in ALLOWED_TYPES
    ensures Validate(Some([FileInfo(name, mime, MAX_SIZE)])).Accepted?
    ensures Validate(Some([FileInfo(name, mime, MAX_SIZE + 1)])) == Rejected(TOO_LARGE_MESSAGE)
  {
  }

  /** `onUpload`'s argument: the encoded text with the file's own fields. */
  function Payload(file: FileInfo, base64: string): (p: UploadPayload)
    ensures p.name == file.name && p.mime == file.mime && p.size == file.size && p.base64 == base64
  {
    UploadPayload(base64, file.name, file.mime, file.size)
  }

  /** `isUploading` after the read, as written: the reset is only reached
      when the read succeeds. */
  function UploadingAfterReadAsWritten(uploading: bool, read: Outcome<string>): (r: bool)
    ensures read.Done? ==> !r
    ensures read.Thrown? ==> r == uploading
  {
    if read.Done? then false else uploading
  }

  /** A file that passes validation and whose read fails leaves the widget
      uploading, and so disabled, for good. */
  lemma ReadFailureLeavesWidgetBusy(file: FileInfo, readError: Json)
    requires Validate(Some([file])).Accepted?
    ensures UploadingAfterReadAsWritten(true, Thrown(readError))
  {
  }

  class FileUploadWidget {
    var error: Option<string>
    var isUploading: bool

    constructor ()
      ensures error == None && !isUploading
    {
      error := None;
      isUploading := false;
    }

    /** The synchronous part of `handleFiles`: the error is cleared, the
        first file validated, and for an accepted file the upload state
        begins and the file is returned to be read. */
    method HandleFiles(files: Option<seq<FileInfo>>) returns (reading: Option<FileInfo>)
      modifies this
      ensures Validate(files).Ignored? ==> reading.None? && error.None? && isUploading == old(isUploading)
      ensures Validate(files).Rejected? ==>
                reading.None? && error == Some(Validate(files).message) && isUploading == old(isUploading)
      ensures Validate(files).Accepted? ==> reading == Some(Validate(files).file) && error.None? && isUploading
    {
      error := None;
      var verdict := Validate(files);
      match verdict
      case Ignored =>
        reading := None;
      case Rejected(message) =>
        error := Some(message);
        reading := None;
      case Accepted(file) =>
        isUploading := true;
        reading := Some(file);
    }

    /** The end of the read: the upload state ends whatever the outcome, and
        a successful read produces the payload for `onUpload`. */
    method FinishRead(file: FileInfo, read: Outcome<string>) returns (upload: Option<UploadPayload>)
      modifies this
      ensures !isUploading && error == old(error)
      ensures read.Done? ==> upload == Some(Payload(file, read.value))
      ensures read.Thrown? ==> upload.None?
    {
      isUploading := false;
      if read.Done? {
        upload := Some(Payload(file, read.value));
      } else {
        upload := None;
      }
    }
  }
}
