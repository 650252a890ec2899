/** Upload validation on the backend (backend/app/utils/file_validator.py): guard checks that raise
    `HTTPException`, modelled as functions returning a `Result`. */
module FileValidator {
  import opened Common
  import Settings

  /** An `HTTPException`: status code and `detail` text. */
  datatype HttpError = HttpError(status: nat, detail: string)

  const BadRequest: nat := 400
  const PayloadTooLarge: nat := 413

  /** An uploaded file: its name, declared content type (possibly missing), its length in bytes
      and the position of its read cursor. */
  datatype UploadFile = UploadFile(filename: string, contentType: Option<string>, size: nat, position: nat)

  /** Number of bytes `await file.read()` returns: everything from the cursor to the end. */
  function RemainingBytes(f: UploadFile): nat
  {
    if f.position <= f.size then f.size - f.position else 0
  }

  /** `str(content_type)`: Python prints a missing content type as `None`. */
  function ContentTypeText(t: Option<string>): string
  {
    if t.Some? then t.value else "None"
  }

  predicate TypeAllowed(t: Option<string>, allowed: seq<string>)
  {
    t.Some? && t.value in allowed
  }

  /** `f"{max_size / (1024 * 1024):.1f}"`: the size in MiB with one decimal, rounded to
      nearest with ties to even, exactly as Python formats the (exact) binary quotient. */
  function MegabytesOneDecimal(bytes: nat): string
  {
    var scaled := bytes * 10;
    var q := scaled / 1048576;
    var r := scaled % 1048576;
    var t := if 2 * r > 1048576 || (2 * r == 1048576 && q % 2 == 1) then q + 1 else q;
    NatToString(t / 10) + "." + NatToString(t % 10)
  }

  function TooLargeDetail(maxSize: nat): string
  {
    "File too large. Maximum size: " + MegabytesOneDecimal(maxSize) + "MB"
  }

  function InvalidTypeDetail(t: Option<string>, allowed: seq<string>): string
  {
    "Invalid file type: " + ContentTypeText(t) + ". Allowed: " + Join(allowed, ", ")
  }

  /** `validate_file(file, allowed_types, max_size)`. On success the result is the file with its
      cursor back at 0 (`await file.seek(0)`). The size check reads the whole file first, so it
      runs before the type check. */
  function ValidateFile(file: Option<UploadFile>, allowed: seq<string>, maxSize: nat): (r: Result<UploadFile, HttpError>)
    ensures file.None? ==> r == Err(HttpError(BadRequest, "No file provided"))
    ensures file.Some? && RemainingBytes(file.value) > maxSize ==>
      r == Err(HttpError(PayloadTooLarge, TooLargeDetail(maxSize)))
    ensures file.Some? && RemainingBytes(file.value) <= maxSize && !TypeAllowed(file.value.contentType, allowed) ==>
      r == Err(HttpError(BadRequest, InvalidTypeDetail(file.value.contentType, allowed)))
    ensures r.Ok? <==> file.Some? && RemainingBytes(file.value) <= maxSize && TypeAllowed(file.value.contentType, allowed)
    ensures r.Ok? ==> r.value == file.value.(position := 0)
  {
    if file.None? then Err(HttpError(BadRequest, "No file provided"))
    else
      var f := file.value;
      var fileSize := RemainingBytes(f);
      if fileSize > maxSize then Err(HttpError(PayloadTooLarge, TooLargeDetail(maxSize)))
      else if !TypeAllowed(f.contentType, allowed) then
        Err(HttpError(BadRequest, InvalidTypeDetail(f.contentType, allowed)))
      else Ok(f.(position := 0))
  }

  /** `validate_image_dimensions(width, height)` against 1920x1080. */
  function ValidateImageDimensions(width: int, height: int): (r: Result<(), HttpError>)
    ensures r.Err? <==> width > Settings.MaxImageWidth as int || height > Settings.MaxImageHeight as int
    ensures r.Err? ==> r.error == HttpError(BadRequest, "Image dimensions too large. Maximum: 1920x1080")
  {
    assert NatToString(Settings.MaxImageWidth) == "1920" && NatToString(Settings.MaxImageHeight) == "1080";
    if width > Settings.MaxImageWidth as int || height > Settings.MaxImageHeight as int then
      Err(HttpError(BadRequest, "Image dimensions too large. Maximum: "
        + NatToString(Settings.MaxImageWidth) + "x" + NatToString(Settings.MaxImageHeight)))
    else Ok(())
  }

  /** `validate_video_duration(duration)` against 300 seconds. */
  function ValidateVideoDuration(duration: real): (r: Result<(), HttpError>)
    ensures r.Err? <==> duration > Settings.MaxVideoDuration as real
    ensures r.Err? ==> r.error == HttpError(BadRequest, "Video too long. Maximum duration: 300s")
  {
    assert NatToString(Settings.MaxVideoDuration) == "300";
    if duration > Settings.MaxVideoDuration as real then
      Err(HttpError(BadRequest, "Video too long. Maximum duration: " + NatToString(Settings.MaxVideoDuration) + "s"))
    else Ok(())
  }

  /** The configured 50 MiB limit is reported as "50.0MB". */
  lemma TooLargeDetailForDefaultLimit()
    ensures TooLargeDetail(Settings.MaxFileSize) == "File too large. Maximum size: 50.0MB"
  {
    assert MegabytesOneDecimal(Settings.MaxFileSize) == "50.0" by {
      assert Settings.MaxFileSize * 10 / 1048576 == 500;
      assert Settings.MaxFileSize * 10 % 1048576 == 0;
      assert NatToString(50) == "50";
      assert NatToString(0) == "0";
    }
  }

  /** A file of exactly `max_size` bytes passes the size check (the comparison is strict),
      and an oversized file is refused with 413 whatever its type. */
  lemma SizeBoundary(f: UploadFile, allowed: seq<string>, maxSize: nat)
    requires f.position == 0
    ensures f.size == maxSize && TypeAllowed(f.contentType, allowed) ==> ValidateFile(Some(f), allowed, maxSize).Ok?
    ensures f.size > maxSize ==>
      ValidateFile(Some(f), allowed, maxSize) == Err(HttpError(PayloadTooLarge, TooLargeDetail(maxSize)))
  {
  }
}
