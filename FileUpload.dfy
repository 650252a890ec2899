/** The upload panel (frontend/src/components/FileUpload.tsx): client-side checks on a chosen
    file, the selection state, and dispatching the selection to the image or video flow. */
module FileUpload {
  import opened Common
  import opened Wire
  import Settings
  import FileValidator

  const AcceptedImageTypes: seq<string> := ["image/jpeg", "image/png", "image/jpg"]
  const AcceptedVideoTypes: seq<string> := ["video/mp4", "video/avi", "video/mov"]
  /** 50 MiB. */
  const MaxFileSize: nat := 50 * 1024 * 1024

  const TooLargeMessage: string := "File size must be less than 50MB"
  const InvalidTypeMessage: string := "Please select a valid image or video file"

  predicate IsImage(f: BrowserFile) { f.mimeType in AcceptedImageTypes }
  predicate IsVideo(f: BrowserFile) { f.mimeType in AcceptedVideoTypes }

  /** `validateFile(file)`: the size check first, then the type check; `None` means valid. */
  function ValidateFile(f: BrowserFile): (r: Option<string>)
    ensures f.size > MaxFileSize ==> r == Some(TooLargeMessage)
    ensures f.size <= MaxFileSize && !IsImage(f) && !IsVideo(f) ==> r == Some(InvalidTypeMessage)
    ensures r.None? <==> f.size <= MaxFileSize && (IsImage(f) || IsVideo(f))
  {
    if f.size > MaxFileSize then Some(TooLargeMessage)
    else if !IsImage(f) && !IsVideo(f) then Some(InvalidTypeMessage)
    else None
  }

  /** Which parent callback `handleProcess` awaits. */
  datatype UploadCall = NoCall | ImageUpload(file: BrowserFile, model: string) | VideoUpload(file: BrowserFile, model: string)

  /** The call `handleProcess` makes for the current selection. */
  function UploadCallFor(selected: Option<BrowserFile>, model: string): (c: UploadCall)
    ensures selected.None? ==> c == NoCall
    ensures selected.Some? && IsImage(selected.value) ==> c == ImageUpload(selected.value, model)
    ensures selected.Some? && IsVideo(selected.value) ==> c == VideoUpload(selected.value, model)
    ensures c.NoCall? <==> selected.None? || (!IsImage(selected.value) && !IsVideo(selected.value))
  {
    if selected.None? then NoCall
    else if IsImage(selected.value) then ImageUpload(selected.value, model)
    else if IsVideo(selected.value) then VideoUpload(selected.value, model)
    else NoCall
  }

  /** The process button's enable condition: a file, nothing processing, no error. An empty
      error string is falsy, so it does not disable the button. */
  predicate ProcessEnabled(selected: Option<BrowserFile>, isProcessing: bool, error: Option<string>)
    ensures ProcessEnabled(selected, isProcessing, error) ==> selected.Some? && !isProcessing
    ensures error.Some? && error.value != "" ==> !ProcessEnabled(selected, isProcessing, error)
    ensures (error.None? || error == Some("")) ==>
      (ProcessEnabled(selected, isProcessing, error) <==> selected.Some? && !isProcessing)
  {
    selected.Some? && !isProcessing && !Truthy(error)
  }

  class UploadPanel {
    var selectedFile: Option<BrowserFile>
    var error: Option<string>

    /** A selected file always passed the client checks. */
    ghost predicate Valid()
      reads this
    {
      selectedFile.Some? ==> ValidateFile(selectedFile.value).None?
    }

    constructor ()
      ensures Valid() && selectedFile.None? && error.None?
    {
      selectedFile, error := None, None;
    }

    /** `handleFileSelect(file)`: an invalid file only sets the error. */
    method HandleFileSelect(f: BrowserFile)
      requires Valid()
      modifies this
      ensures Valid()
      ensures ValidateFile(f).Some? ==> error == ValidateFile(f) && selectedFile == old(selectedFile)
      ensures ValidateFile(f).None? ==> selectedFile == Some(f) && error.None?
    {
      var validationError := ValidateFile(f);
      if validationError.Some? {
        error := validationError;
        return;
      }
      selectedFile, error := Some(f), None;
    }

    /** `handleDrop` / `handleFileInput`: only the first file of the list is considered. */
    method HandleFiles(files: seq<BrowserFile>)
      requires Valid()
      modifies this
      ensures Valid()
      ensures files == [] ==> selectedFile == old(selectedFile) && error == old(error)
      ensures files != [] && ValidateFile(files[0]).Some? ==>
        error == ValidateFile(files[0]) && selectedFile == old(selectedFile)
      ensures files != [] && ValidateFile(files[0]).None? ==> selectedFile == Some(files[0]) && error.None?
    {
      if |files| > 0 {
        HandleFileSelect(files[0]);
      }
    }

    /** `handleProcess()` with the parent's `selectedModel`; `uploadThrows` is whether the
        awaited callback rejects. Returns the call made. */
    method HandleProcess(selectedModel: string, uploadThrows: bool) returns (call: UploadCall)
      requires Valid()
      modifies this
      ensures Valid()
      ensures call == UploadCallFor(old(selectedFile), selectedModel)
      ensures old(selectedFile).None? ==> selectedFile == old(selectedFile) && error == old(error)
      ensures old(selectedFile).Some? && call.NoCall? ==> selectedFile.None? && error.None?
      ensures old(selectedFile).Some? && !call.NoCall? && !uploadThrows ==> selectedFile.None? && error.None?
      ensures old(selectedFile).Some? && !call.NoCall? && uploadThrows ==>
        selectedFile == old(selectedFile) && error == old(error)
    {
      if selectedFile.None? {
        return NoCall;
      }
      call := UploadCallFor(selectedFile, selectedModel);
      if !call.NoCall? && uploadThrows {
        return;
      }
      selectedFile, error := None, None;
    }

    /** `clearSelection()`. */
    method ClearSelection()
      modifies this
      ensures Valid()
      ensures selectedFile.None? && error.None?
    {
      selectedFile, error := None, None;
    }
  }

  /** A selection held by the panel is never of a type without a flow, so processing it always
      reaches one of the two callbacks. */
  lemma SelectionAlwaysDispatched(f: BrowserFile, model: string)
    requires ValidateFile(f).None?
    ensures !UploadCallFor(Some(f), model).NoCall?
  {
  }

  /** Whenever the process button is enabled for a selection the panel holds, pressing it
      reaches one of the two callbacks. */
  lemma EnabledProcessDispatches(p: UploadPanel, isProcessing: bool, model: string)
    requires p.Valid() && ProcessEnabled(p.selectedFile, isProcessing, p.error)
    ensures UploadCallFor(p.selectedFile, model) == ImageUpload(p.selectedFile.value, model) ||
            UploadCallFor(p.selectedFile, model) == VideoUpload(p.selectedFile.value, model)
  {
    SelectionAlwaysDispatched(p.selectedFile.value, model);
  }

  /** The client checks accept exactly what the server's upload validation accepts for the
      matching endpoint, when the browser's type is sent as the content type. */
  lemma {:induction false} ClientAgreesWithServer(f: BrowserFile)
    ensures var upload := FileValidator.UploadFile(f.name, Some(f.mimeType), f.size, 0);
      && (IsImage(f) ==>
            (ValidateFile(f).None? <==>
               FileValidator.ValidateFile(Some(upload), Settings.SupportedImageTypes, Settings.MaxFileSize).Ok?))
      && (IsVideo(f) ==>
            (ValidateFile(f).None? <==>
               FileValidator.ValidateFile(Some(upload), Settings.SupportedVideoTypes, Settings.MaxFileSize).Ok?))
      && (f.size > MaxFileSize ==>
            FileValidator.ValidateFile(Some(upload), Settings.SupportedImageTypes, Settings.MaxFileSize).error.status
              == FileValidator.PayloadTooLarge)
  {
    assert AcceptedImageTypes == Settings.SupportedImageTypes;
    assert AcceptedVideoTypes == Settings.SupportedVideoTypes;
    assert MaxFileSize == Settings.MaxFileSize;
  }
}
