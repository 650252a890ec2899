/** The HTTP layer of the backend (backend/app/api/routes.py): each handler composes the
    validators, the model check and a service call into one reply or one `HTTPException`.
    The shared model cache is passed in; the clock readings are parameters. */
module Routes {
  import opened Common
  import opened Wire
  import Settings
  import FileValidator
  import YoloManager
  import DetectionService

  /** `GET /models`: one entry per catalogue model, in catalogue order. */
  method GetAvailableModels() returns (models: seq<ModelInfo>)
    ensures |models| == |Settings.AvailableModels|
    ensures forall i :: 0 <= i < |models| ==>
      var (id, spec) := Settings.AvailableModels[i];
      models[i] == ModelInfo(id, spec.name, spec.size, spec.description, spec.filename)
    ensures forall id :: id in Settings.ModelIds() <==> exists i :: 0 <= i < |models| && models[i].id == id
  {
    models := [];
    var i := 0;
    while i < |Settings.AvailableModels|
      invariant 0 <= i <= |Settings.AvailableModels|
      invariant |models| == i
      invariant forall k :: 0 <= k < i ==>
        var (id, spec) := Settings.AvailableModels[k];
        models[k] == ModelInfo(id, spec.name, spec.size, spec.description, spec.filename)
    {
      var (id, spec) := Settings.AvailableModels[i];
      models := models + [ModelInfo(id, spec.name, spec.size, spec.description, spec.filename)];
      i := i + 1;
    }
  }

  /** A successful detection reply: the service's dictionary plus `processing_time`. */
  datatype ImageReply = ImageReply(response: DetectionService.ImageResponse, processingTime: real)
  datatype VideoReply = VideoReply(response: DetectionService.VideoResponse, processingTime: real)

  const InternalError: nat := 500

  /** How a handler turns a service failure into its `HTTPException`: a validator's exception
      passes through unchanged, anything else becomes a 500 with the handler's prefix. */
  function ServiceFailure(e: DetectionService.ServiceError, prefix: string): (h: FileValidator.HttpError)
    ensures e.Http? ==> h == e.error
    ensures e.Raised? ==> h.status == InternalError && h.detail == prefix + e.message
  {
    match e
    case Http(h) => h
    case Raised(message) => FileValidator.HttpError(InternalError, prefix + message)
  }

  predicate KnownStatus(status: nat)
  {
    status == FileValidator.BadRequest || status == FileValidator.PayloadTooLarge || status == InternalError
  }

  /** `POST /detect/image` against the cache `cached`: the upload is validated first, then the
      model id, then the service runs with no detection config. `elapsed` is the handler's own
      clock difference. The `file.None?` case cannot arise through the HTTP route itself,
      because the framework rejects a request without the required `file` form field with a
      422 before the handler runs; it models the handler's own `if not file` guard. */
  function ImageRoute(cached: map<string, YoloManager.YoloModel>, file: Option<FileValidator.UploadFile>, model: string,
                      loader: YoloManager.Loader, io: DetectionService.ImageIo, hex: string, elapsed: real)
    : (r: Result<ImageReply, FileValidator.HttpError>)
    ensures file.None? ==> r == Err(FileValidator.HttpError(FileValidator.BadRequest, "No file provided"))
    ensures r.Err? ==> KnownStatus(r.error.status)
    ensures r.Err? && r.error.status == FileValidator.PayloadTooLarge ==>
      file.Some? && FileValidator.RemainingBytes(file.value) > Settings.MaxFileSize
    ensures FileValidator.ValidateFile(file, Settings.SupportedImageTypes, Settings.MaxFileSize).Ok?
            && !Settings.IsAvailable(model) ==>
      r == Err(FileValidator.HttpError(FileValidator.BadRequest, "Invalid model: " + model))
    ensures FileValidator.ValidateFile(file, Settings.SupportedImageTypes, Settings.MaxFileSize).Ok?
            && Settings.IsAvailable(model) ==>
      var out := DetectionService.ImageOutcome(
        cached, FileValidator.ValidateFile(file, Settings.SupportedImageTypes, Settings.MaxFileSize).value,
        model, None, loader, io, hex);
      && (r.Ok? <==> out.Ok?)
      && (r.Ok? ==> r.value == ImageReply(out.value, elapsed))
      && (r.Err? ==> r.error == ServiceFailure(out.error, "Image processing failed: "))
    ensures r.Ok? ==>
      && file.Some? && FileValidator.RemainingBytes(file.value) <= Settings.MaxFileSize
      && FileValidator.TypeAllowed(file.value.contentType, Settings.SupportedImageTypes)
      && Settings.IsAvailable(model)
      && r.value.response.modelUsed == model
      && r.value.response.originalFilename == file.value.filename
      && r.value.processingTime == elapsed
  {
    match FileValidator.ValidateFile(file, Settings.SupportedImageTypes, Settings.MaxFileSize)
    case Err(h) => Err(h)
    case Ok(f) =>
      if !Settings.IsAvailable(model) then
        Err(FileValidator.HttpError(FileValidator.BadRequest, "Invalid model: " + model))
      else
        match DetectionService.ImageOutcome(cached, f, model, None, loader, io, hex)
        case Ok(response) => Ok(ImageReply(response, elapsed))
        case Err(e) => Err(ServiceFailure(e, "Image processing failed: "))
  }

  /** `POST /detect/video`, in the same order; `serviceElapsed` is the clock difference the
      service measures for its frame rate. As for images, a missing file is rejected by the
      framework before this handler runs. */
  function VideoRoute(cached: map<string, YoloManager.YoloModel>, file: Option<FileValidator.UploadFile>, model: string,
                      loader: YoloManager.Loader, tempWriteError: Option<string>, io: DetectionService.VideoIo,
                      hex: string, serviceElapsed: real, elapsed: real)
    : (r: Result<VideoReply, FileValidator.HttpError>)
    ensures file.None? ==> r == Err(FileValidator.HttpError(FileValidator.BadRequest, "No file provided"))
    ensures r.Err? ==> KnownStatus(r.error.status)
    ensures r.Err? && r.error.status == FileValidator.PayloadTooLarge ==>
      file.Some? && FileValidator.RemainingBytes(file.value) > Settings.MaxFileSize
    ensures FileValidator.ValidateFile(file, Settings.SupportedVideoTypes, Settings.MaxFileSize).Ok?
            && !Settings.IsAvailable(model) ==>
      r == Err(FileValidator.HttpError(FileValidator.BadRequest, "Invalid model: " + model))
    ensures FileValidator.ValidateFile(file, Settings.SupportedVideoTypes, Settings.MaxFileSize).Ok?
            && Settings.IsAvailable(model) && r.Err? ==>
      r.error.status == InternalError && StartsWith(r.error.detail, "Video processing failed: ")
    ensures FileValidator.ValidateFile(file, Settings.SupportedVideoTypes, Settings.MaxFileSize).Ok?
            && Settings.IsAvailable(model) ==>
      var out := DetectionService.VideoOutcome(
        cached, FileValidator.ValidateFile(file, Settings.SupportedVideoTypes, Settings.MaxFileSize).value,
        model, None, loader, tempWriteError, io, hex, serviceElapsed);
      && (r.Ok? <==> out.Ok?)
      && (r.Ok? ==> r.value == VideoReply(out.value, elapsed))
      && (r.Err? ==> r.error == ServiceFailure(out.error, "Video processing failed: "))
    ensures r.Ok? ==>
      && file.Some? && FileValidator.RemainingBytes(file.value) <= Settings.MaxFileSize
      && FileValidator.TypeAllowed(file.value.contentType, Settings.SupportedVideoTypes)
      && Settings.IsAvailable(model)
      && r.value.response.modelUsed == model
      && r.value.response.videoUrl == "/static/" + DetectionService.ResultVideoName(hex)
      && r.value.processingTime == elapsed
  {
    match FileValidator.ValidateFile(file, Settings.SupportedVideoTypes, Settings.MaxFileSize)
    case Err(h) => Err(h)
    case Ok(f) =>
      if !Settings.IsAvailable(model) then
        Err(FileValidator.HttpError(FileValidator.BadRequest, "Invalid model: " + model))
      else
        match DetectionService.VideoOutcome(cached, f, model, None, loader, tempWriteError, io, hex, serviceElapsed)
        case Ok(response) => Ok(VideoReply(response, elapsed))
        case Err(e) => Err(ServiceFailure(e, "Video processing failed: "))
  }

  /** The image handler run against the shared manager. */
  method DetectImage(manager: YoloManager.ModelManager, file: Option<FileValidator.UploadFile>, model: string,
                     loader: YoloManager.Loader, io: DetectionService.ImageIo, hex: string, elapsed: real)
    returns (r: Result<ImageReply, FileValidator.HttpError>)
    requires manager.Valid()
    modifies manager
    ensures manager.Valid()
    ensures r == ImageRoute(old(manager.loadedModels), file, model, loader, io, hex, elapsed)
    ensures old(manager.loadedModels).Keys <= manager.loadedModels.Keys
    ensures FileValidator.ValidateFile(file, Settings.SupportedImageTypes, Settings.MaxFileSize).Ok?
            && Settings.IsAvailable(model) && DetectionService.ImageReachesModel(io) ==>
      && manager.loadedModels == YoloManager.CacheAfter(old(manager.loadedModels), model, loader)
      && manager.modelLocks == YoloManager.LocksAfter(old(manager.modelLocks), old(manager.loadedModels), model)
    ensures !(FileValidator.ValidateFile(file, Settings.SupportedImageTypes, Settings.MaxFileSize).Ok?
              && Settings.IsAvailable(model) && DetectionService.ImageReachesModel(io)) ==>
      manager.loadedModels == old(manager.loadedModels) && manager.modelLocks == old(manager.modelLocks)
  {
    var validated := FileValidator.ValidateFile(file, Settings.SupportedImageTypes, Settings.MaxFileSize);
    if validated.Err? {
      return Err(validated.error);
    }
    if !Settings.IsAvailable(model) {
      return Err(FileValidator.HttpError(FileValidator.BadRequest, "Invalid model: " + model));
    }
    var result := DetectionService.ProcessImage(manager, validated.value, model, None, loader, io, hex);
    if result.Err? {
      return Err(ServiceFailure(result.error, "Image processing failed: "));
    }
    r := Ok(ImageReply(result.value, elapsed));
  }

  /** The video handler run against the shared manager. */
  method DetectVideo(manager: YoloManager.ModelManager, file: Option<FileValidator.UploadFile>, model: string,
                     loader: YoloManager.Loader, tempWriteError: Option<string>, io: DetectionService.VideoIo,
                     hex: string, serviceElapsed: real, elapsed: real)
    returns (r: Result<VideoReply, FileValidator.HttpError>)
    requires manager.Valid()
    modifies manager
    ensures manager.Valid()
    ensures r == VideoRoute(old(manager.loadedModels), file, model, loader, tempWriteError, io, hex, serviceElapsed, elapsed)
    ensures old(manager.loadedModels).Keys <= manager.loadedModels.Keys
    ensures FileValidator.ValidateFile(file, Settings.SupportedVideoTypes, Settings.MaxFileSize).Ok?
            && Settings.IsAvailable(model) && tempWriteError.None? ==>
      && manager.loadedModels == YoloManager.CacheAfter(old(manager.loadedModels), model, loader)
      && manager.modelLocks == YoloManager.LocksAfter(old(manager.modelLocks), old(manager.loadedModels), model)
    ensures !(FileValidator.ValidateFile(file, Settings.SupportedVideoTypes, Settings.MaxFileSize).Ok?
              && Settings.IsAvailable(model) && tempWriteError.None?) ==>
      manager.loadedModels == old(manager.loadedModels) && manager.modelLocks == old(manager.modelLocks)
  {
    var validated := FileValidator.ValidateFile(file, Settings.SupportedVideoTypes, Settings.MaxFileSize);
    if validated.Err? {
      return Err(validated.error);
    }
    if !Settings.IsAvailable(model) {
      return Err(FileValidator.HttpError(FileValidator.BadRequest, "Invalid model: " + model));
    }
    var result := DetectionService.ProcessVideo(manager, validated.value, model, None, loader, tempWriteError, io, hex, serviceElapsed);
    if result.Err? {
      return Err(ServiceFailure(result.error, "Video processing failed: "));
    }
    r := Ok(VideoReply(result.value, elapsed));
  }

  /** `os.path.join(directory, name)` for a single path component: an absolute name replaces
      the directory. */
  function JoinPath(directory: string, name: string): (p: string)
    ensures StartsWith(name, "/") ==> p == name
    ensures !StartsWith(name, "/") ==> p == directory + "/" + name
  {
    if StartsWith(name, "/") then name else directory + "/" + name
  }

  /** The body of `GET /video/status/{filename}`; `size` is present only when ready. */
  datatype VideoStatusReply = VideoStatusReply(ready: bool, filename: string, size: Option<nat>)

  /** `get_video_status(filename)` over a file system given as path-to-size. */
  function VideoStatus(filename: string, files: map<string, nat>): (r: VideoStatusReply)
    ensures r.filename == filename
    ensures r.ready <==> JoinPath("static", filename) in files && files[JoinPath("static", filename)] > 0
    ensures r.size.Some? <==> r.ready
    ensures r.ready ==> r.size.value == files[JoinPath("static", filename)] && r.size.value > 0
  {
    var path := JoinPath("static", filename);
    if path in files && files[path] > 0 then VideoStatusReply(true, filename, Some(files[path]))
    else VideoStatusReply(false, filename, None)
  }

  /** The body of `GET /health`. */
  datatype HealthReply = HealthReply(status: string, timestamp: real, modelsLoaded: nat, service: string)

  /** `api_health()`; `now` is `time.time()`. */
  method ApiHealth(manager: YoloManager.ModelManager, now: real) returns (r: HealthReply)
    ensures r == HealthReply("healthy", now, |manager.loadedModels|, "YOLO Object Detection API")
  {
    r := HealthReply("healthy", now, |manager.loadedModels|, "YOLO Object Detection API");
  }

  /** A subset of a finite set is no larger than the set. */
  lemma {:induction false} SubsetCardinality<T>(a: set<T>, b: set<T>)
    requires a <= b
    ensures |a| <= |b|
    decreases b
  {
    if a != {} {
      var x :| x in a;
      SubsetCardinality(a - {x}, b - {x});
    }
  }

  /** The health report never counts more models than the catalogue has. */
  lemma HealthCountBounded(manager: YoloManager.ModelManager)
    requires manager.Valid()
    ensures |manager.loadedModels| <= |Settings.AvailableModels|
  {
    SubsetCardinality(manager.loadedModels.Keys, Settings.ModelIds());
    assert |Settings.ModelIds()| == 4;
  }
}
