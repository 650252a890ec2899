/** The webcam panel (frontend/src/components/WebcamStream.tsx): the camera start sequence,
    the error-name classifier, stopping the stream, the capture guard and the effect that
    stops the camera when the selected model changes. The media devices, the permissions API,
    the video element's events and the canvas are foreign; their answers enter as values. */
module WebcamStream {
  import opened Common
  import opened Wire

  // ---------------------------------------------------------------------------------------
  // Device check and error messages

  /** A `MediaDeviceInfo`: its `kind` and its id. */
  datatype Device = Device(kind: string, deviceId: string)

  datatype Availability = Availability(available: bool, devices: seq<Device>)

  /** The video inputs among the devices, in order. */
  function VideoInputs(ds: seq<Device>): (r: seq<Device>)
    ensures |r| <= |ds|
    ensures forall d :: d in r <==> d in ds && d.kind == "videoinput"
  {
    if ds == [] then []
    else if ds[0].kind == "videoinput" then [ds[0]] + VideoInputs(ds[1..])
    else VideoInputs(ds[1..])
  }

  /** `checkCameraAvailability()`; `None` stands for an enumeration that throws. */
  function CheckCameraAvailability(enumerated: Option<seq<Device>>): (r: Availability)
    ensures enumerated.None? ==> r == Availability(false, [])
    ensures enumerated.Some? ==> r.devices == VideoInputs(enumerated.value)
    ensures r.available <==> enumerated.Some? && exists d :: d in enumerated.value && d.kind == "videoinput"
  {
    if enumerated.None? then Availability(false, [])
    else
      var video := VideoInputs(enumerated.value);
      assert video != [] ==> video[0] in video;
      Availability(|video| > 0, video)
  }

  /** A thrown `DOMException`-like value: its `name` and `message`, either possibly missing. */
  datatype CameraError = CameraError(name: Option<string>, message: Option<string>)

  const NotAllowedMessage: string := "Permiso de cámara denegado. Permite el acceso a la cámara e inténtalo de nuevo."
  const NotFoundMessage: string := "No se encontró dispositivo de cámara. Conecta una cámara y actualiza la página."
  const NotReadableMessage: string := "La cámara ya está en uso por otra aplicación. Cierra otras apps que usen la cámara."
  const OverconstrainedMessage: string := "La cámara no soporta el formato de video requerido. Prueba con una cámara diferente."
  const SecurityMessage: string := "Acceso a cámara bloqueado por restricciones de seguridad. Asegúrate de usar HTTPS o localhost."
  const AbortMessage: string := "Acceso a cámara interrumpido. Inténtalo de nuevo."
  const VideoSourceMessage: string := "No se pudo iniciar la fuente de video. Revisa los permisos de cámara e inténtalo de nuevo."
  const GenericPrefix: string := "Error de acceso a cámara: "
  const UnknownErrorText: string := "Error desconocido"

  /** The six error names the switch has a case for. */
  predicate IsNamedCase(name: Option<string>)
  {
    || name == Some("NotAllowedError") || name == Some("NotFoundError") || name == Some("NotReadableError")
    || name == Some("OverconstrainedError") || name == Some("SecurityError") || name == Some("AbortError")
  }

  /** `getCameraErrorMessage(error)`: a switch on the name (missing or empty counts as `''`),
      then a look at the message text. */
  function CameraErrorMessage(e: CameraError): (m: string)
    ensures e.name == Some("NotAllowedError") ==> m == NotAllowedMessage
    ensures e.name == Some("NotFoundError") ==> m == NotFoundMessage
    ensures e.name == Some("NotReadableError") ==> m == NotReadableMessage
    ensures e.name == Some("OverconstrainedError") ==> m == OverconstrainedMessage
    ensures e.name == Some("SecurityError") ==> m == SecurityMessage
    ensures e.name == Some("AbortError") ==> m == AbortMessage
    ensures !IsNamedCase(e.name) ==>
      if Truthy(e.message) && Contains(e.message.value, "video source") then m == VideoSourceMessage
      else m == GenericPrefix + (if Truthy(e.message) then e.message.value else UnknownErrorText)
  {
    var name := if Truthy(e.name) then e.name.value else "";
    var message := if Truthy(e.message) then e.message.value else "";
    if name == "NotAllowedError" then NotAllowedMessage
    else if name == "NotFoundError" then NotFoundMessage
    else if name == "NotReadableError" then NotReadableMessage
    else if name == "OverconstrainedError" then OverconstrainedMessage
    else if name == "SecurityError" then SecurityMessage
    else if name == "AbortError" then AbortMessage
    else if Includes(message, "video source") then VideoSourceMessage
    else GenericPrefix + (if message != "" then message else UnknownErrorText)
  }

  /** An error with neither a name nor a message gets the generic text with the fallback. */
  lemma EmptyErrorMessage()
    ensures CameraErrorMessage(CameraError(None, None)) == GenericPrefix + UnknownErrorText
    ensures CameraErrorMessage(CameraError(Some(""), Some(""))) == GenericPrefix + UnknownErrorText
  {
    assert !Contains("", "video source") by {
      assert forall i :: !OccursAt("", "video source", i);
    }
  }

  // ---------------------------------------------------------------------------------------
  // The panel's state

  type TrackId = nat

  /** A `MediaStream`: an id and its tracks. */
  datatype MediaStream = MediaStream(id: nat, tracks: seq<TrackId>)

  /** What the browser answers during one `startCamera` call: the device enumeration (`None`
      if it throws), the permission state (`None` if the query throws) and `getUserMedia`. */
  datatype CameraEnv = CameraEnv(
    enumerated: Option<seq<Device>>,
    permission: Option<string>,
    acquired: Result<MediaStream, CameraError>)

  /** The foreign calls `startCamera` makes, in order. */
  datatype CameraCall = EnumerateDevices | QueryPermission | GetUserMedia(width: nat, height: nat, facingMode: string)

  const NoDevicesMessage: string := "No camera devices found. Please connect a camera and refresh the page."
  const DeniedMessage: string := "Camera permission has been denied. Please enable camera access in your browser settings."
  const NoVideoElementMessage: string := "Elemento de video no disponible. Actualiza la página."
  const PlayFailedMessage: string := "No se pudo iniciar la reproducción del video. Inténtalo de nuevo."
  const VideoElementErrorMessage: string := "Error en el elemento de video. Actualiza la página."

  /** The component's state, refs included: `stream` is `streamRef`, `videoSource` the video
      element's `srcObject`, `handlersAttached` whether a start has installed the element's
      handlers and the fallback timer. `stopped` records every `track.stop()` in order and
      `orphaned` every acquired stream that lost its last reference without being stopped. */
  datatype CamState = CamState(
    isStreaming: bool,
    error: Option<string>,
    cameraPermission: Option<bool>,
    stream: Option<MediaStream>,
    videoPresent: bool,
    videoSource: Option<MediaStream>,
    handlersAttached: bool,
    stopped: seq<TrackId>,
    orphaned: seq<MediaStream>,
    lastModel: string)

  /** The calls `startCamera` makes: a failed device check and a denied permission each end
      the sequence early. */
  function StartCalls(env: CameraEnv): (calls: seq<CameraCall>)
    ensures 1 <= |calls| <= 3 && calls[0] == EnumerateDevices
    ensures !CheckCameraAvailability(env.enumerated).available <==> calls == [EnumerateDevices]
    ensures GetUserMedia(640, 480, "user") in calls <==>
      CheckCameraAvailability(env.enumerated).available && env.permission != Some("denied")
  {
    if !CheckCameraAvailability(env.enumerated).available then [EnumerateDevices]
    else if env.permission == Some("denied") then [EnumerateDevices, QueryPermission]
    else [EnumerateDevices, QueryPermission, GetUserMedia(640, 480, "user")]
  }

  /** The state `startCamera` leaves once its awaited calls have answered. */
  function StartState(s: CamState, env: CameraEnv): (r: CamState)
    ensures r.isStreaming == s.isStreaming && r.lastModel == s.lastModel && r.stopped == s.stopped
    ensures !CheckCameraAvailability(env.enumerated).available ==>
      r == s.(error := Some(NoDevicesMessage), cameraPermission := Some(false))
    ensures CheckCameraAvailability(env.enumerated).available && env.permission == Some("denied") ==>
      r == s.(error := Some(DeniedMessage), cameraPermission := Some(false))
    ensures GetUserMedia(640, 480, "user") in StartCalls(env) && env.acquired.Err? ==>
      r == s.(error := Some(CameraErrorMessage(env.acquired.error)), cameraPermission := Some(false))
    ensures r.stream != s.stream ==>
      GetUserMedia(640, 480, "user") in StartCalls(env) && env.acquired.Ok? && s.videoPresent
      && r.stream == Some(env.acquired.value)
    ensures CheckCameraAvailability(env.enumerated).available && env.permission != Some("denied")
            && env.acquired.Ok? && s.videoPresent ==>
      r == s.(error := None, videoSource := Some(env.acquired.value), stream := Some(env.acquired.value),
              handlersAttached := true, orphaned := s.orphaned + (if s.stream.Some? then [s.stream.value] else []))
    ensures CheckCameraAvailability(env.enumerated).available && env.permission != Some("denied")
            && env.acquired.Ok? && !s.videoPresent ==>
      r == s.(error := Some(NoVideoElementMessage), orphaned := s.orphaned + [env.acquired.value])
    ensures |r.orphaned| >= |s.orphaned| && r.orphaned[..|s.orphaned|] == s.orphaned
  {
    var cleared := s.(error := None);
    if !CheckCameraAvailability(env.enumerated).available then
      cleared.(error := Some(NoDevicesMessage), cameraPermission := Some(false))
    else if env.permission == Some("denied") then
      cleared.(error := Some(DeniedMessage), cameraPermission := Some(false))
    else
      match env.acquired
      case Err(e) => cleared.(error := Some(CameraErrorMessage(e)), cameraPermission := Some(false))
      case Ok(stream) =>
        if s.videoPresent then
          cleared.(videoSource := Some(stream), stream := Some(stream), handlersAttached := true,
                   orphaned := s.orphaned + (if s.stream.Some? then [s.stream.value] else []))
        else
          cleared.(error := Some(NoVideoElementMessage), orphaned := s.orphaned + [stream])
  }

  /** The `onloadedmetadata` handler: `play()` resolves or rejects. */
  function LoadedState(s: CamState, playOk: bool): (r: CamState)
    ensures !(s.handlersAttached && s.videoPresent) ==> r == s
    ensures s.handlersAttached && s.videoPresent && playOk ==>
      r == s.(isStreaming := true, cameraPermission := Some(true), error := None)
    ensures s.handlersAttached && s.videoPresent && !playOk ==>
      r == s.(error := Some(PlayFailedMessage), cameraPermission := Some(false))
  {
    if !(s.handlersAttached && s.videoPresent) then s
    else if playOk then s.(isStreaming := true, cameraPermission := Some(true), error := None)
    else s.(error := Some(PlayFailedMessage), cameraPermission := Some(false))
  }

  /** The `onerror` handler. */
  function VideoErrorState(s: CamState): (r: CamState)
    ensures s.handlersAttached ==>
      r == s.(error := Some(VideoElementErrorMessage), cameraPermission := Some(false), isStreaming := false)
    ensures !s.handlersAttached ==> r == s
  {
    if s.handlersAttached then
      s.(error := Some(VideoElementErrorMessage), cameraPermission := Some(false), isStreaming := false)
    else s
  }

  /** The two-second fallback. Its `!isStreaming` test reads the value captured when the
      start callback was created, which is always `false`, so only the element's presence and
      error state decide; a failed `play()` is silent. */
  function FallbackState(s: CamState, videoHasError: bool, playOk: bool): (r: CamState)
    ensures s.handlersAttached && s.videoPresent && !videoHasError && playOk ==>
      r == s.(isStreaming := true, cameraPermission := Some(true), error := None)
    ensures !(s.handlersAttached && s.videoPresent && !videoHasError && playOk) ==> r == s
  {
    if s.handlersAttached && s.videoPresent && !videoHasError && playOk then
      s.(isStreaming := true, cameraPermission := Some(true), error := None)
    else s
  }

  /** `stopCamera()`: stop every track of the held stream, drop it, detach the element's source,
      mark not streaming. */
  function StopState(s: CamState): (r: CamState)
    ensures !r.isStreaming && r.stream.None?
    ensures s.videoPresent ==> r.videoSource.None?
    ensures r.stopped == s.stopped + (if s.stream.Some? then s.stream.value.tracks else [])
    ensures r.error == s.error && r.cameraPermission == s.cameraPermission && r.orphaned == s.orphaned
    ensures r.lastModel == s.lastModel && r.videoPresent == s.videoPresent
  {
    var afterStream := if s.stream.Some? then s.(stopped := s.stopped + s.stream.value.tracks, stream := None) else s;
    var afterVideo := if s.videoPresent then afterStream.(videoSource := None) else afterStream;
    afterVideo.(isStreaming := false)
  }

  /** The model-change effect for the current `selectedModel`. */
  function ModelEffectState(s: CamState, selectedModel: string): (r: CamState)
    ensures s.lastModel != selectedModel && s.isStreaming ==> r == StopState(s).(lastModel := selectedModel)
    ensures !(s.lastModel != selectedModel && s.isStreaming) ==> r == s
  {
    if s.lastModel != selectedModel && s.isStreaming then StopState(s).(lastModel := selectedModel) else s
  }

  /** `new File([blob], 'webcam-capture.jpg', { type: 'image/jpeg' })`. */
  function CaptureFile(blobSize: nat): BrowserFile
  {
    BrowserFile("webcam-capture.jpg", blobSize, "image/jpeg")
  }

  class CameraController {
    var isStreaming: bool
    var error: Option<string>
    var cameraPermission: Option<bool>
    var stream: Option<MediaStream>
    var videoPresent: bool
    var videoSource: Option<MediaStream>
    var handlersAttached: bool
    var stopped: seq<TrackId>
    var orphaned: seq<MediaStream>
    var lastModel: string

    function State(): CamState
      reads this
    {
      CamState(isStreaming, error, cameraPermission, stream, videoPresent, videoSource, handlersAttached,
               stopped, orphaned, lastModel)
    }

    /** First render with the initial `selectedModel`; `videoPresent` is whether the video
        element is mounted. */
    constructor (selectedModel: string, videoPresent: bool)
      ensures State() == CamState(false, None, None, None, videoPresent, None, false, [], [], selectedModel)
    {
      isStreaming, error, cameraPermission, stream := false, None, None, None;
      this.videoPresent, videoSource, handlersAttached := videoPresent, None, false;
      stopped, orphaned, lastModel := [], [], selectedModel;
    }

    /** `startCamera()`; returns the foreign calls made. */
    method StartCamera(env: CameraEnv) returns (calls: seq<CameraCall>)
      modifies this
      ensures calls == StartCalls(env)
      ensures State() == StartState(old(State()), env)
    {
      ghost var cleared := State().(error := None);
      error := None;
      calls := [EnumerateDevices];
      var availability := CheckCameraAvailability(env.enumerated);
      if !availability.available {
        error, cameraPermission := Some(NoDevicesMessage), Some(false);
        assert State() == cleared.(error := Some(NoDevicesMessage), cameraPermission := Some(false));
        return;
      }
      calls := calls + [QueryPermission];
      if env.permission == Some("denied") {
        error, cameraPermission := Some(DeniedMessage), Some(false);
        assert State() == cleared.(error := Some(DeniedMessage), cameraPermission := Some(false));
        return;
      }
      calls := calls + [GetUserMedia(640, 480, "user")];
      if env.acquired.Err? {
        var message := CameraErrorMessage(env.acquired.error);
        error, cameraPermission := Some(message), Some(false);
        assert State() == cleared.(error := Some(message), cameraPermission := Some(false));
        return;
      }
      var acquired := env.acquired.value;
      if videoPresent {
        var kept := orphaned + (if stream.Some? then [stream.value] else []);
        videoSource, stream, handlersAttached, orphaned := Some(acquired), Some(acquired), true, kept;
        assert State() == cleared.(videoSource := Some(acquired), stream := Some(acquired),
                                   handlersAttached := true, orphaned := kept);
      } else {
        error, orphaned := Some(NoVideoElementMessage), orphaned + [acquired];
        assert State() == cleared.(error := Some(NoVideoElementMessage), orphaned := orphaned);
      }
    }

    method OnLoadedMetadata(playOk: bool)
      modifies this
      ensures State() == LoadedState(old(State()), playOk)
    {
      if handlersAttached && videoPresent {
        if playOk {
          isStreaming, cameraPermission, error := true, Some(true), None;
        } else {
          error, cameraPermission := Some(PlayFailedMessage), Some(false);
        }
      }
    }

    method OnVideoError()
      modifies this
      ensures State() == VideoErrorState(old(State()))
    {
      if handlersAttached {
        error, cameraPermission, isStreaming := Some(VideoElementErrorMessage), Some(false), false;
      }
    }

    method OnFallbackTimer(videoHasError: bool, playOk: bool)
      modifies this
      ensures State() == FallbackState(old(State()), videoHasError, playOk)
    {
      if handlersAttached && videoPresent && !videoHasError && playOk {
        isStreaming, cameraPermission, error := true, Some(true), None;
      }
    }

    /** `stopCamera()`, also run on unmount. */
    method StopCamera()
      modifies this
      ensures State() == StopState(old(State()))
    {
      if stream.Some? {
        var tracks := stream.value.tracks;
        var done := stopped;
        var i := 0;
        while i < |tracks|
          invariant 0 <= i <= |tracks|
          invariant done == stopped + tracks[..i]
        {
          done := done + [tracks[i]];
          i := i + 1;
        }
        assert tracks[..i] == tracks;
        stopped := done;
        stream := None;
      }
      if videoPresent {
        videoSource := None;
      }
      isStreaming := false;
    }

    /** `captureFrame()` for the current `selectedModel`: it runs only while streaming with the
        video element, the canvas and its 2D context present, and calls `onDetection` only if
        the canvas yields a blob. A failure of `onDetection` is swallowed, so no state changes. */
    method CaptureFrame(canvasPresent: bool, contextPresent: bool, blobSize: Option<nat>, selectedModel: string)
      returns (detection: Option<(BrowserFile, string)>)
      ensures detection.Some? <==>
        isStreaming && videoPresent && canvasPresent && contextPresent && blobSize.Some?
      ensures detection.Some? ==> detection.value == (CaptureFile(blobSize.value), selectedModel)
    {
      if !videoPresent || !canvasPresent || !isStreaming {
        return None;
      }
      if !contextPresent {
        return None;
      }
      if blobSize.None? {
        return None;
      }
      return Some((CaptureFile(blobSize.value), selectedModel));
    }

    /** The model-change effect. */
    method ModelEffect(selectedModel: string)
      modifies this
      ensures State() == ModelEffectState(old(State()), selectedModel)
    {
      if lastModel != selectedModel && isStreaming {
        StopCamera();
        lastModel := selectedModel;
      }
    }
  }

  // ---------------------------------------------------------------------------------------
  // Properties

  /** Stopping twice is the same as stopping once. */
  lemma StopIdempotent(s: CamState)
    ensures StopState(StopState(s)) == StopState(s)
  {
  }

  /** Stopping stops every track of the held stream, and only those. */
  lemma StopStopsHeldTracks(s: CamState)
    requires s.stream.Some?
    ensures forall t :: t in s.stream.value.tracks ==> t in StopState(s).stopped
    ensures |StopState(s).stopped| == |s.stopped| + |s.stream.value.tracks|
  {
  }

  /** The model switch is recorded only while streaming: switching while stopped and then
      starting the camera makes the effect stop it as soon as playback begins, and only then
      does it record the new model. */
  lemma {:induction false} ModelChangeRecordedLate(s: CamState, env: CameraEnv, model: string)
    requires !s.isStreaming && s.lastModel != model && s.videoPresent && s.error.None?
    requires CheckCameraAvailability(env.enumerated).available && env.permission != Some("denied")
    requires env.acquired.Ok?
    ensures ModelEffectState(s, model) == s
    ensures var started := LoadedState(StartState(s, env), true);
      && started.isStreaming
      && var after := ModelEffectState(started, model);
         && !after.isStreaming && after.stream.None? && after.lastModel == model
         && after.stopped == s.stopped + env.acquired.value.tracks
  {
    var t := StartState(s, env);
    assert t.handlersAttached && t.stream == Some(env.acquired.value) && t.lastModel == s.lastModel;
  }

  /** Because the fallback ignores the current streaming flag, a fallback timer that fires
      after a stop, if `play()` then resolves, puts the panel back into the streaming state
      with no stream held. */
  lemma FallbackAfterStop(s: CamState)
    requires s.handlersAttached && s.videoPresent
    ensures FallbackState(StopState(s), false, true).isStreaming
    ensures FallbackState(StopState(s), false, true).stream.None?
  {
  }

  /** Starting again after a failed `play()` replaces the held stream without stopping it. */
  lemma RestartOrphansStream(s: CamState, env: CameraEnv)
    requires s.stream.Some? && s.videoPresent
    requires CheckCameraAvailability(env.enumerated).available && env.permission != Some("denied")
    requires env.acquired.Ok?
    ensures StartState(s, env).orphaned == s.orphaned + [s.stream.value]
    ensures StartState(s, env).stopped == s.stopped
  {
  }
}
