/** The detection hook (frontend/src/hooks/useDetection.ts): the page's detection state and the
    two request flows that update it, including the status polling after a video upload.
    React's state setters become field assignments; the value each field holds once a flow
    has finished is what the model states. */
module UseDetection {
  import opened Common
  import opened Wire
  import Api

  // ---------------------------------------------------------------------------------------
  // Polling the video status endpoint

  /** What one status query yields: `status.ready` truthy, falsy, or a failed fetch/parse. */
  datatype PollOutcome = Ready | NotReady | Failed

  /** The hard-coded status URL the hook fetches (it does not use the client's base URL). */
  function StatusUrl(filename: string): string
  {
    "http://localhost:8000/api/video/status/" + filename
  }

  /** The first attempt below `n` whose query reports ready. */
  function FirstReady(statusOf: nat -> PollOutcome, n: nat): (r: Option<nat>)
    ensures r.Some? ==> r.value < n && statusOf(r.value) == Ready
    ensures r.Some? ==> forall k :: 0 <= k < r.value ==> statusOf(k) != Ready
    ensures r.None? ==> forall k :: 0 <= k < n ==> statusOf(k) != Ready
  {
    if n == 0 then None
    else
      match FirstReady(statusOf, n - 1)
      case Some(k) => Some(k)
      case None => if statusOf(n - 1) == Ready then Some(n - 1) else None
  }

  /** `pollVideoStatus(filename, maxAttempts)`: query until one reports ready, for at most
      `maxAttempts` attempts; a failed query counts as an attempt and polling goes on. Returns
      whether it ended ready (otherwise it throws the timeout) and the URLs it fetched. */
  method PollVideoStatus(filename: string, maxAttempts: int, statusOf: nat -> PollOutcome)
    returns (ready: bool, fetched: seq<string>)
    ensures var limit := if maxAttempts < 0 then 0 else maxAttempts;
      && (ready <==> FirstReady(statusOf, limit).Some?)
      && |fetched| == (if ready then FirstReady(statusOf, limit).value + 1 else limit)
    ensures forall k :: 0 <= k < |fetched| ==> fetched[k] == StatusUrl(filename)
  {
    ghost var limit: nat := if maxAttempts < 0 then 0 else maxAttempts;
    fetched := [];
    var attempt := 0;
    while attempt < maxAttempts
      invariant 0 <= attempt <= limit
      invariant |fetched| == attempt
      invariant FirstReady(statusOf, attempt).None?
      invariant forall k :: 0 <= k < |fetched| ==> fetched[k] == StatusUrl(filename)
    {
      fetched := fetched + [StatusUrl(filename)];
      if statusOf(attempt) == Ready {
        FirstReadyExtends(statusOf, attempt + 1, limit);
        return true, fetched;
      }
      attempt := attempt + 1;
    }
    return false, fetched;
  }

  /** A ready attempt found below `k` is still the first one below any larger bound. */
  lemma {:induction false} FirstReadyExtends(statusOf: nat -> PollOutcome, k: nat, n: nat)
    requires k <= n
    requires FirstReady(statusOf, k).Some?
    ensures FirstReady(statusOf, n) == FirstReady(statusOf, k)
    decreases n - k
  {
    if k < n {
      FirstReadyExtends(statusOf, k, n - 1);
    }
  }

  const MaxPollAttempts: nat := 30

  // ---------------------------------------------------------------------------------------
  // Hook state and the flows over it

  /** The values the hook exposes. */
  datatype HookState = HookState(
    detections: seq<Detection>,
    processingTime: Option<real>,
    isProcessing: bool,
    error: Option<string>,
    resultImageUrl: Option<string>,
    resultVideoUrl: Option<string>,
    isVideoReady: bool)

  const Initial: HookState := HookState([], None, false, None, None, None, false)

  /** `clearResults()`: everything but `isProcessing` back to its initial value. */
  function Cleared(s: HookState): (r: HookState)
    ensures r == Initial.(isProcessing := s.isProcessing)
  {
    s.(detections := [], processingTime := None, error := None, resultImageUrl := None,
       resultVideoUrl := None, isVideoReady := false)
  }

  /** The first two setters of both flows. */
  function Started(s: HookState): HookState
  {
    s.(isProcessing := true, error := None)
  }

  /** The `catch` branch: `setError(message)` immediately followed by `clearResults()`, which
      sets the error back to null; then the `finally` branch. */
  function Caught(s: HookState, message: string): (r: HookState)
    ensures r == Initial
  {
    var withError := s.(error := Some(message));
    Cleared(withError).(isProcessing := false)
  }

  /** The state after `processImage` when the request ends with `reply`. */
  function AfterImage(s: HookState, reply: Api.Reply<DetectionResult>): (r: HookState)
    ensures !r.isProcessing && r.error.None?
    ensures reply.Delivered? && reply.data.success ==>
      && r.detections == reply.data.detections
      && r.processingTime == Some(reply.data.processingTime)
      && r.resultImageUrl == OrNull(reply.data.imageUrl)
      && r.resultVideoUrl.None?
      && r.isVideoReady == s.isVideoReady
    ensures !(reply.Delivered? && reply.data.success) ==> r == Initial
  {
    var started := Started(s);
    match Api.Resolve(reply)
    case Err(message) => Caught(started, message)
    case Ok(result) =>
      if result.success then
        started.(detections := result.detections, processingTime := Some(result.processingTime),
                 resultImageUrl := OrNull(result.imageUrl), resultVideoUrl := None, isProcessing := false)
      else Caught(started, "Detection failed")
  }

  /** The message the `catch` branch of `processImage` computes before clearing it. */
  function ImageFailureMessage(reply: Api.Reply<DetectionResult>): (m: Option<string>)
    ensures m.None? <==> reply.Delivered? && reply.data.success
    ensures reply.Rejected? ==> m == Some(Api.InterceptorMessage(reply.error))
  {
    match Api.Resolve(reply)
    case Err(message) => Some(message)
    case Ok(result) => if result.success then None else Some("Detection failed")
  }

  /** The file name `videoUrl.split('/').pop()` extracts. */
  function VideoFilename(videoUrl: string): (name: string)
    ensures '/' !in name
    ensures name == LastSegment(videoUrl, '/')
  {
    LastSegment(videoUrl, '/')
  }

  /** Whether the video flow polls: the server sent a truthy URL whose last segment is not
      empty. */
  predicate PollsFor(result: DetectionResult)
  {
    Truthy(result.videoUrl) && VideoFilename(result.videoUrl.value) != ""
  }

  /** The state after `processVideo` when the request ends with `reply` and the status queries
      answer `statusOf`. */
  function AfterVideo(s: HookState, reply: Api.Reply<DetectionResult>, statusOf: nat -> PollOutcome): (r: HookState)
    ensures !r.isProcessing && r.error.None?
    ensures reply.Delivered? && reply.data.success &&
            (!PollsFor(reply.data) || FirstReady(statusOf, MaxPollAttempts).Some?) ==>
      && r.detections == []
      && r.processingTime == Some(reply.data.processingTime)
      && r.resultImageUrl.None?
      && r.isVideoReady == s.isVideoReady
      && r.resultVideoUrl == (if PollsFor(reply.data) then reply.data.videoUrl else s.resultVideoUrl)
    ensures !(reply.Delivered? && reply.data.success) ==> r == Initial
    ensures reply.Delivered? && reply.data.success && PollsFor(reply.data) && FirstReady(statusOf, MaxPollAttempts).None? ==>
      r == Initial
  {
    var started := Started(s);
    match Api.Resolve(reply)
    case Err(message) => Caught(started, message)
    case Ok(result) =>
      if !result.success then Caught(started, "Video processing failed")
      else
        var shown := started.(detections := [], processingTime := Some(result.processingTime), resultImageUrl := None);
        if !PollsFor(result) then shown.(isProcessing := false)
        else if FirstReady(statusOf, MaxPollAttempts).Some? then
          shown.(resultVideoUrl := result.videoUrl, isProcessing := false)
        else Caught(shown, "Video processing timed out")
  }

  class DetectionHook {
    var detections: seq<Detection>
    var processingTime: Option<real>
    var isProcessing: bool
    var error: Option<string>
    var resultImageUrl: Option<string>
    var resultVideoUrl: Option<string>
    var isVideoReady: bool

    function State(): HookState
      reads this
    {
      HookState(detections, processingTime, isProcessing, error, resultImageUrl, resultVideoUrl, isVideoReady)
    }

    /** No flow ever sets `isVideoReady`. */
    ghost predicate Valid()
      reads this
    {
      !isVideoReady
    }

    constructor ()
      ensures Valid() && State() == Initial
    {
      detections, processingTime, isProcessing, error := [], None, false, None;
      resultImageUrl, resultVideoUrl, isVideoReady := None, None, false;
    }

    /** `clearResults()`. */
    method ClearResults()
      modifies this
      ensures Valid()
      ensures State() == Cleared(old(State()))
    {
      detections, processingTime, error := [], None, None;
      resultImageUrl, resultVideoUrl, isVideoReady := None, None, false;
    }

    /** The `catch` branch shared by both flows. */
    method Fail(message: string)
      modifies this
      ensures Valid()
      ensures State() == Caught(old(State()), message)
    {
      error := Some(message);
      ClearResults();
      isProcessing := false;
    }

    /** `processImage(file, model, config)`: returns the request sent and the message the
        `catch` branch computed, if it ran. */
    method ProcessImage(file: BrowserFile, model: string, config: Option<DetectionConfigValues>,
                        reply: Api.Reply<DetectionResult>)
      returns (sent: Api.Request, pending: HookState, caught: Option<string>)
      requires Valid()
      modifies this
      ensures Valid()
      ensures sent == Api.DetectImageRequest(file, model)
      ensures pending == Started(old(State())) && pending.isProcessing && pending.error.None?
      ensures State() == AfterImage(old(State()), reply)
      ensures caught == ImageFailureMessage(reply)
    {
      isProcessing, error := true, None;
      pending := State();
      sent := Api.DetectImageRequest(file, model);
      var resolved := Api.Resolve(reply);
      if resolved.Err? {
        caught := Some(resolved.error);
        Fail(resolved.error);
        return;
      }
      var result := resolved.value;
      if !result.success {
        caught := Some("Detection failed");
        Fail("Detection failed");
        return;
      }
      detections := result.detections;
      processingTime := Some(result.processingTime);
      resultImageUrl := OrNull(result.imageUrl);
      resultVideoUrl := None;
      caught := None;
      isProcessing := false;
    }

    /** `processVideo(file, model, config)`: returns the request sent, the state while the
        request is pending, the state while polling (if it polls) and the status URLs fetched. */
    method ProcessVideo(file: BrowserFile, model: string, config: Option<DetectionConfigValues>,
                        reply: Api.Reply<DetectionResult>, statusOf: nat -> PollOutcome)
      returns (sent: Api.Request, pending: HookState, polling: Option<HookState>, fetched: seq<string>)
      requires Valid()
      modifies this
      ensures Valid()
      ensures sent == Api.DetectVideoRequest(file, model)
      ensures pending == Started(old(State())) && pending.isProcessing && pending.error.None?
      ensures polling.Some? <==> reply.Delivered? && reply.data.success && PollsFor(reply.data)
      ensures polling.Some? ==>
        && polling.value.isProcessing && polling.value.detections == [] && polling.value.resultImageUrl.None?
        && polling.value.resultVideoUrl == old(resultVideoUrl)
      ensures State() == AfterVideo(old(State()), reply, statusOf)
      ensures |fetched| <= MaxPollAttempts
      ensures fetched != [] ==>
        && reply.Delivered? && reply.data.success && PollsFor(reply.data)
        && forall k :: 0 <= k < |fetched| ==> fetched[k] == StatusUrl(VideoFilename(reply.data.videoUrl.value))
    {
      ghost var before := State();
      isProcessing, error := true, None;
      assert State() == Started(before);
      pending := State();
      sent := Api.DetectVideoRequest(file, model);
      fetched, polling := [], None;
      var resolved := Api.Resolve(reply);
      if resolved.Err? {
        Fail(resolved.error);
        return;
      }
      var result := resolved.value;
      if !result.success {
        Fail("Video processing failed");
        return;
      }
      detections := [];
      processingTime := Some(result.processingTime);
      resultImageUrl := None;
      ghost var shown := State();
      assert shown == Started(before).(detections := [], processingTime := Some(result.processingTime), resultImageUrl := None);
      if Truthy(result.videoUrl) {
        var filename := VideoFilename(result.videoUrl.value);
        if filename != "" {
          polling := Some(State());
          var ready;
          ready, fetched := PollVideoStatus(filename, MaxPollAttempts, statusOf);
          if !ready {
            Fail("Video processing timed out");
            return;
          }
          resultVideoUrl := result.videoUrl;
          isProcessing := false;
          assert State() == shown.(resultVideoUrl := result.videoUrl, isProcessing := false);
          return;
        }
      }
      isProcessing := false;
      assert State() == shown.(isProcessing := false);
    }
  }

  /** The config argument both flows accept; the client drops it (see `Api.DetectImageRequest`). */
  type DetectionConfigValues = map<string, int>

  // ---------------------------------------------------------------------------------------
  // Properties of the flows

  /** Whatever goes wrong, the error the page shows after a flow is null: the message set in
      the `catch` branch is immediately overwritten by `clearResults()`. */
  lemma {:induction false} FailureLeavesNoError(s: HookState, e: Api.AxiosError, statusOf: nat -> PollOutcome)
    ensures AfterImage(s, Api.Rejected(e)) == Initial && AfterImage(s, Api.Rejected(e)).error.None?
    ensures AfterVideo(s, Api.Rejected(e), statusOf) == Initial
    ensures ImageFailureMessage(Api.Rejected(e)) == Some(Api.InterceptorMessage(e))
  {
  }

  /** A video URL ending in '/' is never polled and leaves the previous video URL in place. */
  lemma TrailingSlashKeepsOldVideo(s: HookState, result: DetectionResult, statusOf: nat -> PollOutcome)
    requires result.success && result.videoUrl.Some? && |result.videoUrl.value| > 0
    requires result.videoUrl.value[|result.videoUrl.value| - 1] == '/'
    ensures !PollsFor(result)
    ensures AfterVideo(s, Api.Delivered(result), statusOf).resultVideoUrl == s.resultVideoUrl
  {
    var url := result.videoUrl.value;
    assert LastIndexOf(url, '/') == |url| - 1;
  }

  /** Attempts 0..4 not ready and attempt 5 ready: six queries, then the URL is shown; thirty
      not-ready answers: the flow times out and clears everything. */
  lemma PollScenarios()
    ensures FirstReady(k => if k < 5 then NotReady else Ready, MaxPollAttempts) == Some(5)
    ensures FirstReady(k => if k < 30 then Failed else Ready, MaxPollAttempts).None?
  {
    var sixth: nat -> PollOutcome := k => if k < 5 then NotReady else Ready;
    assert FirstReady(sixth, 6) == Some(5);
    FirstReadyExtends(sixth, 6, MaxPollAttempts);
  }
}
