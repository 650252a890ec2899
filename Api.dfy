/** The browser's HTTP client (frontend/src/services/api.ts): the requests each call sends and
    the response interceptor that turns every failed request into an `Error` with a fixed
    message. The transport itself is foreign: a request's reply enters as a value. */
module Api {
  import opened Common
  import opened Wire

  const DefaultBaseUrl: string := "http://localhost:8000"
  /** The client's request timeout, in milliseconds. */
  const TimeoutMs: nat := 30000

  /** `import.meta.env.VITE_API_BASE_URL || 'http://localhost:8000'`. */
  function BaseUrl(env: Option<string>): (url: string)
    ensures Truthy(env) ==> url == env.value
    ensures !Truthy(env) ==> url == DefaultBaseUrl
  {
    if Truthy(env) then env.value else DefaultBaseUrl
  }

  /** A rejected request as the interceptor sees it: the response status and its `detail`
      (both absent when no response arrived), the error `code` and the error `message`. */
  datatype AxiosError = AxiosError(status: Option<int>, detail: Option<string>, code: Option<string>, message: Option<string>)

  /** What one request yields: the response body or the rejection. */
  datatype Reply<T> = Delivered(data: T) | Rejected(error: AxiosError)

  const TooLargeMessage: string := "File too large. Please choose a smaller file."
  const BadRequestMessage: string := "Bad request"
  const ServerErrorMessage: string := "Server error. Please try again later."
  const TimeoutMessage: string := "Request timeout. Please try again."
  const NetworkErrorMessage: string := "Network error"

  /** The message of the `Error` the response interceptor throws, checking 413, 400, 500,
      then a timeout code, in that order. */
  function InterceptorMessage(e: AxiosError): (m: string)
    ensures e.status == Some(413) ==> m == TooLargeMessage
    ensures e.status == Some(400) ==> m == (if Truthy(e.detail) then e.detail.value else BadRequestMessage)
    ensures e.status == Some(500) ==> m == ServerErrorMessage
    ensures e.status !in {Some(413), Some(400), Some(500)} && e.code == Some("ECONNABORTED") ==> m == TimeoutMessage
    ensures e.status !in {Some(413), Some(400), Some(500)} && e.code != Some("ECONNABORTED") ==>
      m == (if Truthy(e.message) then e.message.value else NetworkErrorMessage)
    ensures m != ""
  {
    if e.status == Some(413) then TooLargeMessage
    else if e.status == Some(400) then (if Truthy(e.detail) then e.detail.value else BadRequestMessage)
    else if e.status == Some(500) then ServerErrorMessage
    else if e.code == Some("ECONNABORTED") then TimeoutMessage
    else if Truthy(e.message) then e.message.value
    else NetworkErrorMessage
  }

  /** What an awaited client call produces: the body, or the message of the thrown `Error`. */
  function Resolve<T>(reply: Reply<T>): (r: Result<T, string>)
    ensures reply.Delivered? <==> r.Ok?
    ensures reply.Delivered? ==> r.value == reply.data
    ensures reply.Rejected? ==> r.error == InterceptorMessage(reply.error)
  {
    match reply
    case Delivered(data) => Ok(data)
    case Rejected(e) => Err(InterceptorMessage(e))
  }

  /** A multipart form field. */
  datatype FormValue = FileValue(file: BrowserFile) | TextValue(text: string)

  /** One request the client sends: verb, path under the base URL, form fields in order, and
      the explicit `Content-Type` header. */
  datatype Request = Request(verb: string, path: string, form: seq<(string, FormValue)>, contentType: Option<string>)

  /** The prefix under which the backend mounts its router; `/health` is outside it. */
  const ApiPrefix: string := "/api"

  /** `getModels()`: a bodiless GET of the router's `/models` under the prefix. */
  function GetModelsRequest(): (r: Request)
    ensures r.verb == "GET" && r.form == [] && r.contentType.None?
    ensures StartsWith(r.path, ApiPrefix) && r.path[|ApiPrefix|..] == "/models"
  {
    Request("GET", "/api/models", [], None)
  }

  /** `healthCheck()`: the application-level `/health`, outside the `/api` prefix. */
  function HealthCheckRequest(): (r: Request)
    ensures r.verb == "GET" && r.form == [] && r.contentType.None?
    ensures !StartsWith(r.path, ApiPrefix)
  {
    assert "/health"[1] != ApiPrefix[1];
    Request("GET", "/health", [], None)
  }

  function DetectRequest(path: string, file: BrowserFile, model: string): Request
  {
    Request("POST", path, [("file", FileValue(file)), ("model", TextValue(model))], Some("multipart/form-data"))
  }

  /** `detectImage(file, model)`: the form carries the file and the model id and nothing else,
      so a detection configuration the caller holds never reaches the server. */
  function DetectImageRequest(file: BrowserFile, model: string): (r: Request)
    ensures r.verb == "POST" && r.path == "/api/detect/image"
    ensures |r.form| == 2 && r.form[0] == ("file", FileValue(file)) && r.form[1] == ("model", TextValue(model))
    ensures r.contentType == Some("multipart/form-data")
  {
    DetectRequest("/api/detect/image", file, model)
  }

  /** `detectVideo(file, model)`, with the same form. */
  function DetectVideoRequest(file: BrowserFile, model: string): (r: Request)
    ensures r.verb == "POST" && r.path == "/api/detect/video"
    ensures |r.form| == 2 && r.form[0] == ("file", FileValue(file)) && r.form[1] == ("model", TextValue(model))
    ensures r.contentType == Some("multipart/form-data")
  {
    DetectRequest("/api/detect/video", file, model)
  }

  /** The two detection requests differ only in their path. */
  lemma DetectRequestsShareForm(file: BrowserFile, model: string)
    ensures DetectImageRequest(file, model).form == DetectVideoRequest(file, model).form
    ensures DetectImageRequest(file, model).path != DetectVideoRequest(file, model).path
  {
    assert DetectImageRequest(file, model).path[12] == 'i';
    assert DetectVideoRequest(file, model).path[12] == 'v';
  }

  /** A 400 with a non-empty `detail` hands that text to the caller unchanged, whatever the
      code and message; without one the caller sees "Bad request". */
  lemma BadRequestDetailSurvives(detail: Option<string>, code: Option<string>, message: Option<string>)
    ensures InterceptorMessage(AxiosError(Some(400), detail, code, message)) ==
      if Truthy(detail) then detail.value else BadRequestMessage
  {
  }

  /** The status checks win over the timeout code, and the five fixed messages are distinct, so
      a caller can tell the failure classes apart. */
  lemma ClassesDistinct(detail: Option<string>, message: Option<string>)
    ensures InterceptorMessage(AxiosError(Some(413), detail, Some("ECONNABORTED"), message)) == TooLargeMessage
    ensures InterceptorMessage(AxiosError(None, detail, Some("ECONNABORTED"), message)) == TimeoutMessage
    ensures |{TooLargeMessage, BadRequestMessage, ServerErrorMessage, TimeoutMessage, NetworkErrorMessage}| == 5
  {
    assert |TooLargeMessage| == 45;
    assert BadRequestMessage[0] == 'B';
    assert ServerErrorMessage[0] == 'S';
    assert TimeoutMessage[0] == 'R';
    assert NetworkErrorMessage[0] == 'N';
  }
}
