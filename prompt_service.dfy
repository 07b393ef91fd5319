/** The prompt service: a generic request helper over `fetch` that merges
    headers, turns failed responses into errors and rewords network errors,
    plus the prompt API built on it, whose argument checks run before any
    request is made. The network is an outcome supplied by the caller. */
module PromptService {
  import opened Wrappers
  import opened JsText
  import opened Json
  import JsNumber

  const ApiBaseUrl: String := "https://app-contentgen-qa-cshmb8dnhya0bdhf.eastus2-01.azurewebsites.net"

  /** A thrown JavaScript error: its `name` and its `message`. */
  datatype ErrorValue = ErrorValue(name: String, message: String)

  /** `new Error(message)`. */
  function PlainError(message: String): (e: ErrorValue)
    ensures e.name == "Error" && e.message == message
  {
    ErrorValue("Error", message)
  }

  /** The options a caller passes: method, body and extra headers. */
  datatype Options = Options(verb: String, body: Option<Json>, headers: map<String, String>)

  /** The configuration handed to `fetch`. */
  datatype Config = Config(verb: String, body: Option<Json>, headers: map<String, String>, credentials: String)

  datatype Request = Request(url: String, config: Config)

  const DefaultHeaders: map<String, String> :=
    map["Content-Type" := "application/json", "ngrok-skip-browser-warning" := "true", "Accept" := "application/json"]

  /** `{ ...options, headers: { ...defaultHeaders, ...options.headers }, credentials: 'omit' }`. */
  function ConfigFor(options: Options): (c: Config)
    ensures c.verb == options.verb && c.body == options.body
    ensures c.credentials == "omit"
    ensures c.headers.Keys == DefaultHeaders.Keys + options.headers.Keys
    ensures forall h :: h in options.headers ==> c.headers[h] == options.headers[h]
    ensures forall h :: h in DefaultHeaders && h !in options.headers ==> c.headers[h] == DefaultHeaders[h]
  {
    Config(options.verb, options.body, DefaultHeaders + options.headers, "omit")
  }

  /** Without caller headers the request carries exactly the three defaults. */
  lemma NoCallerHeaders(verb: String, body: Option<Json>)
    ensures ConfigFor(Options(verb, body, map[])).headers == DefaultHeaders
  {
  }

  /** A response body: what `response.json()` yields, or the error it throws. */
  datatype Body = Unparseable(parseError: ErrorValue) | Parsed(value: Json)

  datatype Response = Response(ok: bool, status: int, statusText: String, contentLength: Option<String>, body: Body)

  /** What `await fetch(...)` does: it resolves to a response or rejects. */
  datatype FetchOutcome = Responded(response: Response) | FetchRejected(error: ErrorValue)

  const StatusPrefix: String := "API request failed with status: "
  const NetworkMessage: String := "Network error: Please check if the backend server is running and CORS is properly configured"
  const EmptySuccess: Json := JObject(map["message" := JString("Success")])

  function StatusMessage(status: int): String
  {
    StatusPrefix + IntToString(status)
  }

  /** The message of a failed response: the body's truthy `detail`, else its
      truthy `message`, else the status message; when the body does not parse
      to an object-like value (reading `detail` of `null` throws as well), the
      status text if there is one, else the status message. */
  function FailureMessage(r: Response): String
  {
    if r.body.Parsed? && r.body.value != JNull then
      var detail := Get(r.body.value, "detail");
      var message := Get(r.body.value, "message");
      if HasTruthy(detail) then StringOf(detail.v)
      else if HasTruthy(message) then StringOf(message.v)
      else StatusMessage(r.status)
    else if r.statusText != [] then r.statusText
    else StatusMessage(r.status)
  }

  /** The message is picked step by step, as the handler reassigns
      `errorMessage` across its inner `try`/`catch`. */
  method ErrorMessageOf(r: Response) returns (errorMessage: String)
    ensures errorMessage == FailureMessage(r)
  {
    errorMessage := StatusMessage(r.status);
    match r.body {
      case Unparseable(_) =>
        errorMessage := if r.statusText != [] then r.statusText else errorMessage;
      case Parsed(errorData) =>
        var detail := Get(errorData, "detail");
        if detail.ThrowsTypeError? {
          errorMessage := if r.statusText != [] then r.statusText else errorMessage;
        } else {
          var message := Get(errorData, "message");
          if HasTruthy(detail) {
            errorMessage := StringOf(detail.v);
          } else if HasTruthy(message) {
            errorMessage := StringOf(message.v);
          }
        }
    }
  }

  /** The server said nothing usable, so the status message is chosen. */
  predicate FallsBackToStatus(r: Response)
  {
    if r.body.Parsed? && r.body.value != JNull then
      !HasTruthy(Get(r.body.value, "detail")) && !HasTruthy(Get(r.body.value, "message"))
    else r.statusText == []
  }

  /** The fallback message names the status, and `parseInt` reads it back. */
  lemma FallbackNamesStatus(r: Response)
    requires FallsBackToStatus(r)
    ensures var m := FailureMessage(r);
      |StatusPrefix| <= |m| && m[..|StatusPrefix|] == StatusPrefix
      && JsNumber.ParseInt(m[|StatusPrefix|..]) == JsNumber.IntValue(r.status)
  {
    var m := FailureMessage(r);
    assert m == StatusPrefix + IntToString(r.status);
    assert m[|StatusPrefix|..] == IntToString(r.status);
    JsNumber.ParseIntOfIntToString(r.status);
  }

  /** A truthy `detail` always wins, whatever the message and status say. */
  lemma DetailWins(r: Response, r': Response)
    requires r.body == r'.body && r.body.Parsed? && HasTruthy(Get(r.body.value, "detail"))
    ensures FailureMessage(r) == FailureMessage(r')
  {
  }

  /** The outer `catch`: a `TypeError` mentioning fetch becomes the network
      message; every other error is rethrown as it is. */
  function Rewrap(e: ErrorValue): (r: ErrorValue)
    ensures e.name == "TypeError" && Contains(e.message, "fetch") ==> r == PlainError(NetworkMessage)
    ensures !(e.name == "TypeError" && Contains(e.message, "fetch")) ==> r == e
  {
    if e.name == "TypeError" && Contains(e.message, "fetch") then PlainError(NetworkMessage) else e
  }

  /** Rewording is done once: the network error is not reworded again. */
  lemma RewrapIdempotent(e: ErrorValue)
    ensures Rewrap(Rewrap(e)) == Rewrap(e)
  {
  }

  /** No body is read for 204 or an explicit zero length. */
  predicate IsEmptyResponse(r: Response)
  {
    r.status == 204 || r.contentLength == Some("0")
  }

  /** What awaiting `apiRequest` yields: the value it resolves to, or the
      error it rejects with. */
  function ApiResult(outcome: FetchOutcome): (r: Result<Json, ErrorValue>)
    ensures r.Success? <==>
      outcome.Responded? && outcome.response.ok && (IsEmptyResponse(outcome.response) || outcome.response.body.Parsed?)
    ensures outcome.Responded? && !outcome.response.ok ==> r == Failure(PlainError(FailureMessage(outcome.response)))
    ensures outcome.Responded? && outcome.response.ok && IsEmptyResponse(outcome.response) ==> r == Success(EmptySuccess)
    ensures outcome.Responded? && outcome.response.ok && !IsEmptyResponse(outcome.response) && outcome.response.body.Parsed? ==>
      r == Success(outcome.response.body.value)
    ensures outcome.Responded? && outcome.response.ok && !IsEmptyResponse(outcome.response) && outcome.response.body.Unparseable? ==>
      r == Failure(Rewrap(outcome.response.body.parseError))
    ensures r.Failure? && outcome.FetchRejected? ==> r.error == Rewrap(outcome.error)
  {
    match outcome
    case FetchRejected(e) => Failure(Rewrap(e))
    case Responded(resp) =>
      if !resp.ok then Failure(Rewrap(PlainError(FailureMessage(resp))))
      else if IsEmptyResponse(resp) then Success(EmptySuccess)
      else match resp.body
        case Unparseable(e) => Failure(Rewrap(e))
        case Parsed(j) => Success(j)
  }

  /** A call of the prompt API: refused by its own checks before any request
      (a synchronous throw), or sent with the result its promise settles to. */
  datatype Call = RejectedBeforeRequest(error: ErrorValue) | Sent(request: Request, result: Result<Json, ErrorValue>)

  /** The settled result a caller awaiting the call inside `try` sees. */
  function Settled(c: Call): Result<Json, ErrorValue>
  {
    match c
    case RejectedBeforeRequest(e) => Failure(e)
    case Sent(_, r) => r
  }

  /** `apiRequest(endpoint, options)`. */
  function ApiRequest(endpoint: String, options: Options, outcome: FetchOutcome): (c: Call)
    ensures c.Sent? && c.request == Request(ApiBaseUrl + endpoint, ConfigFor(options))
    ensures c.result == ApiResult(outcome)
  {
    Sent(Request(ApiBaseUrl + endpoint, ConfigFor(options)), ApiResult(outcome))
  }

  /** `getPrompts()`. */
  function GetPrompts(outcome: FetchOutcome): (c: Call)
    ensures c.Sent? && c.request.url == ApiBaseUrl + "/prompts" && c.request.config.verb == "GET"
    ensures c.request.config.body == None && c.result == ApiResult(outcome)
  {
    ApiRequest("/prompts", Options("GET", None, map[]), outcome)
  }

  const PromptDataRequired: String := "New prompt data is required"
  const PromptNameRequired: String := "Prompt name is required"
  const DeleteIdRequired: String := "promptId is required for DELETE"
  const PatchIdRequired: String := "promptId is required for PATCH"
  const PatchFieldsRequired: String := "updatedFields are required for PATCH"
  const TokenLimitRequired: String := "Token limit data is required"

  /** A JavaScript argument: `None` is `undefined`. */
  predicate Given(a: Option<Json>)
  {
    a.Some? && Truthy(a.value)
  }

  /** `createPrompt(newPrompt)`. */
  function CreatePrompt(newPrompt: Option<Json>, outcome: FetchOutcome): (c: Call)
    ensures !Given(newPrompt) ==> c == RejectedBeforeRequest(PlainError(PromptDataRequired))
    ensures Given(newPrompt) && !HasTruthy(Get(newPrompt.value, "name")) ==> c == RejectedBeforeRequest(PlainError(PromptNameRequired))
    ensures c.Sent? <==> Given(newPrompt) && HasTruthy(Get(newPrompt.value, "name"))
    ensures c.Sent? ==> (c.request.url == ApiBaseUrl + "/prompts" && c.request.config.verb == "POST"
      && c.request.config.body == newPrompt && c.result == ApiResult(outcome))
  {
    if !Given(newPrompt) then RejectedBeforeRequest(PlainError(PromptDataRequired))
    else if !HasTruthy(Get(newPrompt.value, "name")) then RejectedBeforeRequest(PlainError(PromptNameRequired))
    else ApiRequest("/prompts", Options("POST", newPrompt, map[]), outcome)
  }

  /** The path of one prompt: the id is interpolated with `String(id)`. */
  function PromptPath(promptId: Json): String
  {
    "/prompts/" + StringOf(promptId)
  }

  /** `deletePrompt(promptId)`. */
  function DeletePrompt(promptId: Option<Json>, outcome: FetchOutcome): (c: Call)
    ensures c.RejectedBeforeRequest? <==> !Given(promptId)
    ensures c.RejectedBeforeRequest? ==> c.error == PlainError(DeleteIdRequired)
    ensures c.Sent? ==> (c.request.url == ApiBaseUrl + PromptPath(promptId.value)
      && c.request.config.verb == "DELETE" && c.request.config.body == None && c.result == ApiResult(outcome))
  {
    if !Given(promptId) then RejectedBeforeRequest(PlainError(DeleteIdRequired))
    else ApiRequest(PromptPath(promptId.value), Options("DELETE", None, map[]), outcome)
  }

  /** `Object.keys(v).length` for a value that is not `null`. */
  function KeyCount(j: Json): nat
  {
    match j
    case JObject(f) => |f|
    case JArray(items) => |items|
    case JString(s) => |s|
    case _ => 0
  }

  /** The fields of a PATCH are given and have at least one key. */
  predicate HasFields(updatedFields: Option<Json>)
  {
    Given(updatedFields) && KeyCount(updatedFields.value) != 0
  }

  /** `updatePrompt(promptId, updatedFields)`: both checks use truthiness,
      so the id 0 is refused like a missing one. */
  function UpdatePrompt(promptId: Option<Json>, updatedFields: Option<Json>, outcome: FetchOutcome): (c: Call)
    ensures !Given(promptId) ==> c == RejectedBeforeRequest(PlainError(PatchIdRequired))
    ensures Given(promptId) && !HasFields(updatedFields) ==> c == RejectedBeforeRequest(PlainError(PatchFieldsRequired))
    ensures c.Sent? <==> Given(promptId) && HasFields(updatedFields)
    ensures c.Sent? ==> (c.request.url == ApiBaseUrl + PromptPath(promptId.value)
      && c.request.config.verb == "PATCH" && c.request.config.body == updatedFields && c.result == ApiResult(outcome))
  {
    if !Given(promptId) then RejectedBeforeRequest(PlainError(PatchIdRequired))
    else if !HasFields(updatedFields) then RejectedBeforeRequest(PlainError(PatchFieldsRequired))
    else ApiRequest(PromptPath(promptId.value), Options("PATCH", updatedFields, map[]), outcome)
  }

  /** An object with a single key always passes the fields check. */
  lemma SingleFieldAccepted(key: String, v: Json)
    ensures HasFields(Some(JObject(map[key := v])))
  {
  }

  /** As written, an update of the prompt with id 0 never reaches the
      network, whatever the fields and the server. */
  lemma ZeroIdNeverSent(updatedFields: Option<Json>, outcome: FetchOutcome)
    ensures UpdatePrompt(Some(JInt(0)), updatedFields, outcome) == RejectedBeforeRequest(PlainError(PatchIdRequired))
  {
  }

  /** An id is missing only when it is `null` or `undefined`. */
  predicate IdPresent(promptId: Option<Json>)
  {
    promptId.Some? && promptId.value != JNull
  }

  /** The update as evidently intended: only a missing id is refused. */
  function UpdatePromptCorrected(promptId: Option<Json>, updatedFields: Option<Json>, outcome: FetchOutcome): (c: Call)
    ensures c.Sent? <==> IdPresent(promptId) && HasFields(updatedFields)
    ensures c.Sent? ==> (c.request.url == ApiBaseUrl + PromptPath(promptId.value)
      && c.request.config.verb == "PATCH" && c.request.config.body == updatedFields && c.result == ApiResult(outcome))
  {
    if !IdPresent(promptId) then RejectedBeforeRequest(PlainError(PatchIdRequired))
    else if !HasFields(updatedFields) then RejectedBeforeRequest(PlainError(PatchFieldsRequired))
    else ApiRequest(PromptPath(promptId.value), Options("PATCH", updatedFields, map[]), outcome)
  }

  /** The corrected update sends id 0 to `/prompts/0`, and agrees with the
      original on every truthy id. */
  lemma CorrectedUpdateSendsZero(promptId: Option<Json>, updatedFields: Option<Json>, outcome: FetchOutcome)
    requires HasFields(updatedFields)
    ensures UpdatePromptCorrected(Some(JInt(0)), updatedFields, outcome).request.url == ApiBaseUrl + "/prompts/0"
    ensures Given(promptId) ==> UpdatePromptCorrected(promptId, updatedFields, outcome) == UpdatePrompt(promptId, updatedFields, outcome)
  {
    assert PromptPath(JInt(0)) == "/prompts/" + NatToString(0);
  }

  /** The token limit `getPromptTokenLimit` resolves to (served without a request). */
  const MockTokenLimit: Json := JObject(map["limit" := JInt(4000)])

  /** `updatePromptTokenLimit(limitData)`: the limit is echoed back. A limit
      of `null` counts as given, since only `undefined` is refused. */
  function UpdatePromptTokenLimit(limitData: Option<Json>): (r: Result<Json, ErrorValue>)
    ensures r.Failure? <==> !Given(limitData) || Get(limitData.value, "limit") == Undefined
    ensures r.Failure? ==> r.error == PlainError(TokenLimitRequired)
    ensures r.Success? ==> Get(r.value, "limit") == Get(limitData.value, "limit")
  {
    if !Given(limitData) then Failure(PlainError(TokenLimitRequired))
    else match Get(limitData.value, "limit")
      case Value(v) => Success(JObject(map["limit" := v]))
      case _ => Failure(PlainError(TokenLimitRequired))
  }

  /** The request of `testConnection`: no content type, no body. */
  const HealthRequest: Request :=
    Request(ApiBaseUrl + "/health",
            Config("GET", None, map["ngrok-skip-browser-warning" := "true", "Accept" := "application/json"], "omit"))

  /** The request `testConnection` sends and what it resolves to. */
  datatype Probe = Probe(request: Request, connected: bool)

  /** `testConnection()`: a GET of `/health` without a content type or a
      body, sent past `apiRequest`; true exactly for an ok response, and it
      never throws. */
  function TestConnection(outcome: FetchOutcome): (p: Probe)
    ensures p.request.url == ApiBaseUrl + "/health"
    ensures p.request.config.verb == "GET" && p.request.config.body == None
    ensures p.request.config.credentials == "omit"
    ensures p.request.config.headers.Keys == {"ngrok-skip-browser-warning", "Accept"}
    ensures "Content-Type" !in p.request.config.headers
    ensures p.connected <==> outcome.Responded? && outcome.response.ok
  {
    var connected := match outcome
      case Responded(resp) => resp.ok
      case FetchRejected(_) => false;
    Probe(HealthRequest, connected)
  }
}
