/** The request pipeline of the API client: the fetch options it sends and
    the classification of a response into a result or an error. The fetch
    itself is an outcome parameter; the parsed JSON body is opaque (type
    parameter `J`) and seen through `view`, which tells what the error path
    reads of it. */
module ApiService {
  import opened Remote
  import opened Text

  const API_BASE_URL: string := "https://paladin-be-8eieva.fly.dev/"

  const NETWORK_ERROR: string := "Network error - please check your connection"

  const AUTH_REQUIRED: string := "Authentication required"

  /** What `responseData.message` finds: a null body throws, an object
      yields its `message` (`None` when absent or falsy), and another JSON
      value is used as the message itself (`text` is its string form). */
  datatype JsonView = JsonNull | JsonPrimitive(text: string) | JsonObject(message: Option<string>)

  /** A fetched response: status, content type, and what `json()` and
      `text()` would give. */
  datatype Fetched<J> = Fetched(status: int, contentType: Option<string>, json: Outcome<J>, text: Outcome<string>)

  /** What `makeRequest` resolves to: the 204 placeholder
      `{ message: 'Success', data: null }`, a parsed JSON body, or text. */
  datatype Body<J> = NoContent | JsonBody(value: J) | TextBody(text: string)

  /** The outcome of `makeRequest`, and whether it sent the browser to the
      login page. */
  datatype RequestResult<J> = RequestResult(url: string, init: RequestInit, result: Outcome<Body<J>>, redirectToLogin: bool)

  /** The fetch options a caller passes or `makeRequest` sends; `None` is an
      absent key. */
  datatype RequestInit = RequestInit(
    credentials: Option<string>,
    headers: Option<map<string, string>>,
    httpMethod: Option<string>,
    body: Option<string>)

  const NO_OPTIONS: RequestInit := RequestInit(None, None, None, None)

  /** The `TypeError` that reading `message` of a null body throws. */
  const NULL_BODY_ERROR: Thrown := Thrown("TypeError", "Cannot read properties of null (reading 'message')", true)

  predicate IsOk(status: int) {
    200 <= status <= 299
  }

  /** The headers as the code builds them, before the options spread. */
  function DefaultHeaders(callerHeaders: Option<map<string, string>>): map<string, string> {
    map["Content-Type" := "application/json"] + callerHeaders.GetOr(map[])
  }

  /** `{ credentials: 'include', headers: {...}, ...options }` as written:
      the final spread replaces the merged headers by the caller's own. */
  function FetchInitAsWritten(options: RequestInit): (r: RequestInit)
    ensures options.headers.Some? ==> r.headers == options.headers
  {
    RequestInit(
      Some(options.credentials.GetOr("include")),
      if options.headers.Some? then options.headers else Some(DefaultHeaders(None)),
      options.httpMethod,
      options.body)
  }

  /** The merge the code evidently intends: caller headers over the default
      `Content-Type`, the other caller options over the defaults. */
  function FetchInit(options: RequestInit): (r: RequestInit)
    ensures r.headers.Some? && "Content-Type" in r.headers.value
    ensures r.credentials == Some(options.credentials.GetOr("include"))
    ensures r.httpMethod == options.httpMethod && r.body == options.body
  {
    RequestInit(
      Some(options.credentials.GetOr("include")),
      Some(DefaultHeaders(options.headers)),
      options.httpMethod,
      options.body)
  }

  /** As written, a caller header such as `Authorization` loses the JSON
      content type. */
  lemma HeadersReplacedAsWritten()
    ensures var options := NO_OPTIONS.(headers := Some(map["Authorization" := "Bearer t"]));
      "Content-Type" !in FetchInitAsWritten(options).headers.value
      && "Content-Type" in FetchInit(options).headers.value
  {
  }

  /** The intended merge keeps the default unless the caller overrides it,
      keeps every caller header, and agrees with the code as written for
      every caller that passes no headers (as every caller in apiService.ts does). */
  lemma FetchInitMerges(options: RequestInit)
    ensures forall h :: h in options.headers.GetOr(map[]) ==>
      h in FetchInit(options).headers.value && FetchInit(options).headers.value[h] == options.headers.GetOr(map[])[h]
    ensures "Content-Type" !in options.headers.GetOr(map[]) ==>
      FetchInit(options).headers.value["Content-Type"] == "application/json"
    ensures options.headers.None? ==>
      FetchInit(options) == FetchInitAsWritten(options)
      && FetchInit(options).headers == Some(map["Content-Type" := "application/json"])
  {
    var d := DefaultHeaders(None);
    assert d.Keys == {"Content-Type"};
    assert d == map["Content-Type" := "application/json"];
  }

  /** The body read: none for 204, JSON when the content type mentions
      `application/json`, text otherwise; a failing read throws. */
  function ReadBody<J>(r: Fetched<J>): Outcome<Body<J>> {
    if r.status == 204 then Success(NoContent)
    else if r.contentType.Some? && Contains(r.contentType.value, "application/json") then
      match r.json
      case Success(j) => Success(JsonBody(j))
      case Failure(e) => Failure(e)
    else
      match r.text
      case Success(t) => Success(TextBody(t))
      case Failure(e) => Failure(e)
  }

  /** The `errorMessage` of a non-ok response: `typeof responseData ===
      'object' ? responseData.message || 'HTTP <status>' : responseData`. */
  function ErrorDetail<J>(body: Body<J>, status: int, view: J -> JsonView): Outcome<string> {
    match body
    case NoContent => Success("Success")
    case TextBody(t) => Success(t)
    case JsonBody(j) =>
      match view(j)
      case JsonNull => Failure(NULL_BODY_ERROR)
      case JsonPrimitive(t) => Success(t)
      case JsonObject(m) => Success(if m.Some? && m.value != "" then m.value else "HTTP " + IntToString(status))
  }

  function ApiErrorMessage(status: int, detail: string): string {
    "API Error: " + IntToString(status) + " - " + detail
  }

  /** The `catch`: a `TypeError` mentioning `fetch` becomes the network
      error; anything else is rethrown unchanged. */
  function Translate(e: Thrown): (r: Thrown)
    ensures e.name == "TypeError" && e.isError && Contains(e.message, "fetch") ==> r == PlainError(NETWORK_ERROR)
    ensures !(e.name == "TypeError" && e.isError && Contains(e.message, "fetch")) ==> r == e
  {
    if e.name == "TypeError" && e.isError && Contains(e.message, "fetch") then PlainError(NETWORK_ERROR) else e
  }

  /** Translating is idempotent: the network error is a plain `Error`, which
      the `catch` passes through, so an outer `makeRequest` around an inner
      one reports the same error as the inner one. */
  lemma TranslateIdempotent(e: Thrown)
    ensures Translate(Translate(e)) == Translate(e)
    ensures Translate(e) != e <==> e.name == "TypeError" && e.isError && Contains(e.message, "fetch")
  {
  }

  /** The body of the `try` after the fetch resolved. */
  function Classify<J>(r: Fetched<J>, view: J -> JsonView, hasWindow: bool): (Outcome<Body<J>>, bool) {
    match ReadBody(r)
    case Failure(e) => (Failure(e), false)
    case Success(body) =>
      if IsOk(r.status) then (Success(body), false)
      else if r.status == 401 then (Failure(PlainError(AUTH_REQUIRED)), hasWindow)
      else match ErrorDetail(body, r.status, view)
        case Failure(e) => (Failure(e), false)
        case Success(detail) => (Failure(PlainError(ApiErrorMessage(r.status, detail))), false)
  }

  /** `makeRequest(path, options)`. */
  function MakeRequest<J>(path: string, options: RequestInit, fetched: Outcome<Fetched<J>>, view: J -> JsonView, hasWindow: bool): (rr: RequestResult<J>)
    ensures rr.url == API_BASE_URL + path && rr.init == FetchInit(options)
    ensures rr.result.Failure? ==>
      !(rr.result.error.name == "TypeError" && rr.result.error.isError && Contains(rr.result.error.message, "fetch"))
  {
    var url := API_BASE_URL + path;
    match fetched
    case Failure(e) => RequestResult(url, FetchInit(options), Failure(Translate(e)), false)
    case Success(r) =>
      var (res, redirect) := Classify(r, view, hasWindow);
      match res
      case Success(body) => RequestResult(url, FetchInit(options), Success(body), redirect)
      case Failure(e) => RequestResult(url, FetchInit(options), Failure(Translate(e)), redirect)
  }

  /** A 204 resolves to the placeholder without reading the body, whatever
      the body would have been. */
  lemma NoContentIgnoresBody<J>(path: string, options: RequestInit, r: Fetched<J>, view: J -> JsonView, hasWindow: bool)
    requires r.status == 204
    ensures MakeRequest(path, options, Success(r), view, hasWindow).result == Success(NoContent)
    ensures !MakeRequest(path, options, Success(r), view, hasWindow).redirectToLogin
  {
  }

  /** An ok response other than 204 resolves to its body unchanged: parsed
      JSON exactly when the content type mentions `application/json`. */
  lemma OkBodyReturned<J>(path: string, options: RequestInit, r: Fetched<J>, view: J -> JsonView, hasWindow: bool)
    requires IsOk(r.status) && r.status != 204
    ensures var isJson := r.contentType.Some? && Contains(r.contentType.value, "application/json");
      var res := MakeRequest(path, options, Success(r), view, hasWindow).result;
      && (isJson && r.json.Success? ==> res == Success(JsonBody(r.json.value)))
      && (!isJson && r.text.Success? ==> res == Success(TextBody(r.text.value)))
  {
  }

  /** A readable 401 fails with "Authentication required" and redirects
      when there is a window; an unreadable one fails with the read error
      and does not redirect. */
  lemma UnauthorizedFails<J>(path: string, options: RequestInit, r: Fetched<J>, view: J -> JsonView, hasWindow: bool)
    requires r.status == 401
    ensures var rr := MakeRequest(path, options, Success(r), view, hasWindow);
      ReadBody(r).Success? ==> rr.result == Failure(PlainError(AUTH_REQUIRED)) && rr.redirectToLogin == hasWindow
    ensures var rr := MakeRequest(path, options, Success(r), view, hasWindow);
      ReadBody(r).Failure? ==> rr.result == Failure(Translate(ReadBody(r).error)) && !rr.redirectToLogin
  {
  }

  /** Any other failing status fails with `API Error: <status> - <m>`,
      where `m` is the object's message or `HTTP <status>`, or the text.
      A null JSON body throws its `TypeError` instead. */
  lemma ErrorStatusMessage<J>(path: string, options: RequestInit, r: Fetched<J>, view: J -> JsonView, hasWindow: bool)
    requires !IsOk(r.status) && r.status != 401 && r.status != 204
    ensures var rr := MakeRequest(path, options, Success(r), view, hasWindow);
      && !rr.redirectToLogin
      && (ReadBody(r).Success? && ReadBody(r).value.TextBody? ==>
            rr.result == Failure(PlainError(ApiErrorMessage(r.status, ReadBody(r).value.text))))
      && (ReadBody(r).Success? && ReadBody(r).value.JsonBody? ==>
            match view(ReadBody(r).value.value)
            case JsonObject(m) =>
              rr.result == Failure(PlainError(ApiErrorMessage(r.status,
                if m.Some? && m.value != "" then m.value else "HTTP " + IntToString(r.status))))
            case JsonPrimitive(t) => rr.result == Failure(PlainError(ApiErrorMessage(r.status, t)))
            case JsonNull => rr.result == Failure(Translate(NULL_BODY_ERROR)))
  {
  }

  /** A failed fetch whose `TypeError` mentions `fetch` becomes the network
      error; every other failure of the fetch propagates as it is. */
  lemma FetchFailureTranslated<J>(path: string, options: RequestInit, e: Thrown, view: J -> JsonView, hasWindow: bool)
    ensures var rr := MakeRequest(path, options, Failure(e), view, hasWindow);
      && !rr.redirectToLogin
      && (e.name == "TypeError" && e.isError && Contains(e.message, "fetch") ==> rr.result == Failure(PlainError(NETWORK_ERROR)))
      && (!(e.name == "TypeError" && e.isError && Contains(e.message, "fetch")) ==> rr.result == Failure(e))
  {
  }

  /** `getCurrentUser()`. */
  function GetCurrentUser<J>(fetched: Outcome<Fetched<J>>, view: J -> JsonView, hasWindow: bool): RequestResult<J> {
    MakeRequest("/auth/me", NO_OPTIONS, fetched, view, hasWindow)
  }

  /** `logout()`. */
  function Logout<J>(fetched: Outcome<Fetched<J>>, view: J -> JsonView, hasWindow: bool): RequestResult<J> {
    MakeRequest("/auth/logout", NO_OPTIONS.(httpMethod := Some("POST")), fetched, view, hasWindow)
  }

  /** `checkAuth()`: true exactly when `getCurrentUser()` resolves. */
  function CheckAuth<J>(fetched: Outcome<Fetched<J>>, view: J -> JsonView, hasWindow: bool): (ok: bool)
    ensures ok <==> GetCurrentUser(fetched, view, hasWindow).result.Success?
  {
    GetCurrentUser(fetched, view, hasWindow).result.Success?
  }

  /** `checkAuth` is false when the fetch fails and on any non-ok status,
      and true on an ok status whose body reads. */
  lemma CheckAuthCases<J>(fetched: Outcome<Fetched<J>>, view: J -> JsonView, hasWindow: bool)
    ensures fetched.Failure? ==> !CheckAuth(fetched, view, hasWindow)
    ensures fetched.Success? && !IsOk(fetched.value.status) ==> !CheckAuth(fetched, view, hasWindow)
    ensures fetched.Success? && IsOk(fetched.value.status) && ReadBody(fetched.value).Success? ==> CheckAuth(fetched, view, hasWindow)
  {
  }
}
