/** The HTTP gateway (lib/api-client.ts): one client through which every
    remote call goes. Before a request leaves, the credential is attached
    as a bearer header; after it returns, a success notification may be
    shown, and a failure is classified into a message, may clear the
    credential and force a redirect to the login screen, and may be shown
    as an error notification, before the original error is rejected.

    The transport itself is not modelled: what the server did is the input
    `Reply`. A reply with a 2xx status resolves; any other status, a
    missing response or a request that could not be set up rejects. */
module ApiClient {
  import opened Types
  import opened Strings
  import opened Token
  import opened Browser

  datatype Method = Get | Post | Put | Delete

  /** Request bodies, one variant per payload a service sends. */
  datatype Body =
    | NoBody
    | SignupBody(signup: SignupRequest)
    | LoginBody(login: LoginRequest)
    | CreateTaskBody(create: CreateTaskRequest)
    | UpdateTaskBody(update: UpdateTaskRequest)
    | UpdateProfileBody(profile: UpdateProfileRequest)
    | UpdatePasswordBody(password: UpdatePasswordRequest)

  /** What a service asks the gateway for: verb, path below the base URL,
      body and query parameters. */
  datatype Call = Call(verb: Method, url: string, body: Body, params: Option<TasksQueryParams>)

  /** A call as handed to the transport, with its headers. */
  datatype Request = Request(call: Call, headers: map<string, string>)

  /** What the server (or the network) did with a request. */
  datatype Reply =
    | Received(status: int, body: Option<ApiResponse>)
    | NoResponse
    /** The decorated request failed before it went out; `message` says why. */
    | NotSent(message: string)

  datatype Response = Response(status: int, body: Option<ApiResponse>)

  datatype ErrorKind =
    | ResponseError(status: int, data: Option<ApiResponse>)
    | NetworkError
    | SetupError(message: string)

  /** The rejected error: the requested path and what went wrong. */
  datatype HttpError = HttpError(url: string, kind: ErrorKind)

  /** Why a service call failed: the gateway rejected it with its original
      error, or the success envelope lacked the expected `data`. */
  datatype Fault = Rejected(error: HttpError) | Malformed

  const DefaultHeaders: map<string, string> := map["Content-Type" := "application/json"]

  const DefaultError := "An unexpected error occurred"
  const SessionExpired := "Session expired. Please login again"
  const ServerError := "Server error. Please try again later"
  const NetworkMessage := "Network error. Please check your connection"
  const OperationSuccessful := "Operation successful"

  // ------------------------------------------------------ request decorator

  /** The request interceptor: with a token in the slot, the header
      Authorization becomes "Bearer " + token; otherwise the request goes
      out as it is. No route is exempt. */
  function Decorate(call: Call, token: Option<string>): (r: Request)
    ensures r.call == call
    ensures "Authorization" in r.headers <==> Present(token)
    ensures Present(token) ==> r.headers["Authorization"] == "Bearer " + token.value
    ensures r.headers - {"Authorization"} == DefaultHeaders
  {
    if Present(token) then Request(call, DefaultHeaders["Authorization" := "Bearer " + token.value])
    else Request(call, DefaultHeaders)
  }

  // ------------------------------------------------- success notification

  predicate IsMutation(m: Method)
  {
    m == Post || m == Put || m == Delete
  }

  /** The body's message, when there is a body and its message is not empty. */
  function ServerMessage(data: Option<ApiResponse>): (m: Option<string>)
    ensures m.Some? ==> m.value != ""
  {
    if data.Some? && data.value.message != "" then Some(data.value.message) else None
  }

  /** The success interceptor's decision: the text of the success
      notification, if one is shown. */
  function SuccessNotice(call: Call, body: Option<ApiResponse>): (t: Option<string>)
    ensures t.Some? <==>
      IsMutation(call.verb) && !Contains(call.url, "/auth/") && !Contains(call.url, "/user/")
      && body.Some? && body.value.Success()
    ensures t.Some? ==> t.value == ServerMessage(body).GetOr(OperationSuccessful) && t.value != ""
  {
    if IsMutation(call.verb) then
      var isAuthEndpoint := Contains(call.url, "/auth/");
      var isUserEndpoint := Contains(call.url, "/user/");
      if !isAuthEndpoint && !isUserEndpoint then
        var message := ServerMessage(body).GetOr(OperationSuccessful);
        if body.Some? && body.value.Success() then Some(message) else None
      else None
    else None
  }

  // --------------------------------------------------- error classification

  /** The message the error interceptor settles on, stated status by status. */
  function ErrorMessage(kind: ErrorKind): string
  {
    match kind
    case ResponseError(status, data) =>
      if status == 401 then SessionExpired
      else if status == 403 then ServerMessage(data).GetOr("Access denied")
      else if status == 404 then ServerMessage(data).GetOr("Resource not found")
      else if status == 409 then ServerMessage(data).GetOr("Conflict - Resource already exists")
      else if (status == 400 || status == 422) && data.Some? && data.value.ApiError? && data.value.errors.Some?
      then Join(data.value.errors.value, ", ")
      else if status == 500 then ServerError
      else ServerMessage(data).GetOr(DefaultError)
    case NetworkError => NetworkMessage
    case SetupError(message) => if message != "" then message else DefaultError
  }

  predicate Unauthorized(kind: ErrorKind)
  {
    kind.ResponseError? && kind.status == 401
  }

  /** Only a 401 redirects, and only when not already on the login screen. */
  predicate RedirectsToLogin(kind: ErrorKind, pathname: string)
  {
    Unauthorized(kind) && !Contains(pathname, "/login")
  }

  /** Errors on the auth namespace are left to the form that made the call. */
  function ErrorNotices(err: HttpError): (ts: seq<Toast>)
    ensures |ts| <= 1
    ensures ts != [] <==> !Contains(err.url, "/auth/")
  {
    if Contains(err.url, "/auth/") then [] else [Plain(ErrorToast, ErrorMessage(err.kind))]
  }

  lemma SessionExpiry(url: string, data: Option<ApiResponse>)
    ensures ErrorMessage(ResponseError(401, data)) == SessionExpired
    ensures Unauthorized(ResponseError(401, data))
    ensures forall p | Contains(p, "/login") :: !RedirectsToLogin(ResponseError(401, data), p)
    ensures forall p | !Contains(p, "/login") :: RedirectsToLogin(ResponseError(401, data), p)
  {
  }

  /** 403, 404 and 409 prefer the server's message and fall back to a fixed one. */
  lemma ClientErrorFallbacks(data: Option<ApiResponse>)
    ensures ErrorMessage(ResponseError(403, data)) == (if ServerMessage(data).Some? then data.value.message else "Access denied")
    ensures ErrorMessage(ResponseError(404, data)) == (if ServerMessage(data).Some? then data.value.message else "Resource not found")
    ensures ErrorMessage(ResponseError(409, data)) == (if ServerMessage(data).Some? then data.value.message else "Conflict - Resource already exists")
  {
  }

  /** 400/422 join the field errors with ", " (an empty list gives the empty
      message); without a list they use the server message or the default. */
  lemma ValidationErrorMessages(message: string, errors: seq<string>)
    ensures ErrorMessage(ResponseError(400, Some(ApiError(message, Some(errors))))) == Join(errors, ", ")
    ensures ErrorMessage(ResponseError(422, Some(ApiError(message, Some(errors))))) == Join(errors, ", ")
    ensures ErrorMessage(ResponseError(422, Some(ApiError("", Some([]))))) == ""
    ensures ErrorMessage(ResponseError(400, Some(ApiError("bad", Some(["a", "b"]))))) == "a, b"
    ensures ErrorMessage(ResponseError(400, Some(ApiError(message, None))))
         == (if message != "" then message else DefaultError)
  {
  }

  /** 500 ignores the server's message; an unlisted status uses it. */
  lemma ServerAndOtherMessages(data: Option<ApiResponse>, status: int)
    requires status !in {400, 401, 403, 404, 409, 422, 500}
    ensures ErrorMessage(ResponseError(500, data)) == ServerError
    ensures ErrorMessage(ResponseError(status, data)) == ServerMessage(data).GetOr(DefaultError)
    ensures ErrorMessage(NetworkError) == NetworkMessage
  {
  }

  /** A request that could not be set up reports its own message, or the
      default when that message is empty. */
  lemma SetupErrorMessage(message: string)
    ensures ErrorMessage(SetupError(message)) == (if message != "" then message else DefaultError)
    ensures ErrorMessage(SetupError("")) == DefaultError
  {
  }

  /** The interceptor's verdict on a reply: resolve with the response, or
      reject with the original error. */
  function Outcome(call: Call, reply: Reply): (r: Result<Response, HttpError>)
    ensures r.Ok? <==> reply.Received? && 200 <= reply.status < 300
    ensures r.Ok? ==> r.value == Response(reply.status, reply.body)
    ensures r.Err? ==> r.error.url == call.url
    ensures r.Err? && reply.Received? ==> r.error.kind == ResponseError(reply.status, reply.body)
    ensures reply.NoResponse? ==> r.Err? && r.error.kind == NetworkError
    ensures reply.NotSent? ==> r.Err? && r.error.kind == SetupError(reply.message)
  {
    match reply
    case Received(status, body) =>
      if 200 <= status < 300 then Ok(Response(status, body))
      else Err(HttpError(call.url, ResponseError(status, body)))
    case NoResponse => Err(HttpError(call.url, NetworkError))
    case NotSent(message) => Err(HttpError(call.url, SetupError(message)))
  }

  /** `response.data.data`: the payload of a resolved call, when the body is
      a success envelope that carries one. */
  function Data(res: Response): (d: Option<Payload>)
    ensures d.Some? ==> res.body.Some? && res.body.value.ApiSuccess? && res.body.value.data == d
  {
    if res.body.Some? && res.body.value.ApiSuccess? then res.body.value.data else None
  }

  /** Every notification the gateway shows for one call. */
  function Notices(call: Call, reply: Reply): seq<Toast>
  {
    match Outcome(call, reply)
    case Ok(res) =>
      var t := SuccessNotice(call, res.body);
      if t.Some? then [Plain(SuccessToast, t.value)] else []
    case Err(e) => ErrorNotices(e)
  }

  /** The credential is cleared on a 401 and on nothing else. */
  predicate ClearsToken(call: Call, reply: Reply)
  {
    Outcome(call, reply).Err? && Unauthorized(Outcome(call, reply).error.kind)
  }

  lemma OnlyUnauthorizedClearsToken(call: Call, reply: Reply)
    ensures ClearsToken(call, reply) <==> reply.Received? && reply.status == 401
  {
  }

  /** Calls on the auth namespace never produce a notification, whatever
      the reply. */
  lemma AuthNamespaceIsSilent(call: Call, reply: Reply)
    requires Contains(call.url, "/auth/")
    ensures Notices(call, reply) == []
  {
  }

  /** Everything a round trip can change: the requests dispatched so far,
      the cookies, the current location and the notifications shown. */
  datatype Gateway = Gateway(dispatched: seq<Request>, cookies: map<string, string>, pathname: string, toasts: seq<Toast>)

  /** The whole effect of one round trip of `call` answered by `reply`. The
      request carries the token read before it leaves; only a 401 touches
      the cookies, and then only to remove the token; the location changes
      only to "/login"; at most one notification is added. */
  function Exchange(g: Gateway, call: Call, reply: Reply): (g': Gateway)
    ensures g'.dispatched == g.dispatched + [Decorate(call, TokenOf(g.cookies))]
    ensures g'.cookies == g.cookies
         || (reply.Received? && reply.status == 401 && g'.cookies == Apply(g.cookies, RemoveToken))
    ensures g'.pathname == g.pathname || g'.pathname == "/login"
    ensures |g.toasts| <= |g'.toasts| <= |g.toasts| + 1 && g'.toasts[..|g.toasts|] == g.toasts
  {
    var expired := ClearsToken(call, reply);
    Gateway(
      g.dispatched + [Decorate(call, TokenOf(g.cookies))],
      if expired then Apply(g.cookies, RemoveToken) else g.cookies,
      if expired && !Contains(g.pathname, "/login") then "/login" else g.pathname,
      g.toasts + Notices(call, reply))
  }

  class Client {
    const jar: CookieJar
    const window: Window
    /** Every request that passed the request interceptor, in order. This
        includes a request whose sending then failed to be set up. */
    var dispatched: seq<Request>

    constructor (jar: CookieJar, window: Window)
      ensures this.jar == jar && this.window == window && dispatched == []
    {
      this.jar := jar;
      this.window := window;
      dispatched := [];
    }

    /** The gateway state this client can see and change. */
    function State(): Gateway
      reads this, jar, window
    {
      Gateway(dispatched, jar.cookies, window.pathname, window.toasts)
    }

    /** The error interceptor: settles the message through the status
        switch, clears the credential and redirects on 401, and shows the
        message unless the call was on the auth namespace. */
    method HandleError(err: HttpError)
      modifies jar, window
      ensures jar.cookies == if Unauthorized(err.kind) then Apply(old(jar.cookies), RemoveToken) else old(jar.cookies)
      ensures window.pathname == if RedirectsToLogin(err.kind, old(window.pathname)) then "/login" else old(window.pathname)
      ensures window.toasts == old(window.toasts) + ErrorNotices(err)
    {
      var errorMessage := DefaultError;
      match err.kind {
        case ResponseError(status, data) =>
          errorMessage := ServerMessage(data).GetOr(errorMessage);
          if status == 401 {
            jar.Remove();
            errorMessage := SessionExpired;
            if !Contains(window.pathname, "/login") {
              window.Navigate("/login");
            }
          } else if status == 403 {
            errorMessage := ServerMessage(data).GetOr("Access denied");
          } else if status == 404 {
            errorMessage := ServerMessage(data).GetOr("Resource not found");
          } else if status == 409 {
            errorMessage := ServerMessage(data).GetOr("Conflict - Resource already exists");
          } else if status == 422 || status == 400 {
            if data.Some? && data.value.ApiError? && data.value.errors.Some? {
              errorMessage := Join(data.value.errors.value, ", ");
            }
          } else if status == 500 {
            errorMessage := ServerError;
          }
        case NetworkError =>
          errorMessage := NetworkMessage;
        case SetupError(message) =>
          errorMessage := if message != "" then message else errorMessage;
      }
      assert errorMessage == ErrorMessage(err.kind);
      if !Contains(err.url, "/auth/") {
        window.Notify(Plain(ErrorToast, errorMessage));
      }
    }

    /** One round trip: decorate with the current token, dispatch, and run
        the success or the error interceptor on the reply. */
    method Send(call: Call, reply: Reply) returns (r: Result<Response, HttpError>)
      modifies this, jar, window
      ensures r == Outcome(call, reply)
      ensures State() == Exchange(old(State()), call, reply)
    {
      var token := jar.Get();
      dispatched := dispatched + [Decorate(call, token)];
      r := Outcome(call, reply);
      match r {
        case Ok(res) =>
          var notice := SuccessNotice(call, res.body);
          if notice.Some? {
            window.Notify(Plain(SuccessToast, notice.value));
          }
        case Err(e) =>
          HandleError(e);
      }
    }
  }
}
