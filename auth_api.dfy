/**
 * The authentication client (src/api/auth.js): the signup and login request bodies,
 * how their replies settle, how login errors are translated, and the one write
 * to the browser's key/value store, the access token after a successful login.
 */
module AuthApi {
  import opened Js

  /** The base URL when no `VITE_API_BASE_URL` is configured (not the document client's port). */
  const DefaultBaseUrl: string := "http://localhost:8080"

  function BaseUrl(env: Option<string>): (r: string)
    ensures r != ""
    ensures Truthy(env) ==> r == env.value
    ensures !Truthy(env) ==> r == DefaultBaseUrl
  {
    OrElse(env, DefaultBaseUrl)
  }

  /** The key under which login stores the access token. */
  const AccessTokenKey: string := "access_token"

  /** `localStorage`: a string-to-string store updated in place. */
  class LocalStorage {
    var items: map<string, string>

    constructor (initial: map<string, string>)
      ensures items == initial
    {
      items := initial;
    }

    /** `getItem(key)`: the stored value, or null. */
    function GetItem(key: string): (r: Option<string>)
      reads this
      ensures r.Some? <==> key in items
      ensures r.Some? ==> r.value == items[key]
    {
      if key in items then Some(items[key]) else None
    }

    /** `setItem(key, value)`. */
    method SetItem(key: string, value: string)
      modifies this
      ensures items == old(items)[key := value]
      ensures GetItem(key) == Some(value)
    {
      items := items[key := value];
    }
  }

  // ---------------------------------------------------------------------------
  // signup

  /** The signup form data, which is also exactly the request body `{loginId, password, name}`. */
  datatype SignupData = SignupData(loginId: string, password: string, name: string)

  const SignupFallback: string := "회원가입에 실패했습니다."

  /** `POST /api/signup` with the body copied field by field. */
  function SignupRequest(base: string, user: SignupData): (r: Request<SignupData>)
    ensures r.verb == POST && r.url == base + "/api/signup"
    ensures r.body == Some(SignupData(user.loginId, user.password, user.name))
  {
    Request(POST, base + "/api/signup", Some(SignupData(user.loginId, user.password, user.name)))
  }

  /**
   * How `signup` settles: a non-OK reply throws the body's `error` or the fixed fallback,
   * an OK reply returns the parsed envelope, and anything thrown on the way is rethrown
   * unchanged (signup has no connection-error translation).
   */
  function SignupOutcome<D>(reply: Fetch<Envelope<D>>): (r: Outcome<Envelope<D>>)
    ensures r.Returned? <==> reply.Response? && reply.ok && reply.body.Parsed?
    ensures r.Returned? ==> r.value == reply.body.value
    ensures reply.Response? && !reply.ok ==>
      r == Threw(Error(OrElse(ErrorField(reply.body), SignupFallback)))
    ensures reply.NetworkError? ==> r == Threw(reply.err)
    ensures reply.Response? && reply.ok && reply.body.Unparseable? ==> r == Threw(reply.body.parseError)
  {
    match reply
    case NetworkError(e) => Threw(e)
    case Response(ok, body) =>
      if !ok then Threw(Error(OrElse(ErrorField(body), SignupFallback)))
      else match body
        case Unparseable(e) => Threw(e)
        case Parsed(v) => Returned(v)
  }

  // ---------------------------------------------------------------------------
  // login

  datatype Credentials = Credentials(loginId: string, password: string)

  /** The `data` of a login reply. */
  datatype LoginData = LoginData(accessToken: Option<string>)

  const LoginFallback: string := "로그인에 실패했습니다."

  /** `POST /api/signin` with exactly `{loginId, password}`. */
  function LoginRequest(base: string, creds: Credentials): (r: Request<Credentials>)
    ensures r.verb == POST && r.url == base + "/api/signin"
    ensures r.body == Some(Credentials(creds.loginId, creds.password))
  {
    Request(POST, base + "/api/signin", Some(Credentials(creds.loginId, creds.password)))
  }

  /** The message that replaces a connection failure; it names the configured base URL. */
  function ConnectionMessage(base: string): string {
    "서버에 연결할 수 없습니다. 백엔드 서버(" + base + ")가 실행 중인지 확인해주세요."
  }

  /** The `catch` of `login`: a "Failed to fetch" message or a TypeError becomes the connection error; anything else is rethrown. */
  function Rethrown(base: string, e: JsError): (r: JsError)
    ensures e.message == "Failed to fetch" || e.name == "TypeError" ==> r == Error(ConnectionMessage(base))
    ensures e.message != "Failed to fetch" && e.name != "TypeError" ==> r == e
  {
    if e.message == "Failed to fetch" || e.name == "TypeError" then Error(ConnectionMessage(base)) else e
  }

  /** What reading `res.data.accessToken` throws when the envelope has no `data`. */
  const MissingDataError: JsError := JsError("TypeError", "Cannot read properties of undefined (reading 'accessToken')")

  /** How `login` settles, and the token it writes to the store on the way, if any. */
  datatype LoginResult = LoginResult(outcome: Outcome<Envelope<LoginData>>, stored: Option<string>)

  /** True of an OK reply whose body parsed and carries `data`. */
  predicate IsOkWithData(reply: Fetch<Envelope<LoginData>>) {
    reply.Response? && reply.ok && reply.body.Parsed? && reply.body.value.data.Some?
  }

  function LoginAttempt(base: string, reply: Fetch<Envelope<LoginData>>): (r: LoginResult)
    ensures r.stored.Some? <==> IsOkWithData(reply) && Truthy(reply.body.value.data.value.accessToken)
    ensures r.stored.Some? ==> r.stored == reply.body.value.data.value.accessToken && r.stored.value != ""
    ensures r.outcome.Returned? <==> IsOkWithData(reply)
    ensures r.outcome.Returned? ==> r.outcome.value == reply.body.value
    ensures reply.Response? && !reply.ok ==>
      r.outcome == Threw(Rethrown(base, Error(OrElse(ErrorField(reply.body), LoginFallback))))
    ensures reply.NetworkError? ==> r.outcome == Threw(Rethrown(base, reply.err))
    ensures reply.Response? && reply.ok && reply.body.Unparseable? ==>
      r.outcome == Threw(Rethrown(base, reply.body.parseError))
    ensures reply.Response? && reply.ok && reply.body.Parsed? && reply.body.value.data.None? ==>
      r.outcome == Threw(Rethrown(base, MissingDataError))
  {
    match reply
    case NetworkError(e) => LoginResult(Threw(Rethrown(base, e)), None)
    case Response(ok, body) =>
      if !ok then
        LoginResult(Threw(Rethrown(base, Error(OrElse(ErrorField(body), LoginFallback)))), None)
      else match body
        case Unparseable(e) => LoginResult(Threw(Rethrown(base, e)), None)
        case Parsed(res) =>
          match res.data
          case None => LoginResult(Threw(Rethrown(base, MissingDataError)), None)
          case Some(d) =>
            LoginResult(Returned(res), if Truthy(d.accessToken) then d.accessToken else None)
  }

  /** `login`: sends the credentials, and stores a truthy access token under `AccessTokenKey`. */
  method Login(storage: LocalStorage, base: string, creds: Credentials, reply: Fetch<Envelope<LoginData>>)
    returns (request: Request<Credentials>, outcome: Outcome<Envelope<LoginData>>)
    modifies storage
    ensures request == LoginRequest(base, creds)
    ensures outcome == LoginAttempt(base, reply).outcome
    ensures LoginAttempt(base, reply).stored.Some? ==>
      storage.items == old(storage.items)[AccessTokenKey := LoginAttempt(base, reply).stored.value]
    ensures LoginAttempt(base, reply).stored.None? ==> storage.items == old(storage.items)
  {
    request := LoginRequest(base, creds);
    var result := LoginAttempt(base, reply);
    if result.stored.Some? {
      storage.SetItem(AccessTokenKey, result.stored.value);
    }
    outcome := result.outcome;
  }

  /** A non-OK login reply surfaces the server's message (or the fallback) unchanged, unless that message is literally "Failed to fetch". */
  lemma LoginRejectionMessage(base: string, body: Body<Envelope<LoginData>>)
    ensures var m := OrElse(ErrorField(body), LoginFallback);
      m != "Failed to fetch" ==> LoginAttempt(base, Response(false, body)) == LoginResult(Threw(Error(m)), None)
  {
  }

  /** A failed fetch (a TypeError in browsers) is reported as the connection error naming the base URL. */
  lemma LoginNetworkFailure(base: string, message: string)
    ensures LoginAttempt(base, NetworkError(JsError("TypeError", message))).outcome == Threw(Error(ConnectionMessage(base)))
  {
  }

  /** An OK reply without `data` throws a TypeError while reading the token, and the catch reports it as a connection failure. */
  lemma LoginWithoutDataLooksLikeConnectionFailure(base: string, success: bool, error: Option<string>)
    ensures LoginAttempt(base, Response(true, Parsed(Envelope(success, None, error))))
         == LoginResult(Threw(Error(ConnectionMessage(base))), None)
  {
  }
}
