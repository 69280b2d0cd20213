/** The authentication session manager (src/services/authService.ts): login with its
    demo fallback and error messages, registration, logout, the stored bearer token,
    its liveness judged from the `exp` claim, and the bearer header. */
module AuthService {
  import opened Js
  import opened Http
  import opened Storage
  import ApiConfig

  /** The three storage keys that make up a session. */
  const ACCESS_TOKEN_KEY := "access_token"
  const TOKEN_TYPE_KEY := "token_type"
  const BACKEND_URL_KEY := "backend_url"
  const SESSION_KEYS: set<string> := {ACCESS_TOKEN_KEY, TOKEN_TYPE_KEY, BACKEND_URL_KEY}

  const DEMO_ERROR := "Usuario o contraseña incorrectos (modo demo)"
  const DEFAULT_LOGIN_ERROR := "Credenciales incorrectas"
  const DEFAULT_REGISTER_ERROR := "Error al registrar usuario"

  /** The fabricated answer of demo mode. */
  const DEMO_RESPONSE: Value := JObj(map[
    "access_token" := JStr("demo-token"),
    "token_type" := JStr("bearer"),
    "user" := JObj(map["id" := JNum(1), "username" := JStr("demo"), "full_name" := JStr("Demo User")])])

  /** `demoLogin`: only the sentinel pair demo/demo is accepted; nothing is stored. */
  function DemoLogin(username: string, password: string): (r: Outcome<Value>)
    ensures r.Returned? <==> username == "demo" && password == "demo"
    ensures r.Returned? ==>
              Prop(r.value, "access_token") == Some(JStr("demo-token")) &&
              Prop(r.value, "token_type") == Some(JStr("bearer"))
    ensures r.Threw? ==> r.error == Exception(PlainError, DEMO_ERROR)
  {
    if username == "demo" && password == "demo" then Returned(DEMO_RESPONSE) else Fail(DEMO_ERROR)
  }

  /** The login POST: form-encoded credentials to `baseUrl + "/token"`. */
  function LoginRequest(baseUrl: string, username: string, password: string): Request {
    Request(baseUrl + ApiConfig.LOGIN, POST,
            map["Content-Type" := "application/x-www-form-urlencoded"],
            FormBody([("username", username), ("password", password)]))
  }

  /** The message a non-ok status maps to when the error body cannot be read. */
  function StatusMessage(status: nat): (msg: string)
    ensures status == 404 ==> msg == "Servidor no encontrado"
    ensures status == 401 ==> msg == "Usuario o contraseña incorrectos"
    ensures status != 404 && status != 401 ==> msg == "Error del servidor: " + NatToString(status)
  {
    if status == 404 then "Servidor no encontrado"
    else if status == 401 then "Usuario o contraseña incorrectos"
    else "Error del servidor: " + NatToString(status)
  }

  /** The message of the Error a non-ok login response throws: the body's `detail`
      when it is truthy, else the default; the status mapping applies only when the
      body is not JSON or is null, so that reading `detail` throws. */
  function LoginErrorMessage(resp: Response): (msg: string)
    ensures resp.json.Some? && Prop(resp.json.value, "detail").Some? ==>
              msg == OrElse(Prop(resp.json.value, "detail").value, DEFAULT_LOGIN_ERROR)
    ensures resp.json.None? || Prop(resp.json.value, "detail").None? ==>
              msg == StatusMessage(resp.status)
  {
    match resp.json
    case None => StatusMessage(resp.status)
    case Some(data) =>
      match Prop(data, "detail")
      case Some(detail) => OrElse(detail, DEFAULT_LOGIN_ERROR)
      case None => StatusMessage(resp.status)
  }

  /** The outer catch of `login`: a TypeError that mentions fetch becomes a
      "cannot connect" error naming the base URL; every other error passes unchanged. */
  function WrapLoginError(e: Exception, baseUrl: string): (w: Exception)
    ensures e.name == TypeError && Contains(e.message, "fetch") ==>
              w == Exception(PlainError, "No se puede conectar al servidor: " + baseUrl)
    ensures !(e.name == TypeError && Contains(e.message, "fetch")) ==> w == e
  {
    if e.name == TypeError && Contains(e.message, "fetch")
    then Exception(PlainError, "No se puede conectar al servidor: " + baseUrl)
    else e
  }

  /** What `login` does once the /token response is in: the outcome and the new store.
      The three session keys are written one after the other; a field that is not a
      string stops the sequence with an error, leaving the earlier writes in place. */
  function LoginAfterFetch(o: FetchOutcome, items: map<string, string>, baseUrl: string)
    : (Outcome<Value>, map<string, string>)
  {
    match o
    case Rejected(e) => (Threw(WrapLoginError(e, baseUrl)), items)
    case Answered(resp) =>
      if !IsOk(resp) then (Threw(WrapLoginError(Exception(PlainError, LoginErrorMessage(resp)), baseUrl)), items)
      else if resp.json.None? then (Threw(WrapLoginError(PARSE_FAILURE, baseUrl)), items)
      else
        var data := resp.json.value;
        if data == JNull || data == Undefined then (Threw(WrapLoginError(NULL_ACCESS, baseUrl)), items)
        else
          var token := Field(data, "access_token");
          var tokenType := Field(data, "token_type");
          if !token.JStr? then (Threw(WrapLoginError(NOT_A_STRING, baseUrl)), items)
          else if !tokenType.JStr? then (Threw(WrapLoginError(NOT_A_STRING, baseUrl)), items[ACCESS_TOKEN_KEY := token.s])
          else (Returned(data), items[ACCESS_TOKEN_KEY := token.s][TOKEN_TYPE_KEY := tokenType.s][BACKEND_URL_KEY := baseUrl])
  }

  /** A login succeeds exactly when the response is ok and carries string
      `access_token` and `token_type`; it then returns the response data and stores
      the token, its type and the pinned base URL, and touches no other key. */
  lemma LoginSuccess(o: FetchOutcome, items: map<string, string>, baseUrl: string)
    ensures var (r, items') := LoginAfterFetch(o, items, baseUrl);
      r.Returned? <==> (o.Answered? && IsOk(o.response) && o.response.json.Some?
                        && Prop(o.response.json.value, "access_token").Some?
                        && Prop(o.response.json.value, "access_token").value.JStr?
                        && Prop(o.response.json.value, "token_type").value.JStr?)
    ensures var (r, items') := LoginAfterFetch(o, items, baseUrl);
      r.Returned? ==>
        r.value == o.response.json.value
        && items'.Keys == items.Keys + SESSION_KEYS
        && JStr(items'[ACCESS_TOKEN_KEY]) == Field(r.value, "access_token")
        && JStr(items'[TOKEN_TYPE_KEY]) == Field(r.value, "token_type")
        && items'[BACKEND_URL_KEY] == baseUrl
        && (forall k :: k in items && k !in SESSION_KEYS ==> items'[k] == items[k])
  {
  }

  /** A failed login leaves the store as it was, except that a response carrying a
      string token but no string token type leaves the token written. */
  lemma LoginFailure(o: FetchOutcome, items: map<string, string>, baseUrl: string)
    ensures var (r, items') := LoginAfterFetch(o, items, baseUrl);
      r.Threw? ==> items' == items || items' == items[ACCESS_TOKEN_KEY := items'[ACCESS_TOKEN_KEY]]
    ensures var (r, items') := LoginAfterFetch(o, items, baseUrl);
      o.Answered? && !IsOk(o.response) ==>
        items' == items && r == Fail(LoginErrorMessage(o.response))
  {
    var (r, items') := LoginAfterFetch(o, items, baseUrl);
    if r.Threw? && items' != items {
      var token := Field(o.response.json.value, "access_token");
      assert items' == items[ACCESS_TOKEN_KEY := token.s];
    }
  }

  /** `login` reports an unreachable host through fetch's TypeError as "cannot connect". */
  lemma LoginUnreachable(e: Exception, items: map<string, string>, baseUrl: string)
    requires e.name == TypeError && Contains(e.message, "fetch")
    ensures LoginAfterFetch(Rejected(e), items, baseUrl)
            == (Fail("No se puede conectar al servidor: " + baseUrl), items)
  {
  }

  /** `userData.full_name || ''` */
  function FullNameOrEmpty(fullName: Option<string>): (s: string)
    ensures fullName.None? ==> s == ""
    ensures fullName.Some? ==> s == fullName.value
  {
    match fullName
    case None => ""
    case Some(n) => n
  }

  /** The registration POST: JSON username, password and full name ('' when absent). */
  function RegisterRequest(baseUrl: string, username: string, password: string, fullName: Option<string>): Request {
    Request(baseUrl + ApiConfig.REGISTER, POST,
            map["Content-Type" := "application/json"],
            JsonBody(JObj(map["username" := JStr(username), "password" := JStr(password),
                              "full_name" := JStr(FullNameOrEmpty(fullName))])))
  }

  /** What `register` returns for each outcome of its one fetch: transport errors and
      unreadable bodies propagate, a non-ok status throws `detail` or the default
      message, an ok status returns the body. */
  function RegisterResult(o: FetchOutcome): (r: Outcome<Value>)
    ensures o.Rejected? ==> r == Threw(o.error)
    ensures o.Answered? && o.response.json.None? ==> r == Threw(PARSE_FAILURE)
    ensures o.Answered? && IsOk(o.response) && o.response.json.Some? ==> r == Returned(o.response.json.value)
    ensures o.Answered? && !IsOk(o.response) && o.response.json.Some? ==>
              match Prop(o.response.json.value, "detail")
              case None => r == Threw(NULL_ACCESS)
              case Some(detail) => r == Fail(OrElse(detail, DEFAULT_REGISTER_ERROR))
    ensures r.Returned? ==> o.Answered? && IsOk(o.response)
  {
    match o
    case Rejected(e) => Threw(e)
    case Answered(resp) =>
      match resp.json
      case None => Threw(PARSE_FAILURE)
      case Some(body) =>
        if IsOk(resp) then Returned(body)
        else
          match Prop(body, "detail")
          case None => Threw(NULL_ACCESS)
          case Some(detail) => Fail(OrElse(detail, DEFAULT_REGISTER_ERROR))
  }

  /** The text atob receives: `token.split('.')[1]`, which is `undefined` (and so the
      text "undefined") for a token without a dot. */
  function PayloadSegment(token: string): (seg: string)
    ensures '.' !in token ==> seg == "undefined"
    ensures '.' in token ==> seg == Split(token[IndexOf(token, '.') + 1..], '.')[0]
  {
    var parts := Split(token, '.');
    if |parts| > 1 then parts[1] else "undefined"
  }

  /** `payload.exp > Date.now() / 1000` with nowMs = Date.now(), compared exactly as
      exp * 1000 > nowMs; null and booleans compare as 0 and 1, other non-numbers
      never compare greater. */
  predicate ExpiresAfter(exp: Value, nowMs: int) {
    match exp
    case JNum(n) => n * 1000 > nowMs
    case JNull => 0 > nowMs
    case JBool(b) => (if b then 1000 else 0) > nowMs
    case _ => false
  }

  /** Token liveness. `atob` and `parse` stand for the base64 decoder and JSON.parse,
      None where they throw. No token, an empty token, a failed decode or parse, a
      null payload: not live. Otherwise live exactly when `exp` is after now. */
  function IsLive(token: Option<string>, atob: string -> Option<string>,
                  parse: string -> Option<Value>, nowMs: int): (live: bool)
    ensures token.None? || token == Some("") ==> !live
    ensures live <==>
      token.Some? && token.value != ""
      && atob(PayloadSegment(token.value)).Some?
      && parse(atob(PayloadSegment(token.value)).value).Some?
      && Prop(parse(atob(PayloadSegment(token.value)).value).value, "exp").Some?
      && ExpiresAfter(Prop(parse(atob(PayloadSegment(token.value)).value).value, "exp").value, nowMs)
  {
    match token
    case None => false
    case Some(t) =>
      if t == "" then false
      else
        match atob(PayloadSegment(t))
        case None => false
        case Some(json) =>
          match parse(json)
          case None => false
          case Some(payload) =>
            match Prop(payload, "exp")
            case None => false
            case Some(exp) => ExpiresAfter(exp, nowMs)
  }

  /** A readable token whose integer `exp` lies in the past (or exactly now) is not
      live; one whose `exp` lies in the future is. */
  lemma LivenessByExpiry(token: string, atob: string -> Option<string>,
                         parse: string -> Option<Value>, nowMs: int, exp: int)
    requires token != ""
    requires atob(PayloadSegment(token)).Some?
    requires parse(atob(PayloadSegment(token)).value).Some?
    requires Prop(parse(atob(PayloadSegment(token)).value).value, "exp") == Some(JNum(exp))
    ensures IsLive(Some(token), atob, parse, nowMs) <==> exp * 1000 > nowMs
  {
  }

  /** The headers `getAuthHeaders` builds: the default JSON headers, plus
      `Authorization: Bearer <token>` exactly when the stored token is non-empty. */
  function AuthHeaders(token: Option<string>): (h: map<string, string>)
    ensures forall k :: k in ApiConfig.DEFAULT_HEADERS ==> k in h && h[k] == ApiConfig.DEFAULT_HEADERS[k]
    ensures "Authorization" in h <==> token.Some? && token.value != ""
    ensures "Authorization" in h ==> h["Authorization"] == "Bearer " + token.value
    ensures h.Keys <= ApiConfig.DEFAULT_HEADERS.Keys + {"Authorization"}
  {
    if token.Some? && token.value != ""
    then ApiConfig.DEFAULT_HEADERS["Authorization" := "Bearer " + token.value]
    else ApiConfig.DEFAULT_HEADERS
  }

  /** The singleton service, wired to the shared configuration, store and network. */
  class AuthService {
    const config: ApiConfig.Config
    const storage: AsyncStorage
    const net: Network

    constructor (config: ApiConfig.Config, storage: AsyncStorage, net: Network)
      ensures this.config == config && this.storage == storage && this.net == net
    {
      this.config := config;
      this.storage := storage;
      this.net := net;
    }

    /** `checkHealth`: runs the locator and compares its result against null, which a
        string never is, so it is true whenever the locator returns. */
    method CheckHealth() returns (healthy: bool)
      modifies config, net
      ensures healthy
      ensures config.baseUrl == ApiConfig.Resolve(config.backendUrls, net.server)
      ensures net.log == old(net.log) + ApiConfig.ProbesSent(config.backendUrls, net.server)
    {
      var workingUrl := config.FindWorkingBackend(net);
      healthy := true;
    }

    /** `login`: health check, then one POST to /token; on success the session is
        stored under its three keys. */
    method Login(username: string, password: string) returns (r: Outcome<Value>)
      modifies config, storage, net
      ensures config.baseUrl == ApiConfig.Resolve(config.backendUrls, net.server)
      ensures net.log == old(net.log) + ApiConfig.ProbesSent(config.backendUrls, net.server)
                         + [LoginRequest(config.baseUrl, username, password)]
      ensures (r, storage.items) ==
              LoginAfterFetch(net.server(LoginRequest(config.baseUrl, username, password)),
                              old(storage.items), config.baseUrl)
    {
      var isHealthy := CheckHealth();
      if !isHealthy {
        // The demo branch (`return this.demoLogin(credentials)`) is never taken:
        // CheckHealth cannot return false.
        assert false;
      }
      var o := net.Fetch(LoginRequest(config.baseUrl, username, password));
      match o {
        case Rejected(e) =>
          r := Threw(WrapLoginError(e, config.baseUrl));
        case Answered(resp) =>
          if !IsOk(resp) {
            r := Threw(WrapLoginError(Exception(PlainError, LoginErrorMessage(resp)), config.baseUrl));
            return;
          }
          if resp.json.None? {
            r := Threw(WrapLoginError(PARSE_FAILURE, config.baseUrl));
            return;
          }
          var data := resp.json.value;
          if data == JNull || data == Undefined {
            r := Threw(WrapLoginError(NULL_ACCESS, config.baseUrl));
            return;
          }
          var err := storage.SetValue(ACCESS_TOKEN_KEY, Field(data, "access_token"));
          if err.Some? {
            r := Threw(WrapLoginError(err.value, config.baseUrl));
            return;
          }
          err := storage.SetValue(TOKEN_TYPE_KEY, Field(data, "token_type"));
          if err.Some? {
            r := Threw(WrapLoginError(err.value, config.baseUrl));
            return;
          }
          storage.SetItem(BACKEND_URL_KEY, config.baseUrl);
          r := Returned(data);
      }
    }

    /** `register`: one JSON POST to /register; the store is not touched. */
    method Register(username: string, password: string, fullName: Option<string>) returns (r: Outcome<Value>)
      modifies net
      ensures net.log == old(net.log) + [RegisterRequest(config.baseUrl, username, password, fullName)]
      ensures r == RegisterResult(net.server(RegisterRequest(config.baseUrl, username, password, fullName)))
    {
      var o := net.Fetch(RegisterRequest(config.baseUrl, username, password, fullName));
      match o {
        case Rejected(e) =>
          r := Threw(e);
        case Answered(resp) =>
          if !IsOk(resp) {
            match resp.json {
              case None =>
                r := Threw(PARSE_FAILURE);
              case Some(errorData) =>
                match Prop(errorData, "detail") {
                  case None => r := Threw(NULL_ACCESS);
                  case Some(detail) => r := Fail(OrElse(detail, DEFAULT_REGISTER_ERROR));
                }
            }
            return;
          }
          match resp.json {
            case None => r := Threw(PARSE_FAILURE);
            case Some(body) => r := Returned(body);
          }
      }
    }

    /** `logout`: removes exactly the three session keys and never fails. */
    method Logout()
      modifies storage
      ensures storage.items == old(storage.items) - SESSION_KEYS
    {
      storage.MultiRemove(SESSION_KEYS);
    }

    method GetToken() returns (token: Option<string>)
      ensures token == Lookup(storage.items, ACCESS_TOKEN_KEY)
    {
      token := storage.GetItem(ACCESS_TOKEN_KEY);
    }

    /** `isAuthenticated`, with Date.now() given as nowMs; decode failures give false. */
    method IsAuthenticated(atob: string -> Option<string>, parse: string -> Option<Value>, nowMs: int)
      returns (authenticated: bool)
      ensures authenticated == IsLive(Lookup(storage.items, ACCESS_TOKEN_KEY), atob, parse, nowMs)
      ensures ACCESS_TOKEN_KEY !in storage.items ==> !authenticated
    {
      var token := GetToken();
      authenticated := IsLive(token, atob, parse, nowMs);
    }

    method GetAuthHeaders() returns (headers: map<string, string>)
      ensures headers == AuthHeaders(Lookup(storage.items, ACCESS_TOKEN_KEY))
      ensures "Authorization" in headers <==> ACCESS_TOKEN_KEY in storage.items && storage.items[ACCESS_TOKEN_KEY] != ""
    {
      var token := GetToken();
      headers := AuthHeaders(token);
    }
  }
}
