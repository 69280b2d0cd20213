/** The HTTP request core (src/services/apiService.ts): one fetch per call against the
    current base URL with the auth headers merged in, status classification, session
    teardown on 401, the verb wrappers and the domain facades built on them. */
module ApiService {
  import opened Js
  import opened Http
  import opened Storage
  import opened Text
  import ApiConfig
  import AuthService

  /** The `RequestInit` a caller passes: an optional method (fetch defaults to GET),
      extra headers, and a body. */
  datatype Options = Options(verb: Option<Method>, headers: map<string, string>, body: Body)

  /** `{...auth, ...extra}`: every caller header wins over an auth header of the same
      name; every other auth header is kept. */
  function MergeHeaders(auth: map<string, string>, extra: map<string, string>): (h: map<string, string>)
    ensures h.Keys == auth.Keys + extra.Keys
    ensures forall k :: k in extra ==> h[k] == extra[k]
    ensures forall k :: k in auth && k !in extra ==> h[k] == auth[k]
  {
    auth + extra
  }

  /** The one request `request(endpoint, options)` sends, given the base URL and the
      stored token at call time. */
  function CoreRequest(baseUrl: string, endpoint: string, token: Option<string>, options: Options): (req: Request)
    ensures req.url == baseUrl + endpoint
    ensures req.verb == if options.verb.Some? then options.verb.value else GET
    ensures req.body == options.body
    ensures req.headers == MergeHeaders(AuthService.AuthHeaders(token), options.headers)
  {
    Request(baseUrl + endpoint, if options.verb.Some? then options.verb.value else GET,
            MergeHeaders(AuthService.AuthHeaders(token), options.headers), options.body)
  }

  /** `new Error(`HTTP ${status}: ${statusText}`)` */
  function HttpError(resp: Response): Exception {
    Exception(PlainError, "HTTP " + NatToString(resp.status) + ": " + resp.statusText)
  }

  /** What `request` resolves to: a rejected fetch rethrown unchanged, a non-ok
      status as an HTTP error carrying status and reason phrase, an ok status as
      the parsed body. */
  function Classify(o: FetchOutcome): (r: Outcome<Value>)
    ensures o.Rejected? ==> r == Threw(o.error)
    ensures o.Answered? && !IsOk(o.response) ==> r == Threw(HttpError(o.response))
    ensures o.Answered? && IsOk(o.response) && o.response.json.Some? ==> r == Returned(o.response.json.value)
    ensures o.Answered? && IsOk(o.response) && o.response.json.None? ==> r == Threw(PARSE_FAILURE)
    ensures r.Returned? <==> o.Answered? && IsOk(o.response) && o.response.json.Some?
  {
    match o
    case Rejected(e) => Threw(e)
    case Answered(resp) =>
      if !IsOk(resp) then Threw(HttpError(resp))
      else if resp.json.None? then Threw(PARSE_FAILURE)
      else Returned(resp.json.value)
  }

  /** The store after a request: status 401 removes all three session keys whatever
      they held; any other outcome leaves the store as it was. */
  function StoreAfter(o: FetchOutcome, items: map<string, string>): (items': map<string, string>)
    ensures o.Answered? && o.response.status == 401 ==>
              items' == items - AuthService.SESSION_KEYS
              && AuthService.ACCESS_TOKEN_KEY !in items' && AuthService.TOKEN_TYPE_KEY !in items'
              && AuthService.BACKEND_URL_KEY !in items'
    ensures !(o.Answered? && o.response.status == 401) ==> items' == items
  {
    if o.Answered? && o.response.status == 401 then items - AuthService.SESSION_KEYS else items
  }

  /** After a 401 the stored token is gone, so the next request carries no
      Authorization header. */
  lemma UnauthorizedDropsBearer(o: FetchOutcome, items: map<string, string>)
    requires o.Answered? && o.response.status == 401
    ensures "Authorization" !in AuthService.AuthHeaders(Lookup(StoreAfter(o, items), AuthService.ACCESS_TOKEN_KEY))
    ensures Classify(o).Threw?
  {
  }

  /** `days` as the history endpoint's query: `/dialogo_conmigo/history?days=<days>`.
      The text after `?days=` is all decimal digits and reads back as `days`. */
  function HistoryEndpoint(days: nat): (e: string)
    ensures var p := ApiConfig.DIALOGO_HISTORY + "?days=";
      |p| < |e| && e[..|p|] == p && AllDigits(e[|p|..]) && ParseNat(e[|p|..]) == days
  {
    var p := ApiConfig.DIALOGO_HISTORY + "?days=";
    var e := p + NatToString(days);
    ParseNatToString(days);
    assert e[|p|..] == NatToString(days);
    e
  }

  /** The body of a generate-style request: `{prompt, mode}`. */
  function GenerateRequest(prompt: string, mode: string): Value {
    JObj(map["prompt" := JStr(prompt), "mode" := JStr(mode)])
  }

  /** The singleton request core, on top of the auth service's store and network. */
  class ApiService {
    const auth: AuthService.AuthService

    constructor (auth: AuthService.AuthService)
      ensures this.auth == auth
    {
      this.auth := auth;
    }

    /** `request(endpoint, options)`: exactly one fetch, no retry. */
    method Request(endpoint: string, options: Options) returns (r: Outcome<Value>)
      modifies auth.storage, auth.net
      ensures var req := CoreRequest(auth.config.baseUrl, endpoint,
                                     Lookup(old(auth.storage.items), AuthService.ACCESS_TOKEN_KEY), options);
        auth.net.log == old(auth.net.log) + [req]
        && r == Classify(auth.net.server(req))
        && auth.storage.items == StoreAfter(auth.net.server(req), old(auth.storage.items))
    {
      var url := auth.config.baseUrl + endpoint;
      var headers := auth.GetAuthHeaders();
      var req := Http.Request(url, if options.verb.Some? then options.verb.value else GET,
                              MergeHeaders(headers, options.headers), options.body);
      var response := auth.net.Fetch(req);
      match response {
        case Rejected(e) =>
          r := Threw(e);
        case Answered(resp) =>
          if !IsOk(resp) {
            if resp.status == 401 {
              auth.Logout();
            }
            r := Threw(HttpError(resp));
            return;
          }
          match resp.json {
            case None => r := Threw(PARSE_FAILURE);
            case Some(data) => r := Returned(data);
          }
      }
    }

    /** `get(endpoint)`: GET, no body. */
    method Get(endpoint: string) returns (r: Outcome<Value>)
      modifies auth.storage, auth.net
      ensures var req := CoreRequest(auth.config.baseUrl, endpoint,
                                     Lookup(old(auth.storage.items), AuthService.ACCESS_TOKEN_KEY),
                                     Options(Some(GET), map[], NoBody));
        auth.net.log == old(auth.net.log) + [req]
        && r == Classify(auth.net.server(req))
        && auth.storage.items == StoreAfter(auth.net.server(req), old(auth.storage.items))
    {
      r := Request(endpoint, Options(Some(GET), map[], NoBody));
    }

    /** `post(endpoint, data)`: POST with `JSON.stringify(data)`. */
    method Post(endpoint: string, data: Value) returns (r: Outcome<Value>)
      modifies auth.storage, auth.net
      ensures var req := CoreRequest(auth.config.baseUrl, endpoint,
                                     Lookup(old(auth.storage.items), AuthService.ACCESS_TOKEN_KEY),
                                     Options(Some(POST), map[], JsonBody(data)));
        auth.net.log == old(auth.net.log) + [req]
        && r == Classify(auth.net.server(req))
        && auth.storage.items == StoreAfter(auth.net.server(req), old(auth.storage.items))
    {
      r := Request(endpoint, Options(Some(POST), map[], JsonBody(data)));
    }

    /** `put(endpoint, data)`: PUT with `JSON.stringify(data)`. */
    method Put(endpoint: string, data: Value) returns (r: Outcome<Value>)
      modifies auth.storage, auth.net
      ensures var req := CoreRequest(auth.config.baseUrl, endpoint,
                                     Lookup(old(auth.storage.items), AuthService.ACCESS_TOKEN_KEY),
                                     Options(Some(PUT), map[], JsonBody(data)));
        auth.net.log == old(auth.net.log) + [req]
        && r == Classify(auth.net.server(req))
        && auth.storage.items == StoreAfter(auth.net.server(req), old(auth.storage.items))
    {
      r := Request(endpoint, Options(Some(PUT), map[], JsonBody(data)));
    }

    /** `delete(endpoint)`: DELETE, no body. */
    method Delete(endpoint: string) returns (r: Outcome<Value>)
      modifies auth.storage, auth.net
      ensures var req := CoreRequest(auth.config.baseUrl, endpoint,
                                     Lookup(old(auth.storage.items), AuthService.ACCESS_TOKEN_KEY),
                                     Options(Some(DELETE), map[], NoBody));
        auth.net.log == old(auth.net.log) + [req]
        && r == Classify(auth.net.server(req))
        && auth.storage.items == StoreAfter(auth.net.server(req), old(auth.storage.items))
    {
      r := Request(endpoint, Options(Some(DELETE), map[], NoBody));
    }

    /** `healthCheck()`: GET /health through the request core, so with the auth
        headers and the 401 teardown, unlike the locator's own probe. */
    method HealthCheck() returns (r: Outcome<Value>)
      modifies auth.storage, auth.net
      ensures var req := CoreRequest(auth.config.baseUrl, ApiConfig.HEALTH,
                                     Lookup(old(auth.storage.items), AuthService.ACCESS_TOKEN_KEY),
                                     Options(Some(GET), map[], NoBody));
        auth.net.log == old(auth.net.log) + [req]
        && r == Classify(auth.net.server(req))
        && auth.storage.items == StoreAfter(auth.net.server(req), old(auth.storage.items))
    {
      r := Get(ApiConfig.HEALTH);
    }

    /** `getDialogHistory(days = 2)` */
    method GetDialogHistory(days: nat := 2) returns (r: Outcome<Value>)
      modifies auth.storage, auth.net
      ensures var req := CoreRequest(auth.config.baseUrl, HistoryEndpoint(days),
                                     Lookup(old(auth.storage.items), AuthService.ACCESS_TOKEN_KEY),
                                     Options(Some(GET), map[], NoBody));
        auth.net.log == old(auth.net.log) + [req]
        && r == Classify(auth.net.server(req))
        && auth.storage.items == StoreAfter(auth.net.server(req), old(auth.storage.items))
    {
      r := Get(HistoryEndpoint(days));
    }

    /** `generateContent({prompt, mode})`: POST to /v1/generate. */
    method GenerateContent(prompt: string, mode: string) returns (r: Outcome<Value>)
      modifies auth.storage, auth.net
      ensures var req := CoreRequest(auth.config.baseUrl, ApiConfig.GENERATE,
                                     Lookup(old(auth.storage.items), AuthService.ACCESS_TOKEN_KEY),
                                     Options(Some(POST), map[], JsonBody(GenerateRequest(prompt, mode))));
        auth.net.log == old(auth.net.log) + [req]
        && r == Classify(auth.net.server(req))
        && auth.storage.items == StoreAfter(auth.net.server(req), old(auth.storage.items))
    {
      r := Post(ApiConfig.GENERATE, GenerateRequest(prompt, mode));
    }

    /** `sendDialogMessage({prompt, mode})`: POST to /dialogo_conmigo/message. */
    method SendDialogMessage(prompt: string, mode: string) returns (r: Outcome<Value>)
      modifies auth.storage, auth.net
      ensures var req := CoreRequest(auth.config.baseUrl, ApiConfig.DIALOGO_MESSAGE,
                                     Lookup(old(auth.storage.items), AuthService.ACCESS_TOKEN_KEY),
                                     Options(Some(POST), map[], JsonBody(GenerateRequest(prompt, mode))));
        auth.net.log == old(auth.net.log) + [req]
        && r == Classify(auth.net.server(req))
        && auth.storage.items == StoreAfter(auth.net.server(req), old(auth.storage.items))
    {
      r := Post(ApiConfig.DIALOGO_MESSAGE, GenerateRequest(prompt, mode));
    }

    /** `getMeditationMusic({prompt, mode})`: POST to /meditation/music. */
    method GetMeditationMusic(prompt: string, mode: string) returns (r: Outcome<Value>)
      modifies auth.storage, auth.net
      ensures var req := CoreRequest(auth.config.baseUrl, ApiConfig.MEDITATION_MUSIC,
                                     Lookup(old(auth.storage.items), AuthService.ACCESS_TOKEN_KEY),
                                     Options(Some(POST), map[], JsonBody(GenerateRequest(prompt, mode))));
        auth.net.log == old(auth.net.log) + [req]
        && r == Classify(auth.net.server(req))
        && auth.storage.items == StoreAfter(auth.net.server(req), old(auth.storage.items))
    {
      r := Post(ApiConfig.MEDITATION_MUSIC, GenerateRequest(prompt, mode));
    }
  }
}
