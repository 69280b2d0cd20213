/** The fetch API as the app uses it: a request, the response it gets back or the
    transport failure, and the network as a fixed backend plus a log of every
    request sent, so that contracts can say which requests a call made. */
module Http {
  import opened Js

  datatype Method = GET | POST | PUT | DELETE

  /** What a request carries: nothing, `JSON.stringify(data)`, or a form-encoded body. */
  datatype Body = NoBody | JsonBody(data: Value) | FormBody(fields: seq<(string, string)>)

  datatype Request = Request(url: string, verb: Method, headers: map<string, string>, body: Body)

  /** A response's status, its reason phrase, its body read with `json()` (None when
      that throws) and read with `text()` (None when that throws). */
  datatype Response = Response(status: nat, statusText: string, json: Option<Value>, text: Option<string>)

  /** `response.ok`: the status is in the range 200-299 (the Fetch standard). */
  predicate IsOk(r: Response) {
    200 <= r.status <= 299
  }

  /** A fetch either yields a response (of any status) or rejects: host unreachable,
      DNS failure, aborted by a timeout. */
  datatype FetchOutcome = Answered(response: Response) | Rejected(error: Exception)

  /** The network seen from the app: `server` says how the backend answers each
      request, and `log` records every request sent, in order. */
  class Network {
    const server: Request -> FetchOutcome
    var log: seq<Request>

    constructor (server: Request -> FetchOutcome)
      ensures this.server == server && log == []
    {
      this.server := server;
      log := [];
    }

    /** `await fetch(url, init)` */
    method Fetch(req: Request) returns (o: FetchOutcome)
      modifies this
      ensures log == old(log) + [req]
      ensures o == server(req)
    {
      log := log + [req];
      o := server(req);
    }
  }
}
