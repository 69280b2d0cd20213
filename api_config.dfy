/** The API configuration object (src/config/api.ts): the ordered list of candidate
    backends, the base URL every request is built from, the default headers, the
    health probe and the backend locator that pins the first healthy candidate. */
module ApiConfig {
  import opened Js
  import opened Http

  /** Candidate backends, highest priority first. */
  const BACKEND_URLS: seq<string> :=
    ["http://168.231.67.221:8011", "http://localhost:8011", "http://127.0.0.1:8011"]

  /** Declared in the configuration object; no code reads them. */
  const REQUEST_TIMEOUT: nat := 10000
  const MAX_RETRIES: nat := 3

  const DEFAULT_HEADERS: map<string, string> :=
    map["Content-Type" := "application/json", "Accept" := "application/json"]

  const HEALTH := "/health"
  const LOGIN := "/token"
  const REGISTER := "/register"
  const DIALOGO_MESSAGE := "/dialogo_conmigo/message"
  const DIALOGO_HISTORY := "/dialogo_conmigo/history"
  const GENERATE := "/v1/generate"
  const MEDITATION_MUSIC := "/meditation/music"

  /** The configuration object's own `getAuthHeaders()`: a copy of the default JSON
      headers, which never carries an Authorization entry. */
  function ConfigAuthHeaders(): (h: map<string, string>)
    ensures h.Keys == {"Content-Type", "Accept"}
    ensures h["Content-Type"] == "application/json" && h["Accept"] == "application/json"
    ensures "Authorization" !in h
  {
    DEFAULT_HEADERS
  }

  /** The request `testBackend(url)` sends: GET `url + "/health"` with the default headers. */
  function HealthProbe(url: string): Request {
    Request(url + HEALTH, GET, DEFAULT_HEADERS, NoBody)
  }

  /** testBackend's verdict: true only for a response whose status is ok; a non-ok
      status or a rejected fetch (timeout, unreachable host) is false. */
  predicate ProbeSucceeded(o: FetchOutcome) {
    o.Answered? && IsOk(o.response)
  }

  predicate Healthy(server: Request -> FetchOutcome, url: string) {
    ProbeSucceeded(server(HealthProbe(url)))
  }

  /** Position of the first candidate whose probe succeeds; |urls| when none does. */
  function FirstHealthy(urls: seq<string>, server: Request -> FetchOutcome): (k: nat)
    ensures k <= |urls|
    ensures forall i :: 0 <= i < k ==> !Healthy(server, urls[i])
    ensures k < |urls| ==> Healthy(server, urls[k])
  {
    if urls == [] then 0
    else if Healthy(server, urls[0]) then 0
    else 1 + FirstHealthy(urls[1..], server)
  }

  /** The URL the locator settles on: the first healthy candidate, otherwise the
      first candidate (fail-open). */
  function Resolve(urls: seq<string>, server: Request -> FetchOutcome): (u: string)
    requires |urls| > 0
    ensures u in urls
    ensures FirstHealthy(urls, server) < |urls| ==> u == urls[FirstHealthy(urls, server)] && Healthy(server, u)
    ensures FirstHealthy(urls, server) == |urls| ==> u == urls[0]
  {
    var k := FirstHealthy(urls, server);
    if k < |urls| then urls[k] else urls[0]
  }

  /** The probes the locator sends: one per candidate, in list order, up to and
      including the first healthy one, and none after it. */
  function ProbesSent(urls: seq<string>, server: Request -> FetchOutcome): (probes: seq<Request>)
    ensures var k := FirstHealthy(urls, server);
      |probes| == if k < |urls| then k + 1 else |urls|
    ensures forall i :: 0 <= i < |probes| ==> probes[i] == HealthProbe(urls[i])
  {
    var k := FirstHealthy(urls, server);
    var n := if k < |urls| then k + 1 else |urls|;
    seq(n, i requires 0 <= i < n => HealthProbe(urls[i]))
  }

  /** When exactly the k-th candidate is healthy, the locator picks it after probing
      the k + 1 candidates up to it. */
  lemma ResolveOnlyHealthy(urls: seq<string>, server: Request -> FetchOutcome, k: nat)
    requires k < |urls|
    requires forall i :: 0 <= i < |urls| ==> (Healthy(server, urls[i]) <==> i == k)
    ensures Resolve(urls, server) == urls[k]
    ensures |ProbesSent(urls, server)| == k + 1
  {
  }

  /** When no candidate is healthy, every candidate is probed and the first one is pinned. */
  lemma ResolveNoneHealthy(urls: seq<string>, server: Request -> FetchOutcome)
    requires |urls| > 0
    requires forall i :: 0 <= i < |urls| ==> !Healthy(server, urls[i])
    ensures Resolve(urls, server) == urls[0]
    ensures |ProbesSent(urls, server)| == |urls|
  {
  }

  /** The singleton configuration object: the candidate list and the base URL it pins. */
  class Config {
    const backendUrls: seq<string> := BACKEND_URLS
    var baseUrl: string

    constructor ()
      ensures baseUrl == "http://168.231.67.221:8011"
    {
      baseUrl := "http://168.231.67.221:8011";
    }

    /** `testBackend(url)`: one probe of `url + "/health"`; errors never escape. */
    method TestBackend(net: Network, url: string) returns (working: bool)
      modifies net
      ensures net.log == old(net.log) + [HealthProbe(url)]
      ensures working == Healthy(net.server, url)
    {
      var o := net.Fetch(HealthProbe(url));
      match o {
        case Answered(response) =>
          working := IsOk(response);
        case Rejected(_) =>
          working := false;
      }
    }

    /** `findWorkingBackend()`: probes the candidates in order, pins and returns the
        first healthy one, and otherwise pins and returns the first candidate. */
    method FindWorkingBackend(net: Network) returns (url: string)
      modifies this, net
      ensures url == baseUrl == Resolve(backendUrls, net.server)
      ensures net.log == old(net.log) + ProbesSent(backendUrls, net.server)
    {
      var i := 0;
      while i < |backendUrls|
        invariant 0 <= i <= |backendUrls|
        invariant forall j :: 0 <= j < i ==> !Healthy(net.server, backendUrls[j])
        invariant net.log == old(net.log) + seq(i, j requires 0 <= j < i => HealthProbe(backendUrls[j]))
      {
        var isWorking := TestBackend(net, backendUrls[i]);
        if isWorking {
          baseUrl := backendUrls[i];
          assert FirstHealthy(backendUrls, net.server) == i by {
            FirstHealthyAt(backendUrls, net.server, i);
          }
          assert net.log == old(net.log) + ProbesSent(backendUrls, net.server);
          return backendUrls[i];
        }
        i := i + 1;
      }
      FirstHealthyNone(backendUrls, net.server);
      baseUrl := backendUrls[0];
      url := baseUrl;
      assert net.log == old(net.log) + ProbesSent(backendUrls, net.server);
    }
  }

  lemma FirstHealthyAt(urls: seq<string>, server: Request -> FetchOutcome, i: nat)
    requires i < |urls| && Healthy(server, urls[i])
    requires forall j :: 0 <= j < i ==> !Healthy(server, urls[j])
    ensures FirstHealthy(urls, server) == i
  {
  }

  lemma FirstHealthyNone(urls: seq<string>, server: Request -> FetchOutcome)
    requires forall j :: 0 <= j < |urls| ==> !Healthy(server, urls[j])
    ensures FirstHealthy(urls, server) == |urls|
  {
  }
}
