/**
 The CORS proxy fallback chain (`fetchCors`): the target URL is handed to each
 proxy URL builder in turn, and the first attempt that answers with a 2xx
 status and a body that parses as JSON wins. Network I/O is replaced by the
 outcome each attempt would have, one per builder.
 */
module ProxyChain {
  import opened Common

  /** The rejection `fetchCors` settles with once every builder has failed. */
  const ProxyFailed: string := "proxy failed"

  /** Why a `fetch` promise rejected instead of delivering a response; `TimedOut` is the 6000 ms per-attempt deadline expiring. */
  datatype Rejection = NetworkError | TimedOut | Aborted

  /**
   What one `fetchWithTimeout` call yields: a response with its status code and
   its body parsed as JSON (`None` when the text is not valid JSON), or a rejection.
   */
  datatype FetchOutcome<T> = Responded(status: int, json: Option<T>) | Rejected(reason: Rejection)

  /** `Response.ok`: the status is in the range 200-299. */
  predicate IsOk(status: int) {
    200 <= status <= 299
  }

  /** The parsed body an attempt delivers, or `None` when it fails for any reason. */
  function Body<T>(o: FetchOutcome<T>): (b: Option<T>)
    ensures b.Some? <==> o.Responded? && IsOk(o.status) && o.json.Some?
    ensures b.Some? ==> b.value == o.json.value
  {
    match o
    case Responded(status, json) => if IsOk(status) then json else None
    case Rejected(_) => None
  }

  /** A run of the chain: how it settled and the URLs it requested, in order. */
  datatype ChainRun<T> = ChainRun(result: Result<T>, requests: seq<string>)

  /**
   `next()` with the counter at `i`: try builder `i`, and on any failure advance
   to `i + 1`; reject with "proxy failed" once the builders are used up.
   */
  function Next<T>(proxies: seq<string -> string>, url: string, outcomes: seq<FetchOutcome<T>>, i: nat): (r: ChainRun<T>)
    requires |outcomes| == |proxies| && i <= |proxies|
    decreases |proxies| - i
    ensures i + |r.requests| <= |proxies|
    ensures forall j :: 0 <= j < |r.requests| ==> r.requests[j] == proxies[i + j](url)
    ensures forall j :: i <= j < i + |r.requests| - 1 ==> Body(outcomes[j]).None?
    ensures r.result.Success? ==> |r.requests| > 0 && Body(outcomes[i + |r.requests| - 1]) == Some(r.result.value)
    ensures r.result.Failure? ==> r.result.error == ProxyFailed && |r.requests| == |proxies| - i
    ensures r.result.Failure? <==> forall j :: i <= j < |proxies| ==> Body(outcomes[j]).None?
  {
    if i >= |proxies| then ChainRun(Failure(ProxyFailed), [])
    else
      var request := proxies[i](url);
      match Body(outcomes[i])
      case Some(data) => ChainRun(Success(data), [request])
      case None =>
        var rest := Next(proxies, url, outcomes, i + 1);
        ChainRun(rest.result, [request] + rest.requests)
  }

  /** `fetchCors(url, signal)`: the chain started at the first builder. */
  function FetchCors<T>(proxies: seq<string -> string>, url: string, outcomes: seq<FetchOutcome<T>>): (r: ChainRun<T>)
    requires |outcomes| == |proxies|
    ensures |r.requests| <= |proxies|
    ensures forall j :: 0 <= j < |r.requests| ==> r.requests[j] == proxies[j](url)
  {
    Next(proxies, url, outcomes, 0)
  }

  /** The index of the first attempt at or after `i` that would deliver a body, or `|outcomes|`. */
  function FirstDelivering<T>(outcomes: seq<FetchOutcome<T>>, i: nat): (k: nat)
    requires i <= |outcomes|
    decreases |outcomes| - i
    ensures i <= k <= |outcomes|
    ensures forall j :: i <= j < k ==> Body(outcomes[j]).None?
    ensures k < |outcomes| ==> Body(outcomes[k]).Some?
  {
    if i == |outcomes| || Body(outcomes[i]).Some? then i else FirstDelivering(outcomes, i + 1)
  }

  /**
   The chain settles with the body of the first delivering attempt, after exactly
   that many attempts plus one; when no attempt delivers it rejects with
   "proxy failed" after trying every builder.
   */
  lemma FirstSuccessWins<T>(proxies: seq<string -> string>, url: string, outcomes: seq<FetchOutcome<T>>)
    requires |outcomes| == |proxies|
    ensures var r := FetchCors(proxies, url, outcomes);
      var k := FirstDelivering(outcomes, 0);
      && (k < |proxies| ==> r.result == Success(Body(outcomes[k]).value) && |r.requests| == k + 1)
      && (k == |proxies| ==> r.result == Failure(ProxyFailed) && |r.requests| == |proxies|)
  {
  }

  /**
   A rejection caused by the search's abort signal is handled like any other
   failure: the chain goes on to the next builder instead of stopping.
   */
  lemma NoEarlyExitOnAbort<T>(proxies: seq<string -> string>, url: string, outcomes: seq<FetchOutcome<T>>, i: nat)
    requires |outcomes| == |proxies| && i + 1 < |proxies|
    requires forall j :: 0 <= j <= i ==> outcomes[j] == Rejected(Aborted)
    ensures |FetchCors(proxies, url, outcomes).requests| >= i + 2
    ensures FetchCors(proxies, url, outcomes).requests[i + 1] == proxies[i + 1](url)
  {
  }

  /** The relay prefixes of the two CORS proxies, tried in this order. */
  const CorsProxyIo: string := "https://corsproxy.io/?"
  const AllOrigins: string := "https://api.allorigins.win/raw?url="

  /** `PROXIES`: the two builders, each given `encodeURIComponent` as the opaque `encode`. */
  function Proxies(encode: string -> string): (ps: seq<string -> string>)
    ensures |ps| == 2
    ensures forall u :: ps[0](u) == CorsProxyIo + encode(u) && ps[1](u) == AllOrigins + encode(u)
  {
    [(u: string) => CorsProxyIo + encode(u), (u: string) => AllOrigins + encode(u)]
  }

  /** With the real builders, a chain whose two attempts both fail asks corsproxy.io first, then allorigins, then rejects. */
  lemma BothProxiesFail<T>(encode: string -> string, url: string, outcomes: seq<FetchOutcome<T>>)
    requires |outcomes| == 2 && Body(outcomes[0]).None? && Body(outcomes[1]).None?
    ensures FetchCors(Proxies(encode), url, outcomes)
      == ChainRun(Failure(ProxyFailed), [CorsProxyIo + encode(url), AllOrigins + encode(url)])
  {
    var ps := Proxies(encode);
    assert Next(ps, url, outcomes, 2) == ChainRun(Failure(ProxyFailed), []);
    assert Next(ps, url, outcomes, 1) == ChainRun(Failure(ProxyFailed), [AllOrigins + encode(url)]);
  }
}
