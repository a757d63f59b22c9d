/** The round-robin proxy of `flask_router.py`: every request under "/v1/"
    goes to the next of eight local model replicas, on ports 8001 to 8008, and
    the replica's answer (or a JSON error) is handed back. The HTTP exchange
    with the replica is an input. */
module Router {
  import opened Common
  import MapAction

  const FirstPort := 8001
  const Replicas := 8

  /** `VLLM_URLS`: one base URL per replica, in port order. */
  function ReplicaUrl(i: nat): (r: string)
    requires i < Replicas
  {
    "http://localhost:" + NatToString(FirstPort + i)
  }

  /** Distinct replicas have distinct URLs. */
  lemma ReplicaUrlsDistinct(i: nat, j: nat)
    requires i < Replicas && j < Replicas && i != j
    ensures ReplicaUrl(i) != ReplicaUrl(j)
  {
    PrefixedDistinct("http://localhost:", FirstPort + i, FirstPort + j);
  }

  lemma PrefixedDistinct(p: string, n: nat, m: nat)
    requires n != m
    ensures p + NatToString(n) != p + NatToString(m)
  {
    if p + NatToString(n) == p + NatToString(m) {
      assert (p + NatToString(n))[|p|..] == NatToString(n);
      assert (p + NatToString(m))[|p|..] == NatToString(m);
      MapAction.NatToStringValue(n);
      MapAction.NatToStringValue(m);
    }
  }

  /** The replica chosen when the counter stands at `counter`. */
  function Target(counter: nat): string {
    ReplicaUrl(counter % Replicas)
  }

  /** The URL a request for `endpoint` is forwarded to. */
  function ForwardUrl(target: string, endpoint: string): string {
    target + "/v1/" + endpoint
  }

  /** Requests `k` apart go to the same replica exactly when `k` is a multiple
      of 8. */
  lemma TargetPeriod(counter: nat, k: nat)
    ensures Target(counter + k) == Target(counter) <==> k % Replicas == 0
  {
    if k % Replicas != 0 {
      assert (counter + k) % Replicas != counter % Replicas;
      ReplicaUrlsDistinct((counter + k) % Replicas, counter % Replicas);
    }
  }

  /** The replicas chosen for the eight requests made from counter value
      `counter` on, in order. */
  function Window(counter: nat): (w: seq<string>)
    ensures |w| == Replicas
    ensures forall i :: 0 <= i < Replicas ==> w[i] == Target(counter + i)
  {
    seq(Replicas, i requires 0 <= i => Target(counter + i))
  }

  /** Eight consecutive requests go to eight different replicas. */
  lemma WindowDistinct(counter: nat)
    ensures forall i, j :: 0 <= i < j < Replicas ==> Window(counter)[i] != Window(counter)[j]
  {
    var w := Window(counter);
    forall i, j | 0 <= i < j < Replicas
      ensures w[i] != w[j]
    {
      TargetPeriod(counter + i, j - i);
      assert counter + i + (j - i) == counter + j;
    }
  }

  /** Eight consecutive requests reach every replica. */
  lemma WindowCovers(counter: nat)
    ensures forall r: nat :: r < Replicas ==> ReplicaUrl(r) in Window(counter)
  {
    var w := Window(counter);
    forall r: nat | r < Replicas
      ensures ReplicaUrl(r) in w
    {
      var k := ReachedAt(counter, r);
      assert w[k - counter] == ReplicaUrl(r);
    }
  }

  /** The request, among the eight from `counter` on, that reaches replica `r`. */
  lemma ReachedAt(counter: nat, r: nat) returns (k: nat)
    requires r < Replicas
    ensures counter <= k < counter + Replicas && k % Replicas == r
  {
    k := counter + (r + Replicas - counter % Replicas) % Replicas;
  }

  /** What the replica does with the forwarded request. */
  datatype Backend = Responded(content: string, status: nat) | ConnectionFailed(details: string)

  /** What the proxy answers: the replica's own answer, or a JSON error with a
      status. */
  datatype Response =
    | Forwarded(content: string, status: nat)
    | JsonError(error: string, details: Option<string>, status: nat)
    | MethodNotAllowed

  /** The methods the "/v1/<path:endpoint>" route accepts: the three it
      declares and HEAD, which the framework adds to every route with GET.
      Any other method is answered by the framework with its own 405
      (MethodNotAllowed) without calling `proxy_vllm`. */
  const RouteMethods: set<string> := {"POST", "GET", "OPTIONS", "HEAD"}

  /** The answer to one request once the URL is fixed: a method other than
      POST, GET or OPTIONS is refused with 405, a failed connection gives 502
      naming the URL, and otherwise the replica's answer is passed on. */
  function Respond(url: string, httpMethod: string, backend: Backend): (r: Response)
    ensures (r.JsonError? && r.status == 405) <==> httpMethod !in {"POST", "GET", "OPTIONS"}
    ensures (r.JsonError? && r.status == 502) <==> httpMethod in {"POST", "GET", "OPTIONS"} && backend.ConnectionFailed?
    ensures httpMethod !in {"POST", "GET", "OPTIONS"} ==> r == JsonError("Method " + httpMethod + " not supported", None, 405)
    ensures httpMethod in {"POST", "GET", "OPTIONS"} && backend.ConnectionFailed? ==>
              r.JsonError? && r.status == 502 && Contains(r.error, url) && r.details == Some(backend.details)
    ensures httpMethod in {"POST", "GET", "OPTIONS"} && backend.Responded? ==>
              r == Forwarded(backend.content, backend.status)
  {
    if httpMethod !in {"POST", "GET", "OPTIONS"} then
      JsonError("Method " + httpMethod + " not supported", None, 405)
    else match backend
      case Responded(content, status) => Forwarded(content, status)
      case ConnectionFailed(details) =>
        var msg := "Failed to connect to backend " + url;
        assert msg[|msg| - |url|..] == url;
        ContainsAt(msg, url, |msg| - |url|);
        JsonError(msg, Some(details), 502)
  }

  /** HEAD is the one method that reaches `proxy_vllm` only to be refused by
      it: the JSON 405, whatever the replica would have done. */
  lemma HeadRefused(url: string, backend: Backend)
    ensures "HEAD" in RouteMethods
    ensures Respond(url, "HEAD", backend) == JsonError("Method HEAD not supported", None, 405)
  {
  }

  /** The proxy and its round-robin counter. */
  class Proxy {
    var counter: nat

    constructor()
      ensures counter == 0
    {
      counter := 0;
    }

    /** `proxy_vllm(endpoint)`: pick the replica, advance the counter (even
        when the forwarding later fails or is refused), then forward. */
    method Handle(endpoint: string, httpMethod: string, backend: Backend) returns (url: string, r: Response)
      requires httpMethod in RouteMethods
      modifies this
      ensures counter == old(counter) + 1
      ensures url == ForwardUrl(Target(old(counter)), endpoint)
      ensures r == Respond(url, httpMethod, backend)
    {
      var target := ReplicaUrl(counter % Replicas);
      counter := counter + 1;
      url := target + "/v1/" + endpoint;
      r := Respond(url, httpMethod, backend);
    }

    /** A request under "/v1/": the route's methods reach `proxy_vllm`, which
        moves the counter; HEAD gets there and is refused by it with the JSON
        405; any other method is refused before it and leaves the counter
        alone (HeadRefused gives HEAD's answer). */
    method Serve(endpoint: string, httpMethod: string, backend: Backend) returns (r: Response)
      modifies this
      ensures httpMethod in RouteMethods ==>
                counter == old(counter) + 1 &&
                r == Respond(ForwardUrl(Target(old(counter)), endpoint), httpMethod, backend)
      ensures httpMethod !in RouteMethods ==> counter == old(counter) && r == MethodNotAllowed
    {
      if httpMethod in RouteMethods {
        var url;
        url, r := Handle(endpoint, httpMethod, backend);
      } else {
        r := MethodNotAllowed;
      }
    }
  }
}
