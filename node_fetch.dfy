/**
 * The ordered fallback fetch of one polling tick: the two relative candidates
 * in a fixed order, then the absolute endpoint. The network is an input: the
 * response to the k-th request of the tick, made to a given URL.
 */
module NodeFetch {
  import opened JsValues

  const MetricsPath: string := "/api/v1/metrics/nodes"
  const RelativeNodesPath: string := "/api/v1/nodes"

  /** The relative candidates, in the order they are tried. */
  const Candidates: seq<string> := [MetricsPath, RelativeNodesPath]

  /** The body of an answered request, as `res.json()` reads it. */
  datatype Body = Parsed(json: Json) | Malformed(message: string)

  /** What one `fetch` gives: a rejected promise, or a response with a status. */
  datatype Response = Transport(message: string) | Http(status: nat, body: Body)

  /** The response to the k-th request of a tick, made to a URL. */
  type Network = (nat, string) -> Response

  /** A thrown JavaScript error: its `name` and its `message`. */
  datatype JsError = JsError(name: string, message: string)

  const RelativeExhausted: JsError := JsError("Error", "All relative node endpoints failed")
  const NoEndpoint: JsError := JsError("Error", "No endpoint configured")

  /** `(e && e.message) || String(e)` for a thrown error `e`: its message, or,
      when that is empty, what `Error.prototype.toString` gives, its name. */
  function ErrorText(e: JsError): (r: string)
    ensures e.message != "" ==> r == e.message
    ensures e.message == "" ==> r == e.name
  {
    if e.message != "" then e.message else e.name
  }

  /** `res.ok`: a status in the 2xx range. */
  predicate IsOk(status: nat)
  {
    200 <= status <= 299
  }

  /** One guarded request: `fetch`, then `if (!res.ok) throw new Error(`HTTP ${res.status}`)`,
      then `res.json()`. */
  function Attempt(r: Response): (res: Result<Json, JsError>)
    ensures res.Success? <==> r.Http? && IsOk(r.status) && r.body.Parsed?
    ensures res.Success? ==> res.value == r.body.json
    ensures r.Http? && !IsOk(r.status) ==> res == Failure(JsError("Error", "HTTP " + Decimal(r.status)))
  {
    match r
    case Transport(m) => Failure(JsError("TypeError", m))
    case Http(status, body) =>
      if !IsOk(status) then Failure(JsError("Error", "HTTP " + Decimal(status)))
      else match body
        case Parsed(j) => Success(j)
        case Malformed(m) => Failure(JsError("SyntaxError", m))
  }

  /** The URLs requested by a stage, in order, and what the stage returns or throws. */
  datatype Stage = Stage(requests: seq<string>, result: Result<Json, JsError>)

  function Prepend(p: seq<string>, s: Stage): Stage
  {
    Stage(p + s.requests, s.result)
  }

  /** The relative loop over `paths`, whose first request is the tick's request
      number `first`: the first answered-ok-and-parsed candidate wins, any other
      outcome moves on, and running out throws `RelativeExhausted`. */
  function TryInOrder(paths: seq<string>, first: nat, net: Network): Stage
    decreases |paths|
  {
    if paths == [] then Stage([], Failure(RelativeExhausted))
    else
      match Attempt(net(first, paths[0]))
      case Success(j) => Stage([paths[0]], Success(j))
      case Failure(_) => Prepend([paths[0]], TryInOrder(paths[1..], first + 1, net))
  }

  /** All of the first `n` candidates failed. */
  ghost predicate FailedBefore(paths: seq<string>, first: nat, net: Network, n: nat)
    requires n <= |paths|
  {
    forall j :: 0 <= j < n ==> Attempt(net(first + j, paths[j])).Failure?
  }

  /** Failures of the first `n + 1` candidates are the first one's failure and
      the failures of the first `n` of the rest. */
  lemma FailedBeforeStep(paths: seq<string>, first: nat, net: Network, n: nat)
    requires n < |paths|
    ensures FailedBefore(paths, first, net, n + 1) <==>
      Attempt(net(first, paths[0])).Failure? && FailedBefore(paths[1..], first + 1, net, n)
  {
  }

  /** The relative stage throws exactly when every candidate failed; it has then
      asked all of them, in order, and throws `RelativeExhausted`. */
  lemma {:induction false} TryInOrderAllFailed(paths: seq<string>, first: nat, net: Network)
    ensures var s := TryInOrder(paths, first, net);
      && (s.result.Failure? <==> FailedBefore(paths, first, net, |paths|))
      && (s.result.Failure? ==> s.requests == paths && s.result.error == RelativeExhausted)
    decreases |paths|
  {
    if paths != [] {
      FailedBeforeStep(paths, first, net, |paths| - 1);
      if Attempt(net(first, paths[0])).Failure? {
        TryInOrderAllFailed(paths[1..], first + 1, net);
        assert [paths[0]] + paths[1..] == paths;
      }
    }
  }

  /** When the relative stage returns a payload, it asked the candidates in order
      up to the first one that succeeded, and the payload is that one's. */
  lemma {:induction false} TryInOrderFirstSuccess(paths: seq<string>, first: nat, net: Network)
    requires TryInOrder(paths, first, net).result.Success?
    ensures var s := TryInOrder(paths, first, net);
      var i := |s.requests| - 1;
      && 0 <= i < |paths|
      && s.requests == paths[..i + 1]
      && FailedBefore(paths, first, net, i)
      && s.result == Attempt(net(first + i, paths[i]))
    decreases |paths|
  {
    var s := TryInOrder(paths, first, net);
    if Attempt(net(first, paths[0])).Failure? {
      TryInOrderFirstSuccess(paths[1..], first + 1, net);
      var t := TryInOrder(paths[1..], first + 1, net);
      var i := |t.requests| - 1;
      assert s.requests == [paths[0]] + t.requests;
      assert paths[1..][..i + 1] == paths[1..i + 2];
      assert s.requests == paths[..i + 2];
      FailedBeforeStep(paths, first, net, i);
    } else {
      assert s.requests == paths[..1];
    }
  }

  /** `tryRelative`. */
  method TryRelative(net: Network) returns (data: Result<Json, JsError>, requested: seq<string>)
    ensures Stage(requested, data) == TryInOrder(Candidates, 0, net)
  {
    requested := [];
    for i := 0 to |Candidates|
      invariant requested == Candidates[..i]
      invariant TryInOrder(Candidates, 0, net) == Prepend(requested, TryInOrder(Candidates[i..], i, net))
    {
      var path := Candidates[i];
      requested := requested + [path];
      var outcome := Attempt(net(i, path));
      assert Candidates[i..][1..] == Candidates[i + 1..];
      if outcome.Success? {
        return outcome, requested;
      }
    }
    data := Failure(RelativeExhausted);
  }

  /** `tryAbsolute`, with the endpoint it closes over and the request number its
      request gets: no request at all when the endpoint is empty. */
  function AbsoluteStage(endpoint: string, k: nat, net: Network): Stage
  {
    if endpoint == "" then Stage([], Failure(NoEndpoint))
    else Stage([endpoint], Attempt(net(k, endpoint)))
  }

  /** The data-acquisition part of `fetchNodes`: the relative stage, and the
      absolute stage only when the relative one throws. */
  function Acquire(endpoint: string, net: Network): Stage
  {
    var rel := TryInOrder(Candidates, 0, net);
    if rel.result.Success? then rel
    else Prepend(rel.requests, AbsoluteStage(endpoint, |rel.requests|, net))
  }

  /** The requests of a tick: the metrics path first; the relative nodes path
      only after the metrics path failed; the endpoint only after both failed.
      The payload comes from the first request that succeeded; when all fail,
      the error is the absolute request's. */
  lemma AcquireOrder(endpoint: string, net: Network)
    requires endpoint != ""
    ensures var s := Acquire(endpoint, net);
      var first := Attempt(net(0, MetricsPath));
      var second := Attempt(net(1, RelativeNodesPath));
      && (first.Success? ==> s == Stage([MetricsPath], first))
      && (first.Failure? && second.Success? ==> s == Stage(Candidates, second))
      && (first.Failure? && second.Failure? ==>
            s == Stage(Candidates + [endpoint], Attempt(net(2, endpoint))))
  {
    TryInOrderAllFailed(Candidates, 0, net);
    var rel := TryInOrder(Candidates, 0, net);
    if rel.result.Success? {
      TryInOrderFirstSuccess(Candidates, 0, net);
    }
    assert Candidates[..1] == [MetricsPath];
    assert Candidates[..2] == Candidates;
    if Attempt(net(0, MetricsPath)).Failure? && Attempt(net(1, RelativeNodesPath)).Success? {
      assert !FailedBefore(Candidates, 0, net, 2) by {
        assert Attempt(net(0 + 1, Candidates[1])).Success?;
      }
    }
  }

  /** With no base URL configured the endpoint is the relative nodes path again.
      If the network answers that path the same way the second time, a tick whose
      relative stage failed fails with the second candidate's error: the absolute
      stage adds a request and nothing else. */
  lemma AcquireWithoutBaseUrl(net: Network)
    requires net(2, RelativeNodesPath) == net(1, RelativeNodesPath)
    ensures var s := Acquire(RelativeNodesPath, net);
      && (s.result.Failure? <==>
            Attempt(net(0, MetricsPath)).Failure? && Attempt(net(1, RelativeNodesPath)).Failure?)
      && (s.result.Failure? ==>
            s.requests == [MetricsPath, RelativeNodesPath, RelativeNodesPath]
            && s.result == Attempt(net(1, RelativeNodesPath)))
  {
    AcquireOrder(RelativeNodesPath, net);
  }
}
