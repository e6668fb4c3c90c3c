/**
 * The component's fetch state (`nodesDataToUse`, `nodesFetchSuccess`,
 * `nodesFetchError`) and `fetchNodes`, one polling tick that updates it.
 */
module ClusterState {
  import opened JsValues
  import opened Normalize
  import opened NodeFetch
  import Endpoint

  /** The state triple as the rendering code reads it. */
  datatype View = View(nodes: seq<Record>, success: bool, error: Option<string>)

  /** What every tick keeps: success exactly when there are nodes, an error
      message only with an empty list, and every stored record normalized. */
  ghost predicate Consistent(v: View)
  {
    && (v.success <==> v.nodes != [])
    && (v.error.Some? ==> v.nodes == [] && !v.success)
    && forall i :: 0 <= i < |v.nodes| ==> IsNormalized(v.nodes[i])
  }

  /** The state after one tick of `fetchNodes`, given the state before it. The
      error is cleared first; a failed fetch, a rejected shape and an empty list
      each replace the whole triple; a non-empty list is normalized and stored.
      If normalizing throws (a `null` element), the tick stops there and the
      earlier list and flag stay. */
  function NextView(before: View, endpoint: string, net: Network, parse: Parser): View
  {
    var acquired := Acquire(endpoint, net);
    if acquired.result.Failure? then View([], false, Some(ErrorText(acquired.result.error)))
    else AfterPayload(before.(error := None), acquired.result.value, parse)
  }

  /** The part of a tick after a payload was obtained, from the state whose
      error was cleared at the start of the tick. */
  function AfterPayload(cleared: View, data: Json, parse: Parser): View
  {
    match Classify(data)
    case Unexpected => View([], false, Some(ShapeErrorMessage))
    case NodeList(items) =>
      if |items| == 0 then View([], false, None)
      else
        match NormalizeAll(items, parse)
        case None => cleared
        case Some(normalized) => View(normalized, true, None)
  }

  class NodesPanel {
    var nodesDataToUse: seq<Record>
    var nodesFetchSuccess: bool
    var nodesFetchError: Option<string>
    /** The URLs the latest tick requested, in order. */
    ghost var lastRequests: seq<string>

    function Current(): View
      reads this
    {
      View(nodesDataToUse, nodesFetchSuccess, nodesFetchError)
    }

    /** The initial `useState` values. */
    constructor ()
      ensures Current() == View([], false, None) && Consistent(Current())
      ensures lastRequests == []
    {
      nodesDataToUse := [];
      nodesFetchSuccess := false;
      nodesFetchError := None;
      lastRequests := [];
    }

    /** `fetchNodes`. */
    method FetchNodes(endpoint: string, net: Network, parse: Parser)
      modifies this
      ensures Current() == NextView(old(Current()), endpoint, net, parse)
      ensures lastRequests == Acquire(endpoint, net).requests
      ensures Consistent(old(Current())) ==> Consistent(Current())
    {
      ghost var before := Current();
      if Consistent(before) {
        NextViewConsistent(before, endpoint, net, parse);
      }
      ghost var acquired := Acquire(endpoint, net);
      nodesFetchError := None;
      var data: Json;
      var relative, requested := TryRelative(net);
      lastRequests := requested;
      if relative.Success? {
        data := relative.value;
        assert acquired.result == Success(data);
      } else {
        var absolute := AbsoluteStage(endpoint, |requested|, net);
        lastRequests := lastRequests + absolute.requests;
        assert acquired == Prepend(requested, absolute);
        if absolute.result.Failure? {
          nodesFetchError := Some(ErrorText(absolute.result.error));
          nodesFetchSuccess := false;
          nodesDataToUse := [];
          return;
        }
        data := absolute.result.value;
      }
      assert lastRequests == acquired.requests;
      StorePayload(data, parse);
    }

    /** The rest of `fetchNodes` once a payload was obtained: the shape check,
        then normalizing and storing a non-empty list. */
    method StorePayload(data: Json, parse: Parser)
      requires nodesFetchError.None?
      modifies this`nodesFetchError, this`nodesFetchSuccess, this`nodesDataToUse
      ensures Current() == AfterPayload(old(Current()), data, parse)
    {
      var shape := Classify(data);
      if shape.Unexpected? {
        nodesFetchError := Some(ShapeErrorMessage);
        nodesFetchSuccess := false;
        nodesDataToUse := [];
        return;
      }
      var nodes := shape.items;

      if |nodes| > 0 {
        var normalized := NormalizeAll(nodes, parse);
        if normalized.None? {
          return;
        }
        nodesDataToUse := normalized.value;
        nodesFetchSuccess := true;
      } else {
        nodesFetchSuccess := false;
        nodesDataToUse := [];
      }
    }
  }

  /** Every tick keeps the state consistent. */
  lemma NextViewConsistent(before: View, endpoint: string, net: Network, parse: Parser)
    requires Consistent(before)
    ensures Consistent(NextView(before, endpoint, net, parse))
  {
  }

  /** When every candidate fails, the triple becomes the absolute request's error
      text, no success and no nodes, whatever it was before. */
  lemma FetchFailureState(before: View, endpoint: string, net: Network, parse: Parser)
    requires endpoint != ""
    requires Attempt(net(0, MetricsPath)).Failure? && Attempt(net(1, RelativeNodesPath)).Failure?
    requires Attempt(net(2, endpoint)).Failure?
    ensures NextView(before, endpoint, net, parse)
      == View([], false, Some(ErrorText(Attempt(net(2, endpoint)).error)))
  {
    AcquireOrder(endpoint, net);
  }

  /** The payload of the first successful request is classified: a rejected
      shape gives the shape error, an empty list gives no success and no error,
      and a list without `null` gives exactly its normalized records, in order,
      with success. */
  lemma PayloadState(before: View, endpoint: string, net: Network, parse: Parser)
    requires Acquire(endpoint, net).result.Success?
    ensures var data := Acquire(endpoint, net).result.value;
      var after := NextView(before, endpoint, net, parse);
      && (Classify(data).Unexpected? ==> after == View([], false, Some(ShapeErrorMessage)))
      && (Classify(data) == NodeList([]) ==> after == View([], false, None))
      && (Classify(data).NodeList? && Classify(data).items != [] && JNull !in Classify(data).items ==>
            && after.success && after.error.None?
            && |after.nodes| == |Classify(data).items|
            && forall i :: 0 <= i < |after.nodes| ==>
                 NormalizeRecord(Classify(data).items[i], parse) == Some(after.nodes[i]))
  {
  }

  /** A `null` record in a non-empty list makes the normalizing `map` throw: the
      tick ends with the error cleared and the previous list and flag left as
      they were, so an earlier successful list is still displayed. */
  lemma StaleOnNullRecord(before: View, endpoint: string, net: Network, parse: Parser)
    requires Acquire(endpoint, net).result.Success?
    requires Classify(Acquire(endpoint, net).result.value).NodeList?
    requires JNull in Classify(Acquire(endpoint, net).result.value).items
    ensures NextView(before, endpoint, net, parse) == before.(error := None)
  {
  }

  /** The whole tick from the configuration: the endpoint is never empty, so a
      tick requests the relative candidates and then the configured endpoint. */
  lemma TickFromConfiguration(configured: Option<string>, net: Network)
    requires Attempt(net(0, MetricsPath)).Failure? && Attempt(net(1, RelativeNodesPath)).Failure?
    ensures var e := Endpoint.AbsoluteEndpoint(configured);
      Acquire(e, net) == Stage(Candidates + [e], Attempt(net(2, e)))
  {
    AcquireOrder(Endpoint.AbsoluteEndpoint(configured), net);
  }
}
