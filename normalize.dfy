/**
 * Response normalization: the shape check on the parsed payload and the
 * coercion of the five numeric fields of every node record.
 */
module Normalize {
  import opened JsValues

  const ShapeErrorMessage: string := "Unexpected response shape from nodes API"

  /** The fields rewritten by the normalizing `map`, in source order. */
  const CoercedFields: seq<string> :=
    ["cpu_usage", "cpu_count", "used_memory", "total_memory", "mem_usage"]

  /** The classified payload: a node list, or a shape the component rejects. */
  datatype Shape = NodeList(items: seq<Json>) | Unexpected

  /** A top-level array is the node list; otherwise an object whose `nodes`
      property is an array supplies it; anything else is rejected. */
  function Classify(data: Json): (s: Shape)
    ensures s.NodeList? <==>
      data.JArr? || (data.JObj? && Get(data, "nodes").Some? && Get(data, "nodes").value.JArr?)
    ensures data.JArr? ==> s == NodeList(data.items)
    ensures !data.JArr? && s.NodeList? ==> Some(JArr(s.items)) == Get(data, "nodes")
  {
    match data
    case JArr(a) => NodeList(a)
    case _ =>
      if Truthy(Some(data)) then
        match Get(data, "nodes")
        case Some(JArr(a)) => NodeList(a)
        case _ => Unexpected
      else Unexpected
  }

  /** `typeof v === "number" ? v : Number(v) || 0`. */
  function Coerce(v: Option<Json>, parse: Parser): (r: Num)
    ensures v.Some? && v.value.JNum? ==> r == v.value.n
    ensures !(v.Some? && v.value.JNum?) ==>
      (if NumTruthy(ToNumber(v, parse)) then Some(r) == ToNumber(v, parse) else r == Zero)
    ensures v.None? || v == Some(JNull) || v == Some(JBool(false)) || (v.Some? && v.value.JObj?) ==> r == Zero
    ensures v == Some(JBool(true)) ==> r == Fin(1.0)
  {
    match v
    case Some(JNum(n)) => n
    case _ => OrZero(ToNumber(v, parse))
  }

  /** `x || 0` for the result of `Number(...)`: NaN becomes 0, and 0 stays 0. */
  function OrZero(x: Option<Num>): Num
  {
    match x
    case None => Zero
    case Some(n) => n
  }

  /** A record as the normalizing `map` leaves it: each coerced field present
      and holding a number. */
  ghost predicate IsNormalized(r: Record)
  {
    forall f :: f in CoercedFields ==> f in r && r[f].JNum?
  }

  /** `({ ...n, cpu_usage: …, cpu_count: …, used_memory: …, total_memory: …,
      mem_usage: … })`. `None` when `n` is `null`: reading `n.cpu_usage` throws. */
  function NormalizeRecord(n: Json, parse: Parser): (r: Option<Record>)
    ensures r.None? <==> n.JNull?
    ensures r.Some? ==> IsNormalized(r.value)
    ensures r.Some? ==> forall f :: f in CoercedFields ==> r.value[f] == JNum(Coerce(Get(n, f), parse))
    ensures r.Some? ==> forall k :: k !in CoercedFields ==>
      (k in r.value <==> k in Spread(n)) && (k in r.value ==> r.value[k] == Spread(n)[k])
  {
    if n.JNull? then None
    else
      Some(Spread(n)
        ["cpu_usage" := JNum(Coerce(Get(n, "cpu_usage"), parse))]
        ["cpu_count" := JNum(Coerce(Get(n, "cpu_count"), parse))]
        ["used_memory" := JNum(Coerce(Get(n, "used_memory"), parse))]
        ["total_memory" := JNum(Coerce(Get(n, "total_memory"), parse))]
        ["mem_usage" := JNum(Coerce(Get(n, "mem_usage"), parse))])
  }

  /** `nodes.map(...)`: every record normalized, in order; `None` when the map
      throws, which happens exactly when some element is `null`. */
  function NormalizeAll(items: seq<Json>, parse: Parser): (r: Option<seq<Record>>)
    ensures r.None? <==> JNull in items
    ensures r.Some? ==> |r.value| == |items|
    ensures r.Some? ==> forall i :: 0 <= i < |items| ==> NormalizeRecord(items[i], parse) == Some(r.value[i])
    decreases |items|
  {
    if items == [] then Some([])
    else
      match NormalizeRecord(items[0], parse)
      case None => None
      case Some(head) =>
        match NormalizeAll(items[1..], parse)
        case None => None
        case Some(rest) => Some([head] + rest)
  }

  /** Coercion keeps numbers, so normalizing a normalized record changes nothing. */
  lemma {:induction false} NormalizeIdempotent(n: Json, parse: Parser)
    requires !n.JNull?
    ensures NormalizeRecord(JObj(NormalizeRecord(n, parse).value), parse) == NormalizeRecord(n, parse)
  {
    var r := NormalizeRecord(n, parse).value;
    var r2 := NormalizeRecord(JObj(r), parse).value;
    forall k | k in r2 || k in r
      ensures k in r2 && k in r && r2[k] == r[k]
    {
      if k in CoercedFields {
        assert Get(JObj(r), k) == Some(r[k]);
      }
    }
    assert r2 == r;
  }
}
