/**
 * What the component derives from the fetch state for display: the table rows
 * with their field fallbacks, the case-insensitive name filter of the search
 * box, and the clamped value of the usage progress bars.
 */
module Display {
  import opened JsValues
  import opened Normalize

  /** One displayed row. `name` may be `undefined`; every other field has a
      literal fallback, so it is always a defined value. */
  datatype Row = Row(
    name: Option<Json>,
    internalIP: Json,
    os: Json,
    arch: Json,
    cpuUsage: Json,
    memoryUsage: Json,
    totalStorage: Json,
    storageUsage: Json)

  function Field(node: Record, key: string): Option<Json>
  {
    Get(JObj(node), key)
  }

  /** The callback of `nodesDataToUse.map(...)`. */
  function ToRow(node: Record): Row
  {
    Row(
      Field(node, "node_name"),
      FirstTruthy(Field(node, "ip"), Field(node, "internal_ip"), JStr("")),
      FirstTruthy(Field(node, "os"), None, JStr("")),
      FirstTruthy(Field(node, "arch"), None, JStr("")),
      Nullish(Field(node, "cpu_usage"), JNum(Zero)),
      Nullish(Field(node, "mem_usage"), JNum(Zero)),
      FirstTruthy(Field(node, "total_storage"), Field(node, "storage_total"), JNum(Zero)),
      FirstTruthy(Field(node, "storage_usage"), Field(node, "used_storage"), JNum(Zero)))
  }

  /** `nodes`: no rows unless the last fetch succeeded; otherwise one row per
      stored record, in order. */
  function Rows(success: bool, data: seq<Record>): (rows: seq<Row>)
    ensures !success ==> rows == []
    ensures success ==> |rows| == |data| && forall i :: 0 <= i < |data| ==> rows[i] == ToRow(data[i])
  {
    if success then seq(|data|, i requires 0 <= i < |data| => ToRow(data[i])) else []
  }

  /** On a normalized record the usage columns are the coerced numbers, the name
      is the raw `node_name`, and every other column is its first truthy source
      field, else its literal; the storage columns are not coerced. */
  lemma RowOfNormalized(node: Record)
    requires IsNormalized(node)
    ensures var row := ToRow(node);
      && row.name == Field(node, "node_name")
      && row.cpuUsage == node["cpu_usage"] && row.cpuUsage.JNum?
      && row.memoryUsage == node["mem_usage"] && row.memoryUsage.JNum?
      && (Truthy(Field(node, "ip")) ==> Some(row.internalIP) == Field(node, "ip"))
      && (!Truthy(Field(node, "ip")) && Truthy(Field(node, "internal_ip")) ==>
            Some(row.internalIP) == Field(node, "internal_ip"))
      && (!Truthy(Field(node, "ip")) && !Truthy(Field(node, "internal_ip")) ==> row.internalIP == JStr(""))
      && (Truthy(Field(node, "os")) ==> Some(row.os) == Field(node, "os"))
      && (!Truthy(Field(node, "os")) ==> row.os == JStr(""))
      && (Truthy(Field(node, "arch")) ==> Some(row.arch) == Field(node, "arch"))
      && (!Truthy(Field(node, "arch")) ==> row.arch == JStr(""))
      && (Truthy(Field(node, "total_storage")) ==> Some(row.totalStorage) == Field(node, "total_storage"))
      && (!Truthy(Field(node, "total_storage")) && Truthy(Field(node, "storage_total")) ==>
            Some(row.totalStorage) == Field(node, "storage_total"))
      && (!Truthy(Field(node, "total_storage")) && !Truthy(Field(node, "storage_total")) ==>
            row.totalStorage == JNum(Zero))
      && (Truthy(Field(node, "storage_usage")) ==> Some(row.storageUsage) == Field(node, "storage_usage"))
      && (!Truthy(Field(node, "storage_usage")) && Truthy(Field(node, "used_storage")) ==>
            Some(row.storageUsage) == Field(node, "used_storage"))
      && (!Truthy(Field(node, "storage_usage")) && !Truthy(Field(node, "used_storage")) ==>
            row.storageUsage == JNum(Zero))
  {
  }

  /** ASCII lowering of one character. */
  function LowerChar(c: char): char
  {
    if 'A' <= c <= 'Z' then (c as int + 32) as char else c
  }

  /** `toLowerCase()`, on ASCII letters only. */
  function Lower(s: string): (r: string)
    ensures |r| == |s|
    ensures forall i :: 0 <= i < |s| ==> r[i] == LowerChar(s[i])
  {
    seq(|s|, i requires 0 <= i < |s| => LowerChar(s[i]))
  }

  lemma LowerIdempotent(s: string)
    ensures Lower(Lower(s)) == Lower(s)
  {
  }

  /** `t` occurs in `s` starting at index `i`. */
  predicate OccursAt(s: string, t: string, i: nat)
  {
    i + |t| <= |s| && s[i..i + |t|] == t
  }

  /** `s.includes(t)`: some occurrence of `t` in `s`. */
  function Includes(s: string, t: string): (b: bool)
    ensures b <==> exists i: nat :: OccursAt(s, t, i)
    decreases |s|
  {
    if |t| > |s| then false
    else if s[..|t|] == t then (assert OccursAt(s, t, 0); true)
    else
      var rest := Includes(s[1..], t);
      assert forall i: nat :: OccursAt(s[1..], t, i) <==> OccursAt(s, t, i + 1) by {
        forall i: nat ensures OccursAt(s[1..], t, i) <==> OccursAt(s, t, i + 1) {
          if i + |t| <= |s[1..]| {
            assert s[1..][i..i + |t|] == s[i + 1..i + 1 + |t|];
          }
        }
      }
      assert !OccursAt(s, t, 0);
      assert (exists i: nat :: OccursAt(s, t, i)) ==> exists i: nat :: OccursAt(s[1..], t, i) by {
        if exists i: nat :: OccursAt(s, t, i) {
          var i: nat :| OccursAt(s, t, i);
          assert i > 0;
          assert OccursAt(s[1..], t, i - 1);
        }
      }
      rest
  }

  /** The search box keeps a row when its name, lowered, contains the lowered
      search term. */
  predicate Keeps(row: Row, term: string)
  {
    row.name.Some? && row.name.value.JStr? && Includes(Lower(row.name.value.s), Lower(term))
  }

  /** `node.name.toLowerCase()` throws unless the name is a string. */
  predicate HasStringName(row: Row)
  {
    row.name.Some? && row.name.value.JStr?
  }

  /** `a` is `b` with some elements left out, in the same order. */
  ghost predicate IsSubsequence(a: seq<Row>, b: seq<Row>)
    decreases |b|
  {
    a == [] || (b != [] && if a[0] == b[0] then IsSubsequence(a[1..], b[1..]) else IsSubsequence(a, b[1..]))
  }

  /** `filteredNodes`: the rows the search term keeps, in their original order
      and with their multiplicities; `None` when filtering throws, which happens
      exactly when some row's name is not a string. */
  function FilterByName(rows: seq<Row>, term: string): (r: Option<seq<Row>>)
    ensures r.None? <==> exists i :: 0 <= i < |rows| && !HasStringName(rows[i])
    ensures r.Some? ==> IsSubsequence(r.value, rows)
    ensures r.Some? ==> forall x :: x in r.value ==> Keeps(x, term)
    ensures r.Some? ==> forall x :: Keeps(x, term) ==> multiset(r.value)[x] == multiset(rows)[x]
    decreases |rows|
  {
    if rows == [] then Some([])
    else if !HasStringName(rows[0]) then None
    else
      match FilterByName(rows[1..], term)
      case None =>
        assert forall i :: 0 < i < |rows| ==> rows[i] == rows[1..][i - 1];
        None
      case Some(rest) =>
        assert rows == [rows[0]] + rows[1..];
        assert forall i :: 0 <= i < |rows| - 1 ==> rows[1..][i] == rows[i + 1];
        if Keeps(rows[0], term) then
          assert ([rows[0]] + rest)[1..] == rest;
          Some([rows[0]] + rest)
        else
          assert rest == [] || rest[0] != rows[0];
          Some(rest)
  }

  /** An empty search term keeps every row. */
  lemma {:induction false} EmptyTermKeepsAll(rows: seq<Row>)
    requires forall i :: 0 <= i < |rows| ==> HasStringName(rows[i])
    ensures FilterByName(rows, "") == Some(rows)
    decreases |rows|
  {
    if rows != [] {
      assert OccursAt(Lower(rows[0].name.value.s), Lower(""), 0);
      EmptyTermKeepsAll(rows[1..]);
      assert rows == [rows[0]] + rows[1..];
    }
  }

  /** The filter ignores the case of the search term. */
  lemma {:induction false} FilterIgnoresTermCase(rows: seq<Row>, term: string)
    ensures FilterByName(rows, term) == FilterByName(rows, Lower(term))
    decreases |rows|
  {
    LowerIdempotent(term);
    if rows != [] {
      FilterIgnoresTermCase(rows[1..], term);
    }
  }

  /** `Math.min(100, Math.max(0, x))` for a number `x`. */
  function ClampPercent(x: Num): real
  {
    var atLeastZero := match x
      case Fin(r) => if r > 0.0 then x else Zero
      case Inf(positive) => if positive then x else Zero;
    match atLeastZero
    case Fin(r) => if r < 100.0 then r else 100.0
    case Inf(_) => 100.0
  }

  /** The value of a usage progress bar: `Math.min(100, Math.max(0, Number(v) || 0))`.
      Always within [0, 100]; a number already in range is shown as it is, a
      value that converts to NaN or to -Infinity shows 0, and one above 100 or
      +Infinity shows 100. */
  function ProgressValue(v: Json, parse: Parser): (p: real)
    ensures 0.0 <= p <= 100.0
    ensures JsonToNumber(v, parse).None? ==> p == 0.0
    ensures forall r :: JsonToNumber(v, parse) == Some(Fin(r)) ==>
      p == (if r < 0.0 then 0.0 else if r > 100.0 then 100.0 else r)
    ensures JsonToNumber(v, parse) == Some(Inf(true)) ==> p == 100.0
    ensures JsonToNumber(v, parse) == Some(Inf(false)) ==> p == 0.0
  {
    ClampPercent(OrZero(JsonToNumber(v, parse)))
  }
}
