/**
 * The JavaScript values the node pipeline handles: the values `res.json()`
 * can produce, JavaScript truthiness, the `||` and `??` operators, property
 * reads, object spread and the `Number(...)` conversion.
 */
module JsValues {

  datatype Option<+T> = None | Some(value: T)

  datatype Result<+T, +E> = Success(value: T) | Failure(error: E)

  /** A JavaScript number other than NaN. NaN is never stored: a conversion that
      yields NaN is `None` in an `Option<Num>`. Negative zero is not told apart. */
  datatype Num = Fin(r: real) | Inf(positive: bool)

  /** A value produced by `JSON.parse`. Object key order is not kept. */
  datatype Json =
    | JNull
    | JBool(b: bool)
    | JNum(n: Num)
    | JStr(s: string)
    | JArr(items: seq<Json>)
    | JObj(fields: map<string, Json>)

  /** An object's own properties, as produced by `{ ...n }`. */
  type Record = map<string, Json>

  /** JavaScript's conversion of a string to a number (`Number(s)` for a string `s`);
      `None` is NaN. Its grammar is not part of this model: it is a parameter. */
  type Parser = string -> Option<Num>

  const Zero: Num := Fin(0.0)

  /** Truthiness of a value; `None` stands for `undefined`. */
  predicate Truthy(v: Option<Json>)
  {
    match v
    case None => false
    case Some(JNull) => false
    case Some(JBool(b)) => b
    case Some(JNum(n)) => NumTruthy(Some(n))
    case Some(JStr(s)) => s != ""
    case Some(JArr(_)) => true
    case Some(JObj(_)) => true
  }

  /** Truthiness of the result of a numeric conversion; `None` is NaN. */
  predicate NumTruthy(n: Option<Num>)
  {
    match n
    case None => false
    case Some(Fin(r)) => r != 0.0
    case Some(Inf(_)) => true
  }

  /** `a || b || d` where `d` is a literal (always a defined value). */
  function FirstTruthy(a: Option<Json>, b: Option<Json>, d: Json): (r: Json)
    ensures Truthy(a) ==> Some(r) == a
    ensures !Truthy(a) && Truthy(b) ==> Some(r) == b
    ensures !Truthy(a) && !Truthy(b) ==> r == d
  {
    if Truthy(a) then a.value else if Truthy(b) then b.value else d
  }

  /** `a ?? d`: the default only for `null` and `undefined`. */
  function Nullish(a: Option<Json>, d: Json): (r: Json)
    ensures a.None? || a == Some(JNull) ==> r == d
    ensures a.Some? && a != Some(JNull) ==> r == a.value
  {
    match a
    case None => d
    case Some(JNull) => d
    case Some(v) => v
  }

  /** Reading property `key` of a non-null value. Arrays and strings have index
      and `length` properties, but none of the keys this component reads is one. */
  function Get(v: Json, key: string): Option<Json>
  {
    match v
    case JObj(m) => if key in m then Some(m[key]) else None
    case _ => None
  }

  /** The digit character for `k < 10`. */
  function DigitChar(k: nat): char
    requires k < 10
  {
    ('0' as int + k) as char
  }

  /** The number a string of decimal digits spells, read from the left. */
  ghost function DigitsValue(s: string): int
    decreases |s|
  {
    if s == [] then 0 else 10 * DigitsValue(s[..|s| - 1]) + (s[|s| - 1] as int - '0' as int)
  }

  /** The decimal digits of a natural number, as a template literal prints it:
      digits only, spelling `n`, with no leading zero. */
  function Decimal(n: nat): (s: string)
    ensures |s| > 0
    ensures forall i :: 0 <= i < |s| ==> '0' <= s[i] <= '9'
    ensures DigitsValue(s) == n
    ensures n >= 10 ==> s[0] != '0'
    decreases n
  {
    if n < 10 then [DigitChar(n)]
    else
      var prefix := Decimal(n / 10);
      var s := prefix + [DigitChar(n % 10)];
      assert s[..|s| - 1] == prefix;
      assert s[0] == prefix[0];
      s
  }

  /** The own enumerable properties copied by `{ ...v }`: an object's fields, an
      array's or a string's elements under their indices, nothing for a primitive. */
  function Spread(v: Json): Record
  {
    match v
    case JObj(m) => m
    case JArr(a) => Indexed(a)
    case JStr(s) => Indexed(seq(|s|, i requires 0 <= i < |s| => JStr([s[i]])))
    case _ => map[]
  }

  function Indexed(a: seq<Json>): Record
    decreases |a|
  {
    if a == [] then map[] else Indexed(a[..|a| - 1])[Decimal(|a| - 1) := a[|a| - 1]]
  }

  /** `Number(v)`; `None` for the argument stands for `undefined`, `None` for the
      result is NaN. Arrays and objects convert through their string form; the
      string forms that can occur here ("" for `[]` and `[null]`, "true", "false",
      "[object Object]", anything joined with a comma) have fixed values, written out. */
  function ToNumber(v: Option<Json>, parse: Parser): Option<Num>
  {
    match v
    case None => None
    case Some(j) => JsonToNumber(j, parse)
  }

  function JsonToNumber(j: Json, parse: Parser): Option<Num>
  {
    match j
    case JNull => Some(Zero)
    case JBool(b) => Some(Fin(if b then 1.0 else 0.0))
    case JNum(n) => Some(n)
    case JStr(s) => parse(s)
    case JObj(_) => None
    case JArr(a) =>
      if |a| == 0 then Some(Zero)
      else if |a| > 1 then None
      else match a[0]
        case JBool(_) => None
        case JObj(_) => None
        case x => JsonToNumber(x, parse)
  }
}
