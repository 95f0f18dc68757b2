/**
 * The JavaScript values the request layer handles: JSON values (request
 * bodies and parsed responses), the scalars a query record may hold, and
 * the language rules the source leans on: truthiness and `String(v)`.
 */
module Js {
  import opened Options

  /** A JSON value. Numbers are integers here; an object keeps its entries in order. */
  datatype Json =
    | JNull
    | JBool(b: bool)
    | JNum(n: int)
    | JStr(s: string)
    | JArr(items: seq<Json>)
    | JObj(fields: seq<(string, Json)>)

  /** JavaScript truthiness of a JSON value: only null, false, 0 and "" are falsy. */
  predicate Truthy(j: Json) {
    match j
    case JNull => false
    case JBool(b) => b
    case JNum(n) => n != 0
    case JStr(s) => s != ""
    case JArr(_) => true
    case JObj(_) => true
  }

  /** Truthiness of a value that may be `undefined`. */
  predicate TruthyOpt(j: Option<Json>) {
    j.Some? && Truthy(j.value)
  }

  /** Truthiness of an optional string: `undefined`, `null` and "" are falsy. */
  predicate Present(s: Option<string>) {
    s.Some? && s.value != ""
  }

  /** The value of a decimal digit character (0 for any other character). */
  function DigitValue(c: char): nat {
    if '0' <= c <= '9' then c as int - '0' as int else 0
  }

  /** The number a string of decimal digits denotes, most significant digit first. */
  function DecimalValue(ds: string): nat {
    if ds == [] then 0 else 10 * DecimalValue(ds[..|ds| - 1]) + DigitValue(ds[|ds| - 1])
  }

  function DigitChar(d: int): (c: char)
    requires 0 <= d < 10
    ensures '0' <= c <= '9' && DigitValue(c) == d
  {
    "0123456789"[d]
  }

  /** The decimal numeral of `n`: digits only, denoting `n`, with no leading zero. */
  function NatToString(n: nat): (r: string)
    ensures r != []
    ensures forall i :: 0 <= i < |r| ==> '0' <= r[i] <= '9'
    ensures DecimalValue(r) == n
    ensures |r| > 1 ==> r[0] != '0'
  {
    if n < 10 then [DigitChar(n)]
    else
      var front := NatToString(n / 10);
      var r := front + [DigitChar(n % 10)];
      assert r[..|r| - 1] == front;
      r
  }

  /** `String(n)` for an integer: its decimal numeral, with `-` when negative. */
  function IntToString(n: int): (r: string)
    ensures r != []
    ensures (r[0] == '-') <==> n < 0
    ensures n >= 0 ==> DecimalValue(r) == n && forall i :: 0 <= i < |r| ==> '0' <= r[i] <= '9'
    ensures n < 0 ==> |r| > 1 && DecimalValue(r[1..]) == -n && forall i :: 1 <= i < |r| ==> '0' <= r[i] <= '9'
    ensures n >= 0 && |r| > 1 ==> r[0] != '0'
    ensures n < 0 ==> r[1] != '0'
  {
    if n < 0 then
      var digits := NatToString(-n);
      assert ("-" + digits)[1..] == digits;
      "-" + digits
    else NatToString(n)
  }

  /** The property whose presence makes `String()` of a parsed object throw. */
  const ToStringKey := "toString"

  /**
   * `String(v)` of a parsed JSON value, or None where it throws. Strings
   * are themselves, booleans and numbers their literals, and arrays their
   * elements' strings joined by commas (null elements as the empty
   * string). An object is "[object Object]" unless it has an own
   * `toString` entry: no JSON value is callable, so the conversion falls
   * through to the inherited `valueOf`, which returns the object itself,
   * and a TypeError is thrown. An array throws when one of its elements does.
   */
  function ToString(j: Json): (r: Option<string>)
    ensures j.JStr? ==> r == Some(j.s)
    ensures j.JNull? ==> r == Some("null")
    ensures j.JBool? ==> r == Some(if j.b then "true" else "false")
    ensures j.JNum? ==> r == Some(IntToString(j.n))
    ensures j.JObj? && !HasKey(j.fields, ToStringKey) ==> r == Some("[object Object]")
    ensures j.JObj? ==> (r.None? <==> HasKey(j.fields, ToStringKey))
    ensures j.JArr? ==>
      (r.Some? <==> forall i :: 0 <= i < |j.items| ==> j.items[i].JNull? || ToString(j.items[i]).Some?)
    decreases j
  {
    match j
    case JNull => Some("null")
    case JBool(b) => Some(if b then "true" else "false")
    case JNum(n) => Some(IntToString(n))
    case JStr(s) => Some(s)
    case JArr(items) =>
      var parts := seq(|items|, i requires 0 <= i < |items| =>
        if items[i].JNull? then Some("") else ToString(items[i]));
      assert forall i :: 0 <= i < |items| ==> (parts[i].Some? <==> items[i].JNull? || ToString(items[i]).Some?);
      if forall i :: 0 <= i < |parts| ==> parts[i].Some? then
        Some(JoinWithCommas(seq(|parts|, i requires 0 <= i < |parts| => parts[i].GetOr(""))))
      else None
    case JObj(fields) => if HasKey(fields, ToStringKey) then None else Some("[object Object]")
  }

  function JoinWithCommas(parts: seq<string>): string {
    if parts == [] then "" else if |parts| == 1 then parts[0] else parts[0] + "," + JoinWithCommas(parts[1..])
  }

  /** The last value assigned to key `k` among `fields`, as property reads see it. */
  function Lookup(fields: seq<(string, Json)>, k: string): (r: Option<Json>)
    ensures r.Some? <==> exists i :: 0 <= i < |fields| && fields[i].0 == k
    ensures r.Some? ==> exists i :: 0 <= i < |fields| && fields[i] == (k, r.value)
                                 && forall j :: i < j < |fields| ==> fields[j].0 != k
  {
    if fields == [] then None
    else if fields[|fields| - 1].0 == k then Some(fields[|fields| - 1].1)
    else Lookup(fields[..|fields| - 1], k)
  }

  /**
   * Reading property `k` of a non-null JSON value: an object's entry, and
   * `undefined` (None) for an array, string, number or boolean.
   */
  function Field(j: Json, k: string): (r: Option<Json>)
    requires !j.JNull?
    ensures !j.JObj? ==> r.None?
  {
    match j
    case JObj(fields) => Lookup(fields, k)
    case _ => None
  }

  /** A value a query record may hold: `string | number | boolean`. */
  datatype Scalar = SStr(str: string) | SNum(num: int) | SBool(flag: bool)

  /** `String(v)` for a query value. */
  function ScalarString(v: Scalar): string {
    match v
    case SStr(s) => s
    case SNum(n) => IntToString(n)
    case SBool(b) => if b then "true" else "false"
  }

  /** A record (`Record<string, V>`) as its entries, in `Object.entries` order. */
  type Record<V> = seq<(string, V)>

  predicate HasKey<V>(r: Record<V>, k: string) {
    exists i :: 0 <= i < |r| && r[i].0 == k
  }

  predicate DistinctKeys<V>(r: Record<V>) {
    forall i, j :: 0 <= i < j < |r| ==> r[i].0 != r[j].0
  }

  /**
   * Property assignment `r[k] = v`: an existing key keeps its place and
   * takes the new value, a new key is added at the end.
   */
  function Assign<V>(r: Record<V>, k: string, v: V): (r': Record<V>)
    ensures HasKey(r, k) ==> |r'| == |r|
    ensures !HasKey(r, k) ==> r' == r + [(k, v)]
    ensures forall i :: 0 <= i < |r| && r[i].0 != k ==> r'[i] == r[i]
    ensures forall i :: 0 <= i < |r| && r[i].0 == k ==> r'[i] == (k, v)
    ensures DistinctKeys(r) ==> DistinctKeys(r')
  {
    if HasKey(r, k) then seq(|r|, i requires 0 <= i < |r| => if r[i].0 == k then (k, v) else r[i])
    else r + [(k, v)]
  }
}
