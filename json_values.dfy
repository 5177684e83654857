/**
 * The JavaScript values the chat routes receive from the JSON body parser,
 * and the few pieces of JavaScript semantics the routes rely on: truthiness,
 * property reads, and conversion of a value to a string (as in a template
 * literal or `Array.prototype.join`).
 */
module JsonValues {
  import opened Wrappers

  /** A parsed JSON value. Numbers are integers (see README, "Left out"). */
  datatype Json =
    | JNull
    | JBool(b: bool)
    | JNum(n: int)
    | JStr(s: string)
    | JArr(items: seq<Json>)
    | JObj(fields: map<string, Json>)

  /** A property of an object body: `None` when the key is absent (`undefined`). */
  function Get(fields: map<string, Json>, key: string): Option<Json>
  {
    if key in fields then Some(fields[key]) else None
  }

  /** JavaScript truthiness of a possibly-undefined value. */
  predicate Truthy(v: Option<Json>)
  {
    match v
    case None => false
    case Some(JNull) => false
    case Some(JBool(b)) => b
    case Some(JNum(n)) => n != 0
    case Some(JStr(s)) => s != ""
    case Some(_) => true
  }

  /** `null` or `undefined`: reading a property of such a value throws a TypeError. */
  predicate Nullish(v: Option<Json>)
  {
    v == None || v == Some(JNull)
  }

  /** `Array.isArray(v)`. */
  predicate IsArray(v: Option<Json>)
  {
    v.Some? && v.value.JArr?
  }

  /**
   * Reading property `key` of a value that is neither null nor undefined.
   * Only objects carry own data properties. Of the names the routes read,
   * only `fill` is inherited by anything (`Array.prototype.fill`, a
   * function, so truthy); an array area is rejected by its `dataKey` read
   * first, so every read is modelled as yielding `undefined` on a
   * non-object.
   */
  function Property(v: Option<Json>, key: string): (r: Option<Json>)
    requires !Nullish(v)
    ensures r.Some? <==> v.value.JObj? && key in v.value.fields
    ensures r.Some? ==> r.value == v.value.fields[key]
  {
    if v.value.JObj? then Get(v.value.fields, key) else None
  }

  /** The falsy JSON values: `undefined`, `null`, `false`, `0` and `''`. */
  const FalsyValues: seq<Option<Json>> := [None, Some(JNull), Some(JBool(false)), Some(JNum(0)), Some(JStr(""))]

  /**
   * `a || d`: the fallback replaces exactly the five falsy values (so an
   * empty string or a `0` is replaced, not only an absent value), and any
   * other value is kept.
   */
  function OrElse(v: Option<Json>, fallback: Json): (r: Json)
    ensures v in FalsyValues ==> r == fallback
    ensures v !in FalsyValues ==> Some(r) == v
  {
    if Truthy(v) then v.value else fallback
  }

  /** `v !== false`: only the boolean `false` itself gives `false`. */
  predicate NotFalse(v: Option<Json>)
  {
    v != Some(JBool(false))
  }

  predicate IsDigits(s: string)
  {
    forall i :: 0 <= i < |s| ==> '0' <= s[i] <= '9'
  }

  function DigitChar(d: nat): (c: char)
    requires d < 10
    ensures '0' <= c <= '9' && c as int - '0' as int == d
  {
    ('0' as int + d) as char
  }

  /** The decimal text of a natural number, as JavaScript writes an integer. */
  function Decimal(n: nat): (s: string)
    ensures s != [] && IsDigits(s)
    ensures s[0] == '0' ==> s == "0"
    decreases n
  {
    if n < 10 then [DigitChar(n)] else Decimal(n / 10) + [DigitChar(n % 10)]
  }

  /** The number a string of decimal digits denotes. */
  function DecimalValue(s: string): nat
    requires IsDigits(s)
  {
    if s == [] then 0 else DecimalValue(s[..|s| - 1]) * 10 + (s[|s| - 1] as int - '0' as int)
  }

  /** Reading back the decimal text gives the number: distinct times give distinct texts. */
  lemma {:induction false} DecimalRoundTrip(n: nat)
    ensures DecimalValue(Decimal(n)) == n
    decreases n
  {
    if n >= 10 {
      var s := Decimal(n);
      assert s[..|s| - 1] == Decimal(n / 10);
      DecimalRoundTrip(n / 10);
    }
  }

  /** The decimal text of a signed integer. */
  function IntText(n: int): string
  {
    if n < 0 then "-" + Decimal(-n) else Decimal(n)
  }

  const NoPrimitive := "Cannot convert object to primitive value"

  /**
   * `String(v)` returns rather than throws. An object whose own
   * `toString` key is a JSON value (never callable) falls back to the
   * inherited `valueOf`, which returns the object itself, so the
   * conversion throws a TypeError; an array converts each element.
   */
  predicate ConvertsToString(v: Option<Json>)
  {
    v.None? || JsonConverts(v.value)
  }

  predicate JsonConverts(j: Json)
  {
    match j
    case JObj(fields) => "toString" !in fields
    case JArr(items) => forall k :: 0 <= k < |items| ==> JsonConverts(items[k])
    case _ => true
  }

  /** `String(v)`: the text a template literal inserts for `v`, when it does not throw. */
  function JsString(v: Option<Json>): string
  {
    match v
    case None => "undefined"
    case Some(j) => JsonText(j)
  }

  function JsonText(j: Json): string
    decreases j, 1
  {
    match j
    case JNull => "null"
    case JBool(b) => if b then "true" else "false"
    case JNum(n) => IntText(n)
    case JStr(s) => s
    case JArr(items) => JoinItems(items, 0)
    case JObj(_) => "[object Object]"
  }

  /** `items.slice(k).join(',')`, where a null element contributes the empty string. */
  function JoinItems(items: seq<Json>, k: nat): string
    requires k <= |items|
    decreases JArr(items), 0, |items| - k
  {
    if k == |items| then ""
    else
      var part := if items[k] == JNull then "" else JsonText(items[k]);
      if k + 1 == |items| then part else part + "," + JoinItems(items, k + 1)
  }
}
