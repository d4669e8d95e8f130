/** Values as the browser client handles them: what `JSON.parse` produces, and
    the few JavaScript operations the client applies to them — truthiness,
    property lookup, the `||` operator, and the conversion to a string that
    `new Error(message)` performs on its argument. */
module JsValue {
  import opened Wrappers

  /** A parsed JSON value. JSON numbers are integers in this model. */
  datatype Json =
    | Null
    | Bool(b: bool)
    | Num(n: int)
    | Str(s: string)
    | Arr(items: seq<Json>)
    | Obj(fields: map<string, Json>)

  /** `!!v` in JavaScript. */
  predicate Truthy(v: Json) {
    match v
    case Null => false
    case Bool(b) => b
    case Num(n) => n != 0
    case Str(s) => s != ""
    case Arr(_) => true
    case Obj(_) => true
  }

  /** `v[key]` on a value that is not null: an own property of an object, or
      None for `undefined`. */
  function Prop(v: Json, key: string): Option<Json> {
    if v.Obj? && key in v.fields then Some(v.fields[key]) else None
  }

  /** `a || b`, where `a` may be `undefined` (None): the result is one of
      the two operands, truthy exactly when either operand is, and the
      left one whenever it is truthy. */
  function Or(a: Option<Json>, b: Json): (r: Json)
    ensures r == b || (a.Some? && r == a.value)
    ensures Truthy(r) <==> (a.Some? && Truthy(a.value)) || Truthy(b)
    ensures a.Some? && Truthy(a.value) ==> r == a.value
    ensures !Truthy(r) ==> r == b
  {
    if a.Some? && Truthy(a.value) then a.value else b
  }

  /** The properties `{ ...v }` copies: an object's own properties, none for
      null, booleans and numbers. Spreading an array or a string would copy
      index keys; those are not modelled. */
  function Own(v: Json): map<string, Json> {
    if v.Obj? then v.fields else map[]
  }

  /** `{ ...v }` where `v` may be `undefined` (None), which copies nothing. */
  function OwnOf(v: Option<Json>): map<string, Json> {
    if v.Some? then Own(v.value) else map[]
  }

  // ---------------------------------------------------------------------
  // Decimal rendering of integers, as template literals and String() do.

  predicate IsDigit(c: char) { '0' <= c <= '9' }

  function DigitChar(d: nat): (c: char)
    requires d < 10
    ensures IsDigit(c) && c as int - '0' as int == d
  {
    "0123456789"[d]
  }

  /** The decimal digits of `n`, most significant first, without leading zeros. */
  function NatText(n: nat): (s: string)
    ensures 1 <= |s|
    ensures forall i :: 0 <= i < |s| ==> IsDigit(s[i])
    ensures |s| > 1 ==> s[0] != '0'
    ensures n < 10 <==> |s| == 1
    decreases n
  {
    if n < 10 then [DigitChar(n)] else NatText(n / 10) + [DigitChar(n % 10)]
  }

  /** Reads a string of decimal digits back as a number: the inverse of NatText. */
  function DigitsValue(s: string): nat
    requires forall i :: 0 <= i < |s| ==> IsDigit(s[i])
  {
    if s == [] then 0
    else
      assert IsDigit(s[|s| - 1]);
      DigitsValue(s[..|s| - 1]) * 10 + (s[|s| - 1] as int - '0' as int)
  }

  lemma {:induction false} NatTextRoundTrip(n: nat)
    ensures DigitsValue(NatText(n)) == n
  {
    if n >= 10 {
      var s := NatText(n);
      assert s[..|s| - 1] == NatText(n / 10);
      NatTextRoundTrip(n / 10);
    }
  }

  /** Rendering is injective: two numbers never print the same. */
  lemma NatTextInjective(m: nat, n: nat)
    ensures NatText(m) == NatText(n) ==> m == n
  {
    NatTextRoundTrip(m);
    NatTextRoundTrip(n);
  }

  function IntText(n: int): string {
    if n < 0 then "-" + NatText(-n) else NatText(n)
  }

  // ---------------------------------------------------------------------
  // String(v)

  /** `String(v)`, the conversion `new Error(v)` applies to its message. */
  function ToJsString(v: Json): string
    decreases v
  {
    match v
    case Null => "null"
    case Bool(b) => if b then "true" else "false"
    case Num(n) => IntText(n)
    case Str(s) => s
    case Arr(items) => JoinElements(items)
    case Obj(_) => "[object Object]"
  }

  /** `items.join(",")`: a null element contributes the empty string. */
  function JoinElements(items: seq<Json>): string
    decreases items
  {
    if items == [] then ""
    else
      (if items[0].Null? then "" else ToJsString(items[0]))
      + (if |items| == 1 then "" else "," + JoinElements(items[1..]))
  }
}
