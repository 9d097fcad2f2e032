/** The JavaScript values the front end receives from its backend, with the
    coercions it relies on: truthiness (`||`, `!!`), `??`, `String(x)` and
    `Number(x)`. Numbers are integers here: no fractions, NaN is `None`. */
module Js {
  import opened Wrappers
  import Text

  datatype Value =
    | Undefined
    | Null
    | Bool(b: bool)
    | Num(n: int)
    | Str(s: string)
    | Arr(items: seq<Value>)
    | Obj(fields: map<string, Value>)

  /** A parsed JSON object, as `res.json()` yields it. */
  type Record = map<string, Value>

  /** `undefined`, `null`, `false`, `0` and `""` are falsy; every other
      value, including empty arrays and objects, is truthy. */
  predicate Truthy(v: Value) {
    match v
    case Undefined => false
    case Null => false
    case Bool(b) => b
    case Num(n) => n != 0
    case Str(s) => s != ""
    case _ => true
  }

  /** `a || b` */
  function Or(a: Value, b: Value): Value {
    if Truthy(a) then a else b
  }

  /** `s || undefined` on a text: the empty text becomes `undefined`, any
      other is kept as it is. */
  function TextOrUndefined(s: string): (r: Option<string>)
    ensures r.None? <==> s == ""
    ensures r.Some? ==> r.value == s
  {
    if s == "" then None else Some(s)
  }

  /** `r.key` on an object: `undefined` when the key is absent. */
  function Get(r: Record, key: string): Value {
    if key in r then r[key] else Undefined
  }

  predicate IsDigit(c: char) {
    '0' <= c <= '9'
  }

  predicate AllDigits(s: string) {
    forall k :: 0 <= k < |s| ==> IsDigit(s[k])
  }

  function DigitChar(d: nat): char
    requires d < 10
  {
    ('0' as int + d) as char
  }

  /** Decimal digits, most significant first. */
  function NatToString(n: nat): (r: string)
    ensures |r| >= 1 && AllDigits(r)
  {
    if n < 10 then [DigitChar(n)] else NatToString(n / 10) + [DigitChar(n % 10)]
  }

  /** The value of a string of decimal digits. */
  function DigitsValue(s: string): nat
    requires AllDigits(s)
  {
    if s == [] then 0
    else DigitsValue(s[..|s| - 1]) * 10 + (s[|s| - 1] as int - '0' as int)
  }

  /** Reading back the digits of `n` gives `n`. */
  lemma {:induction false} DigitsOfNat(n: nat)
    ensures DigitsValue(NatToString(n)) == n
  {
    if n >= 10 {
      DigitsOfNat(n / 10);
      var s := NatToString(n);
      assert s[..|s| - 1] == NatToString(n / 10);
    }
  }

  /** How a number is printed: `String(n)`. */
  function IntToString(n: int): (r: string)
    ensures |r| >= 1
  {
    if n < 0 then "-" + NatToString(-n) else NatToString(n)
  }

  /** `Number(s)` for text: surrounding white space is ignored, the empty
      string is 0, an optional sign followed by decimal digits is that
      integer, and anything else is NaN (`None`). */
  function ParseNumber(s: string): Option<int> {
    ParseTrimmed(Text.Trim(s))
  }

  /** `Number` on text that is already trimmed. */
  function ParseTrimmed(t: string): Option<int> {
    if t == [] then Some(0)
    else if t[0] == '-' && |t| > 1 && AllDigits(t[1..]) then Some(-(DigitsValue(t[1..]) as int))
    else if t[0] == '+' && |t| > 1 && AllDigits(t[1..]) then Some(DigitsValue(t[1..]))
    else if AllDigits(t) then Some(DigitsValue(t))
    else None
  }

  /** Unpadded decimal digits parse to their value. */
  lemma ParseUnsigned(s: string)
    requires s != [] && AllDigits(s) && Text.Trim(s) == s
    ensures ParseNumber(s) == Some(DigitsValue(s))
  {
    assert s[0] != '-' && s[0] != '+';
  }

  /** Parsing the digits of a natural number gives it back. */
  lemma ParseDigits(n: nat)
    ensures ParseNumber(NatToString(n)) == Some(n)
  {
    var s := NatToString(n);
    assert IsDigit(s[0]) && IsDigit(s[|s| - 1]);
    Text.TrimOfUnpadded(s);
    ParseUnsigned(s);
    DigitsOfNat(n);
  }

  /** A minus sign before the digits of `m` parses to `-m`. */
  lemma ParseNegative(m: nat)
    ensures ParseNumber("-" + NatToString(m)) == Some(-(m as int))
  {
    var d := NatToString(m);
    var s := "-" + d;
    SignedUnpadded(d);
    assert ParseNumber(s) == ParseTrimmed(s);
    ParseTrimmedNegative(d);
    DigitsOfNat(m);
  }

  /** A sign before decimal digits has no white space around it. */
  lemma SignedUnpadded(d: string)
    requires d != [] && AllDigits(d)
    ensures Text.Trim("-" + d) == "-" + d
  {
    var s := "-" + d;
    assert IsDigit(d[|d| - 1]) && s[|s| - 1] == d[|d| - 1];
    Text.TrimOfUnpadded(s);
  }

  lemma ParseTrimmedNegative(d: string)
    requires d != [] && AllDigits(d)
    ensures ParseTrimmed("-" + d) == Some(-(DigitsValue(d) as int))
  {
    var s := "-" + d;
    assert s[0] == '-' && s[1..] == d;
  }

  /** Parsing a printed integer gives the integer back. */
  lemma NumberOfPrintedInt(n: int)
    ensures ParseNumber(IntToString(n)) == Some(n)
  {
    if n < 0 {
      var m: nat := -n;
      var p := "-" + NatToString(m);
      assert IntToString(n) == p;
      ParseNegative(m);
    } else {
      ParseDigits(n);
    }
  }

  /** `String(v)`: how the value reads as text, e.g. inside `new Error(v)`. */
  function ToJsString(v: Value): string
    decreases v, 1
  {
    match v
    case Undefined => "undefined"
    case Null => "null"
    case Bool(b) => if b then "true" else "false"
    case Num(n) => IntToString(n)
    case Str(s) => s
    case Arr(items) => ArrayToString(items)
    case Obj(_) => "[object Object]"
  }

  /** `items.join(",")`, where `null` and `undefined` elements print as `""`. */
  function ArrayToString(items: seq<Value>): string
    decreases items, 0
  {
    if items == [] then ""
    else
      var head := if items[0].Undefined? || items[0].Null? then "" else ToJsString(items[0]);
      if |items| == 1 then head else head + "," + ArrayToString(items[1..])
  }

  /** `Number(v)`; `None` is NaN. Arrays and objects go through their text. */
  function ToNumber(v: Value): Option<int> {
    match v
    case Undefined => None
    case Null => Some(0)
    case Bool(b) => Some(if b then 1 else 0)
    case Num(n) => Some(n)
    case Str(s) => ParseNumber(s)
    case _ => ParseNumber(ToJsString(v))
  }

  /** A number survives a trip through its text: `Number(String(n)) === n`. */
  lemma NumberOfStringOfNumber(n: int)
    ensures ToNumber(Str(ToJsString(Num(n)))) == Some(n)
  {
    NumberOfPrintedInt(n);
  }
}
