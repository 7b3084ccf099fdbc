/** The few JavaScript value semantics the drawing code relies on: `undefined`
    coordinates, `NaN` arithmetic, truthiness (`a || b`), number-to-string
    conversion in template literals and `String.prototype.toUpperCase`. */
module Js {

  import opened Wrappers

  /** A JavaScript number as the interpreter's cursor sees it. `undefined` is the
      cursor's initial x; arithmetic on anything but a finite value gives `NaN`. */
  datatype Num = Undefined | NaN | Finite(v: real)

  /** `a + b` for a JavaScript value `a` and a number `b`. */
  function Add(a: Num, b: real): Num
  {
    if a.Finite? then Finite(a.v + b) else NaN
  }

  /** `a - b` for a JavaScript value `a` and a number `b`. */
  function Sub(a: Num, b: real): Num
  {
    if a.Finite? then Finite(a.v - b) else NaN
  }

  /** Adding twice is adding the sum, also when the start is not a number. */
  lemma AddAdd(a: Num, b: real, c: real)
    ensures Add(Add(a, b), c) == Add(a, b + c)
  {
  }

  /** The JavaScript values that appear in report fields and command texts. */
  datatype Value = Undef | Str(s: string) | Number(n: int)

  /** JavaScript truthiness: `undefined`, `''` and `0` are falsy. */
  predicate Truthy(v: Value)
  {
    match v
    case Undef => false
    case Str(s) => s != ""
    case Number(n) => n != 0
  }

  /** `String(v)`, as a template literal or a text-drawing call converts it. */
  function ToString(v: Value): string
  {
    match v
    case Undef => "undefined"
    case Str(s) => s
    case Number(n) => IntToString(n)
  }

  /** The string drawn for `v || ''`: a falsy value becomes the empty string. */
  function OrEmpty(v: Value): string
  {
    if Truthy(v) then ToString(v) else ""
  }

  /** A temperature of zero degrees is falsy, so `text || ''` draws nothing for it. */
  lemma ZeroDrawsNothing()
    ensures OrEmpty(Number(0)) == "" && IntToString(0) == "0"
  {
  }

  // ---------------------------------------------------------------------------
  // Decimal conversion of integers

  predicate IsDigit(c: char)
  {
    '0' <= c <= '9'
  }

  predicate AllDigits(s: string)
  {
    forall i :: 0 <= i < |s| ==> IsDigit(s[i])
  }

  function DigitChar(d: nat): (c: char)
    requires d < 10
  {
    ('0' as int + d) as char
  }

  function DigitValue(c: char): nat
    requires IsDigit(c)
  {
    c as int - '0' as int
  }

  /** Shortest decimal spelling of `n`: digits only, a leading zero only for 0. */
  function NatToString(n: nat): (s: string)
    ensures |s| > 0 && AllDigits(s)
    ensures s[0] == '0' <==> n == 0
    decreases n
  {
    if n < 10 then [DigitChar(n)] else NatToString(n / 10) + [DigitChar(n % 10)]
  }

  /** `String(n)` for an integer-valued JavaScript number. */
  function IntToString(n: int): string
  {
    if n < 0 then "-" + NatToString(-n) else NatToString(n)
  }

  /** The value of a string of decimal digits. */
  function ParseDigits(s: string): nat
    requires AllDigits(s)
    decreases |s|
  {
    if s == [] then 0 else ParseDigits(s[..|s| - 1]) * 10 + DigitValue(s[|s| - 1])
  }

  /** Reads back an optionally negative decimal integer. */
  function ParseInt(s: string): (r: Option<int>)
  {
    if |s| > 0 && AllDigits(s) then Some(ParseDigits(s) as int)
    else if |s| > 1 && s[0] == '-' && AllDigits(s[1..]) then Some(-(ParseDigits(s[1..]) as int))
    else None
  }

  lemma {:induction false} NatToStringRoundTrip(n: nat)
    ensures ParseDigits(NatToString(n)) == n
    decreases n
  {
    var s := NatToString(n);
    if n < 10 {
      assert s[..|s| - 1] == [];
    } else {
      var a := NatToString(n / 10);
      assert s[..|s| - 1] == a;
      NatToStringRoundTrip(n / 10);
    }
  }

  /** Every integer's decimal spelling reads back as that integer. */
  lemma IntToStringRoundTrip(n: int)
    ensures ParseInt(IntToString(n)) == Some(n)
  {
    var s := IntToString(n);
    if n < 0 {
      assert s[1..] == NatToString(-n);
      assert !IsDigit(s[0]);
      NatToStringRoundTrip(-n);
    } else {
      NatToStringRoundTrip(n);
    }
  }

  /** Distinct integers are spelled differently. */
  lemma IntToStringInjective(a: int, b: int)
    requires IntToString(a) == IntToString(b)
    ensures a == b
  {
    IntToStringRoundTrip(a);
    IntToStringRoundTrip(b);
  }

  // ---------------------------------------------------------------------------
  // Upper-casing

  function UpperChar(c: char): char
  {
    if 'a' <= c <= 'z' then (c as int - 32) as char else c
  }

  /** `s.toUpperCase()` over ASCII letters. */
  function ToUpper(s: string): string
  {
    seq(|s|, i requires 0 <= i < |s| => UpperChar(s[i]))
  }

  /** Upper-casing keeps the length, leaves no lower-case letter behind, changes
      only lower-case letters, and doing it again changes nothing. */
  lemma ToUpperProperties(s: string)
    ensures |ToUpper(s)| == |s|
    ensures forall i :: 0 <= i < |s| ==> !('a' <= ToUpper(s)[i] <= 'z')
    ensures forall i :: 0 <= i < |s| && !('a' <= s[i] <= 'z') ==> ToUpper(s)[i] == s[i]
    ensures forall i :: 0 <= i < |s| && 'a' <= s[i] <= 'z' ==> ToUpper(s)[i] as int == s[i] as int - 32
    ensures ToUpper(ToUpper(s)) == ToUpper(s)
  {
  }
}
