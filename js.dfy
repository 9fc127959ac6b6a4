/**
 * The few JavaScript value conversions the client relies on: `Number(string)`,
 * `String(number)`, the `| 0` truncation (ToInt32), truthiness, the relational
 * `>` on numbers and ASCII lower-casing of header names.
 */
module Js {

  /** A JavaScript number as far as the model needs one: an integer or NaN. */
  datatype Number = Finite(n: int) | NaN

  /** A property value of an options object (`Options` in BaseClient.ts and Client.ts). */
  datatype Value = Undefined | Num(n: int) | Str(s: string)

  predicate IsDigit(c: char) {
    '0' <= c <= '9'
  }

  function DigitValue(c: char): (d: nat)
    requires IsDigit(c)
    ensures d < 10
  {
    (c as int) - ('0' as int)
  }

  function DigitChar(d: nat): (c: char)
    requires d < 10
    ensures IsDigit(c) && DigitValue(c) == d
  {
    (('0' as int) + d) as char
  }

  predicate AllDigits(s: string) {
    forall i :: 0 <= i < |s| ==> IsDigit(s[i])
  }

  /** The value of a string of decimal digits, most significant digit first. */
  function DigitsValue(s: string): nat
    requires AllDigits(s)
  {
    if s == [] then 0 else DigitsValue(s[..|s| - 1]) * 10 + DigitValue(s[|s| - 1])
  }

  /** The decimal digits of `n`, without leading zeros. */
  function Digits(n: nat): (s: string)
    ensures |s| > 0 && AllDigits(s)
    ensures n >= 10 ==> s[0] != '0'
  {
    if n < 10 then [DigitChar(n)] else Digits(n / 10) + [DigitChar(n % 10)]
  }

  /** `String(n)` for an integer-valued number. */
  function NumberToString(n: int): (s: string)
    ensures |s| > 0
  {
    if n < 0 then "-" + Digits(-n) else Digits(n)
  }

  /** StrWhiteSpaceChar of ECMAScript: white space and line terminators, which `Number` trims. */
  predicate IsJsSpace(c: char) {
    || c == '\t' || c == '\U{B}' || c == '\U{C}' || c == ' ' || c == '\U{A0}' || c == '\U{FEFF}'
    || c == '\U{1680}' || ('\U{2000}' <= c <= '\U{200A}') || c == '\U{202F}' || c == '\U{205F}'
    || c == '\U{3000}' || c == '\n' || c == '\r' || c == '\U{2028}' || c == '\U{2029}'
  }

  function TrimStart(s: string): (t: string)
    ensures |t| <= |s| && t == s[|s| - |t|..]
    ensures t == [] || !IsJsSpace(t[0])
  {
    if s != [] && IsJsSpace(s[0]) then TrimStart(s[1..]) else s
  }

  function TrimEnd(s: string): (t: string)
    ensures |t| <= |s| && t == s[..|t|]
    ensures t == [] || !IsJsSpace(t[|t| - 1])
  {
    if s != [] && IsJsSpace(s[|s| - 1]) then TrimEnd(s[..|s| - 1]) else s
  }

  /**
   * `Number(s)` (StringToNumber): surrounding white space is ignored, the empty
   * string is 0, an optional sign followed by decimal digits is that integer, and
   * anything else is NaN.
   */
  function ToNumber(s: string): Number {
    var t := TrimEnd(TrimStart(s));
    if t == [] then Finite(0)
    else if AllDigits(t) then Finite(DigitsValue(t))
    else if |t| > 1 && (t[0] == '-' || t[0] == '+') && AllDigits(t[1..]) then
      var magnitude: int := DigitsValue(t[1..]);
      Finite(if t[0] == '-' then -magnitude else magnitude)
    else NaN
  }

  /** ToInt32, which `x | 0` applies: the integer congruent to `x` modulo 2^32 in [-2^31, 2^31). */
  function ToInt32(x: int): (r: int)
    ensures -0x8000_0000 <= r < 0x8000_0000
    ensures (x - r) % 0x1_0000_0000 == 0
  {
    var m := x % 0x1_0000_0000;
    if m >= 0x8000_0000 then m - 0x1_0000_0000 else m
  }

  /** ToNumber of an options value, as `>` and `<=` apply it to their operands. */
  function ValueToNumber(v: Value): Number {
    match v
    case Undefined => NaN
    case Num(n) => Finite(n)
    case Str(s) => ToNumber(s)
  }

  /** `a > b` on numbers: false whenever either side is NaN. */
  predicate Greater(a: Number, b: Number) {
    a.Finite? && b.Finite? && a.n > b.n
  }

  /** `a <= b` on numbers: false whenever either side is NaN. */
  predicate AtMost(a: Number, b: Number) {
    a.Finite? && b.Finite? && a.n <= b.n
  }

  /** JavaScript truthiness of a number: neither 0 nor NaN. */
  predicate NumberTruthy(x: Number) {
    x.Finite? && x.n != 0
  }

  function LowerChar(c: char): char {
    if 'A' <= c <= 'Z' then ((c as int) + 32) as char else c
  }

  /** `toLowerCase` on an ASCII header name. */
  function LowerAscii(s: string): (t: string)
    ensures |t| == |s|
    ensures forall i :: 0 <= i < |s| ==> t[i] == LowerChar(s[i])
  {
    if s == [] then [] else [LowerChar(s[0])] + LowerAscii(s[1..])
  }

  lemma {:induction false} DigitsValueOfDigits(n: nat)
    ensures DigitsValue(Digits(n)) == n
  {
    if n >= 10 {
      var s := Digits(n);
      assert s[..|s| - 1] == Digits(n / 10);
      DigitsValueOfDigits(n / 10);
    }
  }

  lemma NoSpaceInDigits(s: string)
    requires AllDigits(s)
    ensures TrimEnd(TrimStart(s)) == s
  {
    if s != [] {
      assert !IsJsSpace(s[0]) && !IsJsSpace(s[|s| - 1]);
    }
  }

  /** `Number(String(n)) === n` for every integer `n`. */
  lemma NumberOfString(n: int)
    ensures ToNumber(NumberToString(n)) == Finite(n)
  {
    if n < 0 {
      var s := NumberToString(n);
      var d := Digits(-n);
      assert s[1..] == d;
      assert !IsJsSpace(s[0]) && !IsJsSpace(s[|s| - 1]);
      assert TrimEnd(TrimStart(s)) == s;
      assert !AllDigits(s) by { assert !IsDigit(s[0]); }
      DigitsValueOfDigits(-n);
    } else {
      NoSpaceInDigits(Digits(n));
      DigitsValueOfDigits(n);
    }
  }
}
