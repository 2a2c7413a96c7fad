/**
  The two JavaScript number parsers the escrow form relies on: `parseInt(s, 10)`
  for the time offsets and `parseFloat(s)` for the amount gate, plus the decimal
  rendering of a natural number used when a balance is displayed.
 */
module Js {

  /** The result of `parseInt(s, 10)`: an integer, or NaN when no digit was read. */
  datatype IntOrNaN = NaN | Int(value: int) {
    /** JavaScript `n + this` for an integer `n`: NaN absorbs. */
    function AddTo(n: int): (r: IntOrNaN)
      ensures r.NaN? <==> this.NaN?
      ensures r.Int? ==> r.value - n == this.value
    {
      match this
      case NaN => NaN
      case Int(v) => Int(n + v)
    }
  }

  /**
    What the amount gate needs to know about `parseFloat(s)`: whether it is NaN,
    or the sign of the number it denotes (-0 counts as Zero, -Infinity as Negative).
   */
  datatype FloatClass = NotNumber | Negative | Zero | Positive

  /** ECMAScript WhiteSpace and LineTerminator code points, skipped by both parsers. */
  predicate IsWhiteSpace(c: char) {
    c == '\t' || c == '\n' || c == '\U{000B}' || c == '\U{000C}' || c == '\r' || c == ' '
    || c == '\U{00A0}' || c == '\U{1680}' || ('\U{2000}' <= c <= '\U{200A}')
    || c == '\U{2028}' || c == '\U{2029}' || c == '\U{202F}' || c == '\U{205F}'
    || c == '\U{3000}' || c == '\U{FEFF}'
  }

  predicate IsDigit(c: char) {
    '0' <= c <= '9'
  }

  function DigitValue(c: char): (d: nat)
    requires IsDigit(c)
    ensures d < 10
  {
    (c as int - '0' as int) as nat
  }

  function DigitChar(d: nat): (c: char)
    requires d < 10
    ensures IsDigit(c) && DigitValue(c) == d
  {
    ('0' as int + d) as char
  }

  predicate AllDigits(s: string) {
    forall i :: 0 <= i < |s| ==> IsDigit(s[i])
  }

  /** `s` without its leading white space. */
  function TrimStart(s: string): string
  {
    if s != [] && IsWhiteSpace(s[0]) then TrimStart(s[1..]) else s
  }

  /** The length of the longest prefix of `s` made of decimal digits. */
  function DigitRun(s: string): (n: nat)
    ensures n <= |s|
  {
    if s != [] && IsDigit(s[0]) then 1 + DigitRun(s[1..]) else 0
  }

  /** The value of a string of decimal digits, most significant first. */
  function DigitsValue(s: string): nat
  {
    if s == [] then 0
    else
      var last := s[|s| - 1];
      DigitsValue(s[..|s| - 1]) * 10 + (if IsDigit(last) then DigitValue(last) else 0)
  }

  /** Whether a sign character was read, and what follows it. */
  function StripSign(t: string): (r: (bool, string))
    ensures r.0 ==> t != [] && t[0] == '-'
    ensures r.1 == t || (t != [] && r.1 == t[1..])
  {
    if t != [] && (t[0] == '-' || t[0] == '+') then (t[0] == '-', t[1..]) else (false, t)
  }

  /**
    `parseInt(s, 10)`: skip leading white space, read an optional sign, then the
    longest run of decimal digits; NaN when that run is empty. Anything after the
    digits is ignored.
   */
  function ParseInt(s: string): IntOrNaN
  {
    var (negative, u) := StripSign(TrimStart(s));
    var n := DigitRun(u);
    if n == 0 then NaN
    else
      var v: int := DigitsValue(u[..n]);
      Int(if negative then -v else v)
  }

  predicate AllZeros(s: string) {
    forall i :: 0 <= i < |s| ==> s[i] == '0'
  }

  /**
    The sign class of `parseFloat(s)`: skip leading white space, read an optional
    sign, then either `Infinity` or the longest prefix of the form
    digits [`.` digits] or `.` digits (at least one digit in all). An exponent part
    never changes the sign of the number, so it is not read.
   */
  function ParseFloatClass(s: string): (r: FloatClass)
  {
    var (negative, u) := StripSign(TrimStart(s));
    LiteralClass(negative, u)
  }

  /** The sign class of the longest decimal literal at the start of `u`, read after the sign. */
  function LiteralClass(negative: bool, u: string): (r: FloatClass)
  {
    if |u| >= 8 && u[..8] == "Infinity" then
      (if negative then Negative else Positive)
    else
      var i := DigitRun(u);
      var rest := u[i..];
      var f := if rest != [] && rest[0] == '.' then DigitRun(rest[1..]) else 0;
      if i == 0 && f == 0 then NotNumber
      else if AllZeros(u[..i]) && (f == 0 || AllZeros(rest[1..1 + f])) then Zero
      else if negative then Negative
      else Positive
  }

  /**
    The decimal rendering of a natural number, as JavaScript prints numbers
    below 10^21 (larger ones it prints in exponent form): no leading zero except
    in "0" itself.
   */
  function DecimalString(n: nat): (s: string)
    ensures s != [] && AllDigits(s)
    ensures DigitsValue(s) == n
    ensures AllZeros(s) <==> n == 0
    ensures s[0] == '0' ==> n == 0 && |s| == 1
  {
    if n < 10 then [DigitChar(n)]
    else
      var p := DecimalString(n / 10);
      var s := p + [DigitChar(n % 10)];
      assert s[..|s| - 1] == p;
      s
  }

  /** TrimStart drops exactly the leading white space: a suffix, preceded only by white space, not starting with it. */
  lemma {:induction false} TrimStartDropsWhiteSpace(s: string)
    ensures var t := TrimStart(s);
      && |t| <= |s| && t == s[|s| - |t|..]
      && (t != [] ==> !IsWhiteSpace(t[0]))
      && (forall i :: 0 <= i < |s| - |t| ==> IsWhiteSpace(s[i]))
  {
    if s != [] && IsWhiteSpace(s[0]) {
      TrimStartDropsWhiteSpace(s[1..]);
    }
  }

  /** DigitRun is the longest prefix of digits: all of it digits, and the next character is not one. */
  lemma {:induction false} DigitRunIsLongest(s: string)
    ensures var n := DigitRun(s);
      && AllDigits(s[..n])
      && (n < |s| ==> !IsDigit(s[n]))
  {
    if s != [] && IsDigit(s[0]) {
      DigitRunIsLongest(s[1..]);
      assert s[..DigitRun(s)] == [s[0]] + s[1..][..DigitRun(s[1..])];
    }
  }

  lemma {:induction false} DigitRunOfDigits(s: string, rest: string)
    requires AllDigits(s)
    requires rest == [] || !IsDigit(rest[0])
    ensures DigitRun(s + rest) == |s|
  {
    if s != [] {
      assert (s + rest)[1..] == s[1..] + rest;
      DigitRunOfDigits(s[1..], rest);
    }
  }

  /** A natural rendered in decimal and followed by anything but a digit parses back to itself. */
  lemma ParseIntDecimal(n: nat, rest: string)
    requires rest == [] || !IsDigit(rest[0])
    ensures ParseInt(DecimalString(n) + rest) == Int(n)
  {
    var d := DecimalString(n);
    var s := d + rest;
    assert s[0] == d[0];
    assert TrimStart(s) == s;
    assert StripSign(s) == (false, s);
    DigitRunOfDigits(d, rest);
    assert s[..|d|] == d;
  }

  /** The same with a leading minus sign. */
  lemma ParseIntNegatedDecimal(n: nat)
    ensures ParseInt("-" + DecimalString(n)) == Int(-(n as int))
  {
    var d := DecimalString(n);
    var s := "-" + d;
    assert TrimStart(s) == s;
    assert StripSign(s) == (true, d);
    DigitRunOfDigits(d, []);
    assert d + [] == d;
    assert d[..|d|] == d;
  }

  /** Empty or blank text has no digit, so `parseInt` gives NaN. */
  lemma ParseIntBlank(s: string)
    requires forall i :: 0 <= i < |s| ==> IsWhiteSpace(s[i])
    ensures ParseInt(s) == NaN
  {
    TrimStartDropsWhiteSpace(s);
  }

  /** A non-empty string of digits is a literal whose sign is that of its value. */
  lemma DigitsClass(negative: bool, d: string)
    requires d != [] && AllDigits(d)
    ensures LiteralClass(negative, d) == (if AllZeros(d) then Zero else if negative then Negative else Positive)
  {
    DigitRunOfDigits(d, []);
    assert d + [] == d;
    assert d[..|d|] == d;
    if |d| >= 8 {
      assert d[..8][0] == d[0];
    }
  }

  /** Text that starts with neither white space nor a sign is read as it stands. */
  lemma NoPrefixToSkip(s: string)
    requires s != [] && !IsWhiteSpace(s[0]) && s[0] != '-' && s[0] != '+'
    ensures StripSign(TrimStart(s)) == (false, s)
  {
  }

  /** A minus sign before a digit is the only thing skipped. */
  lemma MinusToSkip(d: string)
    requires d != [] && IsDigit(d[0])
    ensures StripSign(TrimStart("-" + d)) == (true, d)
  {
    var s := "-" + d;
    assert s[0] == '-';
    assert TrimStart(s) == s;
    assert s[1..] == d;
  }

  /** A decimal natural, as typed into the amount field, is classified Positive unless it is zero. */
  lemma ParseFloatDecimal(n: nat)
    ensures ParseFloatClass(DecimalString(n)) == (if n == 0 then Zero else Positive)
  {
    var d := DecimalString(n);
    NoPrefixToSkip(d);
    DigitsClass(false, d);
  }

  /** With a leading minus it is Negative unless it is zero. */
  lemma ParseFloatNegatedDecimal(n: nat)
    ensures ParseFloatClass("-" + DecimalString(n)) == (if n == 0 then Zero else Negative)
  {
    var d := DecimalString(n);
    MinusToSkip(d);
    DigitsClass(true, d);
  }
}
