/**
 * PHP's scalar casts as `fixTypes` applies them: the bool test of
 * Model/Resource.php, `intval`, `floatval` and `(string)`.
 */
module Casts {
  import opened Values
  import opened Text

  /**
   * The services behind the float and currency casts, which are floating
   * point and locale data: the text PHP prints for a float, the rounding
   * of an amount to the precision of a currency, and the currency
   * formatter. They are parameters of the model.
   */
  datatype Locale = Locale(
    floatText: real -> string,
    roundAmount: (Value, real) -> real,
    formatAmount: (Value, real) -> string)

  predicate IsDigit(c: char) {
    '0' <= c <= '9'
  }

  function DigitValue(c: char): nat
    requires IsDigit(c)
  {
    c as int - '0' as int
  }

  predicate AllDigits(s: string) {
    forall i :: 0 <= i < |s| ==> IsDigit(s[i])
  }

  /** The value of a run of decimal digits. */
  function DigitsValue(s: string): nat
    requires AllDigits(s)
  {
    if |s| == 0 then 0 else DigitsValue(s[..|s| - 1]) * 10 + DigitValue(s[|s| - 1])
  }

  /** The longest prefix of `s` made of digits. */
  function DigitRun(s: string): (d: string)
    ensures AllDigits(d) && d <= s
    ensures |d| < |s| ==> !IsDigit(s[|d|])
  {
    if |s| > 0 && IsDigit(s[0]) then [s[0]] + DigitRun(s[1..]) else ""
  }

  /** The whitespace PHP skips before a numeric string: space, \t, \n, \r, \v and \f. */
  predicate IsNumericSpace(c: char) {
    c == ' ' || c == '\t' || c == '\n' || c == '\r' || c as int == 11 || c as int == 12
  }

  function SkipSpace(s: string): (t: string)
    ensures |t| <= |s| && t == s[|s| - |t|..]
    ensures |t| > 0 ==> !IsNumericSpace(t[0])
  {
    if |s| > 0 && IsNumericSpace(s[0]) then SkipSpace(s[1..]) else s
  }

  /** `intval` of a string: optional leading whitespace, an optional sign, then the leading digits; 0 when there are none. */
  function ParseInt(s: string): int {
    var t := SkipSpace(s);
    if |t| > 0 && t[0] == '-' then -(DigitsValue(DigitRun(t[1..])) as int)
    else if |t| > 0 && t[0] == '+' then DigitsValue(DigitRun(t[1..]))
    else DigitsValue(DigitRun(t))
  }

  function Pow10(n: nat): (p: nat)
    ensures p >= 1
  {
    if n == 0 then 1 else 10 * Pow10(n - 1)
  }

  /** `floatval` of a string after the sign: leading digits, then an optional '.' and fraction digits. */
  function ParseUnsignedDecimal(t: string): real {
    var whole := DigitRun(t);
    var rest := t[|whole|..];
    var frac := if |rest| > 0 && rest[0] == '.' then DigitRun(rest[1..]) else "";
    DigitsValue(whole) as real + DigitsValue(frac) as real / Pow10(|frac|) as real
  }

  /** `floatval` of a string. */
  function ParseFloat(s: string): real {
    var t := SkipSpace(s);
    if |t| > 0 && t[0] == '-' then -ParseUnsignedDecimal(t[1..])
    else if |t| > 0 && t[0] == '+' then ParseUnsignedDecimal(t[1..])
    else ParseUnsignedDecimal(t)
  }

  function DigitChar(d: nat): (c: char)
    requires d < 10
    ensures IsDigit(c) && DigitValue(c) == d
  {
    ('0' as int + d) as char
  }

  /** The decimal digits of a natural number, without leading zeros. */
  function NatText(n: nat): (s: string)
    ensures AllDigits(s) && |s| >= 1
  {
    if n < 10 then [DigitChar(n)] else NatText(n / 10) + [DigitChar(n % 10)]
  }

  /** `(string)` of an integer. */
  function IntText(i: int): string {
    if i < 0 then "-" + NatText(-i) else NatText(i)
  }

  lemma {:induction false} NatTextValue(n: nat)
    ensures DigitsValue(NatText(n)) == n
  {
    if n >= 10 {
      NatTextValue(n / 10);
      var s := NatText(n);
      assert s[..|s| - 1] == NatText(n / 10);
    }
  }

  lemma {:induction false} DigitRunOfDigits(s: string)
    requires AllDigits(s)
    ensures DigitRun(s) == s
  {
    if |s| > 0 {
      DigitRunOfDigits(s[1..]);
    }
  }

  /** The integer a value casts to (`intval`). */
  function ToInt(v: Value): int {
    match v
    case Null => 0
    case Bool(b) => if b then 1 else 0
    case Int(i) => i
    case Float(r) => if r >= 0.0 then r.Floor else -((-r).Floor)
    case Str(s) => ParseInt(s)
    case List(items) => if |items| == 0 then 0 else 1
    case Dict(fields) => if |fields| == 0 then 0 else 1
  }

  /** The float a value casts to (`floatval`). */
  function ToFloat(v: Value): real {
    match v
    case Null => 0.0
    case Bool(b) => if b then 1.0 else 0.0
    case Int(i) => i as real
    case Float(r) => r
    case Str(s) => ParseFloat(s)
    case List(items) => if |items| == 0 then 0.0 else 1.0
    case Dict(fields) => if |fields| == 0 then 0.0 else 1.0
  }

  /** The text a value casts to (`(string)`). */
  function ToText(loc: Locale, v: Value): string {
    match v
    case Null => ""
    case Bool(b) => if b then "1" else ""
    case Int(i) => IntText(i)
    case Float(r) => loc.floatText(r)
    case Str(s) => s
    case List(_) => "Array"
    case Dict(_) => "Array"
  }

  /**
   * The 'bool' cast of fixTypes: `!empty($v) && strtolower($v) !== 'false'`.
   * Only a string can read "false" in lower case: the text of a number or
   * of `true` is digits, a sign, a point or "1".
   */
  function ToBool(v: Value): bool {
    !IsEmpty(v) && !(v.Str? && Lower(v.s) == "false")
  }

  /** The bool cast is true exactly for a non-empty value whose lower-cased text is not "false". */
  lemma ToBoolMeaning(loc: Locale, v: Value)
    requires IsScalar(v) || v.Null?
    requires v.Float? ==> !IsEmpty(v) ==> Lower(loc.floatText(v.r)) != "false"
    ensures ToBool(v) <==> !IsEmpty(v) && Lower(ToText(loc, v)) != "false"
  {
    match v
    case Bool(b) =>
      if b {
        assert Lower("1") == "1";
      }
    case _ =>
  }

  /** Each cast is a fixed point on its own result type, so casting twice changes nothing. */
  lemma CastsIdempotent(loc: Locale, v: Value)
    ensures ToBool(Bool(ToBool(v))) == ToBool(v)
    ensures ToInt(Int(ToInt(v))) == ToInt(v)
    ensures ToFloat(Float(ToFloat(v))) == ToFloat(v)
    ensures ToText(loc, Str(ToText(loc, v))) == ToText(loc, v)
  {
  }

  lemma ParseIntOfDigits(d: string)
    requires AllDigits(d) && |d| >= 1
    ensures ParseInt(d) == DigitsValue(d)
  {
    DigitRunOfDigits(d);
    assert IsDigit(d[0]);
    assert !IsNumericSpace(d[0]);
    assert SkipSpace(d) == d;
    assert d[0] != '-' && d[0] != '+';
  }

  lemma ParseIntOfNegativeDigits(d: string)
    requires AllDigits(d) && |d| >= 1
    ensures ParseInt("-" + d) == -(DigitsValue(d) as int)
  {
    DigitRunOfDigits(d);
    var t := "-" + d;
    assert t[0] == '-';
    assert !IsNumericSpace(t[0]);
    assert SkipSpace(t) == t;
    assert t[1..] == d;
  }

  lemma IntTextParses(i: int)
    ensures ParseInt(IntText(i)) == i
  {
    if i < 0 {
      ParseIntOfNegativeDigits(NatText(-i));
      NatTextValue(-i);
    } else {
      ParseIntOfDigits(NatText(i));
      NatTextValue(i);
    }
  }

  /** `intval((string)$i) === $i`: the integer cast reads back the text of every integer. */
  lemma IntTextRoundTrip(loc: Locale, i: int)
    ensures ToInt(Str(ToText(loc, Int(i)))) == i
  {
    IntTextParses(i);
  }

  /** "false" in any letter case reads as false, like "0" and "". */
  lemma ToBoolFalseWords()
    ensures !ToBool(Str("FALSE")) && !ToBool(Str("False")) && !ToBool(Str("0")) && !ToBool(Str(""))
  {
    assert Lower("FALSE") == "false";
    assert Lower("False") == "false";
  }

  /** Any other non-empty text is true, even "no" and "00". */
  lemma ToBoolOtherWords()
    ensures ToBool(Str("no")) && ToBool(Str("00")) && ToBool(Int(-1)) && !ToBool(Float(0.0))
  {
    assert Lower("no") == "no";
    assert Lower("00") == "00";
  }

  predicate AllNumericSpace(s: string) {
    forall i :: 0 <= i < |s| ==> IsNumericSpace(s[i])
  }

  /** What may follow the digits of a numeric string: an optional exponent, then only whitespace. */
  predicate ExponentThenSpace(s: string) {
    AllNumericSpace(s)
    || (|s| > 1 && (s[0] == 'e' || s[0] == 'E')
        && var x := if s[1] == '+' || s[1] == '-' then s[2..] else s[1..];
           var d := DigitRun(x);
           |d| > 0 && AllNumericSpace(x[|d|..]))
  }

  /**
   * A numeric string as `is_numeric` accepts it: optional leading
   * whitespace, an optional sign, digits with an optional fraction (at least
   * one digit overall), an optional exponent and optional trailing
   * whitespace.
   */
  predicate IsNumericText(s: string) {
    var t := SkipSpace(s);
    var u := if |t| > 0 && (t[0] == '+' || t[0] == '-') then t[1..] else t;
    var whole := DigitRun(u);
    var rest := u[|whole|..];
    var frac := if |rest| > 0 && rest[0] == '.' then DigitRun(rest[1..]) else "";
    var tail := if |rest| > 0 && rest[0] == '.' then rest[1 + |frac|..] else rest;
    (|whole| > 0 || |frac| > 0) && ExponentThenSpace(tail)
  }

  /** `is_numeric($v)`: integers, floats and numeric strings. */
  predicate IsNumeric(v: Value) {
    match v
    case Int(_) => true
    case Float(_) => true
    case Str(s) => IsNumericText(s)
    case _ => false
  }

  /** The text of every integer is numeric. */
  lemma IntTextIsNumeric(i: int)
    ensures IsNumericText(IntText(i))
  {
    var t := IntText(i);
    var d := if i < 0 then NatText(-i) else NatText(i);
    DigitRunOfDigits(d);
    assert IsDigit(d[0]);
    if i < 0 {
      assert t[0] == '-' && t[1..] == d;
    }
    assert !IsNumericSpace(t[0]);
    assert SkipSpace(t) == t;
    assert d[|d|..] == "";
  }

  /** Text without a digit is not numeric: the empty string, a sign or a point alone. */
  lemma NotNumericWithoutDigits(s: string)
    requires forall i :: 0 <= i < |s| ==> !IsDigit(s[i])
    ensures !IsNumericText(s)
  {
    var t := SkipSpace(s);
    var u := if |t| > 0 && (t[0] == '+' || t[0] == '-') then t[1..] else t;
    assert DigitRun(u) == "" by {
      if |u| > 0 {
        assert u[0] in s;
      }
    }
    var rest := u;
    if |rest| > 1 && rest[0] == '.' {
      assert rest[1] in s;
    }
  }
}
