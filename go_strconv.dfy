/**
 * The part of Go's `strconv` package that the engine relies on: Itoa, Atoi, ParseBool and
 * the decimal forms accepted by ParseFloat. Go's `int` is 64 bits wide here.
 */
module GoStrconv {
  import opened Wrappers

  const MinInt64: int := -0x8000_0000_0000_0000
  const MaxInt64: int := 0x7fff_ffff_ffff_ffff

  predicate IsInt64(n: int)
  {
    MinInt64 <= n <= MaxInt64
  }

  predicate IsDigit(c: char)
  {
    '0' <= c <= '9'
  }

  predicate AllDigits(s: string)
  {
    forall i :: 0 <= i < |s| ==> IsDigit(s[i])
  }

  function DigitValue(c: char): (d: nat)
    requires IsDigit(c)
    ensures d < 10
  {
    c as int - '0' as int
  }

  function DigitChar(d: nat): (c: char)
    requires d < 10
    ensures IsDigit(c) && DigitValue(c) == d
  {
    ('0' as int + d) as char
  }

  /** The number a string of decimal digits denotes (leading zeros allowed). */
  function DigitsValue(s: string): nat
    requires AllDigits(s)
    decreases |s|
  {
    if s == [] then 0 else DigitsValue(s[..|s| - 1]) * 10 + DigitValue(s[|s| - 1])
  }

  /** The decimal text of a natural number, without leading zeros. */
  function NatText(n: nat): (s: string)
    ensures |s| >= 1 && AllDigits(s)
    ensures s[0] == '0' ==> n == 0
    decreases n
  {
    if n < 10 then [DigitChar(n)] else NatText(n / 10) + [DigitChar(n % 10)]
  }

  /** strconv.Itoa */
  function Itoa(n: int): (s: string)
    ensures |s| >= 1
  {
    if n < 0 then "-" + NatText(-n) else NatText(n)
  }

  /** An optional leading sign, as strconv reads it: whether it was '-', and the rest. */
  function SplitSign(s: string): (r: (bool, string))
    ensures r.1 == if |s| > 0 && (s[0] == '+' || s[0] == '-') then s[1..] else s
    ensures r.0 <==> |s| > 0 && s[0] == '-'
  {
    if |s| > 0 && (s[0] == '+' || s[0] == '-') then (s[0] == '-', s[1..]) else (false, s)
  }

  /**
   * strconv.Atoi: an optional sign followed by at least one decimal digit, whose value
   * fits in 64 bits; anything else is an error (None).
   */
  function Atoi(s: string): (r: Option<int>)
    ensures r.Some? ==> IsInt64(r.value)
    ensures r.Some? ==> |s| >= 1 && forall i :: 0 <= i < |s| ==> IsDigit(s[i]) || (i == 0 && (s[i] == '+' || s[i] == '-'))
  {
    var (negative, digits) := SplitSign(s);
    if digits == [] || !AllDigits(digits) then None
    else
      var v: int := if negative then -(DigitsValue(digits) as int) else DigitsValue(digits);
      if IsInt64(v) then Some(v) else None
  }

  lemma {:induction false} NatTextValue(n: nat)
    ensures DigitsValue(NatText(n)) == n
    decreases n
  {
    if n >= 10 {
      var t := NatText(n / 10);
      var s := t + [DigitChar(n % 10)];
      assert s[..|s| - 1] == t;
      NatTextValue(n / 10);
    }
  }

  /** Itoa and Atoi are inverse on 64-bit integers. */
  lemma AtoiItoa(n: int)
    requires IsInt64(n)
    ensures Atoi(Itoa(n)) == Some(n)
  {
    if n < 0 {
      NatTextValue(-n);
      assert SplitSign(Itoa(n)).1 == NatText(-n);
    } else {
      NatTextValue(n);
    }
  }

  /** Atoi ignores a leading '+' and negates after a leading '-'. */
  lemma AtoiSign(digits: string)
    requires |digits| >= 1 && AllDigits(digits)
    ensures Atoi("+" + digits) == Atoi(digits)
    ensures Atoi(digits).Some? && Atoi(digits).value != 0 ==> Atoi("-" + digits) == Some(-Atoi(digits).value)
  {
    assert SplitSign("+" + digits).1 == digits;
    assert SplitSign("-" + digits).1 == digits;
  }

  /** strconv.ParseBool */
  function ParseBool(s: string): (r: Option<bool>)
    ensures r.Some? ==> |s| >= 1 && (r.value <==> s[0] in "1tT")
  {
    if s in {"1", "t", "T", "TRUE", "true", "True"} then Some(true)
    else if s in {"0", "f", "F", "FALSE", "false", "False"} then Some(false)
    else None
  }

  /** strconv.FormatBool */
  function FormatBool(b: bool): string
  {
    if b then "true" else "false"
  }

  lemma ParseFormatBool(b: bool)
    ensures ParseBool(FormatBool(b)) == Some(b)
  {
  }

  function Pow10(k: nat): (p: nat)
    ensures p >= 1
  {
    if k == 0 then 1 else 10 * Pow10(k - 1)
  }

  /** The length of the longest prefix of `s` made of decimal digits. */
  function DigitRun(s: string): (n: nat)
    ensures n <= |s| && AllDigits(s[..n])
    ensures n < |s| ==> !IsDigit(s[n])
    decreases |s|
  {
    if s == [] || !IsDigit(s[0]) then 0
    else
      var n := 1 + DigitRun(s[1..]);
      assert s[..n] == [s[0]] + s[1..][..n - 1];
      n
  }

  /** A decimal number: plus or minus mantissa times ten to the power scale. */
  datatype Decimal = Decimal(negative: bool, mantissa: nat, scale: int)

  function DecimalValue(d: Decimal): real
  {
    var magnitude :=
      if d.scale >= 0 then (d.mantissa * Pow10(d.scale)) as real
      else d.mantissa as real / Pow10(-d.scale) as real;
    if d.negative then -magnitude else magnitude
  }

  /** The optional exponent part `e[sign]digits` of a decimal float literal; "" is exponent 0. */
  function ParseExponent(s: string): (r: Option<int>)
    ensures s == [] ==> r == Some(0)
  {
    if s == [] then Some(0)
    else if s[0] != 'e' && s[0] != 'E' then None
    else
      var (negative, digits) := SplitSign(s[1..]);
      if digits == [] || !AllDigits(digits) then None
      else Some(if negative then -(DigitsValue(digits) as int) else DigitsValue(digits))
  }

  /**
   * The decimal literals strconv.ParseFloat accepts: [sign] digits [. digits] or [sign] . digits,
   * then an optional exponent, with at least one mantissa digit.
   */
  function ParseDecimal(s: string): (r: Option<Decimal>)
    ensures r.Some? ==> |s| >= 1
  {
    var (negative, body) := SplitSign(s);
    var i := DigitRun(body);
    var intDigits := body[..i];
    var rest := body[i..];
    var (fracDigits, tail) :=
      if |rest| > 0 && rest[0] == '.' then
        var j := DigitRun(rest[1..]);
        (rest[1..][..j], rest[1..][j..])
      else ([], rest);
    if |intDigits| + |fracDigits| == 0 then None
    else
      match ParseExponent(tail)
      case None => None
      case Some(e) =>
        assert AllDigits(intDigits + fracDigits);
        Some(Decimal(negative, DigitsValue(intDigits + fracDigits), e - |fracDigits|))
  }

  /** Magnitudes from here on round to infinity in float64, which ParseFloat reports as a range error. */
  function OverflowBound(): real
  {
    // 2^1024 - 2^970, halfway between the largest float64 and 2^1024
    0xfffffffffffffc00000000000000000000000000000000000000000000000000000000000000000000000000000000000000000000000000000000000000000000000000000000000000000000000000000000000000000000000000000000000000000000000000000000000000000000000000000000000000000000000000 as real
  }

  /**
   * strconv.ParseFloat(s, 64) on decimal literals. The value is the exact decimal, so float64
   * rounding of the mantissa is not modelled; overflow is an error as in Go.
   */
  function ParseFloat(s: string): (r: Option<real>)
    ensures r.Some? ==> -OverflowBound() < r.value < OverflowBound()
    ensures r.Some? ==> ParseDecimal(s).Some? && r.value == DecimalValue(ParseDecimal(s).value)
  {
    match ParseDecimal(s)
    case None => None
    case Some(d) =>
      var v := DecimalValue(d);
      if v <= -OverflowBound() || OverflowBound() <= v then None else Some(v)
  }

  /** Every integer literal Atoi accepts is also a float literal with the same value. */
  lemma ParseFloatOfInteger(s: string)
    requires Atoi(s).Some?
    ensures ParseFloat(s) == Some(Atoi(s).value as real)
  {
    var (negative, digits) := SplitSign(s);
    assert DigitRun(digits) == |digits|;
    assert digits[..|digits|] == digits;
    assert digits + [] == digits;
  }

}
