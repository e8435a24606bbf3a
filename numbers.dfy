/**
 * Text <-> value conversions the NML readers and writers rely on:
 * Python's `str(int)` / `int(str)`, `str(bool)` / `bool(str)`, and `float(str)` / `str(float)`.
 *
 * Integers are written in decimal and read back by a decimal reader whose round trip is proved.
 * Floating-point numbers are not modelled as IEEE values: a float is identified with the literal
 * text it was read from (a `FloatToken`), so reading and writing one is exact by construction.
 */
module Numbers {
  import opened Wrappers

  predicate IsDigit(c: char) { '0' <= c <= '9' }

  predicate IsSign(c: char) { c == '+' || c == '-' }

  /** Every character is an ASCII digit (the empty string included). */
  predicate AllDigits(s: string) { forall i :: 0 <= i < |s| ==> IsDigit(s[i]) }

  /** A non-empty run of ASCII digits. */
  predicate IsDigits(s: string) { |s| > 0 && AllDigits(s) }

  function DigitValue(c: char): (d: nat)
    requires IsDigit(c)
    ensures d < 10
  {
    c as int - '0' as int
  }

  function DigitChar(d: nat): (c: char)
    requires d < 10
    ensures IsDigit(c) && DigitValue(c) == d
  {
    ('0' as int + d) as char
  }

  /** The value of a digit string, most significant digit first. */
  function DigitsValue(s: string): nat
    requires AllDigits(s)
  {
    if s == [] then 0 else 10 * DigitsValue(s[..|s| - 1]) + DigitValue(s[|s| - 1])
  }

  /** Decimal text of a natural number without leading zeros (Python `str` on a non-negative int). */
  function NatToStr(n: nat): (s: string)
    ensures IsDigits(s)
    ensures |s| > 1 ==> s[0] != '0'
  {
    if n < 10 then [DigitChar(n)] else NatToStr(n / 10) + [DigitChar(n % 10)]
  }

  /** Python `str` on an int. */
  function IntToStr(i: int): string
  {
    if i < 0 then "-" + NatToStr(-i) else NatToStr(i)
  }

  /**
   * Python `int` on a string, restricted to an optional sign followed by ASCII digits;
   * `None` stands for the `ValueError` Python raises on anything else.
   */
  function ParseInt(s: string): (r: Option<int>)
    ensures r.Some? <==> IsDigits(s) || (|s| > 0 && IsSign(s[0]) && IsDigits(s[1..]))
  {
    if |s| > 0 && s[0] == '-' then
      if IsDigits(s[1..]) then Some(-(DigitsValue(s[1..]) as int)) else None
    else if |s| > 0 && s[0] == '+' then
      if IsDigits(s[1..]) then Some(DigitsValue(s[1..])) else None
    else if IsDigits(s) then Some(DigitsValue(s))
    else None
  }

  lemma {:induction false} DigitsValueOfNatToStr(n: nat)
    ensures DigitsValue(NatToStr(n)) == n
  {
    if n >= 10 {
      var s := NatToStr(n / 10);
      var t := s + [DigitChar(n % 10)];
      assert t[..|t| - 1] == s;
      DigitsValueOfNatToStr(n / 10);
    }
  }

  /** Reading back the decimal text of any integer gives that integer. */
  lemma IntRoundTrip(i: int)
    ensures ParseInt(IntToStr(i)) == Some(i)
  {
    if i < 0 {
      var s := NatToStr(-i);
      assert ("-" + s)[1..] == s;
      DigitsValueOfNatToStr(-i);
    } else {
      DigitsValueOfNatToStr(i);
    }
  }

  /** Python `bool` on a string: any non-empty string is true. */
  function ParseBool(s: string): (b: bool)
    ensures b <==> s != []
  {
    |s| > 0
  }

  /** Python `str` on a bool. */
  function BoolToStr(b: bool): string
  {
    if b then "True" else "False"
  }

  /** Both spellings the writer produces are non-empty, so each reads back as true. */
  lemma BoolReadsBackTrue(b: bool)
    ensures ParseBool(BoolToStr(b)) == true
    ensures ParseBool(BoolToStr(b)) == b <==> b
  {
  }

  function IndexOfExponent(s: string): (k: nat)
    ensures k <= |s|
    ensures forall j :: 0 <= j < k ==> s[j] != 'e' && s[j] != 'E'
    ensures k < |s| ==> s[k] == 'e' || s[k] == 'E'
  {
    if s == [] || s[0] == 'e' || s[0] == 'E' then 0 else 1 + IndexOfExponent(s[1..])
  }

  function IndexOfPoint(s: string): (k: nat)
    ensures k <= |s|
    ensures k < |s| ==> s[k] == '.'
  {
    if s == [] || s[0] == '.' then 0 else 1 + IndexOfPoint(s[1..])
  }

  /** Digits with at most one decimal point and at least one digit. */
  predicate IsMantissa(m: string)
  {
    var d := IndexOfPoint(m);
    if d == |m| then IsDigits(m) else AllDigits(m[..d]) && AllDigits(m[d + 1..]) && |m| > 1
  }

  predicate IsExponent(e: string)
  {
    IsDigits(e) || (|e| > 0 && IsSign(e[0]) && IsDigits(e[1..]))
  }

  predicate IsDecimalFloat(b: string)
  {
    var k := IndexOfExponent(b);
    IsMantissa(b[..k]) && (k == |b| || IsExponent(b[k + 1..]))
  }

  /** The strings Python `float` accepts, restricted to ASCII without whitespace or underscores. */
  predicate IsFloatLiteral(s: string)
  {
    var body := if |s| > 0 && IsSign(s[0]) then s[1..] else s;
    body == "inf" || body == "infinity" || body == "nan" || IsDecimalFloat(body)
  }

  /** A float, identified with its literal text. */
  type FloatToken = s: string | IsFloatLiteral(s) witness "0"

  /** Python `float` on a string; `None` stands for the `ValueError` it raises. */
  function ParseFloat(s: string): (r: Option<FloatToken>)
    ensures r.Some? <==> IsFloatLiteral(s)
  {
    if IsFloatLiteral(s) then Some(s) else None
  }

  /** Python `str` on a float. */
  function FloatToStr(f: FloatToken): string
  {
    f
  }

  lemma FloatRoundTrip(f: FloatToken)
    ensures ParseFloat(FloatToStr(f)) == Some(f)
  {
  }
}
