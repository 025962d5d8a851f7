/**
 * The JavaScript number parsers behind the typed inputs, `parseInt(text)`
 * and `parseFloat(text)`, the `|| 0` fallback the handlers apply to their
 * results, and the decimal numeral `String(n)` that a number input shows.
 */
module JsNumber {

  import opened Wrappers
  import JsString

  predicate IsDigit(c: char) {
    '0' <= c <= '9'
  }

  predicate AllDigits(s: string) {
    forall i :: 0 <= i < |s| ==> IsDigit(s[i])
  }

  function DigitValue(c: char): nat
    requires IsDigit(c)
  {
    c as int - '0' as int
  }

  function DigitChar(d: nat): (c: char)
    requires d < 10
    ensures IsDigit(c) && DigitValue(c) == d
  {
    ('0' as int + d) as char
  }

  /** Length of the run of decimal digits at the start of `s`. */
  function DigitRun(s: string): (n: nat)
    ensures n <= |s|
    ensures AllDigits(s[..n])
    ensures n == |s| || !IsDigit(s[n])
  {
    if s != [] && IsDigit(s[0]) then
      var n := 1 + DigitRun(s[1..]);
      assert s[..n] == [s[0]] + s[1..][..n - 1];
      n
    else 0
  }

  /** The value of a digit string read in base 10, most significant digit first. */
  function DigitsValue(ds: string): nat
    requires AllDigits(ds)
  {
    if ds == [] then 0 else DigitsValue(ds[..|ds| - 1]) * 10 + DigitValue(ds[|ds| - 1])
  }

  function Pow10(k: nat): (p: nat)
    ensures p >= 1
  {
    if k == 0 then 1 else 10 * Pow10(k - 1)
  }

  /** `m * 10^e` for an integer exponent. */
  function Scale(m: real, e: int): real {
    if e >= 0 then m * Pow10(e) as real else m / Pow10(-e) as real
  }

  /** The optional `-` or `+` both parsers accept after leading whitespace. */
  function SplitSign(s: string): (r: (bool, string))
    ensures r.0 ==> s != [] && s[0] == '-'
    ensures r.1 == if s != [] && (s[0] == '-' || s[0] == '+') then s[1..] else s
  {
    if s != [] && s[0] == '-' then (true, s[1..])
    else if s != [] && s[0] == '+' then (false, s[1..])
    else (false, s)
  }

  /**
   * `parseInt(s)` with no radix, for decimal text: leading whitespace, an
   * optional sign, then the longest run of digits; `NaN` (here `None`)
   * when that run is empty.
   */
  function ParseInt(s: string): Option<int> {
    var (negative, body) := SplitSign(JsString.TrimStart(s));
    var n := DigitRun(body);
    if n == 0 then None
    else
      var magnitude: int := DigitsValue(body[..n]);
      Some(if negative then -magnitude else magnitude)
  }

  /** The exponent part `e`/`E`, optional sign, digits; absent or incomplete reads as 0. */
  function Exponent(s: string): int {
    if s != [] && (s[0] == 'e' || s[0] == 'E') then
      var (negative, body) := SplitSign(s[1..]);
      var k := DigitRun(body);
      var magnitude: int := DigitsValue(body[..k]);
      if k == 0 then 0 else if negative then -magnitude else magnitude
    else 0
  }

  /** The value of fraction digits read after a decimal point. */
  function FractionValue(frac: string): (v: real)
    requires AllDigits(frac)
    ensures 0.0 <= v
  {
    DigitsValue(frac) as real / Pow10(|frac|) as real
  }

  /**
   * The number part that `parseFloat` reads after the sign: digits, then an
   * optional `.` and fraction digits.  Gives whether any digit was read, the
   * value read, and the text that follows.
   */
  function ReadMantissa(body: string): (r: (bool, real, string))
    ensures |r.2| <= |body|
  {
    var n := DigitRun(body);
    var whole := DigitsValue(body[..n]) as real;
    var afterWhole := body[n..];
    if afterWhole != [] && afterWhole[0] == '.' then
      var f := DigitRun(afterWhole[1..]);
      (0 < n || 0 < f, whole + FractionValue(afterWhole[1..][..f]), afterWhole[1..][f..])
    else (0 < n, whole, afterWhole)
  }

  /**
   * `parseFloat(s)` for decimal text: leading whitespace, an optional sign,
   * digits, an optional `.` and fraction digits (at least one digit in all),
   * an optional exponent; `NaN` (here `None`) when no digit starts the number.
   */
  function ParseFloat(s: string): Option<real> {
    var (negative, body) := SplitSign(JsString.TrimStart(s));
    var (anyDigit, mantissa, tail) := ReadMantissa(body);
    if !anyDigit then None
    else
      var magnitude := Scale(mantissa, Exponent(tail));
      Some(if negative then -magnitude else magnitude)
  }

  /** `parseInt(text) || 0`: `NaN` falls back to 0 (and `-0` is 0 anyway). */
  function IntOrZero(parsed: Option<int>): int {
    match parsed
    case Some(v) => v
    case None => 0
  }

  /** `parseFloat(text) || 0`. */
  function RealOrZero(parsed: Option<real>): real {
    match parsed
    case Some(v) => v
    case None => 0.0
  }

  /** `String(n)` for a natural number: its decimal digits, no leading zeros. */
  function NatToString(n: nat): string {
    if n < 10 then [DigitChar(n)] else NatToString(n / 10) + [DigitChar(n % 10)]
  }

  /** `String(i)` for an integer. */
  function IntToString(i: int): string {
    if i < 0 then "-" + NatToString(-i) else NatToString(i)
  }

  /** The numeral of `n` is a non-empty digit string whose value is `n`. */
  lemma {:induction false} NatToStringValue(n: nat)
    ensures |NatToString(n)| >= 1 && AllDigits(NatToString(n))
    ensures DigitsValue(NatToString(n)) == n
  {
    if n >= 10 {
      NatToStringValue(n / 10);
      var s := NatToString(n);
      assert s[..|s| - 1] == NatToString(n / 10);
    }
  }

  /** A string that does not start with whitespace is left alone by leading-whitespace removal. */
  lemma TrimStartNoop(s: string)
    requires s != [] && !JsString.IsWhitespace(s[0])
    ensures JsString.TrimStart(s) == s
  {
  }

  /** Digits followed by a non-digit: the digit run is exactly the digits. */
  lemma DigitRunOf(ds: string, rest: string)
    requires AllDigits(ds)
    requires rest == [] || !IsDigit(rest[0])
    ensures DigitRun(ds + rest) == |ds| && (ds + rest)[..|ds|] == ds
  {
    assert (ds + rest)[..|ds|] == ds;
    if rest != [] {
      assert (ds + rest)[|ds|] == rest[0];
    }
  }

  /** A numeral does not start with whitespace, so `parseInt` and `parseFloat` read it from its first character. */
  lemma NumeralNotTrimmed(w: int, rest: string)
    ensures JsString.TrimStart(IntToString(w) + rest) == IntToString(w) + rest
  {
    var m := if w < 0 then -w else w;
    NatToStringValue(m);
    var s := IntToString(w) + rest;
    if w < 0 {
      assert s[0] == '-';
    } else {
      assert s[0] == NatToString(m)[0];
    }
    TrimStartNoop(s);
  }

  /** The sign of a numeral followed by `rest`, and the unsigned text after it. */
  lemma NumeralSign(w: int, rest: string)
    ensures SplitSign(IntToString(w) + rest) == (w < 0, NatToString(if w < 0 then -w else w) + rest)
  {
    var m := if w < 0 then -w else w;
    NatToStringValue(m);
    if w < 0 {
      assert IntToString(w) + rest == "-" + (NatToString(m) + rest);
    } else {
      assert (NatToString(m) + rest)[0] == NatToString(m)[0];
    }
  }

  /** The sign, the digit run and the whole-number prefix of a numeral followed by `rest`. */
  lemma NumeralParts(w: int, rest: string)
    requires rest == [] || !IsDigit(rest[0])
    ensures var body := NatToString(if w < 0 then -w else w) + rest;
      && JsString.TrimStart(IntToString(w) + rest) == IntToString(w) + rest
      && SplitSign(IntToString(w) + rest) == (w < 0, body)
      && DigitRun(body) == |NatToString(if w < 0 then -w else w)|
      && AllDigits(body[..DigitRun(body)])
      && DigitsValue(body[..DigitRun(body)]) == (if w < 0 then -w else w)
  {
    var m := if w < 0 then -w else w;
    NatToStringValue(m);
    NumeralNotTrimmed(w, rest);
    NumeralSign(w, rest);
    DigitRunOf(NatToString(m), rest);
  }

  /** `parseInt` of text whose whitespace, sign and digit run are known. */
  lemma ParseIntParts(s: string, negative: bool, body: string, n: nat)
    requires JsString.TrimStart(s) == s && SplitSign(s) == (negative, body)
    requires DigitRun(body) == n && 0 < n
    ensures ParseInt(s) == Some(if negative then -(DigitsValue(body[..n]) as int) else DigitsValue(body[..n]))
  {
  }

  /** Reading back a numeral: `parseInt(String(i)) === i`. */
  lemma ParseIntOfNumeral(i: int)
    ensures ParseInt(IntToString(i)) == Some(i)
  {
    ParseIntStopsAtDot(i, "", false);
    assert IntToString(i) + "" == IntToString(i);
  }

  /**
   * `parseInt` stops at the decimal point and keeps the integer part, which
   * truncates toward zero.
   */
  lemma ParseIntStopsAtDot(w: int, frac: string, withDot: bool)
    requires AllDigits(frac)
    requires withDot || frac == ""
    ensures ParseInt(IntToString(w) + (if withDot then "." + frac else "")) == Some(w)
  {
    var rest := if withDot then "." + frac else "";
    var m := if w < 0 then -w else w;
    NumeralParts(w, rest);
    NatToStringValue(m);
    ParseIntParts(IntToString(w) + rest, w < 0, NatToString(m) + rest, |NatToString(m)|);
  }

  /** `parseFloat` of text whose whitespace and sign are known. */
  lemma ParseFloatParts(s: string, negative: bool, body: string, value: real)
    requires JsString.TrimStart(s) == s && SplitSign(s) == (negative, body)
    requires ReadMantissa(body) == (true, value, "")
    ensures ParseFloat(s) == Some(if negative then -value else value)
  {
    assert Exponent("") == 0;
  }

  /** A numeral alone reads as its value with nothing after it. */
  lemma ReadMantissaWhole(digits: string)
    requires AllDigits(digits) && digits != []
    ensures ReadMantissa(digits) == (true, DigitsValue(digits) as real, "")
  {
    DigitRunOf(digits, "");
    assert digits + "" == digits;
    assert digits[|digits|..] == "";
  }

  /** A fraction alone is a digit run with nothing after it. */
  lemma WholeRun(frac: string)
    requires AllDigits(frac)
    ensures DigitRun(frac) == |frac| && frac[..|frac|] == frac && frac[|frac|..] == ""
  {
    DigitRunOf(frac, "");
    assert frac + "" == frac;
  }

  /** Whole digits, a `.` and fraction digits read as whole plus fraction, nothing after. */
  lemma ReadMantissaDot(body: string, n: nat, frac: string)
    requires DigitRun(body) == n && 0 < n && AllDigits(frac)
    requires body[n..] == "." + frac
    ensures ReadMantissa(body)
         == (true, DigitsValue(body[..n]) as real + FractionValue(frac), "")
  {
    assert body[n..][1..] == frac;
    WholeRun(frac);
  }

  /** `digits.frac` reads as the whole part plus the fraction, with nothing after it. */
  lemma ReadMantissaFraction(digits: string, frac: string)
    requires AllDigits(digits) && digits != [] && AllDigits(frac)
    ensures ReadMantissa(digits + ("." + frac))
         == (true, DigitsValue(digits) as real + FractionValue(frac), "")
  {
    DigitRunOf(digits, "." + frac);
    ReadMantissaDot(digits + ("." + frac), |digits|, frac);
  }

  /** Reading back a numeral as a float: `parseFloat(String(i)) === i`. */
  lemma ParseFloatOfNumeral(i: int)
    ensures ParseFloat(IntToString(i)) == Some(i as real)
  {
    var m := if i < 0 then -i else i;
    NumeralParts(i, "");
    NatToStringValue(m);
    assert IntToString(i) + "" == IntToString(i);
    assert NatToString(m) + "" == NatToString(m);
    ReadMantissaWhole(NatToString(m));
    ParseFloatParts(IntToString(i), i < 0, NatToString(m), m as real);
  }

  /** `parseFloat` keeps the fraction that `parseInt` drops. */
  lemma ParseFloatKeepsFraction(w: nat, frac: string)
    requires AllDigits(frac)
    ensures ParseFloat(NatToString(w) + ("." + frac)) == Some(w as real + FractionValue(frac))
  {
    var digits := NatToString(w);
    NumeralParts(w, "." + frac);
    NatToStringValue(w);
    ReadMantissaFraction(digits, frac);
    ParseFloatParts(digits + ("." + frac), false, digits + ("." + frac), w as real + FractionValue(frac));
  }
}
