/** Python's `float(s)` restricted to plain decimal notation, and the
    decimal rendering of a natural number (`str(n)` / `f"{n}"`). */
module Decimal {
  import opened Common
  import opened Text

  function DigitValue(c: char): nat
    requires IsDigit(c)
  {
    c as int - '0' as int
  }

  /** The number a string of decimal digits denotes (0 for the empty string). */
  function NatValue(ds: string): nat
    requires AllDigits(ds)
    decreases |ds|
  {
    if ds == [] then 0 else NatValue(ds[..|ds| - 1]) * 10 + DigitValue(ds[|ds| - 1])
  }

  function Pow10(k: nat): (p: nat)
    ensures p >= 1
  {
    if k == 0 then 1 else 10 * Pow10(k - 1)
  }

  function IndexOf(s: string, c: char): (r: Option<nat>)
    ensures r.None? <==> c !in s
    ensures r.Some? ==> r.value < |s| && s[r.value] == c
  {
    if s == [] then None
    else if s[0] == c then Some(0)
    else match IndexOf(s[1..], c)
      case None => None
      case Some(i) => Some(i + 1)
  }

  /** `digits`, `digits.digits`, `.digits` or `digits.` with at least one digit. */
  function ParseUnsigned(s: string): Option<real> {
    match IndexOf(s, '.')
    case None =>
      if s != [] && AllDigits(s) then Some(NatValue(s) as real) else None
    case Some(i) =>
      var whole, frac := s[..i], s[i + 1..];
      if |whole| + |frac| > 0 && AllDigits(whole) && AllDigits(frac)
      then Some(NatValue(whole) as real + NatValue(frac) as real / Pow10(|frac|) as real)
      else None
  }

  /** `float(s)`: surrounding whitespace is ignored, one optional sign. */
  function ParseFloat(s: string): Option<real> {
    ParseSigned(Strip(s))
  }

  function ParseSigned(t: string): Option<real> {
    if t != [] && t[0] == '-' then
      match ParseUnsigned(t[1..])
      case Some(v) => Some(-v)
      case None => None
    else if t != [] && t[0] == '+' then ParseUnsigned(t[1..])
    else ParseUnsigned(t)
  }

  /** Characters that can appear in a plain decimal literal. */
  predicate IsNumeral(c: char) {
    IsDigit(c) || c == '.' || c == '-'
  }

  predicate AllNumeral(s: string) {
    forall i :: 0 <= i < |s| ==> IsNumeral(s[i])
  }

  /** A numeral as Python prints a float of ordinary size: no whitespace,
      no exponent, and `float()` reads it back as `x`. */
  predicate PrintsAs(text: string, x: real) {
    text != [] && AllNumeral(text) && ParseFloat(text) == Some(x)
  }

  /** A numeral holds no whitespace and none of the characters the
      evaluators strip out before calling `float()`. */
  lemma NumeralIsPlain(s: string)
    requires AllNumeral(s)
    ensures forall i :: 0 <= i < |s| ==> !IsSpace(s[i])
    ensures '%' !in s && ',' !in s && '+' !in s
  {
    forall i | 0 <= i < |s| ensures !IsSpace(s[i]) && s[i] != '%' && s[i] != ',' && s[i] != '+' {
      assert IsNumeral(s[i]);
    }
  }

  /** Without whitespace around it, `float()` only looks at the sign. */
  lemma SolidParse(s: string)
    requires s != [] && AllNumeral(s)
    ensures ParseFloat(s) == ParseSigned(s)
  {
    assert forall i :: 0 <= i < |s| ==> !IsSpace(s[i]) by {
      forall i | 0 <= i < |s| ensures !IsSpace(s[i]) { assert IsNumeral(s[i]); }
    }
    SolidText(s);
  }

  lemma DigitsHaveNoDot(ds: string)
    requires AllDigits(ds)
    ensures '.' !in ds && '-' !in ds
  {
    forall k | 0 <= k < |ds| ensures ds[k] != '.' && ds[k] != '-' {
      assert IsDigit(ds[k]);
    }
  }

  lemma DigitsAreNumerals(ds: string)
    requires AllDigits(ds)
    ensures AllNumeral(ds)
  {
  }

  lemma NumeralConcat(a: string, b: string)
    requires AllNumeral(a) && AllNumeral(b)
    ensures AllNumeral(a + b)
  {
    forall i | 0 <= i < |a + b| ensures IsNumeral((a + b)[i]) {
      if i < |a| { assert (a + b)[i] == a[i]; } else { assert (a + b)[i] == b[i - |a|]; }
    }
  }

  /** The sign is read off the first character only. */
  lemma SignedOf(sign: string, u: string)
    requires sign == "" || sign == "-"
    requires u != [] && u[0] != '-' && u[0] != '+'
    ensures ParseSigned(sign + u) == if sign == "" then ParseUnsigned(u)
                                     else match ParseUnsigned(u) case Some(v) => Some(-v) case None => None
  {
    if sign == "" {
      assert sign + u == u;
    } else {
      assert (sign + u)[0] == '-';
      assert (sign + u)[1..] == u;
    }
  }

  /** Searching past a prefix that lacks the character shifts the index. */
  lemma {:induction false} IndexOfSkips(a: string, b: string, c: char)
    requires c !in a
    ensures IndexOf(a + b, c) == match IndexOf(b, c) case Some(i) => Some(i + |a|) case None => None
  {
    if a == [] {
      assert a + b == b;
    } else {
      IndexOfSkips(a[1..], b, c);
      assert (a + b)[1..] == a[1..] + b;
      assert (a + b)[0] == a[0];
    }
  }

  lemma UnsignedFraction(whole: string, frac: string)
    requires AllDigits(whole) && AllDigits(frac) && |frac| > 0
    ensures ParseUnsigned(whole + "." + frac).Some?
  {
    var u := whole + "." + frac;
    DigitsHaveNoDot(whole);
    assert u == whole + ("." + frac);
    IndexOfSkips(whole, "." + frac, '.');
    assert IndexOf("." + frac, '.') == Some(0);
    assert u[..|whole|] == whole;
    assert u[|whole| + 1..] == frac;
  }

  lemma UnsignedDigits(ds: string)
    requires AllDigits(ds) && ds != []
    ensures ParseUnsigned(ds) == Some(NatValue(ds) as real)
  {
    DigitsHaveNoDot(ds);
  }

  /** A digit string followed by a fraction, with an optional minus sign, parses. */
  lemma DecimalParses(sign: string, whole: string, frac: string)
    requires sign == "" || sign == "-"
    requires AllDigits(whole) && AllDigits(frac) && |frac| > 0
    ensures ParseFloat(sign + whole + "." + frac).Some?
  {
    var u := whole + "." + frac;
    assert sign + whole + "." + frac == sign + u;
    DigitsAreNumerals(whole);
    DigitsAreNumerals(frac);
    NumeralConcat(whole, ".");
    NumeralConcat(whole + ".", frac);
    NumeralConcat(sign, u);
    SolidParse(sign + u);
    UnsignedFraction(whole, frac);
    assert u[0] == if |whole| > 0 then whole[0] else '.';
    SignedOf(sign, u);
  }

  lemma SignedDigits(sign: string, digits: string)
    requires sign == "" || sign == "-"
    requires AllDigits(digits) && digits != []
    ensures ParseSigned(sign + digits) == Some(if sign == "" then NatValue(digits) as real else -(NatValue(digits) as real))
    ensures AllNumeral(sign + digits)
  {
    UnsignedDigits(digits);
    assert IsDigit(digits[0]);
    SignedOf(sign, digits);
    DigitsAreNumerals(digits);
    NumeralConcat(sign, digits);
  }

  /** A non-empty digit string, with an optional minus sign, parses to the number it denotes. */
  lemma DigitsParse(sign: string, digits: string)
    requires sign == "" || sign == "-"
    requires AllDigits(digits) && digits != []
    ensures ParseFloat(sign + digits) == Some(if sign == "" then NatValue(digits) as real else -(NatValue(digits) as real))
  {
    SignedDigits(sign, digits);
    SolidParse(sign + digits);
  }

  function DigitChar(d: nat): (c: char)
    requires d < 10
    ensures IsDigit(c) && DigitValue(c) == d
  {
    ('0' as int + d) as char
  }

  /** The decimal digits of a natural number, as Python prints it. */
  function NatText(n: nat): (s: string)
    ensures s != [] && AllDigits(s)
    decreases n
  {
    if n < 10 then [DigitChar(n)] else NatText(n / 10) + [DigitChar(n % 10)]
  }

  /** Reading back a rendered natural number gives the number. */
  lemma {:induction false} NatTextValue(n: nat)
    ensures NatValue(NatText(n)) == n
    decreases n
  {
    var s := NatText(n);
    if n >= 10 {
      NatTextValue(n / 10);
      assert s[..|s| - 1] == NatText(n / 10);
    }
  }

  /** Parsing the printed digits of a natural number gives the number back. */
  lemma NatTextRoundTrip(n: nat)
    ensures ParseFloat(NatText(n)) == Some(n as real)
  {
    NatTextValue(n);
    DigitsParse("", NatText(n));
    assert "" + NatText(n) == NatText(n);
  }
}
