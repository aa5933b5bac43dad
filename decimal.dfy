/**
 * Decimal text of integers, as Python's `str(int)` (and so an f-string
 * placeholder `{n}` holding an `int`) renders it: an optional '-' followed by
 * the decimal digits of the magnitude, most significant first, with no
 * leading zero. `ParseDecimal` is the reading back of that text; it exists so
 * that the model can state that the rendering loses nothing.
 */
module Decimal {
  import opened Wrappers

  predicate IsDigit(c: char) {
    '0' <= c <= '9'
  }

  predicate AllDigits(s: string) {
    forall i :: 0 <= i < |s| ==> IsDigit(s[i])
  }

  /** The character of a single decimal digit. */
  function DigitChar(d: nat): (c: char)
    requires d < 10
    ensures IsDigit(c) && c as int - '0' as int == d
  {
    ('0' as int + d) as char
  }

  /** The decimal digits of `n`; only zero itself starts with '0'. */
  function NatToString(n: nat): (s: string)
    ensures |s| >= 1 && AllDigits(s)
    ensures s[0] == '0' <==> n == 0
    ensures n == 0 ==> s == "0"
    decreases n
  {
    if n < 10 then [DigitChar(n)] else NatToString(n / 10) + [DigitChar(n % 10)]
  }

  /** The number a non-empty or empty string of digits denotes (the empty one denotes 0). */
  function DigitsValue(s: string): (v: nat)
    requires AllDigits(s)
    ensures |s| >= 1 && s[0] != '0' ==> v > 0
  {
    if s == [] then 0
    else
      DigitsValue(s[..|s| - 1]) * 10 + (s[|s| - 1] as int - '0' as int)
  }

  /** Python's `str(n)` for an `int` `n`. */
  function IntToString(n: int): (s: string)
    ensures |s| >= 1
    ensures s[0] == '-' <==> n < 0
    ensures n < 0 ==> |s| >= 2 && AllDigits(s[1..])
    ensures n >= 0 ==> AllDigits(s)
  {
    if n < 0 then
      var t := NatToString(-n);
      assert ("-" + t)[1..] == t;
      "-" + t
    else NatToString(n)
  }

  /** Digits with no leading zero, except the single digit "0". */
  predicate IsCanonicalDigits(s: string) {
    |s| >= 1 && AllDigits(s) && (s[0] == '0' ==> |s| == 1)
  }

  /**
   * Reads back exactly the text `IntToString` writes: canonical digits, or
   * '-' followed by canonical digits other than "0". Leading zeros and "-0"
   * are refused.
   */
  function ParseDecimal(s: string): (r: Option<int>)
    ensures r.Some? ==> |s| >= 1
    ensures r.Some? ==> (r.value < 0 <==> s[0] == '-')
  {
    if |s| >= 2 && s[0] == '-' && IsCanonicalDigits(s[1..]) && s[1] != '0' then
      Some(-(DigitsValue(s[1..]) as int))
    else if IsCanonicalDigits(s) then Some(DigitsValue(s))
    else None
  }

  lemma {:induction false} NatToStringValue(n: nat)
    ensures DigitsValue(NatToString(n)) == n
    decreases n
  {
    if n >= 10 {
      var s := NatToString(n);
      assert s[..|s| - 1] == NatToString(n / 10);
      NatToStringValue(n / 10);
    }
  }

  /** Rendering an integer and reading it back gives the integer again. */
  lemma IntToStringRoundTrip(n: int)
    ensures ParseDecimal(IntToString(n)) == Some(n)
  {
    if n < 0 {
      NatToStringValue(-n);
    } else {
      NatToStringValue(n);
    }
  }

  lemma {:induction false} CanonicalDigitsRendered(s: string)
    requires IsCanonicalDigits(s)
    ensures NatToString(DigitsValue(s)) == s
    decreases |s|
  {
    if |s| >= 2 {
      var init := s[..|s| - 1];
      assert init[0] == s[0];
      CanonicalDigitsRendered(init);
      var d := s[|s| - 1] as int - '0' as int;
      assert DigitsValue(s) / 10 == DigitsValue(init) && DigitsValue(s) % 10 == d;
      assert s == init + [DigitChar(d)];
    }
  }

  /** `ParseDecimal` accepts exactly the renderings: whatever it reads is the rendering of what it returns. */
  lemma ParseDecimalOnlyRenderings(s: string)
    requires ParseDecimal(s).Some?
    ensures IntToString(ParseDecimal(s).value) == s
  {
    if |s| >= 2 && s[0] == '-' && IsCanonicalDigits(s[1..]) && s[1] != '0' {
      CanonicalDigitsRendered(s[1..]);
      assert s == "-" + s[1..];
    } else {
      CanonicalDigitsRendered(s);
    }
  }

  /** Distinct integers have distinct renderings. */
  lemma IntToStringInjective(a: int, b: int)
    requires IntToString(a) == IntToString(b)
    ensures a == b
  {
    IntToStringRoundTrip(a);
    IntToStringRoundTrip(b);
  }
}
