/** Decimal text of integers, as `str(n)` writes it and `int(s)` reads it. */
module Numerals {
  import opened Wrappers

  predicate IsDigit(c: char) { '0' <= c <= '9' }

  /** Python's `min` on two integers. */
  function Min(a: int, b: int): int { if a <= b then a else b }

  function DigitChar(d: nat): (c: char)
    requires d < 10
    ensures IsDigit(c)
  {
    "0123456789"[d]
  }

  function DigitValue(c: char): (d: nat)
    requires IsDigit(c)
    ensures d < 10 && DigitChar(d) == c
  {
    (c as int - '0' as int) as nat
  }

  /** `str(n)` for a natural number: the shortest decimal text, no sign. */
  function NatText(n: nat): (s: string)
    ensures 1 <= |s|
    ensures forall i :: 0 <= i < |s| ==> IsDigit(s[i])
    ensures |s| > 1 ==> s[0] != '0'
  {
    if n < 10 then [DigitChar(n)] else NatText(n / 10) + [DigitChar(n % 10)]
  }

  /** `str(n)` for any integer. */
  function IntText(n: int): (s: string)
    ensures n < 0 <==> |s| > 0 && s[0] == '-'
  {
    if n < 0 then "-" + NatText(-n) else NatText(n)
  }

  /** The value of a non-empty run of decimal digits, most significant first. */
  function DigitsValue(s: string): nat
    requires forall i :: 0 <= i < |s| ==> IsDigit(s[i])
  {
    if s == [] then 0 else 10 * DigitsValue(s[..|s| - 1]) + DigitValue(s[|s| - 1])
  }

  predicate AllDigits(s: string) { |s| > 0 && forall i :: 0 <= i < |s| ==> IsDigit(s[i]) }

  /**
   * `int(s)` on a string: an optional sign followed by decimal digits;
   * anything else raises ValueError.
   */
  function ParseInt(s: string): (r: Result<int>)
    ensures r.Ok? <==> AllDigits(s) || (|s| > 1 && (s[0] == '-' || s[0] == '+') && AllDigits(s[1..]))
  {
    if AllDigits(s) then Ok(DigitsValue(s))
    else if |s| > 1 && s[0] == '-' && AllDigits(s[1..]) then Ok(0 - DigitsValue(s[1..]) as int)
    else if |s| > 1 && s[0] == '+' && AllDigits(s[1..]) then Ok(DigitsValue(s[1..]))
    else Err(ValueError(s))
  }

  lemma {:induction false} DigitsOfNatText(n: nat)
    ensures DigitsValue(NatText(n)) == n
  {
    if n >= 10 {
      var t, d := NatText(n / 10), DigitChar(n % 10);
      var s := t + [d];
      assert s == NatText(n);
      assert s[..|s| - 1] == t && s[|s| - 1] == d;
      assert DigitValue(d) == n % 10;
      DigitsOfNatText(n / 10);
    }
  }

  /** Reading back what `str` wrote gives the number again. */
  lemma ParseIntText(n: int)
    ensures ParseInt(IntText(n)) == Ok(n)
  {
    if n < 0 {
      ParseNegativeText(-n);
    } else {
      ParseNatText(n);
    }
  }

  /** The text of a natural number reads back as that number. */
  lemma ParseNatText(n: nat)
    ensures ParseInt(NatText(n)) == Ok(n)
  {
    assert AllDigits(NatText(n));
    DigitsOfNatText(n);
  }

  /** A minus sign before the text of `m` reads back as `-m`. */
  lemma ParseNegativeText(m: nat)
    requires m > 0
    ensures ParseInt("-" + NatText(m)) == Ok(0 - m as int)
  {
    var t := NatText(m);
    var s := "-" + t;
    assert s[1..] == t;
    assert !IsDigit(s[0]);
    assert AllDigits(t);
    DigitsOfNatText(m);
  }

  /** Different numbers have different decimal texts. */
  lemma IntTextInjective(m: int, n: int)
    ensures IntText(m) == IntText(n) ==> m == n
  {
    ParseIntText(m);
    ParseIntText(n);
  }
}
