/**
 * Decimal text for non-negative integers over ASCII digits: Python's `str(n)`
 * for `n >= 0`, and `int(s)` restricted to strings for which `s.isdigit()`
 * holds. The store keeps its epoch as text and the HTTP layer reads the epoch
 * from a string, so both sides go through this module.
 */
module Decimal {
  import opened Wrappers

  predicate IsDigit(c: char) {
    '0' <= c <= '9'
  }

  predicate AllDigits(s: string) {
    forall i :: 0 <= i < |s| ==> IsDigit(s[i])
  }

  function DigitChar(d: nat): (c: char)
    requires d < 10
    ensures IsDigit(c)
  {
    ('0' as int + d) as char
  }

  function DigitValue(c: char): (d: nat)
    requires IsDigit(c)
    ensures d < 10
  {
    c as int - '0' as int
  }

  /** The number a string of digits denotes, most significant digit first. */
  function DigitsValue(s: string): nat
    requires AllDigits(s)
  {
    if s == [] then 0 else DigitsValue(s[..|s| - 1]) * 10 + DigitValue(s[|s| - 1])
  }

  /** `int(s) if s and s.isdigit() else None`, with ASCII digits only. */
  function ParseDecimal(s: string): (r: Option<nat>)
    ensures r.Some? <==> |s| > 0 && AllDigits(s)
  {
    if |s| > 0 && AllDigits(s) then Some(DigitsValue(s)) else None
  }

  /** `str(n)`: the shortest decimal text of `n`. */
  function DecimalText(n: nat): (s: string)
    ensures |s| > 0 && AllDigits(s)
    ensures |s| > 1 ==> s[0] != '0'
  {
    if n < 10 then [DigitChar(n)] else DecimalText(n / 10) + [DigitChar(n % 10)]
  }

  /** What `str` writes, `int` reads back: the text store loses no epoch. */
  lemma {:induction false} DecimalRoundTrip(n: nat)
    ensures DigitsValue(DecimalText(n)) == n
    ensures ParseDecimal(DecimalText(n)) == Some(n)
  {
    if n >= 10 {
      DecimalRoundTrip(n / 10);
      var s := DecimalText(n);
      assert s[..|s| - 1] == DecimalText(n / 10);
      assert DigitValue(s[|s| - 1]) == n % 10;
    } else {
      var s := DecimalText(n);
      assert s[..|s| - 1] == [];
    }
  }

  /** Leading zeros are accepted and ignored: `int("007") == 7`. */
  lemma {:induction false} LeadingZeroIgnored(s: string)
    requires AllDigits(s)
    ensures AllDigits("0" + s) && DigitsValue("0" + s) == DigitsValue(s)
  {
    var t := "0" + s;
    if s != [] {
      assert t[..|t| - 1] == "0" + s[..|s| - 1];
      LeadingZeroIgnored(s[..|s| - 1]);
    } else {
      assert t[..|t| - 1] == [];
    }
  }

  /** Parsing is not injective on text: two different strings name the same epoch. */
  lemma ParseNotInjective()
    ensures ParseDecimal("07") == ParseDecimal("7") == Some(7)
  {
    LeadingZeroIgnored("7");
  }
}
