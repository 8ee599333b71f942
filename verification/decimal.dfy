/** Python's `str()` on an integer: an optional minus sign followed by the
    decimal digits of the magnitude, most significant first, without leading
    zeros. `print_board` writes every cell through this conversion. The
    conversion is total here; the limit on the number of digits that recent
    CPython releases impose is not modelled. */
module Decimal {

  /** The character of a single decimal digit. */
  function DigitChar(d: int): (c: char)
    requires 0 <= d <= 9
    ensures '0' <= c <= '9'
    ensures c as int - '0' as int == d
  {
    ('0' as int + d) as char
  }

  predicate IsDigit(c: char) {
    '0' <= c <= '9'
  }

  predicate AllDigits(s: string) {
    forall k :: 0 <= k < |s| ==> IsDigit(s[k])
  }

  /** Decimal digits of a natural number. */
  function ShowNat(n: nat): (s: string)
    ensures |s| >= 1
    ensures AllDigits(s)
    ensures |s| > 1 ==> s[0] != '0'
    ensures s[0] == '0' <==> n == 0
    ensures n < 10 <==> |s| == 1
    decreases n
  {
    if n < 10 then [DigitChar(n)] else ShowNat(n / 10) + [DigitChar(n % 10)]
  }

  /** `str(v)` for a Python int. */
  function Show(v: int): (s: string)
    ensures |s| >= 1
    ensures v >= 0 ==> AllDigits(s)
    ensures v < 0 ==> s[0] == '-' && |s| >= 2 && AllDigits(s[1..])
    ensures |s| > 1 && s[0] != '-' ==> s[0] != '0'
    ensures v < 0 ==> s[1] != '0'
    ensures s[0] == '0' <==> v == 0
    ensures forall k :: 0 <= k < |s| ==> s[k] != '\n' && s[k] != ' '
  {
    if v < 0 then "-" + ShowNat(-v) else ShowNat(v)
  }

  /** Reads a string of decimal digits back as a number (the partner of ShowNat). */
  function ParseNat(s: string): nat
    requires AllDigits(s)
  {
    if |s| == 0 then 0
    else ParseNat(s[..|s| - 1]) * 10 + (s[|s| - 1] as int - '0' as int)
  }

  /** Reads the text `str` produces back as an int (the partner of Show). */
  function Parse(s: string): int
    requires |s| >= 1
    requires (s[0] == '-' && AllDigits(s[1..])) || AllDigits(s)
  {
    if s[0] == '-' then -(ParseNat(s[1..]) as int) else ParseNat(s)
  }

  /** ShowNat loses no information: reading its digits gives the number back. */
  lemma {:induction false} ParseShowNat(n: nat)
    ensures ParseNat(ShowNat(n)) == n
    decreases n
  {
    if n >= 10 {
      var s := ShowNat(n);
      assert s[..|s| - 1] == ShowNat(n / 10);
      ParseShowNat(n / 10);
    }
  }

  /** Show loses no information, negative numbers included. */
  lemma ParseShow(v: int)
    ensures Parse(Show(v)) == v
  {
    if v < 0 {
      assert Show(v)[1..] == ShowNat(-v);
      ParseShowNat(-v);
    } else {
      ParseShowNat(v);
    }
  }

  /** A single digit value is written as exactly one character. */
  lemma ShowDigit(v: int)
    requires 0 <= v <= 9
    ensures Show(v) == [DigitChar(v)]
  {
  }
}
