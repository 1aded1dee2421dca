/** Python's `str()` on an `int`, which gmail.py uses to put the start
    history id into the query string, and the reading back of that text as
    a number, which shows that no information is lost on the way. */
module Decimal {

  predicate IsDigit(c: char) {
    '0' <= c <= '9'
  }

  function DigitChar(d: nat): (c: char)
    requires d < 10
    ensures IsDigit(c) && c as int - '0' as int == d
  {
    ('0' as int + d) as char
  }

  function DigitValue(c: char): nat {
    if IsDigit(c) then c as int - '0' as int else 0
  }

  /** Decimal digits with no leading zero: the text `str` gives a natural number. */
  predicate IsNatText(s: string) {
    && |s| >= 1
    && (forall k :: 0 <= k < |s| ==> IsDigit(s[k]))
    && (s[0] == '0' ==> |s| == 1)
  }

  /** The text `str` gives an integer: a natural number's, or a minus sign
      followed by a positive number's. */
  predicate IsIntText(s: string) {
    || IsNatText(s)
    || (|s| >= 2 && s[0] == '-' && IsNatText(s[1..]) && s[1] != '0')
  }

  /** Decimal digits of `n`, most significant first, without leading zeros. */
  function NatToString(n: nat): (s: string)
    ensures IsNatText(s)
    ensures s[0] == '0' ==> n == 0
    decreases n
  {
    if n < 10 then [DigitChar(n)] else NatToString(n / 10) + [DigitChar(n % 10)]
  }

  /** `str(i)`: a minus sign for negative numbers, then the digits of `|i|`. */
  function IntToString(i: int): (s: string)
    ensures IsIntText(s)
    ensures s[0] == '-' <==> i < 0
  {
    if i < 0 then "-" + NatToString(-i) else NatToString(i)
  }

  /** The value of a string of decimal digits. */
  function ParseNat(s: string): nat
    decreases |s|
  {
    if s == [] then 0 else ParseNat(s[..|s| - 1]) * 10 + DigitValue(s[|s| - 1])
  }

  /** The value of an optionally signed string of decimal digits. */
  function ParseInt(s: string): int {
    if |s| > 0 && s[0] == '-' then -(ParseNat(s[1..]) as int) else ParseNat(s)
  }

  lemma {:induction false} NatToStringRoundTrip(n: nat)
    ensures ParseNat(NatToString(n)) == n
    decreases n
  {
    if n >= 10 {
      var s := NatToString(n);
      assert s[..|s| - 1] == NatToString(n / 10);
      NatToStringRoundTrip(n / 10);
    }
  }

  /** `str` on integers is injective: its text determines the number. */
  lemma {:induction false} IntToStringRoundTrip(i: int)
    ensures ParseInt(IntToString(i)) == i
  {
    if i < 0 {
      var s := IntToString(i);
      assert s[1..] == NatToString(-i);
      NatToStringRoundTrip(-i);
    } else {
      NatToStringRoundTrip(i);
    }
  }

  /** Digits that do not start with a zero have a positive value. */
  lemma {:induction false} ParseNatPositive(s: string)
    requires |s| >= 1 && (forall k :: 0 <= k < |s| ==> IsDigit(s[k])) && s[0] != '0'
    ensures ParseNat(s) >= 1
    decreases |s|
  {
    if |s| > 1 {
      var prefix := s[..|s| - 1];
      assert prefix[0] == s[0];
      ParseNatPositive(prefix);
    }
  }

  /** Every natural-number text is what `str` gives for its value. */
  lemma {:induction false} NatTextRoundTrip(s: string)
    requires IsNatText(s)
    ensures NatToString(ParseNat(s)) == s
    decreases |s|
  {
    if |s| > 1 {
      var prefix := s[..|s| - 1];
      assert prefix[0] == s[0];
      assert IsNatText(prefix);
      ParseNatPositive(prefix);
      NatTextRoundTrip(prefix);
      var n := ParseNat(s);
      assert n / 10 == ParseNat(prefix) && n % 10 == DigitValue(s[|s| - 1]);
      assert s == prefix + [s[|s| - 1]];
    }
  }

  /** The texts `str` gives for integers are exactly the integer texts:
      each is `str` of the number it reads as. */
  lemma {:induction false} IntTextRoundTrip(s: string)
    requires IsIntText(s)
    ensures IntToString(ParseInt(s)) == s
  {
    if IsNatText(s) {
      NatTextRoundTrip(s);
    } else {
      var digits := s[1..];
      NatTextRoundTrip(digits);
      ParseNatPositive(digits);
      assert s == "-" + digits;
    }
  }
}
