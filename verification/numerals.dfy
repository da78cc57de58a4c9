/** Decimal numerals: Python's `int(s)` on a string of ASCII digits and
    `str(n)` on an integer, and the composition `str(int(s))` that the
    decipher lambda uses to drop leading zeros. */
module Numerals {
  import opened Text

  predicate IsDigits(s: string) {
    forall i | 0 <= i < |s| :: IsDigit(s[i])
  }

  function DigitValue(c: char): (r: nat)
    requires IsDigit(c)
    ensures r < 10
  {
    c as int - '0' as int
  }

  function DigitChar(d: nat): (r: char)
    requires d < 10
    ensures IsDigit(r) && DigitValue(r) == d
  {
    ('0' as int + d) as char
  }

  lemma DigitCharValue(c: char)
    requires IsDigit(c)
    ensures DigitChar(DigitValue(c)) == c
  {
  }

  /** `int(s)` for a string of ASCII digits (the empty string gives 0). */
  function Value(s: string): nat
    requires IsDigits(s)
  {
    if |s| == 0 then 0 else 10 * Value(s[..|s| - 1]) + DigitValue(s[|s| - 1])
  }

  /** `str(n)` for a natural number: no leading zero unless `n` is 0. */
  function NatToString(n: nat): (r: string)
    ensures |r| > 0 && IsDigits(r)
    ensures r[0] == '0' ==> n == 0 && r == "0"
  {
    if n < 10 then [DigitChar(n)] else NatToString(n / 10) + [DigitChar(n % 10)]
  }

  /** `str(n)` for any integer. */
  function IntToString(n: int): (r: string)
    ensures n >= 0 ==> r == NatToString(n)
    ensures n < 0 ==> r == "-" + NatToString(-n)
  {
    if n >= 0 then NatToString(n) else "-" + NatToString(-n)
  }

  /** Reading back what `str` printed gives the number back. */
  lemma {:induction false} ValueOfNatToString(n: nat)
    ensures Value(NatToString(n)) == n
    decreases n
  {
    if n >= 10 {
      ValueOfNatToString(n / 10);
      var s := NatToString(n);
      assert s[..|s| - 1] == NatToString(n / 10);
    }
  }

  /** `s` with its leading zeros dropped, keeping the last character. */
  function StripLeadingZeros(s: string): (r: string)
    ensures |r| <= |s| && r == s[|s| - |r|..]
    ensures |s| > 0 ==> |r| > 0 && (r[0] != '0' || |r| == 1)
  {
    if |s| > 1 && s[0] == '0' then StripLeadingZeros(s[1..]) else s
  }

  /** A leading zero does not change the value. */
  lemma {:induction false} ValueDropZero(s: string)
    requires IsDigits(s) && |s| > 0 && s[0] == '0'
    ensures Value(s) == Value(s[1..])
    decreases |s|
  {
    if |s| > 1 {
      var p := s[..|s| - 1];
      ValueDropZero(p);
      assert p[1..] == s[1..][..|s[1..]| - 1];
    }
  }

  /** A numeral without a leading zero has a positive value. */
  lemma {:induction false} ValuePositive(s: string)
    requires IsDigits(s) && |s| > 0 && s[0] != '0'
    ensures Value(s) > 0
    decreases |s|
  {
    if |s| > 1 {
      ValuePositive(s[..|s| - 1]);
    }
  }

  /** A canonical numeral is what `str` prints for its value. */
  lemma {:induction false} CanonicalRoundTrip(s: string)
    requires IsDigits(s) && |s| > 0 && (s[0] != '0' || |s| == 1)
    ensures NatToString(Value(s)) == s
    decreases |s|
  {
    if |s| > 1 {
      var p := s[..|s| - 1];
      var d := DigitValue(s[|s| - 1]);
      ValuePositive(p);
      CanonicalRoundTrip(p);
      var v := Value(s);
      assert v == 10 * Value(p) + d;
      assert v / 10 == Value(p) && v % 10 == d;
      DigitCharValue(s[|s| - 1]);
      assert s == p + [s[|s| - 1]];
    } else {
      DigitCharValue(s[0]);
    }
  }

  /** `str(int(s))`: the decipher lambda's way of removing leading zeros. */
  function Canonical(s: string): (r: string)
    requires IsDigits(s)
  {
    NatToString(Value(s))
  }

  /** `str(int(s))` drops the leading zeros of a non-empty numeral, and an
      all-zero numeral becomes "0". */
  lemma {:induction false} CanonicalStripsZeros(s: string)
    requires IsDigits(s) && |s| > 0
    ensures Canonical(s) == StripLeadingZeros(s)
    decreases |s|
  {
    if |s| > 1 && s[0] == '0' {
      ValueDropZero(s);
      CanonicalStripsZeros(s[1..]);
    } else {
      CanonicalRoundTrip(s);
    }
  }

  /** The value of a two-digit field. */
  lemma {:induction false} ValueTwoDigits(s: string)
    requires IsDigits(s) && |s| == 2
    ensures Value(s) == 10 * DigitValue(s[0]) + DigitValue(s[1])
  {
    var p := s[..1];
    assert Value(s) == 10 * Value(p) + DigitValue(s[1]);
    assert p[..0] == [];
    assert Value(p) == 10 * Value(p[..0]) + DigitValue(p[0]);
  }

  /** `str(int(s))` on a two-digit field drops a single leading zero. */
  lemma {:induction false} CanonicalTwoDigits(s: string)
    requires IsDigits(s) && |s| == 2
    ensures Canonical(s) == if s[0] == '0' then [s[1]] else s
  {
    CanonicalStripsZeros(s);
    var z := StripLeadingZeros(s);
    if s[0] == '0' {
      assert |z| == 1;
      assert z == s[1..];
    } else {
      assert z == s;
    }
  }

  /** The two-digit, zero-padded code of `n` (`f"{n:02d}"`), as the curriculum
      writes numbers in file names. */
  function TwoDigits(n: nat): (r: string)
    requires n < 100
    ensures |r| == 2 && IsDigits(r)
  {
    [DigitChar(n / 10), DigitChar(n % 10)]
  }

  /** Reading a two-digit code back gives the number, and `str(int(...))`
      of it is the number without padding. */
  lemma {:induction false} TwoDigitsRoundTrip(n: nat)
    requires n < 100
    ensures Value(TwoDigits(n)) == n
    ensures Canonical(TwoDigits(n)) == NatToString(n)
  {
    ValueTwoDigits(TwoDigits(n));
  }
}
