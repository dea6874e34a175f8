/**
  * Decimal integers as strings: what Python's `int(str)` accepts and what
  * its `%d` formatting produces, restricted to ASCII digits.
  */
module Decimal {
  import opened Wrappers

  predicate IsDigit(c: char) {
    '0' <= c <= '9'
  }

  predicate AllDigits(s: string) {
    forall i :: 0 <= i < |s| ==> IsDigit(s[i])
  }

  function DigitValue(c: char): nat
    requires IsDigit(c)
  {
    c as int - '0' as int
  }

  function DigitChar(d: nat): (c: char)
    requires d < 10
    ensures IsDigit(c) && DigitValue(c) == d
  {
    ('0' as int + d) as char
  }

  /** The value of a non-empty run of decimal digits, most significant first. */
  function DigitsValue(s: string): nat
    requires AllDigits(s)
    decreases |s|
  {
    if s == [] then 0 else DigitsValue(s[..|s| - 1]) * 10 + DigitValue(s[|s| - 1])
  }

  /** `%d` of a non-negative integer: digits without leading zeros. */
  function NatToString(n: nat): (s: string)
    ensures |s| >= 1 && AllDigits(s)
    ensures |s| > 1 ==> s[0] != '0'
    decreases n
  {
    if n < 10 then [DigitChar(n)] else NatToString(n / 10) + [DigitChar(n % 10)]
  }

  /** `%d` of any integer: a minus sign before the digits of a negative one. */
  function IntToString(n: int): (s: string)
    ensures |s| >= 1
    ensures s[0] == '-' <==> n < 0
  {
    if n < 0 then "-" + NatToString(-n) else NatToString(n)
  }

  /** The strings `int()` accepts here: an optional '-' or '+', then at least one digit. */
  predicate IsIntLiteral(s: string) {
    (|s| >= 1 && AllDigits(s)) || (|s| >= 2 && (s[0] == '-' || s[0] == '+') && AllDigits(s[1..]))
  }

  /**
    * Python's `int(s)` on a string: an optional sign followed by at least one
    * digit; anything else raises ValueError, modelled as None.
    */
  function ParseInt(s: string): (r: Option<int>)
    ensures r.Some? <==> IsIntLiteral(s)
    ensures (|s| >= 1 && AllDigits(s)) ==> r == Some(DigitsValue(s) as int)
    ensures |s| >= 2 && s[0] == '-' && AllDigits(s[1..]) ==> r == Some(-(DigitsValue(s[1..]) as int))
    ensures |s| >= 2 && s[0] == '+' && AllDigits(s[1..]) ==> r == Some(DigitsValue(s[1..]) as int)
  {
    if |s| >= 2 && s[0] == '-' && AllDigits(s[1..]) then Some(-(DigitsValue(s[1..]) as int))
    else if |s| >= 2 && s[0] == '+' && AllDigits(s[1..]) then Some(DigitsValue(s[1..]) as int)
    else if |s| >= 1 && AllDigits(s) then Some(DigitsValue(s) as int)
    else None
  }

  lemma {:induction false} NatToStringRoundTrip(n: nat)
    ensures DigitsValue(NatToString(n)) == n
    decreases n
  {
    if n >= 10 {
      var s := NatToString(n);
      NatToStringRoundTrip(n / 10);
      assert s[..|s| - 1] == NatToString(n / 10);
    }
  }

  /** Printing then parsing an integer gives it back. */
  lemma ParseIntRoundTrip(n: int)
    ensures ParseInt(IntToString(n)) == Some(n)
  {
    var s := IntToString(n);
    if n < 0 {
      var t := NatToString(-n);
      assert s == "-" + t;
      assert |s| >= 2 && s[0] == '-' && s[1..] == t;
      NatToStringRoundTrip(-n);
    } else {
      NatToStringRoundTrip(n);
      assert IsDigit(s[0]);
    }
  }

  /** Distinct integers print differently. */
  lemma NatToStringInjective(a: nat, b: nat)
    requires NatToString(a) == NatToString(b)
    ensures a == b
  {
    NatToStringRoundTrip(a);
    NatToStringRoundTrip(b);
  }

  // First run of decimal digits in a string: what re.match(r"\D*(\d+)\D*", s)
  // captures as group 1, converted with int().

  /** The digits at the front of `s`, as many as there are. */
  function LeadingDigits(s: string): (d: string)
    ensures |d| <= |s| && d == s[..|d|] && AllDigits(d)
    ensures |d| < |s| ==> !IsDigit(s[|d|])
  {
    if s != [] && IsDigit(s[0]) then [s[0]] + LeadingDigits(s[1..]) else []
  }

  /** The value of the first run of decimal digits in `s`; None where the regex does not match. */
  function FirstDigitRun(s: string): Option<nat>
  {
    if s == [] then None
    else if IsDigit(s[0]) then Some(DigitsValue(LeadingDigits(s)))
    else FirstDigitRun(s[1..])
  }

  /** The regex fails exactly on names without a digit. */
  lemma {:induction false} FirstDigitRunFailsIffNoDigit(s: string)
    ensures FirstDigitRun(s).None? <==> forall i :: 0 <= i < |s| ==> !IsDigit(s[i])
  {
    if s != [] && !IsDigit(s[0]) {
      FirstDigitRunFailsIffNoDigit(s[1..]);
      assert forall i :: 1 <= i < |s| ==> s[i] == s[1..][i - 1];
    }
  }

  /**
    * What the regex means: when `s` is non-digits up to `i`, digits from `i`
    * to `j`, and no digit at `j`, the match's group is s[i..j].
    */
  lemma {:induction false} FirstDigitRunIsFirstMaximalRun(s: string, i: nat, j: nat)
    requires i < j <= |s|
    requires forall k :: 0 <= k < i ==> !IsDigit(s[k])
    requires AllDigits(s[i..j])
    requires j < |s| ==> !IsDigit(s[j])
    ensures FirstDigitRun(s) == Some(DigitsValue(s[i..j]))
    decreases i
  {
    if i == 0 {
      LeadingDigitsIsMaximalRun(s, j);
    } else {
      assert s[1..][i - 1..j - 1] == s[i..j];
      FirstDigitRunIsFirstMaximalRun(s[1..], i - 1, j - 1);
    }
  }

  lemma {:induction false} LeadingDigitsIsMaximalRun(s: string, j: nat)
    requires j <= |s| && AllDigits(s[..j])
    requires j < |s| ==> !IsDigit(s[j])
    ensures LeadingDigits(s) == s[..j]
    decreases j
  {
    if j > 0 {
      assert s[1..][..j - 1] == s[1..j];
      LeadingDigitsIsMaximalRun(s[1..], j - 1);
    }
  }

  predicate NoDigits(s: string) {
    forall i :: 0 <= i < |s| ==> !IsDigit(s[i])
  }

  /** A header made of a digit-free prefix, a run of digits and a suffix not starting with a digit yields that run's value. */
  lemma NumberedHeader(s: string, prefix: string, digits: string, suffix: string)
    requires s == prefix + digits + suffix
    requires NoDigits(prefix) && digits != [] && AllDigits(digits)
    requires suffix != [] ==> !IsDigit(suffix[0])
    ensures FirstDigitRun(s) == Some(DigitsValue(digits))
  {
    assert s[|prefix|..|prefix| + |digits|] == digits;
    FirstDigitRunIsFirstMaximalRun(s, |prefix|, |prefix| + |digits|);
  }

  /** The value of a three-digit run, spelled out. */
  lemma ThreeDigits(s: string)
    requires |s| == 3 && AllDigits(s)
    ensures DigitsValue(s) == 100 * DigitValue(s[0]) + 10 * DigitValue(s[1]) + DigitValue(s[2])
  {
    var s2, s1 := s[..2], s[..1];
    assert s2[..1] == s1 && s2[1] == s[1];
    assert s1[..0] == [];
    assert DigitsValue(s1) == DigitValue(s[0]);
    assert DigitsValue(s2) == 10 * DigitValue(s[0]) + DigitValue(s[1]);
  }
}
