// Decimal text of machine integers: the specification behind `formatInteger` in
// src/logger/LogStream.cpp and the connection numbers in src/net/TcpServer.cpp.

module Decimal {

  /** `/` and `%` of the source truncate toward zero (section 5.6 of ISO/IEC 14882:2011). */
  function Quotient(a: int, b: int): int
    requires b > 0
  {
    if a < 0 then -(-a / b) else a / b
  }

  function Remainder(a: int, b: int): int
    requires b > 0
  {
    a - b * Quotient(a, b)
  }

  /** The lookup table; entry 9 is the digit of zero and the table is symmetric about it. */
  const DIGITS: string := "9876543210123456789"

  const ZERO_INDEX: nat := 9

  function Abs(n: int): nat { if n < 0 then -n else n }

  function Digit(d: nat): char
    requires d < 10
  {
    '0' + d as char
  }

  predicate IsDigit(c: char) { '0' <= c <= '9' }

  function DigitValue(c: char): nat
    requires IsDigit(c)
  {
    (c - '0') as nat
  }

  lemma DigitBack(c: char)
    requires IsDigit(c)
    ensures DigitValue(c) < 10 && Digit(DigitValue(c)) == c
    ensures DigitValue(c) == 0 <==> c == '0'
  {
    assert '0' as int + DigitValue(c) == c as int;
  }

  lemma TableIsSymmetric(r: int)
    requires -10 < r < 10
    ensures 0 <= ZERO_INDEX + r < |DIGITS| && DIGITS[ZERO_INDEX + r] == Digit(Abs(r))
  {
  }

  lemma TruncatedParts(n: int)
    ensures -10 < Remainder(n, 10) < 10
    ensures Abs(Remainder(n, 10)) == Abs(n) % 10 && Abs(Quotient(n, 10)) == Abs(n) / 10
  {
  }

  function Magnitude(n: nat): (s: string)
    ensures s != ""
  {
    if n < 10 then [Digit(n)] else Magnitude(n / 10) + [Digit(n % 10)]
  }

  function Format(n: int): string {
    if n < 0 then "-" + Magnitude(-n) else Magnitude(n)
  }

  ghost predicate AllDigits(s: string) { forall c <- s :: IsDigit(c) }

  ghost predicate CanonicalMagnitude(s: string) {
    s != "" && AllDigits(s) && (|s| > 1 ==> s[0] != '0')
  }

  /** No leading zeros, no sign on zero. */
  ghost predicate Canonical(s: string) {
    s != "" &&
    if s[0] == '-' then CanonicalMagnitude(s[1..]) && s[1..] != "0" else CanonicalMagnitude(s)
  }

  ghost function MagnitudeValue(s: string): nat
    requires AllDigits(s)
  {
    if s == "" then 0 else 10 * MagnitudeValue(s[..|s| - 1]) + DigitValue(s[|s| - 1])
  }

  /** Reading a decimal back. */
  ghost function Value(s: string): int
    requires Canonical(s)
  {
    if s[0] == '-' then 0 - MagnitudeValue(s[1..]) else MagnitudeValue(s)
  }

  lemma {:induction false} MagnitudeRoundTrip(n: nat)
    ensures CanonicalMagnitude(Magnitude(n)) && MagnitudeValue(Magnitude(n)) == n
    ensures Magnitude(n)[0] == '0' <==> n == 0
  {
    if n >= 10 {
      MagnitudeRoundTrip(n / 10);
      assert Magnitude(n)[..|Magnitude(n)| - 1] == Magnitude(n / 10);
    }
  }

  lemma {:induction false} MagnitudeUnique(s: string)
    requires CanonicalMagnitude(s)
    ensures Magnitude(MagnitudeValue(s)) == s
    ensures s[0] == '0' <==> MagnitudeValue(s) == 0
  {
    if |s| == 1 {
      assert s[..0] == "" && MagnitudeValue("") == 0;
      assert MagnitudeValue(s) == DigitValue(s[0]);
      DigitBack(s[0]);
      assert s == [s[0]];
    } else {
      var front := s[..|s| - 1];
      MagnitudeUnique(front);
      var d := DigitValue(s[|s| - 1]);
      DigitBack(s[|s| - 1]);
      assert MagnitudeValue(s) == 10 * MagnitudeValue(front) + d && Digit(d) == s[|s| - 1];
      assert MagnitudeValue(s) / 10 == MagnitudeValue(front) && MagnitudeValue(s) % 10 == d;
      assert s == front + [s[|s| - 1]];
    }
  }

  /** The printed text is canonical and reads back as the number. */
  lemma RoundTrip(n: int)
    ensures Canonical(Format(n)) && Value(Format(n)) == n
  {
    MagnitudeRoundTrip(Abs(n));
    assert IsDigit(Magnitude(Abs(n))[0]);
    if n < 0 {
      assert Format(n)[1..] == Magnitude(-n);
    }
  }

  /** And it is the only canonical text that does. */
  lemma FormatUnique(s: string)
    requires Canonical(s)
    ensures Format(Value(s)) == s
  {
    if s[0] == '-' {
      MagnitudeUnique(s[1..]);
      assert s == "-" + s[1..];
      assert |s[1..]| == 1 ==> s[1..] == [s[1..][0]];
    } else {
      MagnitudeUnique(s);
    }
  }

  lemma FormatInjective(m: int, n: int)
    requires Format(m) == Format(n)
    ensures m == n
  {
    RoundTrip(m);
    RoundTrip(n);
  }

  function Pow10(k: nat): nat { if k == 0 then 1 else 10 * Pow10(k - 1) }

  lemma {:induction false} MagnitudeLength(n: nat, k: nat)
    requires 0 < k
    ensures |Magnitude(n)| <= k <==> n < Pow10(k)
  {
    if n < 10 {
      TenAtMost(k);
    } else if k == 1 {
      assert Pow10(1) == 10;
    } else {
      MagnitudeLength(n / 10, k - 1);
    }
  }

  lemma {:induction false} TenAtMost(k: nat)
    requires 0 < k
    ensures 10 <= Pow10(k)
  {
    if k > 1 {
      TenAtMost(k - 1);
    }
  }

  lemma PowersOfTen()
    ensures Pow10(18) == 1_000_000_000_000_000_000
    ensures Pow10(19) == 10_000_000_000_000_000_000
    ensures Pow10(20) == 100_000_000_000_000_000_000
  {
    assert Pow10(3) == 1_000;
    assert Pow10(6) == 1_000_000;
    assert Pow10(9) == 1_000_000_000;
    assert Pow10(12) == 1_000_000_000_000;
    assert Pow10(15) == 1_000_000_000_000_000;
  }

  const INT64_MIN: int := -0x8000_0000_0000_0000
  const UINT64_MAX: int := 0xffff_ffff_ffff_ffff

  /** Every 64-bit integer, signed or not, takes at most 20 characters... */
  lemma LengthAtMost20(n: int)
    requires INT64_MIN <= n <= UINT64_MAX
    ensures |Format(n)| <= 20
  {
    PowersOfTen();
    MagnitudeLength(Abs(n), 19);
    MagnitudeLength(Abs(n), 20);
  }

  /** ... and the two extremes take all of them. */
  lemma ExtremesTake20(n: int)
    requires n == INT64_MIN || n == UINT64_MAX
    ensures |Format(n)| == 20
  {
    PowersOfTen();
    MagnitudeLength(Abs(n), 18);
    MagnitudeLength(Abs(n), 19);
    MagnitudeLength(Abs(n), 20);
  }
}
