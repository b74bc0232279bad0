/** Decimal texts: printing and parsing of naturals, padding, and Rust's `u64` parsing. */
module Decimal {
  import opened Text

  const U64_MAX: nat := 0xFFFF_FFFF_FFFF_FFFF

  predicate IsDigit(c: char) { '0' <= c <= '9' }

  predicate AllDigits(s: string) { forall i :: 0 <= i < |s| ==> IsDigit(s[i]) }

  function DigitValue(c: char): (v: nat)
    requires IsDigit(c)
    ensures v < 10
  {
    c as int - '0' as int
  }

  function DigitChar(v: nat): (c: char)
    requires v < 10
    ensures IsDigit(c) && DigitValue(c) == v
  {
    ('0' as int + v) as char
  }

  function NatText(n: nat): string {
    if n < 10 then [DigitChar(n)] else NatText(n / 10) + [DigitChar(n % 10)]
  }

  function NatValue(s: string): nat
    requires AllDigits(s)
  {
    if s == "" then 0 else NatValue(s[..|s| - 1]) * 10 + DigitValue(s[|s| - 1])
  }

  /** A number's text is canonical and has the number as its value. */
  lemma {:induction false} NatTextRoundTrip(n: nat)
    ensures AllDigits(NatText(n)) && NatText(n) != ""
    ensures NatValue(NatText(n)) == n
    ensures NatText(n)[0] == '0' <==> n == 0
    ensures |NatText(n)| == 1 <==> n < 10
  {
    if n >= 10 {
      NatTextRoundTrip(n / 10);
      var head, last := NatText(n / 10), DigitChar(n % 10);
      assert (head + [last])[..|head|] == head;
    } else {
      assert NatText(n)[..0] == "";
      assert DigitChar(n) == '0' <==> n == 0 by {
        assert DigitValue('0') == 0;
      }
    }
  }

  /** `{n:0width$}`, also Python's `zfill`: zeros on the left up to the width. */
  function Padded(n: nat, width: nat): string {
    Zeros(width - |NatText(n)|) + NatText(n)
  }

  function Zeros(k: int): (z: string)
    ensures |z| == (if k < 0 then 0 else k)
    ensures forall i :: 0 <= i < |z| ==> z[i] == '0'
  {
    if k <= 0 then "" else "0" + Zeros(k - 1)
  }

  lemma {:induction false} LeadingZeros(z: string, s: string)
    requires forall i :: 0 <= i < |z| ==> z[i] == '0'
    requires AllDigits(s)
    ensures AllDigits(z + s) && NatValue(z + s) == NatValue(s)
    decreases |z| + |s|
  {
    if s != "" {
      assert (z + s)[..|z + s| - 1] == z + s[..|s| - 1];
      LeadingZeros(z, s[..|s| - 1]);
    } else if z != "" {
      assert z + s == z;
      assert z[..|z| - 1] + "" == z[..|z| - 1];
      LeadingZeros(z[..|z| - 1], "");
      assert DigitValue('0') == 0;
    }
  }

  /** Padding loses nothing. */
  lemma PaddedRoundTrip(n: nat, width: nat)
    ensures AllDigits(Padded(n, width)) && NatValue(Padded(n, width)) == n
    ensures |Padded(n, width)| >= width
  {
    NatTextRoundTrip(n);
    LeadingZeros(Zeros(width - |NatText(n)|), NatText(n));
  }

  lemma PaddedInjective(m: nat, n: nat, width: nat)
    requires Padded(m, width) == Padded(n, width)
    ensures m == n
  {
    PaddedRoundTrip(m, width);
    PaddedRoundTrip(n, width);
  }

  /** `s.parse::<u64>().ok()`: an optional plus sign, then at least one digit, within range. */
  function ParseU64(s: string): Option<nat> {
    var digits := if s != "" && s[0] == '+' then s[1..] else s;
    if digits == "" || !AllDigits(digits) || NatValue(digits) > U64_MAX then None
    else Some(NatValue(digits))
  }

  function CheckedMul(a: nat, b: nat): Option<nat> {
    if a * b > U64_MAX then None else Some(a * b)
  }

  function CheckedAdd(a: nat, b: nat): Option<nat> {
    if a + b > U64_MAX then None else Some(a + b)
  }
}
