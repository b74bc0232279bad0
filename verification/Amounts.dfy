/** The amounts a free-text search may mean (`parse_search_amounts` in opensearch.rs). */
module Amounts {
  import opened Text
  import opened Decimal

  predicate IsDot(c: char) { c == '.' }

  function SplitDots(s: string): seq<string> {
    Split(s, IsDot)
  }

  function FractionalUnits(fractional: string): Option<nat>
    requires AllDigits(fractional)
  {
    if |fractional| == 0 then Some(0)
    else if |fractional| == 1 then
      match ParseU64(fractional) case None => None case Some(a) => CheckedMul(a, 10)
    else if |fractional| == 2 then ParseU64(fractional)
    else None
  }

  function MajorUnits(parts: seq<string>): Option<nat> {
    if |parts| == 1 && AllDigits(parts[0]) then ParseU64(parts[0])
    else if |parts| == 2 && AllDigits(parts[0]) && |parts[1]| <= 2 && AllDigits(parts[1]) then
      match (ParseU64(parts[0]), FractionalUnits(parts[1]))
      case (Some(w), Some(f)) =>
        (match CheckedMul(w, 100) case None => None case Some(a) => CheckedAdd(a, f))
      case _ => None
    else None
  }

  /** A number typed with leading zeros is taken for an identifier, not an amount. */
  predicate NotAnAmount(query: string) {
    query == "" || (|query| > 1 && query[0] == '0' && !("0." <= query))
  }

  method ParseSearchAmounts(text: string) returns (amounts: seq<nat>)
    ensures amounts == SearchAmounts(text)
    ensures forall v: nat :: v in amounts <==> Trim(text) != "" && !ZeroInFront(Trim(text)) && Means(Trim(text), v)
    ensures forall i, j :: 0 <= i < j < |amounts| ==> amounts[i] != amounts[j]
  {
    TrimmedAmounts(text);
    var query := Trim(text);
    if NotAnAmount(query) {
      return [];
    }
    var parts := SplitDots(query);
    var majorUnits := MajorUnits(parts);
    amounts := [];
    if |parts| == 1 {
      var raw := ParseU64(query);
      if raw.Some? {
        amounts := amounts + [raw.value];
      }
    }
    var minor := if |parts| == 1 && majorUnits.Some? then CheckedMul(majorUnits.value, 100) else majorUnits;
    if minor.Some? && minor.value !in amounts {
      amounts := amounts + [minor.value];
    }
  }

  // ----- reference: the number that was typed -----

  function FractionValue(s: string): real
    requires AllDigits(s)
  {
    if s == "" then 0.0 else (DigitValue(s[0]) as real + FractionValue(s[1..])) / 10.0
  }

  /** Digits, optionally followed by a dot and at most two digits. */
  predicate IsDecimal(t: string) {
    var parts := SplitDots(t);
    && parts[0] != "" && AllDigits(parts[0])
    && (|parts| == 1 || (|parts| == 2 && |parts[1]| <= 2 && AllDigits(parts[1])))
  }

  function DecimalValue(t: string): real
    requires IsDecimal(t)
  {
    var parts := SplitDots(t);
    NatValue(parts[0]) as real + (if |parts| == 1 then 0.0 else FractionValue(parts[1]))
  }

  predicate IsNumber(s: string) {
    s != "" && AllDigits(s)
  }

  /** The value is the integer as typed, with or without a plus sign, or the typed decimal in minor units; both within
      64 bits. */
  predicate Means(t: string, v: nat) {
    && v <= 18_446_744_073_709_551_615
    && (|| (IsNumber(t) && v == NatValue(t))
        || ("+" <= t && IsNumber(t[1..]) && v == NatValue(t[1..]))
        || (IsDecimal(t) && v as real == 100.0 * DecimalValue(t)))
  }

  /** Two or more characters, the first a zero and the second no dot. */
  predicate ZeroInFront(t: string) {
    |t| >= 2 && t[0] == '0' && t[1] != '.'
  }

  /** What the search text means, raw reading first. */
  function SearchAmounts(text: string): seq<nat> {
    var t := Trim(text);
    if NotAnAmount(t) then [] else Readings(t)
  }

  function Readings(t: string): seq<nat> {
    var parts := SplitDots(t);
    var raw := if |parts| == 1 && ParseU64(t).Some? then [ParseU64(t).value] else [];
    match MajorUnits(parts)
    case None => raw
    case Some(a) =>
      if |parts| > 1 then raw + [a]
      else if a * 100 <= U64_MAX && a * 100 !in raw then raw + [a * 100]
      else raw
  }

  lemma ParseDigits(s: string)
    requires AllDigits(s) && s != ""
    ensures ParseU64(s) == if NatValue(s) > U64_MAX then None else Some(NatValue(s))
  {
    assert IsDigit(s[0]);
  }

  lemma FractionMinor(s: string)
    requires AllDigits(s) && |s| <= 2
    ensures FractionalUnits(s).Some?
    ensures FractionalUnits(s).value as real == 100.0 * FractionValue(s)
  {
    if |s| == 1 {
      ParseDigits(s);
      assert s[..0] == "" && s[1..] == "";
    } else if |s| == 2 {
      ParseDigits(s);
      assert s[..1][..0] == "" && s[1..][1..] == "" && s[..1][0] == s[0] && s[1..][0] == s[1];
      assert NatValue(s) == NatValue(s[..1]) * 10 + DigitValue(s[1]);
    }
  }

  lemma MajorOfDecimal(t: string)
    ensures IsDecimal(t) && |SplitDots(t)| == 1 ==>
              NatValue(SplitDots(t)[0]) as real == DecimalValue(t)
              && MajorUnits(SplitDots(t)) == if NatValue(SplitDots(t)[0]) <= U64_MAX then Some(NatValue(SplitDots(t)[0])) else None
    ensures |SplitDots(t)| == 2 && MajorUnits(SplitDots(t)).Some? ==> IsDecimal(t)
    ensures |SplitDots(t)| == 1 && MajorUnits(SplitDots(t)).Some? ==> IsDecimal(t)
    ensures MajorUnits(SplitDots(t)).Some? ==> |SplitDots(t)| <= 2
  {
    var parts := SplitDots(t);
    if AllDigits(parts[0]) && parts[0] != "" {
      ParseDigits(parts[0]);
    }
  }

  /** Two parts: the minor units are 100 times the typed decimal, absent exactly when over range. */
  lemma MajorOfTwoParts(t: string, v: nat)
    requires IsDecimal(t) && |SplitDots(t)| == 2
    ensures MajorUnits(SplitDots(t)) == Some(v) <==> v <= U64_MAX && v as real == 100.0 * DecimalValue(t)
  {
    var parts := SplitDots(t);
    ParseDigits(parts[0]);
    FractionMinor(parts[1]);
    var w, f := NatValue(parts[0]), FractionalUnits(parts[1]).value;
    assert 100.0 * DecimalValue(t) == (w * 100 + f) as real;
  }

  lemma OnePartExact(t: string, v: nat)
    requires |SplitDots(t)| == 1
    ensures v in Readings(t) <==> Means(t, v)
  {
    SplitSingle(t);
    MajorOfDecimal(t);
    RawExact(t, v);
    if IsDecimal(t) {
      ParseDigits(t);
      var n := NatValue(t);
      assert DecimalValue(t) == n as real;
      assert v as real == 100.0 * DecimalValue(t) <==> v == 100 * n;
    }
  }

  /** Parsing: digits, perhaps after a plus sign, within 64 bits. */
  lemma RawExact(t: string, v: nat)
    ensures ParseU64(t) == Some(v)
       <==> v <= 18_446_744_073_709_551_615
            && ((IsNumber(t) && v == NatValue(t)) || ("+" <= t && IsNumber(t[1..]) && v == NatValue(t[1..])))
  {
    if t != "" && t[0] == '+' {
      assert t == "+" + t[1..];
      assert !IsDigit(t[0]);
    }
  }

  lemma MorePartsExact(t: string, v: nat)
    requires |SplitDots(t)| > 1
    ensures v in Readings(t) <==> Means(t, v)
  {
    MajorOfDecimal(t);
    DotsAreNoNumber(t);
    if IsDecimal(t) {
      MajorOfTwoParts(t, v);
    }
  }

  lemma DotsAreNoNumber(t: string)
    requires |SplitDots(t)| > 1
    ensures !IsNumber(t) && !("+" <= t && IsNumber(t[1..]))
  {
    var head := Until(t, IsDot);
    assert t[|head|] == '.';
    assert |head| > 0 ==> t[1..][|head| - 1] == '.';
  }

  lemma ReadingsExact(t: string)
    ensures forall v: nat :: v in Readings(t) <==> Means(t, v)
    ensures forall i, j :: 0 <= i < j < |Readings(t)| ==> Readings(t)[i] != Readings(t)[j]
  {
    forall v: nat
      ensures v in Readings(t) <==> Means(t, v)
    {
      if |SplitDots(t)| == 1 { OnePartExact(t, v); } else { MorePartsExact(t, v); }
    }
  }

  lemma TrimmedAmounts(text: string)
    ensures forall v: nat :: v in SearchAmounts(text) <==> Trim(text) != "" && !ZeroInFront(Trim(text)) && Means(Trim(text), v)
    ensures var r := SearchAmounts(text); forall i, j :: 0 <= i < j < |r| ==> r[i] != r[j]
  {
    ReadingsExact(Trim(text));
    if Trim(text) != "" {
      ZeroExact(Trim(text));
    }
  }

  predicate Framed(t: string) {
    t != "" && !IsWhitespace(t[0]) && !IsWhitespace(t[|t| - 1])
  }

  /** Blanks around a text do not matter; what is between them is searched for exactly the amounts it means, each
      once, unless it has a zero in front. */
  lemma SearchAmountsExact(a: string, t: string, b: string)
    requires IsBlank(a) && IsBlank(b) && Framed(t)
    ensures forall v: nat :: v in SearchAmounts(a + t + b) <==> !ZeroInFront(t) && Means(t, v)
    ensures var r := SearchAmounts(a + t + b); forall i, j :: 0 <= i < j < |r| ==> r[i] != r[j]
  {
    TrimLeaves(a, t, b);
    TrimmedAmounts(a + t + b);
  }

  lemma ZeroExact(t: string)
    requires t != ""
    ensures NotAnAmount(t) <==> ZeroInFront(t)
  {
    if |t| >= 2 {
      assert t[..2] == [t[0], t[1]];
    }
  }

  lemma BlankFindsNothing(text: string)
    requires IsBlank(text)
    ensures SearchAmounts(text) == []
  {
    TrimBlank(text);
  }

  lemma SplitSingle(t: string)
    requires |SplitDots(t)| == 1
    ensures SplitDots(t) == [t]
  {
  }

  // ----- texts people type -----

  lemma SplitOne(s: string)
    requires '.' !in s
    ensures SplitDots(s) == [s]
  {
    SplitLast(s, IsDot);
  }

  lemma SplitTwo(a: string, b: string)
    requires '.' !in a && '.' !in b
    ensures SplitDots(a + "." + b) == [a, b]
  {
    SplitStep(a, '.', b, IsDot);
    SplitLast(b, IsDot);
  }

  lemma TrimDigits(a: string, t: string, b: string)
    requires IsBlank(a) && IsBlank(b) && t != "" && IsDigit(t[0]) && IsDigit(t[|t| - 1])
    ensures Trim(a + t + b) == t
  {
    TrimLeaves(a, t, b);
  }

  /** Every amount in minor units, printed in major units with two decimals, is found and nothing else is, whatever
      blanks are around it. */
  lemma MinorAmountRoundTrip(a: string, m: nat, b: string)
    requires m <= 18_446_744_073_709_551_615 && IsBlank(a) && IsBlank(b)
    ensures SearchAmounts(a + (NatText(m / 100) + "." + Padded(m % 100, 2)) + b) == [m]
  {
    var w, f := NatText(m / 100), Padded(m % 100, 2);
    var t := w + "." + f;
    NatTextRoundTrip(m / 100);
    PaddedRoundTrip(m % 100, 2);
    PaddedTwo(m % 100);
    SplitTwo(w, f);
    TrimDigits(a, t, b);
    assert t[|w|] == '.';
    if t[0] == '0' {
      assert t[..2] == "0.";
    }
    MinorUnits(w, f, m);
    assert |SplitDots(t)| == 2;
  }

  /** Tabs, line ends and spaces are such blanks. */
  lemma AmountBetweenBlanks(m: nat)
    requires m <= 18_446_744_073_709_551_615
    ensures SearchAmounts("\t " + (NatText(m / 100) + "." + Padded(m % 100, 2)) + " \r\n") == [m]
  {
    MinorAmountRoundTrip("\t ", m, " \r\n");
  }

  lemma MinorUnits(w: string, f: string, m: nat)
    requires AllDigits(w) && w != "" && AllDigits(f) && |f| == 2
    requires NatValue(w) == m / 100 && NatValue(f) == m % 100 && m <= U64_MAX
    ensures MajorUnits([w, f]) == Some(m)
  {
    ParseDigits(w);
    ParseDigits(f);
  }

  lemma PaddedTwo(n: nat)
    requires n < 100
    ensures |Padded(n, 2)| == 2
  {
    NatTextRoundTrip(n);
    if n >= 10 {
      NatTextRoundTrip(n / 10);
    }
  }

  /** A whole number means itself and a hundred times itself, less whatever exceeds 64 bits. */
  lemma WholeAmount(a: string, n: nat, b: string)
    requires IsBlank(a) && IsBlank(b)
    ensures SearchAmounts(a + NatText(n) + b) ==
            (if n <= 18_446_744_073_709_551_615 then [n] else []) +
            (if n > 0 && 100 * n <= 18_446_744_073_709_551_615 then [100 * n] else [])
  {
    NatTextRoundTrip(n);
    TrimDigits(a, NatText(n), b);
    WholeReadings(NatText(n), n);
  }

  lemma WholeReadings(t: string, n: nat)
    requires IsNumber(t) && NatValue(t) == n && (t[0] == '0' ==> |t| == 1)
    ensures !NotAnAmount(t)
    ensures Readings(t) == (if n <= 18_446_744_073_709_551_615 then [n] else []) +
                           (if n > 0 && 100 * n <= 18_446_744_073_709_551_615 then [100 * n] else [])
  {
    assert '.' !in t;
    SplitOne(t);
    ParseDigits(t);
    TwoReadings(n);
  }

  lemma TwoReadings(n: nat)
    ensures var raw: seq<nat> := if n <= U64_MAX then [n] else [];
            (if n <= U64_MAX && n * 100 <= U64_MAX && n * 100 !in raw then raw + [n * 100] else raw)
            == (if n <= 18_446_744_073_709_551_615 then [n] else []) +
               (if n > 0 && 100 * n <= 18_446_744_073_709_551_615 then [100 * n] else [])
  {
  }

  /** A number typed with a zero in front is not searched for as an amount. */
  lemma ZeroInFrontFindsNothing(a: string, n: nat, b: string)
    requires IsBlank(a) && IsBlank(b)
    ensures SearchAmounts(a + ("0" + NatText(n)) + b) == []
  {
    var t := "0" + NatText(n);
    NatTextRoundTrip(n);
    assert t[1] == NatText(n)[0] && t[|t| - 1] == NatText(n)[|NatText(n)| - 1];
    TrimDigits(a, t, b);
    ZeroExact(t);
  }
}
