/** Timestamps as SQL literals: Unix seconds on ClickHouse, the date and time on Postgres; and how each engine reads them. */
module TimeTexts {
  import opened Text
  import opened Decimal
  import opened Calendar
  import opened Aggregates
  import opened TimeBuckets

  // ----- printing -----

  /** Fields with a separator character between each two. */
  function Print(fields: seq<string>, seps: seq<char>): string
    requires |fields| == |seps| + 1
  {
    if seps == [] then fields[0] else fields[0] + ([seps[0]] + Print(fields[1..], seps[1..]))
  }

  function Abs(n: int): nat { if n < 0 then -n else n }

  function IntText(n: int): string {
    if n < 0 then "-" + NatText(-n) else NatText(n)
  }

  function Pow10(k: nat): nat {
    if k == 0 then 1 else 10 * Pow10(k - 1)
  }

  /** A fraction of `w` digits without its trailing zeros, at least one digit long. */
  function FractionText(n: nat, w: nat): string {
    if w <= 1 || n % 10 != 0 then Padded(n, w) else FractionText(n / 10, w - 1)
  }

  const SEPARATORS := ['-', '-', ' ', ':', ':', '.']

  function YearSign(y: int): string {
    if y < 0 then "-" else if y > 9999 then "+" else ""
  }

  function Fields(t: Time): seq<string> {
    var date, c := DateOf(t.day), t.clock;
    [Padded(Abs(date.year), 4), Padded(date.month, 2), Padded(date.day, 2),
     NatText(c.hour), Padded(c.minute, 2), Padded(c.second, 2), FractionText(c.nano, 9)]
  }

  /** `PrimitiveDateTime::to_string`. */
  function DateTimeText(t: Time): string {
    YearSign(DateOf(t.day).year) + Print(Fields(t), SEPARATORS)
  }

  function TimeText(client: Client, t: Time): string {
    if client.Clickhouse? then IntText(Seconds(t)) else DateTimeText(t)
  }

  // ----- reading -----

  function Cut(s: string, c: char): Option<(string, string)> {
    if s == "" then None
    else if s[0] == c then Some(("", s[1..]))
    else match Cut(s[1..], c) case None => None case Some((w, rest)) => Some(([s[0]] + w, rest))
  }

  function CutAll(s: string, seps: seq<char>): Option<seq<string>>
    decreases |seps|
  {
    if seps == [] then Some([s])
    else
      match Cut(s, seps[0])
      case None => None
      case Some((w, rest)) =>
        match CutAll(rest, seps[1..]) case None => None case Some(ws) => Some([w] + ws)
  }

  predicate IsNumber(s: string) {
    s != "" && AllDigits(s)
  }

  function ReadInt(s: string): Option<int> {
    if IsNumber(s) then
      var n: int := NatValue(s); Some(n)
    else if s != "" && s[0] == '-' && IsNumber(s[1..]) then
      var n: int := NatValue(s[1..]); Some(-n)
    else None
  }

  /** Nanoseconds of a fraction of a second. */
  function ReadFraction(s: string): nat
    requires IsNumber(s) && |s| <= 9
  {
    NatValue(s) * Pow10(9 - |s|)
  }

  /** A year of at least four digits, an hour of one or two, a fraction of at most nine, and two digits each for the
      rest. */
  predicate WidthsOk(fs: seq<string>) {
    && |fs| == 7
    && |fs[0]| >= 4 && |fs[1]| == 2 && |fs[2]| == 2 && |fs[3]| <= 2 && |fs[4]| == 2 && |fs[5]| == 2 && |fs[6]| <= 9
  }

  predicate NumbersOk(fs: seq<string>) {
    WidthsOk(fs) && (forall i :: 0 <= i < 7 ==> IsNumber(fs[i])) && 1 <= NatValue(fs[1]) <= 12
  }

  function InstantOf(sign: int, fs: seq<string>): int
    requires NumbersOk(fs)
  {
    var day := CivilDay(sign * NatValue(fs[0]), NatValue(fs[1]), NatValue(fs[2]));
    (day * 86400 + NatValue(fs[3]) * 3600 + NatValue(fs[4]) * 60 + NatValue(fs[5])) * 1_000_000_000 + ReadFraction(fs[6])
  }

  function ReadDateTime(s: string): Option<int> {
    var signed := s != "" && (s[0] == '-' || s[0] == '+');
    match CutAll(if signed then s[1..] else s, ['-', '-', ' ', ':', ':', '.'])
    case None => None
    case Some(fs) => if NumbersOk(fs) then Some(InstantOf(if signed && s[0] == '-' then -1 else 1, fs)) else None
  }

  /** The instant, in nanoseconds, that an engine understands by a literal. */
  function ReadTime(client: Client, s: string): Option<int> {
    if client.Sqlx? then ReadDateTime(s)
    else match ReadInt(s) case None => None case Some(n) => Some(n * 1_000_000_000)
  }

  // ----- what is read back -----

  lemma {:induction false} CutAt(w: string, c: char, rest: string)
    requires c !in w
    ensures Cut(w + ([c] + rest), c) == Some((w, rest))
  {
    var s := w + ([c] + rest);
    if w == "" {
      assert s == [c] + rest;
      PrefixOfSum([c], rest);
    } else {
      assert s[0] == w[0] && s[1..] == w[1..] + ([c] + rest);
      CutAt(w[1..], c, rest);
      assert w == [w[0]] + w[1..];
    }
  }

  lemma {:induction false} PrintedFields(fields: seq<string>, seps: seq<char>)
    requires |fields| == |seps| + 1 && forall i :: 0 <= i < |seps| ==> seps[i] !in fields[i]
    ensures CutAll(Print(fields, seps), seps) == Some(fields)
  {
    if seps == [] {
      assert fields == [fields[0]];
    } else {
      PrintedFields(fields[1..], seps[1..]);
      CutAt(fields[0], seps[0], Print(fields[1..], seps[1..]));
      assert fields == [fields[0]] + fields[1..];
    }
  }

  lemma {:induction false} NatTextFits(n: nat, w: nat)
    requires w >= 1 && n < Pow10(w)
    ensures |NatText(n)| <= w
  {
    if w == 1 {
      assert Pow10(1) == 10 * Pow10(0);
    } else if n >= 10 {
      NatTextFits(n / 10, w - 1);
    }
  }

  lemma PaddedFits(n: nat, w: nat)
    requires w >= 1 && n < Pow10(w)
    ensures |Padded(n, w)| == w
  {
    NatTextFits(n, w);
  }

  /** Dropping trailing zeros does not change a fraction. */
  lemma {:induction false} FractionReads(n: nat, w: nat)
    requires 1 <= w && n < Pow10(w)
    ensures var s := FractionText(n, w); IsNumber(s) && |s| <= w && NatValue(s) * Pow10(w - |s|) == n
  {
    if w <= 1 || n % 10 != 0 {
      PaddedFits(n, w);
      PaddedRoundTrip(n, w);
      assert Pow10(0) == 1;
    } else {
      FractionReads(n / 10, w - 1);
      var s := FractionText(n / 10, w - 1);
      TimesTen(NatValue(s), w - 1 - |s|);
    }
  }

  lemma TimesTen(v: nat, k: nat)
    ensures v * Pow10(k + 1) == 10 * (v * Pow10(k))
  {
  }

  lemma NanosFit(n: nat)
    requires n < 1_000_000_000
    ensures n < Pow10(9)
  {
    assert Pow10(3) == 1000 && Pow10(6) == 1000 * Pow10(3) && Pow10(9) == 1000 * Pow10(6);
  }

  lemma YearText(n: nat)
    ensures IsNumber(Padded(n, 4)) && NatValue(Padded(n, 4)) == n && |Padded(n, 4)| >= 4
  {
    PaddedRoundTrip(n, 4);
  }

  lemma TwoDigits(n: nat)
    requires n < 100
    ensures IsNumber(Padded(n, 2)) && NatValue(Padded(n, 2)) == n && |Padded(n, 2)| == 2
    ensures IsNumber(NatText(n)) && NatValue(NatText(n)) == n && |NatText(n)| <= 2
  {
    assert Pow10(2) == 10 * Pow10(1) && Pow10(1) == 10 * Pow10(0);
    NatTextFits(n, 2);
    PaddedFits(n, 2);
    NatTextRoundTrip(n);
    PaddedRoundTrip(n, 2);
  }

  /** The text is a number of so many digits. */
  predicate IsText(s: string, n: nat, least: nat, most: nat) {
    IsNumber(s) && NatValue(s) == n && least <= |s| <= most
  }

  lemma DateFields(date: Date)
    requires 1 <= date.month <= 12 && 1 <= date.day <= 31
    ensures IsText(Padded(date.month, 2), date.month, 2, 2) && IsText(Padded(date.day, 2), date.day, 2, 2)
    ensures var y := Padded(Abs(date.year), 4); IsText(y, Abs(date.year), 4, |y|)
  {
    YearText(Abs(date.year));
    TwoDigits(date.month);
    TwoDigits(date.day);
  }

  lemma ClockFields(c: Clock)
    requires ValidClock(c)
    ensures IsText(NatText(c.hour), c.hour, 1, 2) && IsText(Padded(c.minute, 2), c.minute, 2, 2)
    ensures IsText(Padded(c.second, 2), c.second, 2, 2)
    ensures var f := FractionText(c.nano, 9); IsNumber(f) && |f| <= 9 && ReadFraction(f) == c.nano
  {
    TwoDigits(c.hour);
    TwoDigits(c.minute);
    TwoDigits(c.second);
    NanosFit(c.nano);
    FractionReads(c.nano, 9);
  }

  lemma FieldsAreNumbers(t: Time)
    ensures var fs, date := Fields(t), DateOf(t.day);
            && NumbersOk(fs)
            && NatValue(fs[0]) == Abs(date.year) && NatValue(fs[1]) == date.month && NatValue(fs[2]) == date.day
            && NatValue(fs[3]) == t.clock.hour && NatValue(fs[4]) == t.clock.minute && NatValue(fs[5]) == t.clock.second
            && ReadFraction(fs[6]) == t.clock.nano
  {
    DateFields(DateOf(t.day));
    ClockFields(t.clock);
    var fs := Fields(t);
    SevenNumbers(fs[0], fs[1], fs[2], fs[3], fs[4], fs[5], fs[6]);
  }

  lemma SevenNumbers(a: string, b: string, c: string, d: string, e: string, f: string, g: string)
    requires IsNumber(a) && IsNumber(b) && IsNumber(c) && IsNumber(d) && IsNumber(e) && IsNumber(f) && IsNumber(g)
    requires |a| >= 4 && |b| == 2 && |c| == 2 && |d| <= 2 && |e| == 2 && |f| == 2 && |g| <= 9 && 1 <= NatValue(b) <= 12
    ensures NumbersOk([a, b, c, d, e, f, g])
  {
  }

  lemma FieldsRead(t: Time)
    ensures CutAll(Print(Fields(t), SEPARATORS), SEPARATORS) == Some(Fields(t))
    ensures Print(Fields(t), SEPARATORS) != "" && IsDigit(Print(Fields(t), SEPARATORS)[0])
  {
    var fs := Fields(t);
    FieldsAreNumbers(t);
    forall i | 0 <= i < |SEPARATORS|
      ensures SEPARATORS[i] !in fs[i]
    {
      NoSeparator(fs[i], SEPARATORS[i]);
    }
    PrintedFields(fs, SEPARATORS);
    assert Print(fs, SEPARATORS)[0] == fs[0][0];
  }

  lemma NoSeparator(s: string, c: char)
    requires AllDigits(s) && !IsDigit(c)
    ensures c !in s
  {
  }

  lemma InstantOfFields(t: Time)
    ensures NumbersOk(Fields(t))
    ensures InstantOf(if DateOf(t.day).year < 0 then -1 else 1, Fields(t)) == Instant(t)
  {
    FieldsAreNumbers(t);
    var date := DateOf(t.day);
    DayNumberIsCivilDay(date.year, date.month, date.day);
  }

  /** Postgres reads the exact instant back. */
  lemma DateTimeReads(t: Time)
    ensures ReadDateTime(DateTimeText(t)) == Some(Instant(t))
  {
    var body, sign := Print(Fields(t), SEPARATORS), YearSign(DateOf(t.day).year);
    FieldsRead(t);
    InstantOfFields(t);
    if sign == "" {
      assert sign + body == body;
    } else {
      PrefixOfSum(sign, body);
    }
  }

  lemma IntReads(n: int)
    ensures ReadInt(IntText(n)) == Some(n)
  {
    NatTextRoundTrip(Abs(n));
    if n < 0 {
      PrefixOfSum("-", NatText(-n));
      assert !IsDigit(IntText(n)[0]);
    }
  }

  /** ClickHouse reads the start of the second, Postgres the instant itself. */
  lemma TimeTextReads(t: Time)
    ensures ReadTime(Clickhouse, TimeText(Clickhouse, t)) == Some(Seconds(t) * 1_000_000_000)
    ensures ReadTime(Sqlx, TimeText(Sqlx, t)) == Some(Instant(t))
  {
    IntReads(Seconds(t));
    DateTimeReads(t);
  }

  // ----- the texts are plain literals -----

  lemma {:induction false} PrintAvoids(fields: seq<string>, seps: seq<char>, c: char)
    requires |fields| == |seps| + 1 && c !in seps && forall i :: 0 <= i < |fields| ==> c !in fields[i]
    ensures c !in Print(fields, seps)
  {
    if seps == [] {
    } else {
      PrintAvoids(fields[1..], seps[1..], c);
    }
  }

  lemma NoBackslash(client: Client, t: Time)
    ensures '\\' !in TimeText(client, t)
  {
    if client.Clickhouse? {
      NatTextRoundTrip(Abs(Seconds(t)));
    } else {
      FieldsAreNumbers(t);
      PrintAvoids(Fields(t), SEPARATORS, '\\');
    }
  }
}
