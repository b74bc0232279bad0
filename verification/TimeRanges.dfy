/** The time range of a request: the condition each client gets, and what the two of them admit. */
module TimeRanges {
  import opened Text
  import opened Filters
  import opened Aggregates
  import opened TimeBuckets
  import opened TimeTexts

  const CREATED_AT := "created_at"

  datatype Range = Range(start: Time, end: Option<Time>)

  /** `TimeRange::set_filter_clause`, each bound printed by its client. */
  function RangeFilters(client: Client, range: Range): seq<Filter> {
    [Plain(CREATED_AT, Gte, TimeText(client, range.start))] +
    (if range.end.Some? then [Plain(CREATED_AT, Lte, TimeText(client, range.end.value))] else [])
  }

  /** The conditions those filters print. */
  function RangeConds(client: Client, range: Range): seq<Cond> {
    [Compare(CREATED_AT, Ge, TimeText(client, range.start))] +
    (if range.end.Some? then [Compare(CREATED_AT, Le, TimeText(client, range.end.value))] else [])
  }

  predicate InstantCompares(cmp: Comparison, a: int, b: int) {
    match cmp
    case Eq => a == b
    case Ne => a != b
    case Ge => a >= b
    case Le => a <= b
    case More => a > b
  }

  /** How an engine compares a creation time with a literal. */
  predicate TimeCompares(client: Client, cmp: Comparison, t: Time, literal: string) {
    var n := ReadTime(client, literal);
    n.Some? && InstantCompares(cmp, Instant(t), n.value)
  }

  /** Postgres compares instants. */
  predicate Asked(range: Range, t: Time) {
    Instant(t) >= Instant(range.start) && (range.end.Some? ==> Instant(t) <= Instant(range.end.value))
  }

  /** ClickHouse compares whole seconds: its rows have no others, and its literals neither. */
  predicate AskedInSeconds(range: Range, t: Time) {
    Seconds(t) >= Seconds(range.start) && (range.end.Some? ==> Seconds(t) <= Seconds(range.end.value))
  }

  /** The range's conditions, as an engine evaluates them on a creation time. */
  predicate RangeHolds(client: Client, range: Range, t: Time) {
    && TimeCompares(client, Ge, t, TimeText(client, range.start))
    && (range.end.Some? ==> TimeCompares(client, Le, t, TimeText(client, range.end.value)))
  }

  lemma ReadCompares(client: Client, cmp: Comparison, t: Time, literal: string, n: int)
    requires ReadTime(client, literal) == Some(n)
    ensures TimeCompares(client, cmp, t, literal) <==> InstantCompares(cmp, Instant(t), n)
  {
  }

  /** A bound as Postgres and as ClickHouse read it. */
  lemma BoundMeans(cmp: Comparison, t: Time, bound: Time)
    ensures TimeCompares(Sqlx, cmp, t, TimeText(Sqlx, bound)) <==> InstantCompares(cmp, Instant(t), Instant(bound))
    ensures TimeCompares(Clickhouse, cmp, t, TimeText(Clickhouse, bound)) <==> InstantCompares(cmp, Instant(t), Seconds(bound) * SECOND)
  {
    TimeTextReads(bound);
    ReadCompares(Sqlx, cmp, t, TimeText(Sqlx, bound), Instant(bound));
    ReadCompares(Clickhouse, cmp, t, TimeText(Clickhouse, bound), Seconds(bound) * SECOND);
  }

  lemma StartMeans(t: Time, bound: Time)
    ensures TimeCompares(Sqlx, Ge, t, TimeText(Sqlx, bound)) <==> Instant(t) >= Instant(bound)
    ensures TimeCompares(Clickhouse, Ge, WholeSecond(t), TimeText(Clickhouse, bound)) <==> Seconds(t) >= Seconds(bound)
  {
    BoundMeans(Ge, t, bound);
    BoundMeans(Ge, WholeSecond(t), bound);
    assert Instant(WholeSecond(t)) == Seconds(t) * SECOND;
  }

  lemma EndMeans(t: Time, bound: Time)
    ensures TimeCompares(Sqlx, Le, t, TimeText(Sqlx, bound)) <==> Instant(t) <= Instant(bound)
    ensures TimeCompares(Clickhouse, Le, WholeSecond(t), TimeText(Clickhouse, bound)) <==> Seconds(t) <= Seconds(bound)
  {
    BoundMeans(Le, t, bound);
    BoundMeans(Le, WholeSecond(t), bound);
    assert Instant(WholeSecond(t)) == Seconds(t) * SECOND;
  }

  lemma RangeMeans(range: Range, t: Time)
    ensures RangeHolds(Sqlx, range, t) <==> Asked(range, t)
    ensures RangeHolds(Clickhouse, range, WholeSecond(t)) <==> AskedInSeconds(range, t)
  {
    StartMeans(t, range.start);
    if range.end.Some? {
      EndMeans(t, range.end.value);
    }
  }

  // ----- when the two agree -----

  /** Created in the range's first second but before its start, or in its last second but after its end. */
  predicate InGap(range: Range, t: Time) {
    || (Seconds(t) == Seconds(range.start) && t.clock.nano < range.start.clock.nano)
    || (range.end.Some? && Seconds(t) == Seconds(range.end.value) && t.clock.nano > range.end.value.clock.nano)
  }

  lemma Order(a: Time, b: Time)
    ensures Instant(a) <= Instant(b) <==> Seconds(a) < Seconds(b) || (Seconds(a) == Seconds(b) && a.clock.nano <= b.clock.nano)
  {
  }

  /** Postgres admits nothing that ClickHouse refuses; ClickHouse admits more exactly in the gaps. */
  lemma AlikeAtExact(range: Range, t: Time)
    ensures Asked(range, t) ==> AskedInSeconds(range, t)
    ensures Asked(range, t) == AskedInSeconds(range, t) <==> !(AskedInSeconds(range, t) && InGap(range, t))
  {
    Order(range.start, t);
    if range.end.Some? {
      Order(t, range.end.value);
    }
  }

  /** The start is a whole second and the end, if any, the last instant of one; or the range holds no second. */
  predicate Exact(range: Range) {
    || (range.end.Some? && Seconds(range.end.value) < Seconds(range.start))
    || (range.start.clock.nano == 0 && (range.end.Some? ==> range.end.value.clock.nano == SECOND - 1))
  }

  ghost predicate AlikeEverywhere(range: Range) {
    forall t: Time :: Asked(range, t) == AskedInSeconds(range, t)
  }

  /** The two clients admit the same creation times if and only if the bounds cut no second in two. */
  lemma AlikeExact(range: Range)
    ensures AlikeEverywhere(range) <==> Exact(range)
  {
    forall t: Time
      ensures Asked(range, t) == AskedInSeconds(range, t) <==> !(AskedInSeconds(range, t) && InGap(range, t))
    {
      AlikeAtExact(range, t);
    }
    if !Exact(range) {
      var t := GapTime(range);
      assert AskedInSeconds(range, t) && InGap(range, t);
    }
  }

  /** A time that one client admits and the other does not. */
  function GapTime(range: Range): (t: Time)
    ensures !Exact(range) ==> AskedInSeconds(range, t) && InGap(range, t)
  {
    if range.start.clock.nano > 0 then range.start.(clock := range.start.clock.(nano := 0))
    else if range.end.Some? then range.end.value.(clock := range.end.value.clock.(nano := SECOND - 1))
    else range.start
  }

  /** Ten o'clock and some nanoseconds. */
  function Ten(nano: nat): Time
    requires nano < SECOND
  {
    Stamp(0, Clock(10, 0, 0, nano))
  }

  /** From half past a second on: a row of that second's first half is admitted by ClickHouse and not by Postgres. */
  lemma HalfSecondSplits()
    ensures var range, t := Range(Ten(500_000_000), None), Ten(200_000_000);
            && RangeHolds(Clickhouse, range, WholeSecond(t)) && !RangeHolds(Sqlx, range, t)
            && !Exact(range)
  {
    RangeMeans(Range(Ten(500_000_000), None), Ten(200_000_000));
  }

  /** Up to a whole second: a row created within that second is admitted by ClickHouse and not by Postgres. */
  lemma WholeEndSplits()
    ensures var range, t := Range(Stamp(0, MIDNIGHT), Some(Ten(0))), Ten(200_000_000);
            && RangeHolds(Clickhouse, range, WholeSecond(t)) && !RangeHolds(Sqlx, range, t)
            && !Exact(range)
  {
    RangeMeans(Range(Stamp(0, MIDNIGHT), Some(Ten(0))), Ten(200_000_000));
  }

  // ----- the filters print readably -----

  lemma CreatedAtIsColumn()
    ensures ColumnOk(CREATED_AT)
  {
    EnclosedWord(CREATED_AT, "", 0);
    assert CREATED_AT + "" == CREATED_AT;
  }

  lemma BoundFilterOk(op: FilterType, client: Client, t: Time)
    requires op.Gte? || op.Lte?
    ensures var f := Plain(CREATED_AT, op, TimeText(client, t)); Printable(f) && Complete(f) && NoQuotedBackslash(f)
  {
    CreatedAtIsColumn();
    NoBackslash(client, t);
    LiteralFilterOk(op, TimeText(client, t));
  }

  lemma LiteralFilterOk(op: FilterType, literal: string)
    requires (op.Gte? || op.Lte?) && ColumnOk(CREATED_AT) && '\\' !in literal
    ensures var f := Plain(CREATED_AT, op, literal); Printable(f) && Complete(f) && NoQuotedBackslash(f)
  {
  }

  ghost predicate BoundOk(f: Filter) {
    Printable(f) && Complete(f) && NoQuotedBackslash(f)
  }

  lemma OneOrTwoOk(a: Filter, b: Option<Filter>)
    requires BoundOk(a) && (b.Some? ==> BoundOk(b.value))
    ensures var fs := [a] + (if b.Some? then [b.value] else []); forall i :: 0 <= i < |fs| ==> BoundOk(fs[i])
  {
  }

  lemma RangeFiltersOk(client: Client, range: Range)
    ensures forall i :: 0 <= i < |RangeFilters(client, range)| ==> BoundOk(RangeFilters(client, range)[i])
  {
    var first := Plain(CREATED_AT, Gte, TimeText(client, range.start));
    BoundFilterOk(Gte, client, range.start);
    if range.end.Some? {
      BoundFilterOk(Lte, client, range.end.value);
      OneOrTwoOk(first, Some(Plain(CREATED_AT, Lte, TimeText(client, range.end.value))));
    } else {
      OneOrTwoOk(first, None);
    }
  }
}
