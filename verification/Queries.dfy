/** Queries as an engine understands them, their results, and the query a request compiles to on each client. */
module Queries {
  import opened Text
  import opened Filters
  import opened Aggregates
  import opened Decimal
  import opened TimeBuckets
  import opened TimeRanges
  import opened GroupExpressions
  import opened Extremes
  import opened Collapsing

  datatype KeyPart = Null | Word(s: string) | Number(n: int)

  type Key = seq<KeyPart>

  /** A query as its client's engine understands it; grouping is by column names and time expressions. */
  datatype Query = Query(client: Client, where_: Cond, le: Order, groupBy: seq<string>, select: seq<SqlAgg>,
                         having: seq<(SqlAgg, Comparison, string)>)

  /** A condition on a stored row: literals compared with the creation time are read as times, all others are
      compared with the column's text. */
  predicate Admits(c: Cond, client: Client, rec: Record, le: Order) {
    match c
    case Compare(col, cmp, v) =>
      if col == CREATED_AT then TimeCompares(client, cmp, rec.created, v) else CondHolds(c, rec.cells, le)
    case Member(col, vs) =>
      if col == CREATED_AT then exists i :: 0 <= i < |vs| && TimeCompares(client, Eq, rec.created, vs[i])
      else CondHolds(c, rec.cells, le)
    case Pattern(col, _, _) => col != CREATED_AT && CondHolds(c, rec.cells, le)
    case NotNull(col) => col == CREATED_AT || CondHolds(c, rec.cells, le)
    case AllOf(cs) => forall i :: 0 <= i < |cs| ==> Admits(cs[i], client, rec, le)
    case AnyOf(cs) => exists i :: 0 <= i < |cs| && Admits(cs[i], client, rec, le)
  }

  predicate Selects(q: Query, rec: Record) {
    Admits(q.where_, q.client, rec, q.le)
  }

  function GroupValue(text: string, rec: Record): KeyPart {
    match ReadTimeExpr(text)
    case Some(e) => Number(TimeValue(e, rec.created))
    case None =>
      if text == CREATED_AT then Number(Instant(rec.created))
      else if text in rec.cells then Word(rec.cells[text])
      else Null
  }

  function GroupKey(groupBy: seq<string>, rec: Record): Key {
    seq(|groupBy|, i requires 0 <= i < |groupBy| => GroupValue(groupBy[i], rec))
  }

  predicate InGroup(q: Query, k: Key, rec: Record) {
    Selects(q, rec) && GroupKey(q.groupBy, rec) == k
  }

  /** A numeric column; the creation time counts nanoseconds. */
  function NumOf(rec: Record, col: string): Option<int> {
    if col == CREATED_AT then Some(Instant(rec.created))
    else if col in rec.nums then Some(rec.nums[col])
    else None
  }

  /** Any column. */
  function CellOf(rec: Record, col: string): KeyPart {
    match NumOf(rec, col)
    case Some(n) => Number(n)
    case None => if col in rec.cells then Word(rec.cells[col]) else Null
  }

  function Num(rec: Record, col: string): int {
    match NumOf(rec, col) case None => 0 case Some(n) => n
  }

  /** What one row adds to an additive aggregate. */
  function Value(a: SqlAgg, rec: Record): int {
    match a
    case CountRows => 1
    case SumOf(c) => Num(rec, c)
    case SumOfProduct(f, c) => Num(rec, f) * Num(rec, c)
    case _ => 0
  }

  function Weight(a: SqlAgg, q: Query, k: Key): Record -> int {
    rec => if InGroup(q, k, rec) then Value(a, rec) else 0
  }

  /** A count or sum over the rows of a group. */
  function Aggregated(a: SqlAgg, q: Query, k: Key, rs: seq<Record>): int {
    Total(rs, Weight(a, q, k))
  }

  /** The non-null values of a numeric column in a group. */
  function GroupValues(q: Query, k: Key, col: string, rs: seq<Record>): set<int> {
    set rec | rec in rs && InGroup(q, k, rec) && NumOf(rec, col).Some? :: NumOf(rec, col).value
  }

  /** The non-null values of any column in a group. */
  function GroupCells(q: Query, k: Key, col: string, rs: seq<Record>): set<KeyPart> {
    set rec | rec in rs && InGroup(q, k, rec) && CellOf(rec, col) != Null :: CellOf(rec, col)
  }

  /** One cell of a result; an extreme of no values is null. */
  ghost function Cell(a: SqlAgg, q: Query, k: Key, rs: seq<Record>): Option<int> {
    match a
    case CountRows | SumOf(_) | SumOfProduct(_, _) => Some(Aggregated(a, q, k, rs))
    case MinOf(c) => LeastOf(GroupValues(q, k, c, rs))
    case MaxOf(c) => GreatestOf(GroupValues(q, k, c, rs))
    case CountDistinct(c) => Some(|GroupCells(q, k, c, rs)|)
  }

  /** A cell as the row loader hands it on: on Postgres the first and last creation time of a group, selected as
      `start_bucket` and `end_bucket`, lose their fraction of a second. */
  function Loaded(client: Client, a: SqlAgg, cell: Option<int>): Option<int> {
    if client.Sqlx? && cell.Some? && (a == MinOf(CREATED_AT) || a == MaxOf(CREATED_AT))
    then Some(FloorTo(cell.value, SECOND))
    else cell
  }

  predicate Compares(cmp: Comparison, cell: Option<int>, literal: string) {
    cell.Some? && AllDigits(literal) && literal != "" &&
    var v, n := cell.value, NatValue(literal);
    match cmp
    case Eq => v == n
    case Ne => v != n
    case Ge => v >= n
    case Le => v <= n
    case More => v > n
  }

  ghost predicate HavingHolds(q: Query, k: Key, rs: seq<Record>) {
    forall i :: 0 <= i < |q.having| ==>
      var (a, cmp, literal) := q.having[i];
      Compares(cmp, Cell(a, q, k, rs), literal)
  }

  function Keys(q: Query, rs: seq<Record>): set<Key> {
    set rec | rec in rs && Selects(q, rec) :: GroupKey(q.groupBy, rec)
  }

  ghost function ResultRow(q: Query, k: Key, rs: seq<Record>): (row: seq<Option<int>>)
    ensures |row| == |q.select|
    ensures forall i :: 0 <= i < |q.select| ==> row[i] == Loaded(q.client, q.select[i], Cell(q.select[i], q, k, rs))
  {
    seq(|q.select|, i requires 0 <= i < |q.select| => Loaded(q.client, q.select[i], Cell(q.select[i], q, k, rs)))
  }

  /** The result table: the groups that pass HAVING, with their aggregates; without grouping the one row of
      all matching rows. */
  ghost function Result(q: Query, rs: seq<Record>): map<Key, seq<Option<int>>> {
    var keys := if q.groupBy == [] then {[]} else Keys(q, rs);
    map k | k in keys && HavingHolds(q, k, rs) :: ResultRow(q, k, rs)
  }

  // ----- the same request, compiled for each client -----

  /** What a caller asks for: the conditions as each client gets them, dimensions, a granularity, and aggregates to
      show or to filter by. */
  datatype Request = Request(clickhouse: Cond, postgres: Cond, le: Order, dimensions: seq<string>,
                             granularity: Option<Granularity>, select: seq<Aggregate>,
                             having: seq<(Aggregate, Comparison, string)>)

  function GroupTexts(client: Client, dimensions: seq<string>, granularity: Option<Granularity>): seq<string> {
    dimensions + (if granularity.Some? then GranularityTexts(client, granularity.value) else [])
  }

  predicate Grouped(r: Request) {
    r.dimensions != [] || r.granularity.Some?
  }

  function IntendedAll(client: Client, engine: Engine, as_: seq<Aggregate>): (r: seq<SqlAgg>)
    ensures |r| == |as_| && forall i :: 0 <= i < |as_| ==> r[i] == Intended(client, engine, as_[i])
  {
    if as_ == [] then [] else [Intended(client, engine, as_[0])] + IntendedAll(client, engine, as_[1..])
  }

  function IntendedHaving(client: Client, engine: Engine, hs: seq<(Aggregate, Comparison, string)>): (r: seq<(SqlAgg, Comparison, string)>)
    ensures |r| == |hs| && forall i :: 0 <= i < |hs| ==> r[i] == (Intended(client, engine, hs[i].0), hs[i].1, hs[i].2)
  {
    if hs == [] then [] else [(Intended(client, engine, hs[0].0), hs[0].1, hs[0].2)] + IntendedHaving(client, engine, hs[1..])
  }

  /** The caller's conditions, then the sign condition on a grouped collapsing table. */
  function FullHaving(engine: Engine, grouped: bool, hs: seq<(Aggregate, Comparison, string)>): seq<(Aggregate, Comparison, string)> {
    if grouped && engine.CollapsingMergeTree? then hs + [(Count(None), Ge, "1")] else hs
  }

  function Compile(client: Client, engine: Engine, r: Request): Query {
    Query(client, if client.Clickhouse? then r.clickhouse else r.postgres, r.le,
          GroupTexts(client, r.dimensions, r.granularity), IntendedAll(client, engine, r.select),
          IntendedHaving(client, engine, FullHaving(engine, Grouped(r), r.having)))
  }

  predicate CountOrSum(a: Aggregate, sign: string) {
    a.Count? || (a.Sum? && a.field != sign && a.field != CREATED_AT)
  }

  /** The caller's conditions are on counts and on sums of columns other than the sign and the creation time. */
  predicate FiltersByCounts(r: Request, sign: string) {
    forall i :: 0 <= i < |r.having| ==> CountOrSum(r.having[i].0, sign)
  }

  function WithSign(e: Entry, sign: string): Record {
    Record(e.rec.cells, e.rec.nums[sign := e.sign], e.rec.created)
  }

  /** The signed rows as ClickHouse stores them: the sign is one more numeric column. */
  function Physical(log: seq<Entry>, sign: string): (rs: seq<Record>)
    ensures |rs| == |log|
    ensures forall i :: 0 <= i < |log| ==> rs[i] == WithSign(log[i], sign)
  {
    seq(|log|, i requires 0 <= i < |log| => WithSign(log[i], sign))
  }

  // ----- the WHERE clause on the two clients -----

  /** The two conditions admit the row, the first one as its event carries it. */
  predicate AlikeAt(clickhouse: Cond, postgres: Cond, le: Order, rec: Record) {
    Admits(clickhouse, Clickhouse, Whole(rec), le) <==> Admits(postgres, Sqlx, rec, le)
  }

  ghost predicate AdmitAlike(clickhouse: Cond, postgres: Cond, le: Order) {
    forall rec: Record :: AlikeAt(clickhouse, postgres, le, rec)
  }

  /** A condition on columns other than the creation time. */
  predicate Timeless(c: Cond) {
    match c
    case Compare(col, _, _) => col != CREATED_AT
    case Member(col, _) => col != CREATED_AT
    case Pattern(col, _, _) => col != CREATED_AT
    case NotNull(col) => col != CREATED_AT
    case AllOf(cs) => forall i :: 0 <= i < |cs| ==> Timeless(cs[i])
    case AnyOf(cs) => forall i :: 0 <= i < |cs| ==> Timeless(cs[i])
  }

  lemma {:induction false} TimelessAdmits(c: Cond, client: Client, rec: Record, le: Order)
    requires Timeless(c)
    ensures Admits(c, client, rec, le) == CondHolds(c, rec.cells, le)
  {
    match c
    case AllOf(cs) =>
      forall i | 0 <= i < |cs|
        ensures Admits(cs[i], client, rec, le) == CondHolds(cs[i], rec.cells, le)
      {
        TimelessAdmits(cs[i], client, rec, le);
      }
    case AnyOf(cs) =>
      forall i | 0 <= i < |cs|
        ensures Admits(cs[i], client, rec, le) == CondHolds(cs[i], rec.cells, le)
      {
        TimelessAdmits(cs[i], client, rec, le);
      }
    case _ =>
  }

  /** The WHERE clause of a metric: the same conditions on either client, the range as the client prints it. */
  function WhereOf(client: Client, conds: seq<Cond>, range: Range): Cond {
    AllOf(conds + RangeConds(client, range))
  }

  lemma RangeCondsAdmit(client: Client, range: Range, rec: Record, le: Order)
    ensures Admits(AllOf(RangeConds(client, range)), client, rec, le) <==> RangeHolds(client, range, rec.created)
  {
    var cs := RangeConds(client, range);
    BoundAdmits(Ge, client, cs[0].value, rec, le);
    if range.end.Some? {
      BoundAdmits(Le, client, cs[1].value, rec, le);
    }
  }

  lemma BoundAdmits(cmp: Comparison, client: Client, literal: string, rec: Record, le: Order)
    ensures Admits(Compare(CREATED_AT, cmp, literal), client, rec, le) <==> TimeCompares(client, cmp, rec.created, literal)
  {
  }

  lemma AllOfSum(a: seq<Cond>, b: seq<Cond>, client: Client, rec: Record, le: Order)
    ensures Admits(AllOf(a + b), client, rec, le) <==> Admits(AllOf(a), client, rec, le) && Admits(AllOf(b), client, rec, le)
  {
    if Admits(AllOf(a + b), client, rec, le) {
      forall i | 0 <= i < |a|
        ensures Admits(a[i], client, rec, le)
      {
        assert (a + b)[i] == a[i];
      }
      forall i | 0 <= i < |b|
        ensures Admits(b[i], client, rec, le)
      {
        assert (a + b)[|a| + i] == b[i];
      }
    }
  }

  /** A row passes the WHERE clause when it passes the conditions and lies in the range as the client sees it. */
  lemma WhereMeans(client: Client, conds: seq<Cond>, range: Range, rec: Record, le: Order)
    requires Timeless(AllOf(conds))
    ensures Admits(WhereOf(client, conds, range), client, rec, le)
       <==> CondHolds(AllOf(conds), rec.cells, le) && RangeHolds(client, range, rec.created)
  {
    AllOfSum(conds, RangeConds(client, range), client, rec, le);
    TimelessAdmits(AllOf(conds), client, rec, le);
    RangeCondsAdmit(client, range, rec, le);
  }

  lemma WheresMean(conds: seq<Cond>, range: Range, rec: Record, le: Order)
    requires Timeless(AllOf(conds))
    ensures Admits(WhereOf(Clickhouse, conds, range), Clickhouse, Whole(rec), le)
       <==> CondHolds(AllOf(conds), rec.cells, le) && AskedInSeconds(range, rec.created)
    ensures Admits(WhereOf(Sqlx, conds, range), Sqlx, rec, le)
       <==> CondHolds(AllOf(conds), rec.cells, le) && Asked(range, rec.created)
  {
    WhereMeans(Clickhouse, conds, range, Whole(rec), le);
    WhereMeans(Sqlx, conds, range, rec, le);
    RangeMeans(range, rec.created);
  }

  /** The two WHERE clauses admit the same rows if and only if the range cuts no second in two, or no row meets
      the other conditions. */
  lemma AdmitAlikeExact(conds: seq<Cond>, range: Range, le: Order)
    requires Timeless(AllOf(conds))
    ensures AdmitAlike(WhereOf(Clickhouse, conds, range), WhereOf(Sqlx, conds, range), le)
       <==> Exact(range) || Unsatisfiable(AllOf(conds), le)
  {
    var ch, pg := WhereOf(Clickhouse, conds, range), WhereOf(Sqlx, conds, range);
    forall rec: Record
      ensures AlikeAt(ch, pg, le, rec) <==> SplitNowhere(AllOf(conds), range, le, rec)
    {
      WheresMean(conds, range, rec, le);
    }
    AlikeWhen(ch, pg, AllOf(conds), range, le);
  }

  ghost predicate Unsatisfiable(conds: Cond, le: Order) {
    forall row: Row :: !CondHolds(conds, row, le)
  }

  predicate SplitNowhere(conds: Cond, range: Range, le: Order, rec: Record) {
    CondHolds(conds, rec.cells, le) ==> Asked(range, rec.created) == AskedInSeconds(range, rec.created)
  }

  lemma AlikeWhen(clickhouse: Cond, postgres: Cond, conds: Cond, range: Range, le: Order)
    requires forall rec: Record :: AlikeAt(clickhouse, postgres, le, rec) <==> SplitNowhere(conds, range, le, rec)
    ensures AdmitAlike(clickhouse, postgres, le) <==> Exact(range) || Unsatisfiable(conds, le)
  {
    if Exact(range) || Unsatisfiable(conds, le) {
      forall rec: Record
        ensures AlikeAt(clickhouse, postgres, le, rec)
      {
        NotSplitWhen(conds, range, le, rec);
      }
    } else {
      var row: Row :| CondHolds(conds, row, le);
      SplitInGap(conds, range, le, row);
      assert !AlikeAt(clickhouse, postgres, le, GapRecord(range, row));
    }
  }

  lemma NotSplitWhen(conds: Cond, range: Range, le: Order, rec: Record)
    requires Exact(range) || Unsatisfiable(conds, le)
    ensures SplitNowhere(conds, range, le, rec)
  {
    AlikeExact(range);
  }

  lemma SplitInGap(conds: Cond, range: Range, le: Order, row: Row)
    requires CondHolds(conds, row, le) && !Exact(range)
    ensures !SplitNowhere(conds, range, le, GapRecord(range, row))
  {
    AlikeAtExact(range, GapTime(range));
  }

  /** A row that only ClickHouse admits. */
  function GapRecord(range: Range, row: Row): Record {
    Record(row, map[], GapTime(range))
  }

  lemma GapIsSplit(conds: seq<Cond>, range: Range, le: Order, row: Row)
    requires Timeless(AllOf(conds)) && CondHolds(AllOf(conds), row, le) && !Exact(range)
    ensures var rec := GapRecord(range, row);
            && Admits(WhereOf(Clickhouse, conds, range), Clickhouse, Whole(rec), le)
            && !Admits(WhereOf(Sqlx, conds, range), Sqlx, rec, le)
  {
    WheresMean(conds, range, GapRecord(range, row), le);
    AlikeAtExact(range, GapTime(range));
  }

  // ----- groups on the two clients -----

  /** The two groups hold the same rows, one of them as their events carry them. */
  ghost predicate SameMembers(sq: Query, ks: Key, pq: Query, kp: Key) {
    forall rec: Record :: InGroup(sq, ks, Whole(rec)) <==> InGroup(pq, kp, rec)
  }

  /** Grouping does not look at fractions of a second. */
  lemma KeyOfWhole(client: Client, dimensions: seq<string>, granularity: Option<Granularity>, rec: Record)
    requires CREATED_AT !in dimensions
    ensures var texts := GroupTexts(client, dimensions, granularity); GroupKey(texts, Whole(rec)) == GroupKey(texts, rec)
  {
    var texts := GroupTexts(client, dimensions, granularity);
    if granularity.Some? {
      AllTimeExprs(client, granularity.value);
    }
    forall i | 0 <= i < |texts|
      ensures GroupValue(texts[i], Whole(rec)) == GroupValue(texts[i], rec)
    {
      if i < |dimensions| {
        assert texts[i] == dimensions[i];
      } else {
        assert texts[i] == GranularityTexts(client, granularity.value)[i - |dimensions|];
      }
    }
  }

  lemma KeyConcat(a: seq<string>, b: seq<string>, rec: Record)
    ensures GroupKey(a + b, rec) == GroupKey(a, rec) + GroupKey(b, rec)
  {
    var whole, parts := GroupKey(a + b, rec), GroupKey(a, rec) + GroupKey(b, rec);
    assert |whole| == |parts|;
    forall i | 0 <= i < |whole|
      ensures whole[i] == parts[i]
    {
      KeyPartIs(a, b, rec, i);
    }
  }

  lemma KeyPartIs(a: seq<string>, b: seq<string>, rec: Record, i: nat)
    requires i < |a + b|
    ensures GroupKey(a + b, rec)[i] == (GroupKey(a, rec) + GroupKey(b, rec))[i]
  {
    if i < |a| {
      assert (a + b)[i] == a[i];
    } else {
      assert (a + b)[i] == b[i - |a|];
    }
  }

  /** Keys compare part by part. */
  lemma KeysEqual(a: seq<string>, b: seq<string>, x: Record, y: Record)
    ensures GroupKey(a + b, x) == GroupKey(a + b, y) <==> GroupKey(a, x) == GroupKey(a, y) && GroupKey(b, x) == GroupKey(b, y)
  {
    KeyConcat(a, b, x);
    KeyConcat(a, b, y);
    SumsEqual(GroupKey(a, x), GroupKey(b, x), GroupKey(a, y), GroupKey(b, y));
  }

  lemma SumsEqual(a: Key, b: Key, c: Key, d: Key)
    requires |a| == |c|
    ensures a + b == c + d <==> a == c && b == d
  {
    assert a == (a + b)[..|a|] && c == (c + d)[..|a|];
    assert b == (a + b)[|a|..] && d == (c + d)[|a|..];
  }

  /** Grouping by time expressions compares exactly their values. */
  lemma TimeKeysEqual(texts: seq<string>, x: Record, y: Record)
    requires forall i :: 0 <= i < |texts| ==> ReadTimeExpr(texts[i]).Some?
    ensures GroupKey(texts, x) == GroupKey(texts, y) <==> TimeKey(texts, x.created) == TimeKey(texts, y.created)
  {
    var gx, gy, tx, ty := GroupKey(texts, x), GroupKey(texts, y), TimeKey(texts, x.created), TimeKey(texts, y.created);
    forall i | 0 <= i < |texts|
      ensures gx[i] == gy[i] <==> tx[i] == ty[i]
    {
      assert ReadTimeExpr(texts[i]).Some?;
    }
    if gx == gy {
      assert tx == ty;
    }
    if tx == ty {
      assert gx == gy;
    }
  }

  lemma KeysAreRead(texts: seq<string>, t: Time)
    requires forall i :: 0 <= i < |texts| ==> TimeKey(texts, t)[i].Some?
    ensures forall i :: 0 <= i < |texts| ==> ReadTimeExpr(texts[i]).Some?
  {
    forall i | 0 <= i < |texts|
      ensures ReadTimeExpr(texts[i]).Some?
    {
      assert TimeKey(texts, t)[i].Some?;
    }
  }

  lemma AllTimeExprs(client: Client, g: Granularity)
    ensures forall i :: 0 <= i < |GranularityTexts(client, g)| ==> ReadTimeExpr(GranularityTexts(client, g)[i]).Some?
  {
    var t: Time := TimeAt(0);
    if client.Clickhouse? {
      ClickhouseKeyIs(g, t);
    } else {
      PostgresKeyIs(g, t);
    }
    KeysAreRead(GranularityTexts(client, g), t);
  }

  /** Two rows share a group on one client exactly when they share one on the other. */
  lemma ClientsGroupAlike(dimensions: seq<string>, granularity: Option<Granularity>, x: Record, y: Record)
    ensures GroupKey(GroupTexts(Clickhouse, dimensions, granularity), x) == GroupKey(GroupTexts(Clickhouse, dimensions, granularity), y)
       <==> GroupKey(GroupTexts(Sqlx, dimensions, granularity), x) == GroupKey(GroupTexts(Sqlx, dimensions, granularity), y)
  {
    if granularity.Some? {
      var g := granularity.value;
      AllTimeExprs(Clickhouse, g);
      AllTimeExprs(Sqlx, g);
      KeysEqual(dimensions, GranularityTexts(Clickhouse, g), x, y);
      KeysEqual(dimensions, GranularityTexts(Sqlx, g), x, y);
      TimeKeysEqual(GranularityTexts(Clickhouse, g), x, y);
      TimeKeysEqual(GranularityTexts(Sqlx, g), x, y);
      TextsGroupAlike(g, x.created, y.created);
    }
  }

  /** The groups a row falls into on the two clients hold the same rows. */
  lemma GroupsCorrespond(sq: Query, pq: Query, dimensions: seq<string>, granularity: Option<Granularity>, rep: Record)
    requires sq.client.Clickhouse? && pq.client.Sqlx? && sq.le == pq.le && AdmitAlike(sq.where_, pq.where_, sq.le)
    requires sq.groupBy == GroupTexts(Clickhouse, dimensions, granularity) && CREATED_AT !in dimensions
    requires pq.groupBy == GroupTexts(Sqlx, dimensions, granularity)
    ensures SameMembers(sq, GroupKey(sq.groupBy, rep), pq, GroupKey(pq.groupBy, rep))
  {
    forall rec: Record
      ensures InGroup(sq, GroupKey(sq.groupBy, rep), Whole(rec)) <==> InGroup(pq, GroupKey(pq.groupBy, rep), rec)
    {
      assert AlikeAt(sq.where_, pq.where_, sq.le, rec);
      ClientsGroupAlike(dimensions, granularity, rec, rep);
      KeyOfWhole(Clickhouse, dimensions, granularity, rec);
    }
  }

  /** Every row of a result is the group of some record. */
  lemma GroupHasRecord(q: Query, rs: seq<Record>, k: Key) returns (rep: Record)
    requires k in Result(q, rs)
    ensures GroupKey(q.groupBy, rep) == k
  {
    if q.groupBy == [] {
      rep := Record(map[], map[], TimeAt(0));
    } else {
      rep :| rep in rs && GroupKey(q.groupBy, rep) == k;
    }
  }
}
