/** A collapsing table on its own: the signed query over its rows against the plain query over the live ones. */
module LiveAnswers {
  import opened Text
  import opened Filters
  import opened Aggregates
  import opened TimeRanges
  import opened Collapsing
  import opened Queries
  import opened ResultAgreement

  /** The two queries ask the same of every row. */
  ghost predicate SameRows(q: Query, p: Query) {
    q.client == p.client && q.where_ == p.where_ && q.le == p.le && q.groupBy == p.groupBy
  }

  lemma SameTotals(q: Query, p: Query, a: SqlAgg, k: Key, rs: seq<Record>)
    requires SameRows(q, p)
    ensures Aggregated(a, q, k, rs) == Aggregated(a, p, k, rs)
  {
    SameWeights(q, p, a, k, rs);
  }

  lemma {:induction false} SameWeights(q: Query, p: Query, a: SqlAgg, k: Key, rs: seq<Record>)
    requires SameRows(q, p)
    ensures Total(rs, Weight(a, q, k)) == Total(rs, Weight(a, p, k))
  {
    if rs == [] {
    } else {
      SameWeights(q, p, a, k, rs[1..]);
      assert Selects(q, rs[0]) == Selects(p, rs[0]);
    }
  }

  lemma SameValues(q: Query, p: Query, col: string, k: Key, rs: seq<Record>)
    requires SameRows(q, p)
    ensures GroupValues(q, k, col, rs) == GroupValues(p, k, col, rs) && GroupCells(q, k, col, rs) == GroupCells(p, k, col, rs)
    ensures Keys(q, rs) == Keys(p, rs)
  {
    assert forall rec: Record :: Selects(q, rec) == Selects(p, rec);
    assert forall rec: Record :: InGroup(q, k, rec) == InGroup(p, k, rec);
  }

  lemma SameCell(q: Query, p: Query, a: SqlAgg, k: Key, rs: seq<Record>)
    requires SameRows(q, p)
    ensures Cell(a, q, k, rs) == Cell(a, p, k, rs)
  {
    match a
    case CountRows | SumOf(_) | SumOfProduct(_, _) => SameTotals(q, p, a, k, rs);
    case MinOf(c) => SameValues(q, p, c, k, rs);
    case MaxOf(c) => SameValues(q, p, c, k, rs);
    case CountDistinct(c) => SameValues(q, p, c, k, rs);
  }

  function Signed(sign: string, r: Request): Query {
    Compile(Clickhouse, CollapsingMergeTree(sign), r)
  }

  /** The request as it would be put to a table of the live rows. */
  function Plain(r: Request): Query {
    Compile(Clickhouse, BasicTree, r)
  }

  lemma SignedCell(history: seq<Change>, steps: seq<(nat, nat)>, merged: seq<Entry>, sign: string, r: Request, a: Aggregate, k: Key)
    requires MergedTo(Log(history), steps, merged) && CountOrSum(a, sign) && sign != CREATED_AT
    ensures Cell(Intended(Clickhouse, CollapsingMergeTree(sign), a), Signed(sign, r), k, Physical(merged, sign))
         == Cell(Intended(Clickhouse, BasicTree, a), Plain(r), k, Shipped(Live(history)))
  {
    SignedIsLive(history, steps, merged, sign, a, Signed(sign, r), k);
    SameCell(Signed(sign, r), Plain(r), Intended(Sqlx, BasicTree, a), k, Shipped(Live(history)));
  }

  /** The caller's conditions and, when grouped, the sign condition: the group has a live row. */
  lemma LiveConditions(history: seq<Change>, steps: seq<(nat, nat)>, merged: seq<Entry>, sign: string, r: Request, k: Key)
    requires MergedTo(Log(history), steps, merged) && FiltersByCounts(r, sign) && sign != CREATED_AT
    ensures HavingHolds(Signed(sign, r), k, Physical(merged, sign))
       <==> HavingHolds(Plain(r), k, Shipped(Live(history))) && (Grouped(r) ==> k in Keys(Plain(r), Shipped(Live(history))))
  {
    var sq, pq, srs, prs, n := Signed(sign, r), Plain(r), Physical(merged, sign), Shipped(Live(history)), |r.having|;
    forall i | 0 <= i < n
      ensures Cell(sq.having[i].0, sq, k, srs) == Cell(pq.having[i].0, pq, k, prs)
    {
      SignedCell(history, steps, merged, sign, r, r.having[i].0, k);
    }
    if Grouped(r) {
      SignedCell(history, steps, merged, sign, r, Count(None), k);
      CountPositive(pq, k, prs);
      assert sq.having[n] == (SumOf(sign), Ge, "1");
      OneIsOne(Aggregated(CountRows, pq, k, prs));
    }
  }

  /** The signed query returns exactly the groups that the plain one returns over the live rows. */
  lemma LiveGroup(history: seq<Change>, steps: seq<(nat, nat)>, merged: seq<Entry>, sign: string, r: Request, k: Key)
    requires MergedTo(Log(history), steps, merged) && FiltersByCounts(r, sign) && sign != CREATED_AT
    requires |k| == |GroupTexts(Clickhouse, r.dimensions, r.granularity)|
    ensures k in Result(Signed(sign, r), Physical(merged, sign)) <==> k in Result(Plain(r), Shipped(Live(history)))
  {
    var sq, pq, srs, prs := Signed(sign, r), Plain(r), Physical(merged, sign), Shipped(Live(history));
    LiveConditions(history, steps, merged, sign, r, k);
    GroupedHasTexts(Clickhouse, r);
    ResultKey(sq, k, srs);
    ResultKey(pq, k, prs);
    if Grouped(r) && HavingHolds(sq, k, srs) {
      SignedCell(history, steps, merged, sign, r, Count(None), k);
      CountPositive(pq, k, prs);
      StoredGroup(sq, k, srs, sign);
    }
  }

  lemma KeysHaveLength(q: Query, rs: seq<Record>, k: Key)
    requires k in Result(q, rs)
    ensures |k| == |q.groupBy|
  {
    var rep := GroupHasRecord(q, rs, k);
  }

  /** Counts, and sums of columns other than the sign and the creation time, are equal. */
  predicate SameCounts(select: seq<Aggregate>, sign: string, row: seq<Option<int>>, live: seq<Option<int>>) {
    && |row| == |live| == |select|
    && forall i :: 0 <= i < |select| && CountOrSum(select[i], sign) ==> row[i] == live[i]
  }

  predicate LiveAgrees(select: seq<Aggregate>, sign: string, table: map<Key, seq<Option<int>>>, live: map<Key, seq<Option<int>>>) {
    && table.Keys == live.Keys
    && forall k :: k in table && k in live ==> SameCounts(select, sign, table[k], live[k])
  }

  lemma LiveRow(history: seq<Change>, steps: seq<(nat, nat)>, merged: seq<Entry>, sign: string, r: Request, k: Key)
    requires MergedTo(Log(history), steps, merged) && sign != CREATED_AT
    ensures SameCounts(r.select, sign, ResultRow(Signed(sign, r), k, Physical(merged, sign)), ResultRow(Plain(r), k, Shipped(Live(history))))
  {
    var row, live := ResultRow(Signed(sign, r), k, Physical(merged, sign)), ResultRow(Plain(r), k, Shipped(Live(history)));
    forall i | 0 <= i < |r.select| && CountOrSum(r.select[i], sign)
      ensures row[i] == live[i]
    {
      SignedCell(history, steps, merged, sign, r, r.select[i], k);
    }
  }

  lemma LiveKeys(history: seq<Change>, steps: seq<(nat, nat)>, merged: seq<Entry>, sign: string, r: Request, k: Key)
    requires MergedTo(Log(history), steps, merged) && FiltersByCounts(r, sign) && sign != CREATED_AT
    ensures k in Result(Signed(sign, r), Physical(merged, sign)) <==> k in Result(Plain(r), Shipped(Live(history)))
  {
    if k in Result(Signed(sign, r), Physical(merged, sign)) {
      KeysHaveLength(Signed(sign, r), Physical(merged, sign), k);
      LiveGroup(history, steps, merged, sign, r, k);
    }
    if k in Result(Plain(r), Shipped(Live(history))) {
      KeysHaveLength(Plain(r), Shipped(Live(history)), k);
      LiveGroup(history, steps, merged, sign, r, k);
    }
  }

  lemma LiveRowOf(history: seq<Change>, steps: seq<(nat, nat)>, merged: seq<Entry>, sign: string, r: Request, k: Key)
    requires MergedTo(Log(history), steps, merged) && sign != CREATED_AT
    requires k in Result(Signed(sign, r), Physical(merged, sign)) && k in Result(Plain(r), Shipped(Live(history)))
    ensures SameCounts(r.select, sign, Result(Signed(sign, r), Physical(merged, sign))[k], Result(Plain(r), Shipped(Live(history)))[k])
  {
    KeysHaveLength(Plain(r), Shipped(Live(history)), k);
    ResultKey(Signed(sign, r), k, Physical(merged, sign));
    ResultKey(Plain(r), k, Shipped(Live(history)));
    LiveRow(history, steps, merged, sign, r, k);
  }

  /** For every history and every state of the merges: the groups with a live row and no others, with the live counts
      and sums. */
  lemma SignedResultIsLive(history: seq<Change>, steps: seq<(nat, nat)>, merged: seq<Entry>, sign: string, r: Request)
    requires MergedTo(Log(history), steps, merged) && FiltersByCounts(r, sign) && sign != CREATED_AT
    ensures LiveAgrees(r.select, sign, Result(Signed(sign, r), Physical(merged, sign)), Result(Plain(r), Shipped(Live(history))))
  {
    var table, live := Result(Signed(sign, r), Physical(merged, sign)), Result(Plain(r), Shipped(Live(history)));
    forall k: Key
      ensures k in table <==> k in live
    {
      LiveKeys(history, steps, merged, sign, r, k);
    }
    assert table.Keys == live.Keys;
    forall k | k in table && k in live
      ensures SameCounts(r.select, sign, table[k], live[k])
    {
      LiveRowOf(history, steps, merged, sign, r, k);
    }
  }
}
