/** One request on both clients: which groups, which columns and which time ranges come out alike. */
module ResultAgreement {
  import opened Text
  import opened Filters
  import opened Aggregates
  import opened Decimal
  import opened TimeBuckets
  import opened TimeRanges
  import opened GroupExpressions
  import opened Extremes
  import opened Collapsing
  import opened Queries
  import opened UnsignedAggregates

  /** The WHERE clauses of a request admit the same rows, its dimensions are not the creation time, and its own
      conditions are on counts and sums. */
  ghost predicate Comparable(r: Request, sign: string) {
    && AdmitAlike(r.clickhouse, r.postgres, r.le)
    && CREATED_AT !in r.dimensions
    && FiltersByCounts(r, sign)
    && sign != CREATED_AT
  }

  // ----- counts and sums -----

  lemma {:induction false} AdmitsIgnoresNumbers(c: Cond, client: Client, x: Record, y: Record, le: Order)
    requires x.cells == y.cells && x.created == y.created
    ensures Admits(c, client, x, le) == Admits(c, client, y, le)
  {
    match c
    case AllOf(cs) =>
      forall i | 0 <= i < |cs|
        ensures Admits(cs[i], client, x, le) == Admits(cs[i], client, y, le)
      {
        AdmitsIgnoresNumbers(cs[i], client, x, y, le);
      }
    case AnyOf(cs) =>
      forall i | 0 <= i < |cs|
        ensures Admits(cs[i], client, x, le) == Admits(cs[i], client, y, le)
      {
        AdmitsIgnoresNumbers(cs[i], client, x, y, le);
      }
    case _ =>
  }

  lemma InGroupIgnoresSign(q: Query, k: Key, e: Entry, sign: string)
    ensures InGroup(q, k, WithSign(e, sign)) <==> InGroup(q, k, e.rec)
  {
    AdmitsIgnoresNumbers(q.where_, q.client, WithSign(e, sign), e.rec, q.le);
    assert GroupKey(q.groupBy, WithSign(e, sign)) == GroupKey(q.groupBy, e.rec);
  }

  lemma SignedValue(a: Aggregate, e: Entry, sign: string)
    requires CountOrSum(a, sign) && sign != CREATED_AT
    ensures Value(Intended(Clickhouse, CollapsingMergeTree(sign), a), WithSign(e, sign))
         == e.sign * Value(Intended(Sqlx, BasicTree, a), e.rec)
  {
    assert Num(WithSign(e, sign), sign) == e.sign;
    if a.Sum? {
      assert Num(WithSign(e, sign), a.field) == Num(e.rec, a.field);
    }
  }

  /** The sign-weighted aggregate over the stored rows is the signed total of the plain one. */
  lemma {:induction false} PhysicalTotal(log: seq<Entry>, sign: string, a: Aggregate, q: Query, k: Key)
    requires CountOrSum(a, sign) && sign != CREATED_AT
    ensures Aggregated(Intended(Clickhouse, CollapsingMergeTree(sign), a), q, k, Physical(log, sign))
         == SignedTotal(log, Weight(Intended(Sqlx, BasicTree, a), q, k))
  {
    if log == [] {
    } else {
      PhysicalTotal(log[1..], sign, a, q, k);
      assert Physical(log, sign)[1..] == Physical(log[1..], sign);
      InGroupIgnoresSign(q, k, log[0], sign);
      SignedValue(a, log[0], sign);
    }
  }

  /** The plain aggregate of a group does not depend on fractions of a second. */
  lemma {:induction false} ShippedTotal(live: seq<Keyed>, a: Aggregate, sign: string, sq: Query, ks: Key, pq: Query, kp: Key)
    requires CountOrSum(a, sign) && SameMembers(sq, ks, pq, kp)
    ensures Total(Shipped(live), Weight(Intended(Sqlx, BasicTree, a), sq, ks))
         == Aggregated(Intended(Sqlx, BasicTree, a), pq, kp, Records(live))
  {
    if live == [] {
    } else {
      ShippedTotal(live[1..], a, sign, sq, ks, pq, kp);
      assert Shipped(live)[1..] == Shipped(live[1..]) && Records(live)[1..] == Records(live[1..]);
      ShippedValue(a, sign, live[0].rec);
    }
  }

  lemma ShippedValue(a: Aggregate, sign: string, rec: Record)
    requires CountOrSum(a, sign)
    ensures Value(Intended(Sqlx, BasicTree, a), Whole(rec)) == Value(Intended(Sqlx, BasicTree, a), rec)
  {
  }

  /** Every signed count or sum of a group is the plain one over the live rows as their events carry them. */
  lemma SignedIsLive(history: seq<Change>, steps: seq<(nat, nat)>, merged: seq<Entry>, sign: string, a: Aggregate, q: Query, k: Key)
    requires MergedTo(Log(history), steps, merged) && CountOrSum(a, sign) && sign != CREATED_AT
    ensures Cell(Intended(Clickhouse, CollapsingMergeTree(sign), a), q, k, Physical(merged, sign))
         == Cell(Intended(Sqlx, BasicTree, a), q, k, Shipped(Live(history)))
  {
    var w := Weight(Intended(Sqlx, BasicTree, a), q, k);
    PhysicalTotal(merged, sign, a, q, k);
    MergeTotal(Log(history), steps, merged, w);
    HistoryTotal(history, w);
  }

  /** Every signed count or sum of a group equals the live one, merged or not. */
  lemma SignedAggregate(history: seq<Change>, steps: seq<(nat, nat)>, merged: seq<Entry>, sign: string,
                        a: Aggregate, sq: Query, ks: Key, pq: Query, kp: Key)
    requires MergedTo(Log(history), steps, merged) && CountOrSum(a, sign) && sign != CREATED_AT
    requires SameMembers(sq, ks, pq, kp)
    ensures Cell(Intended(Clickhouse, CollapsingMergeTree(sign), a), sq, ks, Physical(merged, sign))
         == Cell(Intended(Sqlx, BasicTree, a), pq, kp, Records(Live(history)))
  {
    SignedIsLive(history, steps, merged, sign, a, sq, ks);
    ShippedTotal(Live(history), a, sign, sq, ks, pq, kp);
  }

  // ----- groups -----

  lemma {:induction false} CountPositive(q: Query, k: Key, rs: seq<Record>)
    ensures Aggregated(CountRows, q, k, rs) >= 0
    ensures Aggregated(CountRows, q, k, rs) >= 1 <==> k in Keys(q, rs)
  {
    if rs == [] {
    } else {
      CountPositive(q, k, rs[1..]);
      assert Keys(q, rs) == Keys(q, rs[1..]) + Keys(q, [rs[0]]);
      assert InGroup(q, k, rs[0]) <==> k in Keys(q, [rs[0]]);
    }
  }

  lemma {:induction false} OutsideKeys(q: Query, k: Key, a: SqlAgg, rs: seq<Record>)
    requires k !in Keys(q, rs)
    ensures Aggregated(a, q, k, rs) == 0
  {
    if rs == [] {
    } else {
      assert rs[0] in rs;
      assert forall rec :: rec in rs[1..] ==> rec in rs;
      assert !InGroup(q, k, rs[0]);
      OutsideKeys(q, k, a, rs[1..]);
    }
  }

  lemma OneIsOne(v: int)
    ensures Compares(Ge, Some(v), "1") <==> v >= 1
  {
    assert "1"[..0] == "";
    assert NatValue("1") == 1;
  }

  /** Whether the caller's conditions and, when grouped, the sign condition hold. */
  lemma SameConditions(history: seq<Change>, steps: seq<(nat, nat)>, merged: seq<Entry>, sign: string, r: Request,
                       sq: Query, ks: Key, pq: Query, kp: Key)
    requires MergedTo(Log(history), steps, merged) && Comparable(r, sign)
    requires sq == Compile(Clickhouse, CollapsingMergeTree(sign), r) && pq == Compile(Sqlx, BasicTree, r)
    requires SameMembers(sq, ks, pq, kp)
    ensures HavingHolds(sq, ks, Physical(merged, sign))
       <==> HavingHolds(pq, kp, Records(Live(history))) && (Grouped(r) ==> kp in Keys(pq, Records(Live(history))))
  {
    var srs, prs, n := Physical(merged, sign), Records(Live(history)), |r.having|;
    forall i | 0 <= i < n
      ensures Cell(sq.having[i].0, sq, ks, srs) == Cell(pq.having[i].0, pq, kp, prs)
    {
      SignedAggregate(history, steps, merged, sign, r.having[i].0, sq, ks, pq, kp);
    }
    if Grouped(r) {
      SignedAggregate(history, steps, merged, sign, Count(None), sq, ks, pq, kp);
      CountPositive(pq, kp, prs);
      assert sq.having[n] == (SumOf(sign), Ge, "1");
      OneIsOne(Aggregated(CountRows, pq, kp, prs));
    }
  }

  lemma ResultKey(q: Query, k: Key, rs: seq<Record>)
    requires |k| == |q.groupBy|
    ensures k in Result(q, rs) <==> (q.groupBy != [] ==> k in Keys(q, rs)) && HavingHolds(q, k, rs)
    ensures k in Result(q, rs) ==> Result(q, rs)[k] == ResultRow(q, k, rs)
  {
  }

  lemma GroupedHasTexts(client: Client, r: Request)
    ensures Grouped(r) <==> GroupTexts(client, r.dimensions, r.granularity) != []
  {
  }

  /** A grouped result has exactly the groups with a live row on both clients; the single row of an ungrouped
      one passes on both or on neither. */
  lemma SameGroups(history: seq<Change>, steps: seq<(nat, nat)>, merged: seq<Entry>, sign: string, r: Request, rep: Record)
    requires MergedTo(Log(history), steps, merged) && Comparable(r, sign)
    ensures var sq, pq := Compile(Clickhouse, CollapsingMergeTree(sign), r), Compile(Sqlx, BasicTree, r);
            GroupKey(sq.groupBy, rep) in Result(sq, Physical(merged, sign))
            <==> GroupKey(pq.groupBy, rep) in Result(pq, Records(Live(history)))
  {
    var sq, pq := Compile(Clickhouse, CollapsingMergeTree(sign), r), Compile(Sqlx, BasicTree, r);
    var srs, prs := Physical(merged, sign), Records(Live(history));
    var ks, kp := GroupKey(sq.groupBy, rep), GroupKey(pq.groupBy, rep);
    GroupsCorrespond(sq, pq, r.dimensions, r.granularity, rep);
    SameConditions(history, steps, merged, sign, r, sq, ks, pq, kp);
    GroupedHasTexts(Clickhouse, r);
    GroupedHasTexts(Sqlx, r);
    ResultKey(sq, ks, srs);
    ResultKey(pq, kp, prs);
    if Grouped(r) && HavingHolds(sq, ks, srs) {
      SignedAggregate(history, steps, merged, sign, Count(None), sq, ks, pq, kp);
      CountPositive(pq, kp, prs);
      StoredGroup(sq, ks, srs, sign);
    }
  }

  /** A group whose signs add up to something has a row. */
  lemma StoredGroup(q: Query, k: Key, rs: seq<Record>, sign: string)
    requires Aggregated(SumOf(sign), q, k, rs) != 0
    ensures k in Keys(q, rs)
  {
    if k !in Keys(q, rs) {
      OutsideKeys(q, k, SumOf(sign), rs);
    }
  }

  // ----- columns -----

  /** What the two clients' cells of a column have to do with each other. */
  predicate ColumnAgrees(a: Aggregate, ch: Option<int>, pg: Option<int>) {
    match a
    case Count(_) => ch == pg
    case Sum(_, _) => ch == pg
    case Min(_, _) => pg.Some? ==> ch.Some? && ch.value <= pg.value
    case Max(_, _) => pg.Some? ==> ch.Some? && ch.value >= pg.value
    case DistinctCount(_, _) => ch.Some? && pg.Some? && ch.value >= pg.value
  }

  /** A column other than the sign; creation times are not summed or counted distinct. */
  predicate Ordinary(a: Aggregate, sign: string) {
    match a
    case Count(_) => true
    case Sum(f, _) => f != sign && f != CREATED_AT
    case DistinctCount(f, _) => f != sign && f != CREATED_AT
    case Min(f, _) => f != sign
    case Max(f, _) => f != sign
  }

  /** No cancelled row of the group has a value below the live minimum, above the live maximum or new to the
      live values. */
  ghost predicate Unbeaten(a: Aggregate, q: Query, k: Key, live: seq<Record>, cancelled: seq<Record>) {
    match a
    case Count(_) => true
    case Sum(_, _) => true
    case Min(f, _) =>
      var vs := GroupValues(q, k, f, live);
      forall v :: v in GroupValues(q, k, f, cancelled) ==> vs != {} && v >= Least(vs)
    case Max(f, _) =>
      var vs := GroupValues(q, k, f, live);
      forall v :: v in GroupValues(q, k, f, cancelled) ==> vs != {} && v <= Greatest(vs)
    case DistinctCount(f, _) => GroupCells(q, k, f, cancelled) <= GroupCells(q, k, f, live)
  }

  lemma SignIsNoCell(e: Entry, sign: string, col: string)
    requires col != sign
    ensures NumOf(WithSign(e, sign), col) == NumOf(e.rec, col) && CellOf(WithSign(e, sign), col) == CellOf(e.rec, col)
  {
  }

  /** The values ClickHouse sees in a group are those of the stored rows. */
  lemma PhysicalValues(merged: seq<Entry>, sign: string, col: string, q: Query, k: Key)
    requires col != sign
    ensures GroupValues(q, k, col, Physical(merged, sign)) == GroupValues(q, k, col, Stored(merged))
  {
    var srs, rs := Physical(merged, sign), Stored(merged);
    forall i | 0 <= i < |merged|
      ensures InGroup(q, k, srs[i]) <==> InGroup(q, k, rs[i])
      ensures NumOf(srs[i], col) == NumOf(rs[i], col)
    {
      InGroupIgnoresSign(q, k, merged[i], sign);
      SignIsNoCell(merged[i], sign, col);
    }
    forall v
      ensures v in GroupValues(q, k, col, srs) <==> v in GroupValues(q, k, col, rs)
    {
      if v in GroupValues(q, k, col, srs) {
        var i :| 0 <= i < |srs| && InGroup(q, k, srs[i]) && NumOf(srs[i], col) == Some(v);
        assert rs[i] in rs;
      }
      if v in GroupValues(q, k, col, rs) {
        var i :| 0 <= i < |rs| && InGroup(q, k, rs[i]) && NumOf(rs[i], col) == Some(v);
        assert srs[i] in srs;
      }
    }
  }

  lemma PhysicalCells(merged: seq<Entry>, sign: string, col: string, q: Query, k: Key)
    requires col != sign
    ensures GroupCells(q, k, col, Physical(merged, sign)) == GroupCells(q, k, col, Stored(merged))
  {
    var srs, rs := Physical(merged, sign), Stored(merged);
    forall i | 0 <= i < |merged|
      ensures InGroup(q, k, srs[i]) <==> InGroup(q, k, rs[i])
      ensures CellOf(srs[i], col) == CellOf(rs[i], col)
    {
      InGroupIgnoresSign(q, k, merged[i], sign);
      SignIsNoCell(merged[i], sign, col);
    }
    forall v
      ensures v in GroupCells(q, k, col, srs) <==> v in GroupCells(q, k, col, rs)
    {
      if v in GroupCells(q, k, col, srs) {
        var i :| 0 <= i < |srs| && InGroup(q, k, srs[i]) && CellOf(srs[i], col) == v;
        assert rs[i] in rs;
      }
      if v in GroupCells(q, k, col, rs) {
        var i :| 0 <= i < |rs| && InGroup(q, k, rs[i]) && CellOf(rs[i], col) == v;
        assert srs[i] in srs;
      }
    }
  }

  /** What an event and the Postgres loader keep of a column's value. */
  function Kept(col: string, v: int): int {
    if col == CREATED_AT then FloorTo(v, SECOND) else v
  }

  /** The values of the live rows, as their events carry them. */
  lemma ShippedValues(live: seq<Keyed>, col: string, sq: Query, ks: Key, pq: Query, kp: Key)
    requires SameMembers(sq, ks, pq, kp)
    ensures GroupValues(sq, ks, col, Shipped(live)) == set v | v in GroupValues(pq, kp, col, Records(live)) :: Kept(col, v)
  {
    var srs, prs := Shipped(live), Records(live);
    forall i | 0 <= i < |live|
      ensures InGroup(sq, ks, srs[i]) <==> InGroup(pq, kp, prs[i])
      ensures NumOf(srs[i], col) == match NumOf(prs[i], col) case None => None case Some(v) => Some(Kept(col, v))
    {
      assert srs[i] == Whole(prs[i]);
    }
    forall v | v in GroupValues(sq, ks, col, srs)
      ensures exists u :: u in GroupValues(pq, kp, col, prs) && v == Kept(col, u)
    {
      var i :| 0 <= i < |srs| && InGroup(sq, ks, srs[i]) && NumOf(srs[i], col) == Some(v);
      assert prs[i] in prs && NumOf(prs[i], col).value in GroupValues(pq, kp, col, prs);
    }
    forall u | u in GroupValues(pq, kp, col, prs)
      ensures Kept(col, u) in GroupValues(sq, ks, col, srs)
    {
      var i :| 0 <= i < |prs| && InGroup(pq, kp, prs[i]) && NumOf(prs[i], col) == Some(u);
      assert srs[i] in srs;
    }
  }

  lemma ShippedCells(live: seq<Keyed>, col: string, sq: Query, ks: Key, pq: Query, kp: Key)
    requires SameMembers(sq, ks, pq, kp) && col != CREATED_AT
    ensures GroupCells(sq, ks, col, Shipped(live)) == GroupCells(pq, kp, col, Records(live))
  {
    var srs, prs := Shipped(live), Records(live);
    forall i | 0 <= i < |live|
      ensures InGroup(sq, ks, srs[i]) <==> InGroup(pq, kp, prs[i])
      ensures CellOf(srs[i], col) == CellOf(prs[i], col)
    {
      assert srs[i] == Whole(prs[i]);
    }
    forall v
      ensures v in GroupCells(sq, ks, col, srs) <==> v in GroupCells(pq, kp, col, prs)
    {
      if v in GroupCells(sq, ks, col, srs) {
        var i :| 0 <= i < |srs| && InGroup(sq, ks, srs[i]) && CellOf(srs[i], col) == v;
        assert prs[i] in prs;
      }
      if v in GroupCells(pq, kp, col, prs) {
        var i :| 0 <= i < |prs| && InGroup(pq, kp, prs[i]) && CellOf(prs[i], col) == v;
        assert srs[i] in srs;
      }
    }
  }

  lemma KeptInOrder(col: string, u: int, v: int)
    requires u <= v
    ensures Kept(col, u) <= Kept(col, v)
  {
  }

  lemma KeptExtremes(col: string, vs: set<int>)
    requires vs != {}
    ensures var kept := set v | v in vs :: Kept(col, v);
            kept != {} && Least(kept) == Kept(col, Least(vs)) && Greatest(kept) == Kept(col, Greatest(vs))
  {
    var kept := set v | v in vs :: Kept(col, v);
    assert Kept(col, Least(vs)) in kept && Kept(col, Greatest(vs)) in kept;
    forall v | v in vs
      ensures Kept(col, Least(vs)) <= Kept(col, v) <= Kept(col, Greatest(vs))
    {
      KeptInOrder(col, Least(vs), v);
      KeptInOrder(col, v, Greatest(vs));
    }
  }

  lemma LoadedIsKept(col: string, v: int)
    ensures Loaded(Sqlx, MinOf(col), Some(v)) == Loaded(Sqlx, MaxOf(col), Some(v)) == Some(Kept(col, v))
  {
  }

  lemma KeptOptions(col: string, vs: set<int>)
    ensures var kept := set v | v in vs :: Kept(col, v);
            && Loaded(Sqlx, MinOf(col), LeastOf(vs)) == LeastOf(kept)
            && Loaded(Sqlx, MaxOf(col), GreatestOf(vs)) == GreatestOf(kept)
  {
    if vs != {} {
      KeptExtremes(col, vs);
      LoadedIsKept(col, Least(vs));
      LoadedIsKept(col, Greatest(vs));
    }
  }

  /** The extremes Postgres reports are those of the live rows as their events carry them. */
  lemma LoadedExtremes(live: seq<Keyed>, col: string, sq: Query, ks: Key, pq: Query, kp: Key)
    requires SameMembers(sq, ks, pq, kp)
    ensures Loaded(Sqlx, MinOf(col), Cell(MinOf(col), pq, kp, Records(live))) == LeastOf(GroupValues(sq, ks, col, Shipped(live)))
    ensures Loaded(Sqlx, MaxOf(col), Cell(MaxOf(col), pq, kp, Records(live))) == GreatestOf(GroupValues(sq, ks, col, Shipped(live)))
  {
    ShippedValues(live, col, sq, ks, pq, kp);
    KeptOptions(col, GroupValues(pq, kp, col, Records(live)));
  }

  /** The extremes ClickHouse reports are those of the live and of the cancelled rows together. */
  lemma StoredExtremes(history: seq<Change>, steps: seq<(nat, nat)>, merged: seq<Entry>, sign: string, col: string, q: Query, k: Key)
    requires MergedTo(Log(history), steps, merged) && col != sign
    ensures var all := GroupValues(q, k, col, Shipped(Live(history))) + GroupValues(q, k, col, Cancelled(merged));
            && Cell(MinOf(col), q, k, Physical(merged, sign)) == LeastOf(all)
            && Cell(MaxOf(col), q, k, Physical(merged, sign)) == GreatestOf(all)
  {
    PhysicalValues(merged, sign, col, q, k);
    StoredValues(history, steps, merged, q, k, col);
  }

  lemma MinColumn(a: Aggregate, q: Query, k: Key, live: seq<Record>, cancelled: seq<Record>)
    requires a.Min?
    ensures var vs, more := GroupValues(q, k, a.field, live), GroupValues(q, k, a.field, cancelled);
            && ColumnAgrees(a, LeastOf(vs + more), LeastOf(vs))
            && (LeastOf(vs + more) == LeastOf(vs) <==> Unbeaten(a, q, k, live, cancelled))
  {
    LeastOfUnion(GroupValues(q, k, a.field, live), GroupValues(q, k, a.field, cancelled));
  }

  lemma MaxColumn(a: Aggregate, q: Query, k: Key, live: seq<Record>, cancelled: seq<Record>)
    requires a.Max?
    ensures var vs, more := GroupValues(q, k, a.field, live), GroupValues(q, k, a.field, cancelled);
            && ColumnAgrees(a, GreatestOf(vs + more), GreatestOf(vs))
            && (GreatestOf(vs + more) == GreatestOf(vs) <==> Unbeaten(a, q, k, live, cancelled))
  {
    GreatestOfUnion(GroupValues(q, k, a.field, live), GroupValues(q, k, a.field, cancelled));
  }

  /** The minimum and maximum of a column on the two clients, and when they are equal. */
  lemma ExtremeColumn(history: seq<Change>, steps: seq<(nat, nat)>, merged: seq<Entry>, sign: string,
                      a: Aggregate, sq: Query, ks: Key, pq: Query, kp: Key)
    requires MergedTo(Log(history), steps, merged) && SameMembers(sq, ks, pq, kp)
    requires (a.Min? || a.Max?) && Ordinary(a, sign)
    ensures var i := Intended(Sqlx, BasicTree, a);
            var ch, pg := Cell(i, sq, ks, Physical(merged, sign)), Loaded(Sqlx, i, Cell(i, pq, kp, Records(Live(history))));
            ColumnAgrees(a, ch, pg) && (ch == pg <==> Unbeaten(a, sq, ks, Shipped(Live(history)), Cancelled(merged)))
  {
    StoredExtremes(history, steps, merged, sign, a.field, sq, ks);
    LoadedExtremes(Live(history), a.field, sq, ks, pq, kp);
    if a.Min? {
      MinColumn(a, sq, ks, Shipped(Live(history)), Cancelled(merged));
    } else {
      MaxColumn(a, sq, ks, Shipped(Live(history)), Cancelled(merged));
    }
  }

  lemma StoredDistinct(history: seq<Change>, steps: seq<(nat, nat)>, merged: seq<Entry>, sign: string, col: string, q: Query, k: Key)
    requires MergedTo(Log(history), steps, merged) && col != sign
    ensures Cell(CountDistinct(col), q, k, Physical(merged, sign))
         == Some(|GroupCells(q, k, col, Shipped(Live(history))) + GroupCells(q, k, col, Cancelled(merged))|)
  {
    PhysicalCells(merged, sign, col, q, k);
    StoredCells(history, steps, merged, q, k, col);
  }

  lemma LiveDistinct(live: seq<Keyed>, col: string, sq: Query, ks: Key, pq: Query, kp: Key)
    requires SameMembers(sq, ks, pq, kp) && col != CREATED_AT
    ensures Cell(CountDistinct(col), pq, kp, Records(live)) == Some(|GroupCells(sq, ks, col, Shipped(live))|)
  {
    ShippedCells(live, col, sq, ks, pq, kp);
  }

  lemma CountColumn(a: Aggregate, q: Query, k: Key, live: seq<Record>, cancelled: seq<Record>)
    requires a.DistinctCount?
    ensures var vs, more := GroupCells(q, k, a.field, live), GroupCells(q, k, a.field, cancelled);
            && ColumnAgrees(a, Some(|vs + more|), Some(|vs|))
            && (|vs + more| == |vs| <==> Unbeaten(a, q, k, live, cancelled))
  {
    SizeOfUnion(GroupCells(q, k, a.field, live), GroupCells(q, k, a.field, cancelled));
  }

  lemma DistinctColumn(history: seq<Change>, steps: seq<(nat, nat)>, merged: seq<Entry>, sign: string,
                       a: Aggregate, sq: Query, ks: Key, pq: Query, kp: Key)
    requires MergedTo(Log(history), steps, merged) && SameMembers(sq, ks, pq, kp)
    requires a.DistinctCount? && Ordinary(a, sign)
    ensures var i := CountDistinct(a.field);
            var ch, pg := Cell(i, sq, ks, Physical(merged, sign)), Cell(i, pq, kp, Records(Live(history)));
            ColumnAgrees(a, ch, pg) && (ch == pg <==> Unbeaten(a, sq, ks, Shipped(Live(history)), Cancelled(merged)))
  {
    StoredDistinct(history, steps, merged, sign, a.field, sq, ks);
    LiveDistinct(Live(history), a.field, sq, ks, pq, kp);
    CountColumn(a, sq, ks, Shipped(Live(history)), Cancelled(merged));
  }

  lemma ColumnsAgree(history: seq<Change>, steps: seq<(nat, nat)>, merged: seq<Entry>, sign: string,
                     a: Aggregate, sq: Query, ks: Key, pq: Query, kp: Key)
    requires MergedTo(Log(history), steps, merged) && sign != CREATED_AT && SameMembers(sq, ks, pq, kp)
    requires Ordinary(a, sign)
    ensures var i, j := Intended(Clickhouse, CollapsingMergeTree(sign), a), Intended(Sqlx, BasicTree, a);
            var ch := Loaded(Clickhouse, i, Cell(i, sq, ks, Physical(merged, sign)));
            var pg := Loaded(Sqlx, j, Cell(j, pq, kp, Records(Live(history))));
            ColumnAgrees(a, ch, pg) && (ch == pg <==> Unbeaten(a, sq, ks, Shipped(Live(history)), Cancelled(merged)))
  {
    if CountOrSum(a, sign) {
      SignedAggregate(history, steps, merged, sign, a, sq, ks, pq, kp);
    } else if a.DistinctCount? {
      DistinctColumn(history, steps, merged, sign, a, sq, ks, pq, kp);
    } else {
      ExtremeColumn(history, steps, merged, sign, a, sq, ks, pq, kp);
    }
  }

  predicate RowsAgree(select: seq<Aggregate>, sign: string, ch: seq<Option<int>>, pg: seq<Option<int>>) {
    && |ch| == |select| == |pg|
    && forall i :: 0 <= i < |select| && Ordinary(select[i], sign) ==> ColumnAgrees(select[i], ch[i], pg[i])
  }

  /** The rows of a group agree column by column and are equal exactly when no column is beaten. */
  lemma GroupRows(history: seq<Change>, steps: seq<(nat, nat)>, merged: seq<Entry>, sign: string, r: Request,
                  sq: Query, ks: Key, pq: Query, kp: Key)
    requires MergedTo(Log(history), steps, merged) && sign != CREATED_AT && SameMembers(sq, ks, pq, kp)
    requires sq == Compile(Clickhouse, CollapsingMergeTree(sign), r) && pq == Compile(Sqlx, BasicTree, r)
    ensures var ch, pg := ResultRow(sq, ks, Physical(merged, sign)), ResultRow(pq, kp, Records(Live(history)));
            && RowsAgree(r.select, sign, ch, pg)
            && (AllOrdinary(r.select, sign) ==>
                  (ch == pg <==> AllUnbeaten(r.select, sq, ks, Shipped(Live(history)), Cancelled(merged))))
  {
    var ch, pg := ResultRow(sq, ks, Physical(merged, sign)), ResultRow(pq, kp, Records(Live(history)));
    forall i | 0 <= i < |r.select| && Ordinary(r.select[i], sign)
      ensures ColumnAgrees(r.select[i], ch[i], pg[i])
      ensures ch[i] == pg[i] <==> Unbeaten(r.select[i], sq, ks, Shipped(Live(history)), Cancelled(merged))
    {
      ColumnsAgree(history, steps, merged, sign, r.select[i], sq, ks, pq, kp);
    }
  }

  predicate AllOrdinary(select: seq<Aggregate>, sign: string) {
    forall i :: 0 <= i < |select| ==> Ordinary(select[i], sign)
  }

  ghost predicate AllUnbeaten(select: seq<Aggregate>, q: Query, k: Key, live: seq<Record>, cancelled: seq<Record>) {
    forall i :: 0 <= i < |select| ==> Unbeaten(select[i], q, k, live, cancelled)
  }

  /** The two engines answer alike: for every history, every merge state, every pair of WHERE clauses that admit the
      same rows, every list of dimensions, granularity and condition on counts and sums, the ClickHouse query over the
      signed rows and the Postgres query over the live rows return the group of a record together or not at all; then
      every count and sum is equal, and minimum, maximum and distinct count err in one direction only. */
  lemma EnginesAgree(history: seq<Change>, steps: seq<(nat, nat)>, merged: seq<Entry>, sign: string, r: Request, rep: Record)
    requires MergedTo(Log(history), steps, merged) && Comparable(r, sign)
    ensures var sq, pq := Compile(Clickhouse, CollapsingMergeTree(sign), r), Compile(Sqlx, BasicTree, r);
            var ch, pg := Result(sq, Physical(merged, sign)), Result(pq, Records(Live(history)));
            var ks, kp := GroupKey(sq.groupBy, rep), GroupKey(pq.groupBy, rep);
            && (ks in ch <==> kp in pg)
            && (ks in ch && kp in pg ==> RowsAgree(r.select, sign, ch[ks], pg[kp]))
  {
    var sq, pq := Compile(Clickhouse, CollapsingMergeTree(sign), r), Compile(Sqlx, BasicTree, r);
    var ks, kp := GroupKey(sq.groupBy, rep), GroupKey(pq.groupBy, rep);
    SameGroups(history, steps, merged, sign, r, rep);
    GroupsCorrespond(sq, pq, r.dimensions, r.granularity, rep);
    ResultKey(sq, ks, Physical(merged, sign));
    ResultKey(pq, kp, Records(Live(history)));
    GroupRows(history, steps, merged, sign, r, sq, ks, pq, kp);
  }

  /** Two rows of a group are equal exactly when no cancelled row still stored beats the live rows in a minimum, a
      maximum or a distinct count. */
  lemma RowsEqualExact(history: seq<Change>, steps: seq<(nat, nat)>, merged: seq<Entry>, sign: string, r: Request, rep: Record)
    requires MergedTo(Log(history), steps, merged) && Comparable(r, sign) && AllOrdinary(r.select, sign)
    requires var pq := Compile(Sqlx, BasicTree, r); GroupKey(pq.groupBy, rep) in Result(pq, Records(Live(history)))
    ensures var sq, pq := Compile(Clickhouse, CollapsingMergeTree(sign), r), Compile(Sqlx, BasicTree, r);
            var ch, pg := Result(sq, Physical(merged, sign)), Result(pq, Records(Live(history)));
            var ks, kp := GroupKey(sq.groupBy, rep), GroupKey(pq.groupBy, rep);
            && ks in ch
            && (ch[ks] == pg[kp] <==> AllUnbeaten(r.select, sq, ks, Shipped(Live(history)), Cancelled(merged)))
  {
    var sq, pq := Compile(Clickhouse, CollapsingMergeTree(sign), r), Compile(Sqlx, BasicTree, r);
    var ks, kp := GroupKey(sq.groupBy, rep), GroupKey(pq.groupBy, rep);
    SameGroups(history, steps, merged, sign, r, rep);
    GroupsCorrespond(sq, pq, r.dimensions, r.granularity, rep);
    ResultKey(sq, ks, Physical(merged, sign));
    ResultKey(pq, kp, Records(Live(history)));
    GroupRows(history, steps, merged, sign, r, sq, ks, pq, kp);
  }

  lemma MatchedRecord(history: seq<Change>, steps: seq<(nat, nat)>, merged: seq<Entry>, sign: string, r: Request, k: Key)
    returns (rep: Record)
    requires MergedTo(Log(history), steps, merged) && Comparable(r, sign)
    requires k in Result(Compile(Clickhouse, CollapsingMergeTree(sign), r), Physical(merged, sign))
    ensures var sq, pq := Compile(Clickhouse, CollapsingMergeTree(sign), r), Compile(Sqlx, BasicTree, r);
            GroupKey(sq.groupBy, rep) == k && GroupKey(pq.groupBy, rep) in Result(pq, Records(Live(history)))
  {
    rep := GroupHasRecord(Compile(Clickhouse, CollapsingMergeTree(sign), r), Physical(merged, sign), k);
    SameGroups(history, steps, merged, sign, r, rep);
  }

  lemma LiveMatchedRecord(history: seq<Change>, steps: seq<(nat, nat)>, merged: seq<Entry>, sign: string, r: Request, k: Key)
    returns (rep: Record)
    requires MergedTo(Log(history), steps, merged) && Comparable(r, sign)
    requires k in Result(Compile(Sqlx, BasicTree, r), Records(Live(history)))
    ensures var sq, pq := Compile(Clickhouse, CollapsingMergeTree(sign), r), Compile(Sqlx, BasicTree, r);
            GroupKey(pq.groupBy, rep) == k && GroupKey(sq.groupBy, rep) in Result(sq, Physical(merged, sign))
  {
    rep := GroupHasRecord(Compile(Sqlx, BasicTree, r), Records(Live(history)), k);
    SameGroups(history, steps, merged, sign, r, rep);
  }

  /** No row is left over: every group of either result is the group of a record that the other result has too. */
  lemma EveryGroupIsMatched(history: seq<Change>, steps: seq<(nat, nat)>, merged: seq<Entry>, sign: string, r: Request)
    requires MergedTo(Log(history), steps, merged) && Comparable(r, sign)
    ensures var sq, pq := Compile(Clickhouse, CollapsingMergeTree(sign), r), Compile(Sqlx, BasicTree, r);
            var ch, pg := Result(sq, Physical(merged, sign)), Result(pq, Records(Live(history)));
            && (forall k :: k in ch ==> exists rep :: GroupKey(sq.groupBy, rep) == k && GroupKey(pq.groupBy, rep) in pg)
            && (forall k :: k in pg ==> exists rep :: GroupKey(pq.groupBy, rep) == k && GroupKey(sq.groupBy, rep) in ch)
  {
    var sq, pq := Compile(Clickhouse, CollapsingMergeTree(sign), r), Compile(Sqlx, BasicTree, r);
    var ch, pg := Result(sq, Physical(merged, sign)), Result(pq, Records(Live(history)));
    forall k | k in ch
      ensures exists rep :: GroupKey(sq.groupBy, rep) == k && GroupKey(pq.groupBy, rep) in pg
    {
      var rep := MatchedRecord(history, steps, merged, sign, r, k);
    }
    forall k | k in pg
      ensures exists rep :: GroupKey(pq.groupBy, rep) == k && GroupKey(sq.groupBy, rep) in ch
    {
      var rep := LiveMatchedRecord(history, steps, merged, sign, r, k);
    }
  }

  /** Without a granularity the two result tables have the same keys. */
  lemma SameKeys(history: seq<Change>, steps: seq<(nat, nat)>, merged: seq<Entry>, sign: string, r: Request)
    requires MergedTo(Log(history), steps, merged) && Comparable(r, sign) && r.granularity.None?
    ensures Result(Compile(Clickhouse, CollapsingMergeTree(sign), r), Physical(merged, sign)).Keys
         == Result(Compile(Sqlx, BasicTree, r), Records(Live(history))).Keys
  {
    var ch := Result(Compile(Clickhouse, CollapsingMergeTree(sign), r), Physical(merged, sign));
    var pg := Result(Compile(Sqlx, BasicTree, r), Records(Live(history)));
    forall k: Key
      ensures k in ch <==> k in pg
    {
      if k in ch {
        var rep := MatchedRecord(history, steps, merged, sign, r, k);
      }
      if k in pg {
        var rep := LiveMatchedRecord(history, steps, merged, sign, r, k);
      }
    }
  }

  // ----- a row that only one client admits -----

  lemma OneInsert(rec: Record)
    ensures Live([Insert(0, rec)]) == [Keyed(0, rec)] && Log([Insert(0, rec)]) == [Entry(1, Whole(rec))]
  {
    assert [Insert(0, rec)][..0] == [];
    assert Live([]) == [] && Log([]) == [];
  }

  lemma OneRow(rec: Record, sign: string)
    ensures Records([Keyed(0, rec)]) == [rec] && Physical([Entry(1, Whole(rec))], sign) == [WithSign(Entry(1, Whole(rec)), sign)]
  {
  }

  lemma OneTotal(a: SqlAgg, q: Query, k: Key, rec: Record)
    ensures Aggregated(a, q, k, [rec]) == if InGroup(q, k, rec) then Value(a, rec) else 0
  {
    var w := Weight(a, q, k);
    assert [rec][1..] == [];
    assert Total([rec], w) == w(rec);
  }

  /** The signs of the group, over the one row it has. */
  lemma SplitSigns(sign: string, r: Request, sq: Query, rec: Record)
    requires sign != CREATED_AT && CREATED_AT !in r.dimensions && sq == Compile(Clickhouse, CollapsingMergeTree(sign), r)
    requires Admits(r.clickhouse, Clickhouse, Whole(rec), r.le)
    ensures var stored, k := WithSign(Entry(1, Whole(rec)), sign), GroupKey(sq.groupBy, rec);
            InGroup(sq, k, stored) && Aggregated(SumOf(sign), sq, k, [stored]) == 1
  {
    var e, k := Entry(1, Whole(rec)), GroupKey(sq.groupBy, rec);
    InGroupIgnoresSign(sq, k, e, sign);
    KeyOfWhole(Clickhouse, r.dimensions, r.granularity, rec);
    OneTotal(SumOf(sign), sq, k, WithSign(e, sign));
  }

  lemma OneGroup(q: Query, k: Key, rec: Record)
    ensures k in Keys(q, [rec]) <==> InGroup(q, k, rec)
  {
    assert rec in [rec];
  }

  lemma OnlySignCondition(sign: string, r: Request, q: Query, k: Key, rs: seq<Record>)
    requires q == Compile(Clickhouse, CollapsingMergeTree(sign), r) && r.having == [] && Aggregated(SumOf(sign), q, k, rs) == 1
    ensures HavingHolds(q, k, rs)
  {
    OneIsOne(1);
    assert forall i :: 0 <= i < |q.having| ==> q.having[i] == (SumOf(sign), Ge, "1");
  }

  /** One insert of a row that only ClickHouse admits: its group is in the ClickHouse result and not in the other. */
  lemma SplitRowSplitsGroups(sign: string, r: Request, rec: Record)
    requires sign != CREATED_AT && CREATED_AT !in r.dimensions && r.having == [] && Grouped(r)
    requires Admits(r.clickhouse, Clickhouse, Whole(rec), r.le) && !Admits(r.postgres, Sqlx, rec, r.le)
    ensures var sq, pq, history := Compile(Clickhouse, CollapsingMergeTree(sign), r), Compile(Sqlx, BasicTree, r), [Insert(0, rec)];
            && GroupKey(sq.groupBy, rec) in Result(sq, Physical(Log(history), sign))
            && GroupKey(pq.groupBy, rec) !in Result(pq, Records(Live(history)))
  {
    var sq, pq := Compile(Clickhouse, CollapsingMergeTree(sign), r), Compile(Sqlx, BasicTree, r);
    OneInsert(rec);
    OneRow(rec, sign);
    StoredSplitGroup(sign, r, sq, rec);
    var kp := GroupKey(pq.groupBy, rec);
    GroupedHasTexts(Sqlx, r);
    OneGroup(pq, kp, rec);
    ResultKey(pq, kp, [rec]);
  }

  lemma StoredSplitGroup(sign: string, r: Request, sq: Query, rec: Record)
    requires sign != CREATED_AT && CREATED_AT !in r.dimensions && r.having == []
    requires sq == Compile(Clickhouse, CollapsingMergeTree(sign), r) && Admits(r.clickhouse, Clickhouse, Whole(rec), r.le)
    ensures GroupKey(sq.groupBy, rec) in Result(sq, [WithSign(Entry(1, Whole(rec)), sign)])
  {
    var ks, stored := GroupKey(sq.groupBy, rec), WithSign(Entry(1, Whole(rec)), sign);
    SplitSigns(sign, r, sq, rec);
    OneGroup(sq, ks, stored);
    OnlySignCondition(sign, r, sq, ks, [stored]);
    ResultKey(sq, ks, [stored]);
  }

  /** Without grouping, the counts differ: one on ClickHouse, none on Postgres. */
  lemma SplitRowSplitsCounts(sign: string, r: Request, rec: Record, i: nat)
    requires sign != CREATED_AT && CREATED_AT !in r.dimensions && r.having == [] && !Grouped(r)
    requires i < |r.select| && r.select[i].Count?
    requires Admits(r.clickhouse, Clickhouse, Whole(rec), r.le) && !Admits(r.postgres, Sqlx, rec, r.le)
    ensures var sq, pq, history := Compile(Clickhouse, CollapsingMergeTree(sign), r), Compile(Sqlx, BasicTree, r), [Insert(0, rec)];
            var ch, pg := Result(sq, Physical(Log(history), sign)), Result(pq, Records(Live(history)));
            && GroupKey(sq.groupBy, rec) == GroupKey(pq.groupBy, rec) == [] && [] in ch && [] in pg
            && ch[[]][i] == Some(1) && pg[[]][i] == Some(0)
  {
    var sq, pq := Compile(Clickhouse, CollapsingMergeTree(sign), r), Compile(Sqlx, BasicTree, r);
    var stored := WithSign(Entry(1, Whole(rec)), sign);
    OneInsert(rec);
    OneRow(rec, sign);
    SplitSigns(sign, r, sq, rec);
    OneTotal(CountRows, pq, [], rec);
    ResultKey(sq, [], [stored]);
    ResultKey(pq, [], [rec]);
  }

  // ----- the reported time range -----

  /** The range a row is reported under: its bucket, or the requested range where there is none. */
  function ReportedRange(granularity: Option<Granularity>, requested: Range, first: Option<int>, last: Option<int>): Option<Range> {
    match granularity
    case None => Some(requested)
    case Some(g) =>
      var start := if first.Some? then ClipToStart(g, TimeAt(first.value)) else Some(requested.start);
      match (start, last)
      case (None, _) => None
      case (Some(s), None) => Some(Range(s, None))
      case (Some(s), Some(l)) =>
        match ClipToEnd(g, TimeAt(l)) case None => None case Some(e) => Some(Range(s, Some(e)))
  }

  /** Rows of one group lie in one bucket. */
  lemma GroupIsInBucket(client: Client, dimensions: seq<string>, g: Granularity, x: Record, y: Record)
    requires var texts := GroupTexts(client, dimensions, Some(g)); GroupKey(texts, x) == GroupKey(texts, y)
    ensures ClipToStart(g, x.created) == ClipToStart(g, y.created) && ClipToEnd(g, x.created) == ClipToEnd(g, y.created)
  {
    KeysEqual(dimensions, GranularityTexts(client, g), x, y);
    AllTimeExprs(client, g);
    TimeKeysEqual(GranularityTexts(client, g), x, y);
    TextsGroupAlike(g, x.created, y.created);
    ClickhouseKeyIs(g, x.created);
    ClickhouseKeyIs(g, y.created);
    assert [Some(ClickhouseBucket(g, x.created))][0] == [Some(ClickhouseBucket(g, y.created))][0];
    BucketsCoincide(g, x.created, y.created);
  }

  lemma WholeClipsAlike(g: Granularity, t: Time)
    ensures ClipToStart(g, WholeSecond(t)) == ClipToStart(g, t) && ClipToEnd(g, WholeSecond(t)) == ClipToEnd(g, t)
  {
  }

  /** Any creation time found in a group clips to the group's bucket, with or without its fraction of a second. */
  lemma TimeInGroup(q: Query, k: Key, rs: seq<Record>, dimensions: seq<string>, g: Granularity, v: int, rep: Record)
    requires v in GroupValues(q, k, CREATED_AT, rs)
    requires q.groupBy == GroupTexts(q.client, dimensions, Some(g)) && GroupKey(q.groupBy, rep) == k
    ensures ClipToStart(g, TimeAt(v)) == ClipToStart(g, rep.created) && ClipToEnd(g, TimeAt(v)) == ClipToEnd(g, rep.created)
    ensures var w := FloorTo(v, SECOND);
            ClipToStart(g, TimeAt(w)) == ClipToStart(g, rep.created) && ClipToEnd(g, TimeAt(w)) == ClipToEnd(g, rep.created)
  {
    var rec :| rec in rs && InGroup(q, k, rec) && NumOf(rec, CREATED_AT) == Some(v);
    InstantInjective(TimeAt(v), rec.created);
    InstantInjective(TimeAt(FloorTo(v, SECOND)), WholeSecond(rec.created));
    WholeClipsAlike(g, rec.created);
    GroupIsInBucket(q.client, dimensions, g, rec, rep);
  }

  lemma GroupHasTimes(q: Query, k: Key, rs: seq<Record>)
    requires k in Keys(q, rs)
    ensures GroupValues(q, k, CREATED_AT, rs) != {}
  {
    var rec :| rec in rs && Selects(q, rec) && GroupKey(q.groupBy, rec) == k;
    assert NumOf(rec, CREATED_AT) == Some(Instant(rec.created));
    assert Instant(rec.created) in GroupValues(q, k, CREATED_AT, rs);
  }

  ghost function RangeOf(granularity: Option<Granularity>, requested: Range, q: Query, k: Key, rs: seq<Record>): Option<Range> {
    ReportedRange(granularity, requested, Loaded(q.client, MinOf(CREATED_AT), Cell(MinOf(CREATED_AT), q, k, rs)),
                  Loaded(q.client, MaxOf(CREATED_AT), Cell(MaxOf(CREATED_AT), q, k, rs)))
  }

  /** The bucket of a creation time, as a range. */
  function BucketOf(g: Granularity, t: Time): Range {
    Range(ClipToStart(g, t).value, Some(ClipToEnd(g, t).value))
  }

  lemma ReportedBucket(g: Granularity, requested: Range, first: int, last: int, t: Time)
    requires ClipToStart(g, TimeAt(first)) == ClipToStart(g, t) && ClipToEnd(g, TimeAt(last)) == ClipToEnd(g, t)
    ensures ReportedRange(Some(g), requested, Some(first), Some(last)) == Some(BucketOf(g, t))
  {
  }

  /** The range reported for a group that holds rows is the bucket of any of them. */
  lemma GroupRange(q: Query, k: Key, rs: seq<Record>, dimensions: seq<string>, g: Granularity, rep: Record, requested: Range)
    requires k in Keys(q, rs)
    requires q.groupBy == GroupTexts(q.client, dimensions, Some(g)) && GroupKey(q.groupBy, rep) == k
    ensures RangeOf(Some(g), requested, q, k, rs) == Some(BucketOf(g, rep.created))
  {
    var vs := GroupValues(q, k, CREATED_AT, rs);
    GroupHasTimes(q, k, rs);
    var first, last := Least(vs), Greatest(vs);
    TimeInGroup(q, k, rs, dimensions, g, first, rep);
    TimeInGroup(q, k, rs, dimensions, g, last, rep);
    ReportedBucket(g, requested, first, last, rep.created);
    ReportedBucket(g, requested, FloorTo(first, SECOND), FloorTo(last, SECOND), rep.created);
  }

  /** Although minimum and maximum of `created_at` may differ between the clients, the time range reported for a
      group does not: cancelled rows fall into the bucket of the live ones. */
  lemma ReportedRangesAgree(history: seq<Change>, steps: seq<(nat, nat)>, merged: seq<Entry>, sign: string, r: Request, rep: Record, requested: Range)
    requires MergedTo(Log(history), steps, merged) && Comparable(r, sign)
    requires var pq := Compile(Sqlx, BasicTree, r); GroupKey(pq.groupBy, rep) in Result(pq, Records(Live(history)))
    ensures var sq, pq := Compile(Clickhouse, CollapsingMergeTree(sign), r), Compile(Sqlx, BasicTree, r);
            var pg := RangeOf(r.granularity, requested, pq, GroupKey(pq.groupBy, rep), Records(Live(history)));
            && pg == RangeOf(r.granularity, requested, sq, GroupKey(sq.groupBy, rep), Physical(merged, sign))
            && pg == Some(if r.granularity.Some? then BucketOf(r.granularity.value, rep.created) else requested)
  {
    var sq, pq := Compile(Clickhouse, CollapsingMergeTree(sign), r), Compile(Sqlx, BasicTree, r);
    var ks, kp := GroupKey(sq.groupBy, rep), GroupKey(pq.groupBy, rep);
    if r.granularity.Some? {
      SameGroups(history, steps, merged, sign, r, rep);
      GroupedHasTexts(Clickhouse, r);
      GroupedHasTexts(Sqlx, r);
      ResultKey(sq, ks, Physical(merged, sign));
      ResultKey(pq, kp, Records(Live(history)));
      GroupRange(sq, ks, Physical(merged, sign), r.dimensions, r.granularity.value, rep, requested);
      GroupRange(pq, kp, Records(Live(history)), r.dimensions, r.granularity.value, rep, requested);
    }
  }
}
