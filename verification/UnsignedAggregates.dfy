/** Minimum, maximum and distinct count ignore the sign column: which rows they see, and exactly when they are right. */
module UnsignedAggregates {
  import opened Text
  import opened Filters
  import opened Aggregates
  import opened TimeBuckets
  import opened Extremes
  import opened Collapsing
  import opened Queries

  function Indicator(x: Record): Record -> int {
    rec => if rec == x then 1 else 0
  }

  lemma {:induction false} TotalIsCount(rs: seq<Record>, x: Record)
    ensures Total(rs, Indicator(x)) == multiset(rs)[x]
  {
    if rs == [] {
    } else {
      TotalIsCount(rs[1..], x);
      assert rs == [rs[0]] + rs[1..];
    }
  }

  function Stored(log: seq<Entry>): (rs: seq<Record>)
    ensures |rs| == |log|
    ensures forall i :: 0 <= i < |log| ==> rs[i] == log[i].rec
  {
    seq(|log|, i requires 0 <= i < |log| => log[i].rec)
  }

  lemma {:induction false} AbsentTotal(log: seq<Entry>, x: Record)
    requires x !in Stored(log)
    ensures SignedTotal(log, Indicator(x)) == 0
  {
    if log == [] {
    } else {
      assert Stored(log)[0] == log[0].rec && Stored(log)[0] in Stored(log);
      assert Stored(log)[1..] == Stored(log[1..]);
      assert forall r :: r in Stored(log)[1..] ==> r in Stored(log);
      AbsentTotal(log[1..], x);
    }
  }

  lemma SignedCopies(history: seq<Change>, steps: seq<(nat, nat)>, merged: seq<Entry>, x: Record)
    requires MergedTo(Log(history), steps, merged)
    ensures SignedTotal(merged, Indicator(x)) == multiset(Shipped(Live(history)))[x]
  {
    HistoryTotal(history, Indicator(x));
    MergeTotal(Log(history), steps, merged, Indicator(x));
    TotalIsCount(Shipped(Live(history)), x);
  }

  /** Every live row is still among the stored rows, however they were merged. */
  lemma LiveIsStored(history: seq<Change>, steps: seq<(nat, nat)>, merged: seq<Entry>, x: Record)
    requires MergedTo(Log(history), steps, merged)
    requires x in Shipped(Live(history))
    ensures x in Stored(merged)
  {
    SignedCopies(history, steps, merged, x);
    if x !in Stored(merged) {
      AbsentTotal(merged, x);
    }
  }

  // ----- the fully merged table -----

  ghost predicate FullyMerged(log: seq<Entry>) {
    forall i, j :: 0 <= i < j < |log| ==> !Matched(log, i, j)
  }

  predicate UnitSigns(log: seq<Entry>) {
    forall i :: 0 <= i < |log| ==> log[i].sign == 1 || log[i].sign == -1
  }

  lemma {:induction false} LogSigns(history: seq<Change>)
    ensures UnitSigns(Log(history))
  {
    if history == [] {
    } else {
      LogSigns(history[..|history| - 1]);
    }
  }

  lemma {:induction false} MergedSigns(log: seq<Entry>, steps: seq<(nat, nat)>, merged: seq<Entry>)
    requires MergedTo(log, steps, merged) && UnitSigns(log)
    ensures UnitSigns(merged)
    decreases |steps|
  {
    if steps == [] {
    } else {
      var (i, j) := steps[0];
      MergedSigns(Collapse(log, i, j), steps[1..], merged);
    }
  }

  /** When every copy of a row carries the same sign, its signed total is that sign times its copies. */
  lemma {:induction false} UniformTotal(log: seq<Entry>, x: Record, sign: int)
    requires forall i :: 0 <= i < |log| && log[i].rec == x ==> log[i].sign == sign
    ensures SignedTotal(log, Indicator(x)) == sign * multiset(Stored(log))[x]
  {
    if log == [] {
    } else {
      UniformTotal(log[1..], x, sign);
      StoredCopies(log, x);
      Distribute(sign, Indicator(x)(log[0].rec), multiset(Stored(log[1..]))[x]);
    }
  }

  lemma StoredCopies(log: seq<Entry>, x: Record)
    requires log != []
    ensures multiset(Stored(log))[x] == Indicator(x)(log[0].rec) + multiset(Stored(log[1..]))[x]
  {
    assert Stored(log) == [log[0].rec] + Stored(log[1..]);
  }

  lemma Distribute(sign: int, a: int, b: int)
    ensures sign * (a + b) == sign * a + sign * b
  {
  }

  lemma UniformSign(merged: seq<Entry>, i: nat)
    requires FullyMerged(merged) && UnitSigns(merged) && i < |merged|
    ensures forall j :: 0 <= j < |merged| && merged[j].rec == merged[i].rec ==> merged[j].sign == merged[i].sign
  {
    forall j | 0 <= j < |merged| && merged[j].rec == merged[i].rec
      ensures merged[j].sign == merged[i].sign
    {
      if i < j { assert !Matched(merged, i, j); }
      if j < i { assert !Matched(merged, j, i); }
    }
  }

  /** A row with a stored copy has as many live copies, all added. */
  lemma CopiesOfStored(merged: seq<Entry>, i: nat, live: nat)
    requires FullyMerged(merged) && UnitSigns(merged) && i < |merged|
    requires SignedTotal(merged, Indicator(merged[i].rec)) == live
    ensures merged[i].sign == 1 && multiset(Stored(merged))[merged[i].rec] == live
  {
    var x, sign := merged[i].rec, merged[i].sign;
    UniformSign(merged, i);
    UniformTotal(merged, x, sign);
    assert Stored(merged)[i] == x;
    SignOfCount(sign, multiset(Stored(merged))[x], live);
  }

  lemma SignOfCount(sign: int, copies: nat, live: nat)
    requires (sign == 1 || sign == -1) && copies >= 1 && sign * copies == live
    ensures sign == 1 && copies == live
  {
  }

  lemma CopiesOf(history: seq<Change>, steps: seq<(nat, nat)>, merged: seq<Entry>, x: Record)
    requires MergedTo(Log(history), steps, merged) && FullyMerged(merged)
    ensures multiset(Stored(merged))[x] == multiset(Shipped(Live(history)))[x]
    ensures forall i :: 0 <= i < |merged| && merged[i].rec == x ==> merged[i].sign == 1
  {
    LogSigns(history);
    MergedSigns(Log(history), steps, merged);
    SignedCopies(history, steps, merged, x);
    forall i | 0 <= i < |merged| && merged[i].rec == x
      ensures merged[i].sign == 1 && multiset(Stored(merged))[x] == multiset(Shipped(Live(history)))[x]
    {
      CopiesOfStored(merged, i, multiset(Shipped(Live(history)))[x]);
    }
    if x !in Stored(merged) {
      AbsentTotal(merged, x);
    }
  }

  /** Whatever the merge order, a table with nothing left to merge holds the live rows and only those. */
  lemma FullyMergedIsLive(history: seq<Change>, steps: seq<(nat, nat)>, merged: seq<Entry>)
    requires MergedTo(Log(history), steps, merged) && FullyMerged(merged)
    ensures multiset(Stored(merged)) == multiset(Shipped(Live(history)))
    ensures forall i :: 0 <= i < |merged| ==> merged[i].sign == 1
  {
    forall x: Record
      ensures multiset(Stored(merged))[x] == multiset(Shipped(Live(history)))[x]
    {
      CopiesOf(history, steps, merged, x);
    }
    forall i | 0 <= i < |merged|
      ensures merged[i].sign == 1
    {
      CopiesOf(history, steps, merged, merged[i].rec);
    }
  }

  // ----- which rows are stored -----

  /** The rows of the -1 entries. */
  function Cancelled(log: seq<Entry>): seq<Record> {
    if log == [] then []
    else (if log[0].sign == -1 then [log[0].rec] else []) + Cancelled(log[1..])
  }

  lemma {:induction false} CopiesBySign(log: seq<Entry>, x: Record)
    requires UnitSigns(log)
    ensures SignedTotal(log, Indicator(x)) + 2 * multiset(Cancelled(log))[x] == multiset(Stored(log))[x]
  {
    if log == [] {
    } else {
      CopiesBySign(log[1..], x);
      StoredCopies(log, x);
      CancelledCopies(log, x);
      var here := Indicator(x)(log[0].rec);
      assert log[0].sign * here == if log[0].sign == -1 then -here else here;
    }
  }

  lemma CancelledCopies(log: seq<Entry>, x: Record)
    requires log != []
    ensures multiset(Cancelled(log))[x]
         == (if log[0].sign == -1 then Indicator(x)(log[0].rec) else 0) + multiset(Cancelled(log[1..]))[x]
  {
  }

  /** A table holds the live rows and, for every cancelled row not yet merged away, that row twice. */
  lemma StoredExactly(history: seq<Change>, steps: seq<(nat, nat)>, merged: seq<Entry>)
    requires MergedTo(Log(history), steps, merged)
    ensures multiset(Stored(merged))
         == multiset(Shipped(Live(history))) + multiset(Cancelled(merged)) + multiset(Cancelled(merged))
  {
    LogSigns(history);
    MergedSigns(Log(history), steps, merged);
    forall x: Record
      ensures multiset(Stored(merged))[x] == multiset(Shipped(Live(history)))[x] + 2 * multiset(Cancelled(merged))[x]
    {
      SignedCopies(history, steps, merged, x);
      CopiesBySign(merged, x);
    }
  }

  lemma StoredMembers(history: seq<Change>, steps: seq<(nat, nat)>, merged: seq<Entry>, x: Record)
    requires MergedTo(Log(history), steps, merged)
    ensures x in Stored(merged) <==> x in Shipped(Live(history)) || x in Cancelled(merged)
  {
    StoredExactly(history, steps, merged);
    assert x in Stored(merged) <==> x in multiset(Stored(merged));
    assert x in Shipped(Live(history)) <==> x in multiset(Shipped(Live(history)));
    assert x in Cancelled(merged) <==> x in multiset(Cancelled(merged));
  }

  // ----- what a history overwrote -----

  /** The versions of rows that a history replaced or deleted, in order, as their events carry them. */
  function Overwritten(history: seq<Change>): seq<Record> {
    if history == [] then []
    else
      var before, change := history[..|history| - 1], history[|history| - 1];
      Overwritten(before) +
      match Position(Live(before), change.id)
      case None => []
      case Some(p) => if change.Insert? then [] else [Whole(Live(before)[p].rec)]
  }

  lemma {:induction false} CancelledConcat(a: seq<Entry>, b: seq<Entry>)
    ensures Cancelled(a + b) == Cancelled(a) + Cancelled(b)
  {
    if a == [] {
      assert a + b == b;
    } else {
      assert (a + b)[1..] == a[1..] + b;
      CancelledConcat(a[1..], b);
      var first := if a[0].sign == -1 then [a[0].rec] else [];
      assert first + (Cancelled(a[1..]) + Cancelled(b)) == first + Cancelled(a[1..]) + Cancelled(b);
    }
  }

  lemma CancelledByChange(live: seq<Keyed>, change: Change)
    ensures Cancelled(ChangeEntries(live, change))
         == match Position(live, change.id)
            case None => []
            case Some(p) => if change.Insert? then [] else [Whole(live[p].rec)]
  {
    match (change, Position(live, change.id))
    case (Insert(_, rec), None) => OneCancelled(Entry(1, Whole(rec)));
    case (Update(_, rec), Some(p)) =>
      CancelledConcat([Entry(-1, Whole(live[p].rec))], [Entry(1, Whole(rec))]);
      OneCancelled(Entry(-1, Whole(live[p].rec)));
      OneCancelled(Entry(1, Whole(rec)));
    case (Delete(_), Some(p)) => OneCancelled(Entry(-1, Whole(live[p].rec)));
    case _ =>
  }

  lemma OneCancelled(e: Entry)
    ensures Cancelled([e]) == if e.sign == -1 then [e.rec] else []
  {
    assert [e][1..] == [];
  }

  /** Before any merge the cancelled rows are exactly the versions the history overwrote. */
  lemma {:induction false} CancelledIsOverwritten(history: seq<Change>)
    ensures Cancelled(Log(history)) == Overwritten(history)
  {
    if history == [] {
    } else {
      var before, change := history[..|history| - 1], history[|history| - 1];
      CancelledIsOverwritten(before);
      CancelledConcat(Log(before), ChangeEntries(Live(before), change));
      CancelledByChange(Live(before), change);
    }
  }

  // ----- the aggregates -----

  /** The values of a group: those of its live rows and of its cancelled rows not yet merged away. */
  lemma StoredValues(history: seq<Change>, steps: seq<(nat, nat)>, merged: seq<Entry>, q: Query, k: Key, col: string)
    requires MergedTo(Log(history), steps, merged)
    ensures GroupValues(q, k, col, Stored(merged))
         == GroupValues(q, k, col, Shipped(Live(history))) + GroupValues(q, k, col, Cancelled(merged))
  {
    forall rec: Record
      ensures rec in Stored(merged) <==> rec in Shipped(Live(history)) || rec in Cancelled(merged)
    {
      StoredMembers(history, steps, merged, rec);
    }
    ValuesOfUnion(q, k, col, Stored(merged), Shipped(Live(history)), Cancelled(merged));
  }

  lemma StoredCells(history: seq<Change>, steps: seq<(nat, nat)>, merged: seq<Entry>, q: Query, k: Key, col: string)
    requires MergedTo(Log(history), steps, merged)
    ensures GroupCells(q, k, col, Stored(merged))
         == GroupCells(q, k, col, Shipped(Live(history))) + GroupCells(q, k, col, Cancelled(merged))
  {
    forall rec: Record
      ensures rec in Stored(merged) <==> rec in Shipped(Live(history)) || rec in Cancelled(merged)
    {
      StoredMembers(history, steps, merged, rec);
    }
    CellsOfUnion(q, k, col, Stored(merged), Shipped(Live(history)), Cancelled(merged));
  }

  lemma ValuesOfUnion(q: Query, k: Key, col: string, rs: seq<Record>, a: seq<Record>, b: seq<Record>)
    requires forall rec: Record :: rec in rs <==> rec in a || rec in b
    ensures GroupValues(q, k, col, rs) == GroupValues(q, k, col, a) + GroupValues(q, k, col, b)
  {
  }

  lemma CellsOfUnion(q: Query, k: Key, col: string, rs: seq<Record>, a: seq<Record>, b: seq<Record>)
    requires forall rec: Record :: rec in rs <==> rec in a || rec in b
    ensures GroupCells(q, k, col, rs) == GroupCells(q, k, col, a) + GroupCells(q, k, col, b)
  {
  }

  /** In a group with a live value the unsigned minimum is too low or right, the maximum too high or right; the
      distinct count is too large or right. Each is right exactly when no cancelled row of the group that is still
      stored beats the live ones; with nothing left to merge there is none. */
  lemma UnsignedBounds(history: seq<Change>, steps: seq<(nat, nat)>, merged: seq<Entry>, q: Query, k: Key, col: string)
    requires MergedTo(Log(history), steps, merged)
    ensures var live, stored := GroupValues(q, k, col, Shipped(Live(history))), GroupValues(q, k, col, Stored(merged));
            var cancelled := GroupValues(q, k, col, Cancelled(merged));
            && stored == live + cancelled
            && (live != {} ==>
                  && stored != {}
                  && Least(stored) <= Least(live)
                  && Greatest(stored) >= Greatest(live)
                  && (Least(stored) == Least(live) <==> forall v :: v in cancelled ==> v >= Least(live))
                  && (Greatest(stored) == Greatest(live) <==> forall v :: v in cancelled ==> v <= Greatest(live)))
    ensures var live, stored := GroupCells(q, k, col, Shipped(Live(history))), GroupCells(q, k, col, Stored(merged));
            |stored| >= |live| && (|stored| == |live| <==> GroupCells(q, k, col, Cancelled(merged)) <= live)
    ensures FullyMerged(merged) ==> Cancelled(merged) == []
  {
    StoredValues(history, steps, merged, q, k, col);
    var live := GroupValues(q, k, col, Shipped(Live(history)));
    if live != {} {
      ExtremesOfUnion(live, GroupValues(q, k, col, Cancelled(merged)));
    }
    StoredCells(history, steps, merged, q, k, col);
    SizeOfUnion(GroupCells(q, k, col, Shipped(Live(history))), GroupCells(q, k, col, Cancelled(merged)));
    if FullyMerged(merged) {
      FullyMergedIsLive(history, steps, merged);
      NoneCancelled(merged);
    }
  }

  lemma {:induction false} NoneCancelled(log: seq<Entry>)
    requires forall i :: 0 <= i < |log| ==> log[i].sign == 1
    ensures Cancelled(log) == []
  {
    if log == [] {
    } else {
      NoneCancelled(log[1..]);
    }
  }

  /** Before any merge: right exactly when no version the history overwrote in the group beats the live rows. */
  lemma UnmergedBounds(history: seq<Change>, q: Query, k: Key, col: string)
    ensures var live, stored := GroupValues(q, k, col, Shipped(Live(history))), GroupValues(q, k, col, Stored(Log(history)));
            var versions := GroupValues(q, k, col, Overwritten(history));
            live != {} ==>
              && stored != {}
              && (Least(stored) == Least(live) <==> forall v :: v in versions ==> v >= Least(live))
              && (Greatest(stored) == Greatest(live) <==> forall v :: v in versions ==> v <= Greatest(live))
    ensures var live, stored := GroupCells(q, k, col, Shipped(Live(history))), GroupCells(q, k, col, Stored(Log(history)));
            |stored| == |live| <==> GroupCells(q, k, col, Overwritten(history)) <= live
  {
    UnsignedBounds(history, [], Log(history), q, k, col);
    CancelledIsOverwritten(history);
  }

  /** The bounds are strict before merging: an update from 5 to 7 leaves the minimum at 5 and two distinct values. */
  lemma UnsignedIsOffBeforeMerge(t: Time)
    ensures var before, after := Record(map[], map["amount" := 5], t), Record(map[], map["amount" := 7], t);
            var history := [Insert(1, before), Update(1, after)];
            var q := Query(Clickhouse, AllOf([]), (x, y) => true, [], [], []);
            && MergedTo(Log(history), [], Log(history))
            && GroupValues(q, [], "amount", Stored(Log(history))) == {5, 7}
            && GroupValues(q, [], "amount", Shipped(Live(history))) == {7}
  {
    var before, after := Record(map[], map["amount" := 5], t), Record(map[], map["amount" := 7], t);
    var first, history := [Insert(1, before)], [Insert(1, before), Update(1, after)];
    var q := Query(Clickhouse, AllOf([]), (x, y) => true, [], [], []);
    assert history[..1] == first && first[..0] == [];
    assert Live([]) == [] && Log([]) == [];
    assert Live(first) == [Keyed(1, before)] && Log(first) == [Entry(1, Whole(before))];
    assert Live(history) == [Keyed(1, after)];
    assert Log(history) == [Entry(1, Whole(before)), Entry(-1, Whole(before)), Entry(1, Whole(after))];
    TwoValues(q, Whole(before), Whole(after));
    assert Stored(Log(history)) == [Whole(before), Whole(before), Whole(after)];
    assert Shipped(Live(history)) == [Whole(after)];
  }

  lemma TwoValues(q: Query, a: Record, b: Record)
    requires q.where_ == AllOf([]) && q.groupBy == [] && NumOf(a, "amount") == Some(5) && NumOf(b, "amount") == Some(7)
    ensures GroupValues(q, [], "amount", [a, a, b]) == {5, 7} && GroupValues(q, [], "amount", [b]) == {7}
  {
    assert GroupKey([], a) == [] && GroupKey([], b) == [];
    assert Selects(q, a) && Selects(q, b);
    assert a in [a, a, b] && b in [a, a, b];
  }
}
