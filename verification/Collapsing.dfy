/** Signed rows: a table kept as +1/-1 rows answers like the live table. */
module Collapsing {
  import opened Text
  import opened Filters
  import opened TimeBuckets

  /** A stored row: its column texts, its numeric columns and its creation time. */
  datatype Record = Record(cells: Row, nums: map<string, int>, created: Time)

  /** A live row under its primary key. */
  datatype Keyed = Keyed(id: nat, rec: Record)

  /** A row of the collapsing table. */
  datatype Entry = Entry(sign: int, rec: Record)

  datatype Change = Insert(id: nat, rec: Record) | Update(id: nat, rec: Record) | Delete(id: nat)

  // ----- the two tables a history leaves behind -----

  function Position(live: seq<Keyed>, id: nat): (p: Option<nat>)
    ensures p.Some? ==> p.value < |live| && live[p.value].id == id
    ensures p.None? ==> forall i :: 0 <= i < |live| ==> live[i].id != id
  {
    if live == [] then None
    else if live[0].id == id then Some(0)
    else match Position(live[1..], id) case None => None case Some(p) => Some(p + 1)
  }

  /** An insert of a present key and a change of an absent one leave the table as it is. */
  function ApplyLive(live: seq<Keyed>, change: Change): seq<Keyed> {
    match (change, Position(live, change.id))
    case (Insert(id, rec), None) => live + [Keyed(id, rec)]
    case (Update(id, rec), Some(p)) => live[p := Keyed(id, rec)]
    case (Delete(_), Some(p)) => live[..p] + live[p + 1..]
    case _ => live
  }

  /** A row as its event carries it and the signed table stores it: creation times are whole seconds. */
  function Whole(rec: Record): Record {
    rec.(created := WholeSecond(rec.created))
  }

  /** The rows a change writes: the old state is cancelled by a -1 row, the new one added by a +1 row. */
  function ChangeEntries(live: seq<Keyed>, change: Change): seq<Entry> {
    match (change, Position(live, change.id))
    case (Insert(_, rec), None) => [Entry(1, Whole(rec))]
    case (Update(_, rec), Some(p)) => [Entry(-1, Whole(live[p].rec)), Entry(1, Whole(rec))]
    case (Delete(_), Some(p)) => [Entry(-1, Whole(live[p].rec))]
    case _ => []
  }

  function Live(history: seq<Change>): seq<Keyed> {
    if history == [] then []
    else ApplyLive(Live(history[..|history| - 1]), history[|history| - 1])
  }

  function Log(history: seq<Change>): seq<Entry> {
    if history == [] then []
    else
      var before := history[..|history| - 1];
      Log(before) + ChangeEntries(Live(before), history[|history| - 1])
  }

  function Records(live: seq<Keyed>): (rs: seq<Record>)
    ensures |rs| == |live|
    ensures forall i :: 0 <= i < |live| ==> rs[i] == live[i].rec
  {
    seq(|live|, i requires 0 <= i < |live| => live[i].rec)
  }

  /** The live rows as their events carry them. */
  function Shipped(live: seq<Keyed>): (rs: seq<Record>)
    ensures |rs| == |live|
    ensures forall i :: 0 <= i < |live| ==> rs[i] == Whole(live[i].rec)
  {
    seq(|live|, i requires 0 <= i < |live| => Whole(live[i].rec))
  }

  // ----- background merges -----

  predicate Matched(log: seq<Entry>, i: nat, j: nat) {
    i < j < |log| && log[i].rec == log[j].rec && log[i].sign == -log[j].sign
  }

  function Collapse(log: seq<Entry>, i: nat, j: nat): seq<Entry>
    requires i < j < |log|
  {
    log[..i] + log[i + 1..j] + log[j + 1..]
  }

  /** `merged` comes from `log` by dropping matched pairs one after another. */
  ghost predicate MergedTo(log: seq<Entry>, steps: seq<(nat, nat)>, merged: seq<Entry>)
    decreases |steps|
  {
    if steps == [] then merged == log
    else
      var (i, j) := steps[0];
      Matched(log, i, j) && MergedTo(Collapse(log, i, j), steps[1..], merged)
  }

  // ----- weighted totals -----

  function Total(rs: seq<Record>, w: Record -> int): int {
    if rs == [] then 0 else w(rs[0]) + Total(rs[1..], w)
  }

  function SignedTotal(log: seq<Entry>, w: Record -> int): int {
    if log == [] then 0 else log[0].sign * w(log[0].rec) + SignedTotal(log[1..], w)
  }

  lemma {:induction false} TotalConcat(a: seq<Record>, b: seq<Record>, w: Record -> int)
    ensures Total(a + b, w) == Total(a, w) + Total(b, w)
  {
    if a == [] {
      assert a + b == b;
    } else {
      assert (a + b)[1..] == a[1..] + b;
      TotalConcat(a[1..], b, w);
    }
  }

  lemma {:induction false} SignedTotalConcat(a: seq<Entry>, b: seq<Entry>, w: Record -> int)
    ensures SignedTotal(a + b, w) == SignedTotal(a, w) + SignedTotal(b, w)
  {
    if a == [] {
      assert a + b == b;
    } else {
      assert (a + b)[1..] == a[1..] + b;
      SignedTotalConcat(a[1..], b, w);
    }
  }

  /** Splitting a table around one of its rows. */
  lemma TotalAround(live: seq<Keyed>, p: nat, w: Record -> int)
    requires p < |live|
    ensures Total(Shipped(live), w)
         == Total(Shipped(live[..p]), w) + w(Whole(live[p].rec)) + Total(Shipped(live[p + 1..]), w)
  {
    var here := [Whole(live[p].rec)];
    assert Shipped(live) == Shipped(live[..p]) + (here + Shipped(live[p + 1..]));
    TotalConcat(Shipped(live[..p]), here + Shipped(live[p + 1..]), w);
    assert (here + Shipped(live[p + 1..]))[1..] == Shipped(live[p + 1..]);
  }

  lemma UpdateTotal(live: seq<Keyed>, p: nat, k: Keyed, w: Record -> int)
    requires p < |live|
    ensures Total(Shipped(live[p := k]), w) == Total(Shipped(live), w) - w(Whole(live[p].rec)) + w(Whole(k.rec))
  {
    var after := live[p := k];
    TotalAround(live, p, w);
    TotalAround(after, p, w);
    assert after[..p] == live[..p] && after[p + 1..] == live[p + 1..];
  }

  lemma DeleteTotal(live: seq<Keyed>, p: nat, w: Record -> int)
    requires p < |live|
    ensures Total(Shipped(live[..p] + live[p + 1..]), w) == Total(Shipped(live), w) - w(Whole(live[p].rec))
  {
    TotalAround(live, p, w);
    assert Shipped(live[..p] + live[p + 1..]) == Shipped(live[..p]) + Shipped(live[p + 1..]);
    TotalConcat(Shipped(live[..p]), Shipped(live[p + 1..]), w);
  }

  lemma InsertTotal(live: seq<Keyed>, k: Keyed, w: Record -> int)
    ensures Total(Shipped(live + [k]), w) == Total(Shipped(live), w) + w(Whole(k.rec))
  {
    assert Shipped(live + [k]) == Shipped(live) + [Whole(k.rec)];
    TotalConcat(Shipped(live), [Whole(k.rec)], w);
    assert [Whole(k.rec)][1..] == [];
  }

  lemma OneEntry(e: Entry, w: Record -> int)
    ensures SignedTotal([e], w) == e.sign * w(e.rec)
  {
    assert [e][1..] == [];
  }

  lemma ChangeTotal(live: seq<Keyed>, change: Change, w: Record -> int)
    ensures Total(Shipped(ApplyLive(live, change)), w)
         == Total(Shipped(live), w) + SignedTotal(ChangeEntries(live, change), w)
  {
    match (change, Position(live, change.id))
    case (Insert(id, rec), None) =>
      InsertTotal(live, Keyed(id, rec), w);
      OneEntry(Entry(1, Whole(rec)), w);
    case (Update(id, rec), Some(p)) =>
      UpdateTotal(live, p, Keyed(id, rec), w);
      SignedTotalConcat([Entry(-1, Whole(live[p].rec))], [Entry(1, Whole(rec))], w);
      OneEntry(Entry(-1, Whole(live[p].rec)), w);
      OneEntry(Entry(1, Whole(rec)), w);
    case (Delete(_), Some(p)) =>
      DeleteTotal(live, p, w);
      OneEntry(Entry(-1, Whole(live[p].rec)), w);
    case _ =>
  }

  /** Conservation: after every history, any weighted total over the signed rows is that of the live rows. */
  lemma {:induction false} HistoryTotal(history: seq<Change>, w: Record -> int)
    ensures SignedTotal(Log(history), w) == Total(Shipped(Live(history)), w)
  {
    if history == [] {
    } else {
      var before := history[..|history| - 1];
      HistoryTotal(before, w);
      ChangeTotal(Live(before), history[|history| - 1], w);
      SignedTotalConcat(Log(before), ChangeEntries(Live(before), history[|history| - 1]), w);
    }
  }

  lemma CollapseTotal(log: seq<Entry>, i: nat, j: nat, w: Record -> int)
    requires Matched(log, i, j)
    ensures SignedTotal(Collapse(log, i, j), w) == SignedTotal(log, w)
  {
    var a, x, b, y, c := log[..i], [log[i]], log[i + 1..j], [log[j]], log[j + 1..];
    assert log == a + (x + (b + (y + c)));
    SignedTotalConcat(a, x + (b + (y + c)), w);
    SignedTotalConcat(x, b + (y + c), w);
    SignedTotalConcat(b, y + c, w);
    SignedTotalConcat(y, c, w);
    assert Collapse(log, i, j) == a + (b + c);
    SignedTotalConcat(a, b + c, w);
    SignedTotalConcat(b, c, w);
    CancelPair(log[i].sign, log[j].sign, w(log[i].rec));
  }

  lemma CancelPair(s: int, t: int, v: int)
    requires s == -t
    ensures s * v + t * v == 0
  {
  }

  /** No merge, in any order, changes a signed total. */
  lemma {:induction false} MergeTotal(log: seq<Entry>, steps: seq<(nat, nat)>, merged: seq<Entry>, w: Record -> int)
    requires MergedTo(log, steps, merged)
    ensures SignedTotal(merged, w) == SignedTotal(log, w)
    decreases |steps|
  {
    if steps == [] {
    } else {
      var (i, j) := steps[0];
      CollapseTotal(log, i, j, w);
      MergeTotal(Collapse(log, i, j), steps[1..], merged, w);
    }
  }
}
