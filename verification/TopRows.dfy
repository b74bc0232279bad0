/** The top-n wrapper: `row_number()` per partition in an outer select, filtered by `top_n <= n`. */
module TopRows {
  import opened Text
  import opened Filters
  import opened QueryBuilding
  import opened QueryReading
  import C = Collapsing
  import Q = Queries

  datatype Window = Window(partitionBy: seq<string>, orderBy: string, order: Direction)

  // ----- the window's text -----

  function ReadDirection(s: string): Option<Direction> {
    if s == "asc) as top_n" then Some(Ascending)
    else if s == "desc) as top_n" then Some(Descending)
    else None
  }

  const WINDOW := "row_number() over (partition by "

  /** The order column and direction closing the window. */
  function ReadOrder(s: string): Option<(string, Direction)> {
    if !(" order by " <= s) then None
    else
      var col := Until(s[10..], IsSpace);
      if |col| == |s[10..]| then None
      else
        match ReadDirection(s[10..][|col| + 1..])
        case None => None
        case Some(o) => Some((col, o))
  }

  function ReadWindow(s: string): Option<Window> {
    if !(WINDOW <= s) then None
    else
      match ReadColumns(s[|WINDOW|..])
      case None => None
      case Some((cs, rest)) =>
        match ReadOrder(rest)
        case None => None
        case Some((col, o)) => Some(Window(cs, col, o))
  }

  lemma WindowShape(partition: string, col: string, o: Direction)
    ensures RowNumberSql(partition, col, o)
         == WINDOW + (partition + (" order by " + (col + (" " + (DirectionSql(o) + ") as top_n")))))
  {
    var tail := DirectionSql(o) + ") as top_n";
    Assoc(WINDOW + partition + " order by " + col + " ", DirectionSql(o), ") as top_n");
    Assoc(WINDOW + partition + " order by " + col, " ", tail);
    Assoc(WINDOW + partition + " order by ", col, " " + tail);
    Assoc(WINDOW + partition, " order by ", col + (" " + tail));
    Assoc(WINDOW, partition, " order by " + (col + (" " + tail)));
  }

  lemma DirectionReads(o: Direction)
    ensures ReadDirection(DirectionSql(o) + ") as top_n") == Some(o)
  {
    assert "asc" + ") as top_n" == "asc) as top_n" && "desc" + ") as top_n" == "desc) as top_n";
    assert "asc) as top_n"[0] != "desc) as top_n"[0];
  }

  lemma OrderParts(col: string, dir: string)
    requires ' ' !in col
    ensures var s := " order by " + (col + (" " + dir));
            && " order by " <= s && s[10..] == col + (" " + dir)
            && Until(s[10..], IsSpace) == col
            && s[10..][|col| + 1..] == dir
  {
    PrefixOfSum(" order by ", col + (" " + dir));
    SplitWord(col, " " + dir);
  }

  lemma OrderReads(col: string, o: Direction)
    requires ' ' !in col
    ensures ReadOrder(" order by " + (col + (" " + (DirectionSql(o) + ") as top_n")))) == Some((col, o))
  {
    DirectionReads(o);
    OrderParts(col, DirectionSql(o) + ") as top_n");
  }

  lemma WindowStep(columns: string, rest: string, cs: seq<string>, col: string, o: Direction)
    requires ReadColumns(columns + rest) == Some((cs, rest)) && ReadOrder(rest) == Some((col, o))
    ensures ReadWindow(WINDOW + (columns + rest)) == Some(Window(cs, col, o))
  {
    PrefixOfSum(WINDOW, columns + rest);
  }

  /** The column added for a top-n clause numbers exactly the partitions, column and direction that were asked for;
      without partition columns it does not read. */
  lemma WindowReads(cs: seq<string>, col: string, o: Direction)
    requires forall i :: 0 <= i < |cs| ==> GroupColumnOk(cs[i])
    requires ' ' !in col
    ensures ReadWindow(RowNumberSql(Join(cs, ", "), col, o)) == if cs == [] then None else Some(Window(cs, col, o))
  {
    var rest := " order by " + (col + (" " + (DirectionSql(o) + ") as top_n")));
    WindowShape(Join(cs, ", "), col, o);
    if cs == [] {
      EmptyPartition(rest);
    } else {
      ReadJoinedColumns(cs, rest);
      OrderReads(col, o);
      WindowStep(Join(cs, ", "), rest, cs, col, o);
    }
  }

  lemma EmptyPartition(rest: string)
    requires rest != "" && rest[0] == ' '
    ensures ReadWindow(WINDOW + ("" + rest)) == None
  {
    assert "" + rest == rest;
    PrefixOfSum(WINDOW, rest);
    assert ColumnText(rest, 0) == "";
  }

  // ----- numbering rows -----

  function Partition(w: Window, rows: seq<C.Record>, i: nat): Q.Key
    requires i < |rows|
  {
    Q.GroupKey(w.partitionBy, rows[i])
  }

  /** Row i is ordered strictly before row j. */
  predicate Before(w: Window, rows: seq<C.Record>, i: nat, j: nat)
    requires i < |rows| && j < |rows|
  {
    var a, b := Q.Num(rows[i], w.orderBy), Q.Num(rows[j], w.orderBy);
    if w.order.Ascending? then a < b else a > b
  }

  /** The rows of one partition. */
  function Members(w: Window, rows: seq<C.Record>, k: Q.Key): set<nat> {
    set i: nat | i < |rows| && Partition(w, rows, i) == k
  }

  /** A possible outcome of `row_number()`: distinct numbers from one to the partition's size, in order;
      ties may go either way. */
  ghost predicate Numbering(w: Window, rows: seq<C.Record>, rn: seq<nat>) {
    && |rn| == |rows|
    && (forall i: nat :: i < |rows| ==> 1 <= rn[i] <= |Members(w, rows, Partition(w, rows, i))|)
    && (forall i: nat, j: nat :: i < |rows| && j < |rows| && i != j && Partition(w, rows, i) == Partition(w, rows, j) ==> rn[i] != rn[j])
    && (forall i: nat, j: nat :: i < |rows| && j < |rows| && Partition(w, rows, i) == Partition(w, rows, j) && Before(w, rows, i, j) ==> rn[i] < rn[j])
  }

  /** What the wrapper keeps of a partition. */
  function KeptRows(w: Window, rows: seq<C.Record>, rn: seq<nat>, n: nat, k: Q.Key): set<nat>
    requires |rn| == |rows|
  {
    set i: nat | i in Members(w, rows, k) && rn[i] <= n
  }

  // ----- counting -----

  function UpTo(n: nat): (s: set<nat>)
    ensures |s| == n
    ensures forall v: nat :: v in s <==> 1 <= v <= n
  {
    if n == 0 then {} else UpTo(n - 1) + {n}
  }

  /** An injective image has as many elements. */
  lemma {:induction false} ImageSize(s: set<nat>, rn: seq<nat>, image: set<nat>)
    requires forall i :: i in s ==> i < |rn|
    requires forall i, j :: i in s && j in s && i != j ==> rn[i] != rn[j]
    requires forall v :: v in image <==> exists i :: i in s && rn[i] == v
    ensures |image| == |s|
    decreases |s|
  {
    if s == {} {
      assert image == {};
    } else {
      var i :| i in s;
      ImageSize(s - {i}, rn, image - {rn[i]});
    }
  }

  function Image(s: set<nat>, rn: seq<nat>): set<nat>
    requires forall i :: i in s ==> i < |rn|
  {
    set i | i in s :: rn[i]
  }

  lemma FullSubset(a: set<nat>, b: set<nat>)
    requires a <= b && |a| == |b|
    ensures a == b
  {
    assert b == a + (b - a);
    assert |b| == |a| + |b - a|;
  }

  function Fewer(a: nat, b: nat): nat { if a <= b then a else b }

  predicate Injective(s: set<nat>, rn: seq<nat>) {
    && (forall i :: i in s ==> i < |rn| && 1 <= rn[i] <= |s|)
    && (forall i, j :: i in s && j in s && i != j ==> rn[i] != rn[j])
  }

  /** Distinct numbers from one to the size of the set are all of them. */
  lemma AllNumbersOccur(s: set<nat>, rn: seq<nat>, v: nat)
    requires Injective(s, rn) && 1 <= v <= |s|
    ensures exists i :: i in s && rn[i] == v
  {
    ImageSize(s, rn, Image(s, rn));
    FullSubset(Image(s, rn), UpTo(|s|));
    assert v in UpTo(|s|);
  }

  lemma FirstNumbers(s: set<nat>, kept: set<nat>, rn: seq<nat>, n: nat)
    requires Injective(s, rn)
    requires forall i :: i in kept <==> i in s && rn[i] <= n
    ensures |kept| == Fewer(n, |s|)
  {
    var numbers := UpTo(Fewer(n, |s|));
    forall v: nat
      ensures v in numbers <==> exists i :: i in kept && rn[i] == v
    {
      if v in numbers {
        AllNumbersOccur(s, rn, v);
        var i :| i in s && rn[i] == v;
        assert i in kept;
      }
    }
    ImageSize(kept, rn, numbers);
  }

  /** Of a partition min(n, size) rows are kept, and no row that is dropped comes strictly before one of them. */
  predicate FirstKept(w: Window, rows: seq<C.Record>, rn: seq<nat>, n: nat, k: Q.Key)
    requires |rn| == |rows|
  {
    && |KeptRows(w, rows, rn, n, k)| == Fewer(n, |Members(w, rows, k)|)
    && forall i, j :: i in KeptRows(w, rows, rn, n, k) && j in Members(w, rows, k) - KeptRows(w, rows, rn, n, k)
         ==> !Before(w, rows, j, i)
  }

  /** Every partition keeps min(n, size) rows, whichever way ties are numbered, and no row that is dropped
      comes strictly before one that is kept. */
  lemma TopNKeepsTheFirst(w: Window, rows: seq<C.Record>, rn: seq<nat>, n: nat, k: Q.Key)
    requires Numbering(w, rows, rn)
    ensures FirstKept(w, rows, rn, n, k)
  {
    var s := Members(w, rows, k);
    FirstNumbers(s, KeptRows(w, rows, rn, n, k), rn, n);
    forall i, j | i in s && j in s && rn[i] <= n < rn[j]
      ensures !Before(w, rows, j, i)
    {
      assert Partition(w, rows, i) == Partition(w, rows, j);
    }
  }

  // ----- such a numbering exists -----

  /** Earlier in the order, ties broken by position. */
  predicate Precedes(w: Window, rows: seq<C.Record>, i: nat, j: nat)
    requires i < |rows| && j < |rows|
  {
    Before(w, rows, i, j) || (!Before(w, rows, j, i) && i < j)
  }

  function Earlier(w: Window, rows: seq<C.Record>, j: nat): set<nat>
    requires j < |rows|
  {
    set i: nat | i in Members(w, rows, Partition(w, rows, j)) && Precedes(w, rows, i, j)
  }

  function RowNumbers(w: Window, rows: seq<C.Record>): seq<nat> {
    seq(|rows|, j requires 0 <= j < |rows| => 1 + |Earlier(w, rows, j)|)
  }

  lemma SmallerSet(a: set<nat>, b: set<nat>, x: nat)
    requires a <= b && x in b && x !in a
    ensures |a| < |b|
  {
    assert |b - a| > 0 by { assert x in b - a; }
    assert b == a + (b - a);
    assert |b| == |a| + |b - a|;
  }

  lemma PrecedesCounts(w: Window, rows: seq<C.Record>, i: nat, j: nat)
    requires i < |rows| && j < |rows| && Partition(w, rows, i) == Partition(w, rows, j) && Precedes(w, rows, i, j)
    ensures |Earlier(w, rows, i)| < |Earlier(w, rows, j)|
  {
    assert i in Members(w, rows, Partition(w, rows, j));
    SmallerSet(Earlier(w, rows, i), Earlier(w, rows, j), i);
  }

  lemma NumbersDiffer(w: Window, rows: seq<C.Record>, i: nat, j: nat)
    requires i < |rows| && j < |rows| && i != j && Partition(w, rows, i) == Partition(w, rows, j)
    ensures |Earlier(w, rows, i)| != |Earlier(w, rows, j)|
    ensures Before(w, rows, i, j) ==> |Earlier(w, rows, i)| < |Earlier(w, rows, j)|
  {
    if Precedes(w, rows, i, j) {
      PrecedesCounts(w, rows, i, j);
    } else {
      PrecedesCounts(w, rows, j, i);
    }
  }

  /** Counting predecessors numbers the rows, so the theorem above is about something. */
  lemma RowNumbersIsNumbering(w: Window, rows: seq<C.Record>)
    ensures Numbering(w, rows, RowNumbers(w, rows))
  {
    var rn := RowNumbers(w, rows);
    forall i: nat | i < |rows|
      ensures 1 <= rn[i] <= |Members(w, rows, Partition(w, rows, i))|
    {
      SmallerSet(Earlier(w, rows, i), Members(w, rows, Partition(w, rows, i)), i);
    }
    forall i: nat, j: nat | i < |rows| && j < |rows| && i != j && Partition(w, rows, i) == Partition(w, rows, j)
      ensures rn[i] != rn[j]
    {
      NumbersDiffer(w, rows, i, j);
    }
    forall i: nat, j: nat | i < |rows| && j < |rows| && Partition(w, rows, i) == Partition(w, rows, j) && Before(w, rows, i, j)
      ensures rn[i] < rn[j]
    {
      NumbersDiffer(w, rows, i, j);
    }
  }
}
