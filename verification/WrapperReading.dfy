/** Readers for what surrounds the clauses of a query: its ORDER BY and LIMIT BY tail, and the
    outer and top-n selects it may be wrapped in. */
module WrapperReading {
  import opened Text
  import opened Filters
  import opened Decimal
  import opened QueryBuilding
  import opened QueryReading

  // ----- ORDER BY and LIMIT BY -----

  /** A column and a direction. */
  predicate OrderItem(t: string, c: string, o: string) {
    t == c + " " + o && c != "" && Enclosed(c, 0) && o != "" && ' ' !in o && ',' !in o
  }

  predicate OrderOk(t: string) {
    var c := ColumnText(t, 0);
    |c| < |t| && OrderItem(t, c, t[|c| + 1..])
  }

  function ReadOrders(s: string): Option<(seq<string>, string)>
    decreases |s|
  {
    var c := ColumnText(s, 0);
    var rest := s[|c|..];
    if c == "" || rest == "" then None
    else
      var w := Until(rest[1..], IsSpace);
      var after := rest[1..][|w|..];
      if w == "" then None
      else if w[|w| - 1] != ',' then Some(([c + " " + w], after))
      else if after == "" then None
      else
        match ReadOrders(after[1..])
        case None => None
        case Some((more, end)) => Some(([c + " " + w[..|w| - 1]] + more, end))
  }

  function ReadLimit(s: string): Option<Option<LimitBy>> {
    if s == "" then Some(None)
    else if !(" LIMIT " <= s) then None
    else
      var digits := Until(s[7..], IsSpace);
      var rest := s[7..][|digits|..];
      if digits == "" || !AllDigits(digits) || !(" BY " <= rest) then None
      else
        match ReadColumns(rest[4..])
        case Some((cs, "")) => Some(Some(LimitBy(NatValue(digits), cs)))
        case _ => None
  }

  function ReadTail(s: string): Option<(seq<string>, Option<LimitBy>)> {
    if " ORDER BY " <= s then
      match ReadOrders(s[10..])
      case None => None
      case Some((orders, rest)) =>
        (match ReadLimit(rest) case None => None case Some(l) => Some((orders, l)))
    else
      match ReadLimit(s) case None => None case Some(l) => Some(([], l))
  }

  lemma OrderParts(c: string, w: string, after: string)
    requires c != "" && Enclosed(c, 0) && w != "" && ' ' !in w && Boundary(after)
    ensures var s := c + (" " + (w + after));
            && ColumnText(s, 0) == c && s[|c|..] == " " + (w + after)
            && (" " + (w + after))[1..] == w + after
            && Until(w + after, IsSpace) == w && (w + after)[|w|..] == after
  {
    ColumnBefore(c, " " + (w + after));
    PrefixOfSum(" ", w + after);
    SplitWord(w, after);
  }

  lemma LastOrder(c: string, o: string, rest: string)
    requires OrderItem(c + " " + o, c, o) && Boundary(rest)
    ensures ReadOrders(c + " " + o + rest) == Some(([c + " " + o], rest))
  {
    OrderParts(c, o, rest);
    Assoc(c, " ", o);
    Assoc(c, " " + o, rest);
    Assoc(" ", o, rest);
  }

  lemma OrderShape(c: string, o: string, more: string)
    ensures c + " " + o + (", " + more) == c + (" " + (o + "," + (" " + more)))
  {
    assert ", " + more == "," + (" " + more);
    Assoc(o, ",", " " + more);
    Assoc(" ", o, "," + (" " + more));
    Assoc(c, " ", o);
    Assoc(c, " " + o, "," + (" " + more));
  }

  lemma OrderStep(c: string, o: string, more: string, orders: seq<string>, end: string)
    requires OrderItem(c + " " + o, c, o) && ReadOrders(more) == Some((orders, end))
    ensures ReadOrders(c + " " + o + (", " + more)) == Some(([c + " " + o] + orders, end))
  {
    OrderShape(c, o, more);
    OrderMore(c, o, more, orders, end);
  }

  lemma OrderMore(c: string, o: string, more: string, orders: seq<string>, end: string)
    requires OrderItem(c + " " + o, c, o) && ReadOrders(more) == Some((orders, end))
    ensures ReadOrders(c + (" " + (o + "," + (" " + more)))) == Some(([c + " " + o] + orders, end))
  {
    OrderParts(c, o + ",", " " + more);
    PrefixOfSum(" ", more);
    PrefixOfSum(o, ",");
    assert (o + ",")[..|o|] == o;
  }

  lemma {:induction false} ReadJoinedOrders(os: seq<string>, rest: string)
    requires os != [] && Boundary(rest) && forall i :: 0 <= i < |os| ==> OrderOk(os[i])
    ensures ReadOrders(Join(os, ", ") + rest) == Some((os, rest))
  {
    assert OrderOk(os[0]);
    var c := ColumnText(os[0], 0);
    var o := os[0][|c| + 1..];
    if |os| == 1 {
      LastOrder(c, o, rest);
      assert os == [os[0]];
    } else {
      JoinStep(os, ", ", rest);
      ReadJoinedOrders(os[1..], rest);
      OrderStep(c, o, Join(os[1..], ", ") + rest, os[1..], rest);
      assert os == [os[0]] + os[1..];
    }
  }

  predicate LimitOk(l: LimitBy) {
    l.columns != [] && forall i :: 0 <= i < |l.columns| ==> GroupColumnOk(l.columns[i])
  }

  ghost predicate TailOk(st: State) {
    && (forall i :: 0 <= i < |st.orderBy| ==> OrderOk(st.orderBy[i]))
    && (st.limitBy.Some? ==> LimitOk(st.limitBy.value))
  }

  lemma LimitParts(digits: string, columns: string)
    requires ' ' !in digits
    ensures var s := " LIMIT " + digits + " BY " + columns;
            && s != "" && " LIMIT " <= s && s[7..] == digits + (" BY " + columns)
            && Until(s[7..], IsSpace) == digits && s[7..][|digits|..] == " BY " + columns
            && (" BY " + columns)[4..] == columns
  {
    Assoc(" LIMIT " + digits, " BY ", columns);
    Assoc(" LIMIT ", digits, " BY " + columns);
    PrefixOfSum(" LIMIT ", digits + (" BY " + columns));
    SplitWord(digits, " BY " + columns);
    PrefixOfSum(" BY ", columns);
  }

  lemma ReadLimitText(digits: string, columns: string, cs: seq<string>)
    requires digits != "" && AllDigits(digits) && ReadColumns(columns) == Some((cs, ""))
    ensures ReadLimit(" LIMIT " + digits + " BY " + columns) == Some(Some(LimitBy(NatValue(digits), cs)))
  {
    assert ' ' !in digits;
    LimitParts(digits, columns);
    PrefixOfSum(" BY ", columns);
  }

  lemma LimitStart(st: State)
    ensures Boundary(LimitSql(st)) && !(" ORDER BY " <= LimitSql(st))
  {
    if st.limitBy.Some? {
      assert LimitSql(st)[1] == 'L';
    }
  }

  lemma LimitReads(st: State)
    requires TailOk(st)
    ensures ReadLimit(LimitSql(st)) == Some(st.limitBy)
  {
    if st.limitBy.Some? {
      var LimitBy(n, cs) := st.limitBy.value;
      NatTextRoundTrip(n);
      ReadJoinedColumns(cs, "");
      assert Join(cs, ", ") + "" == Join(cs, ", ");
      ReadLimitText(NatText(n), Join(cs, ", "), cs);
    }
  }

  /** The tail of a query gives back its order items and its limit. */
  lemma TailReads(st: State)
    requires TailOk(st)
    ensures ReadTail(TailSql(st)) == Some((st.orderBy, st.limitBy))
  {
    LimitReads(st);
    LimitStart(st);
    if st.orderBy == [] {
      assert TailSql(st) == LimitSql(st);
    } else {
      var body := Join(st.orderBy, ", ");
      Assoc(" ORDER BY ", body, LimitSql(st));
      PrefixOfSum(" ORDER BY ", body + LimitSql(st));
      ReadJoinedOrders(st.orderBy, LimitSql(st));
    }
  }

  // ----- the wrappers -----

  /** The digits at the end of a text. */
  function TrailingDigits(s: string): (r: string)
    ensures |r| <= |s| && AllDigits(r)
  {
    if s == "" || !IsDigit(s[|s| - 1]) then ""
    else TrailingDigits(s[..|s| - 1]) + [s[|s| - 1]]
  }

  const TOP_OPEN := "SELECT * FROM ("
  const TOP_CLOSE := ") _ WHERE top_n <= "

  /** The text inside a top-n wrapper and its bound. */
  function ReadTopN(s: string): Option<(string, nat)> {
    var digits := TrailingDigits(s);
    match Strip(s[..|s| - |digits|], TOP_OPEN, TOP_CLOSE)
    case None => None
    case Some(q) => if digits == "" then None else Some((q, NatValue(digits)))
  }

  /** The outer columns and the text inside the outer select. */
  function ReadOuter(s: string): Option<(seq<string>, string)> {
    if !("SELECT " <= s) then None
    else
      match ReadItems(s[7..])
      case None => None
      case Some((items, rest)) =>
        match Strip(rest, "(", ") _")
        case None => None
        case Some(q) => Some((items, q))
  }

  lemma LastOf(a: string, c: char)
    ensures (a + [c])[..|a|] == a && (a + [c])[|a|] == c
  {
  }

  lemma {:induction false} TrailingAre(front: string, digits: string)
    requires AllDigits(digits) && front != "" && !IsDigit(front[|front| - 1])
    ensures TrailingDigits(front + digits) == digits
  {
    if digits == "" {
      assert front + digits == front;
    } else {
      var init, last := digits[..|digits| - 1], digits[|digits| - 1];
      TrailingAre(front, init);
      assert digits == init + [last];
      Assoc(front, init, [last]);
      LastOf(front + init, last);
    }
  }

  lemma TopNReads(q: string, n: nat)
    ensures ReadTopN(TOP_OPEN + q + TOP_CLOSE + NatText(n)) == Some((q, n))
  {
    var front, digits := TOP_OPEN + q + TOP_CLOSE, NatText(n);
    NatTextRoundTrip(n);
    assert front[|front| - 1] == ' ';
    TrailingAre(front, digits);
    assert (front + digits)[..|front|] == front;
    StripWrapped(q, TOP_OPEN, TOP_CLOSE);
  }

  lemma OuterShape(items: string, q: string)
    ensures "SELECT " + items + " FROM (" + q + ") _" == "SELECT " + (items + (" FROM " + ("(" + q + ") _")))
  {
    assert " FROM (" == " FROM " + "(";
    Assoc("SELECT " + items, " FROM ", "(");
    Assoc("SELECT " + items + " FROM ", "(", q);
    Assoc("SELECT " + items + " FROM ", "(" + q, ") _");
    Assoc("SELECT " + items, " FROM ", "(" + q + ") _");
    Assoc("SELECT ", items, " FROM " + ("(" + q + ") _"));
  }

  lemma OuterReads(items: seq<string>, q: string)
    requires items != [] && forall i :: 0 <= i < |items| ==> items[i] != "" && ItemOk(items[i], 0)
    ensures ReadOuter("SELECT " + Join(items, ", ") + " FROM (" + q + ") _") == Some((items, q))
  {
    var rest := "(" + q + ") _";
    OuterShape(Join(items, ", "), q);
    PrefixOfSum("SELECT ", Join(items, ", ") + (" FROM " + rest));
    ReadJoinedItems(items, rest);
    StripWrapped(q, "(", ") _");
  }

  /** A top-n query, read from the outside in: the bound, the outer columns, and the base query untouched. */
  lemma WrappedReads(st: State)
    requires st.table.Some? && st.topN.Some? && st.outerSelect != []
    requires forall i :: 0 <= i < |st.outerSelect| ==> st.outerSelect[i] != "" && ItemOk(st.outerSelect[i], 0)
    ensures ReadTopN(QuerySql(st)) == Some((WrapOuter(st, BaseSql(st)), st.topN.value.count))
    ensures ReadOuter(WrapOuter(st, BaseSql(st))) == Some((st.outerSelect, BaseSql(st)))
  {
    TopNReads(WrapOuter(st, BaseSql(st)), st.topN.value.count);
    OuterReads(st.outerSelect, BaseSql(st));
  }
}
