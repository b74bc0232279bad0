/** From the calls of a builder run to the rows its top-n text keeps. */
module TopNRuns {
  import opened Text
  import opened Filters
  import opened Aggregates
  import opened QueryBuilding
  import opened QueryReading
  import opened WrapperReading
  import opened TopRows
  import BuilderRuns

  // ----- reading the whole text -----

  const AS_TOP_N := " as top_n"

  /** The outer column can be what `top_n` in the wrapper's condition refers to. */
  predicate NamesTopN(item: string) {
    item == "top_n" || (|item| >= |AS_TOP_N| && item[|item| - |AS_TOP_N|..] == AS_TOP_N)
  }

  function Named(items: seq<string>): seq<string> {
    if items == [] then [] else (if NamesTopN(items[0]) then [items[0]] else []) + Named(items[1..])
  }

  /** The window, the bound and the base query of a text; the name `top_n` must refer to one column. */
  function TopOf(text: string): Option<(Window, nat, string)> {
    match ReadTopN(text)
    case None => None
    case Some((inner, n)) =>
      match ReadOuter(inner)
      case None => None
      case Some((items, base)) =>
        if |Named(items)| != 1 then None
        else (match ReadWindow(Named(items)[0]) case None => None case Some(w) => Some((w, n, base)))
  }

  // ----- what a run leaves in the outer select -----

  function NamingCall(call: Call): nat {
    if call.AddTopN? || (call.OuterSelect? && NamesTopN(call.column)) then 1 else 0
  }

  /** How many calls of a run add a column called `top_n`. */
  function NamingCalls(calls: seq<Call>): nat {
    if calls == [] then 0 else NamingCalls(calls[..|calls| - 1]) + NamingCall(calls[|calls| - 1])
  }

  function LastTopN(calls: seq<Call>): Option<Call> {
    if calls == [] then None
    else if calls[|calls| - 1].AddTopN? then Some(calls[|calls| - 1])
    else LastTopN(calls[..|calls| - 1])
  }

  lemma {:induction false} NamedConcat(a: seq<string>, b: seq<string>)
    ensures Named(a + b) == Named(a) + Named(b)
  {
    if a == [] {
      assert a + b == b;
    } else {
      assert (a + b)[1..] == a[1..] + b;
      NamedConcat(a[1..], b);
      var first := if NamesTopN(a[0]) then [a[0]] else [];
      assert first + (Named(a[1..]) + Named(b)) == first + Named(a[1..]) + Named(b);
    }
  }

  lemma OneNamed(item: string)
    ensures Named([item]) == if NamesTopN(item) then [item] else []
  {
    assert [item][1..] == [];
  }

  lemma RowNumberNamesTopN(partition: string, col: string, o: Direction)
    ensures NamesTopN(RowNumberSql(partition, col, o))
  {
    var front := WINDOW + partition + " order by " + col + " " + DirectionSql(o) + ")";
    assert ") as top_n" == ")" + AS_TOP_N;
    Assoc(WINDOW + partition + " order by " + col + " " + DirectionSql(o), ")", AS_TOP_N);
    PrefixOfSum(front, AS_TOP_N);
  }

  lemma NamedStep(st: State, call: Call)
    ensures |Named(Apply(st, call).outerSelect)| == |Named(st.outerSelect)| + NamingCall(call)
  {
    match call
    case OuterSelect(c) =>
      NamedConcat(st.outerSelect, [c]);
      OneNamed(c);
    case AddTopN(cs, n, col, o) =>
      var item := RowNumberSql(Join(cs, ", "), col, o);
      NamedConcat(st.outerSelect, [item]);
      OneNamed(item);
      RowNumberNamesTopN(Join(cs, ", "), col, o);
    case _ =>
  }

  lemma {:induction false} NamedCount(st: State, calls: seq<Call>)
    requires st.outerSelect == []
    ensures |Named(Run(st, calls).outerSelect)| == NamingCalls(calls)
  {
    if calls == [] {
    } else {
      NamedCount(st, calls[..|calls| - 1]);
      NamedStep(Run(st, calls[..|calls| - 1]), calls[|calls| - 1]);
    }
  }

  lemma {:induction false} NamedMember(items: seq<string>, item: string)
    requires item in items && NamesTopN(item)
    ensures item in Named(items)
  {
    if items[0] == item {
      assert Named(items)[0] == item;
    } else {
      NamedMember(items[1..], item);
    }
  }

  function BoundOf(call: Call): TopN
    requires call.AddTopN?
  {
    TopN(Join(call.columns, ", "), call.count, call.orderColumn, call.order)
  }

  lemma {:induction false} LastTopNIsKept(st: State, calls: seq<Call>)
    requires st.topN.None?
    ensures LastTopN(calls).Some? ==> LastTopN(calls).value.AddTopN? && Run(st, calls).topN == Some(BoundOf(LastTopN(calls).value))
  {
    if calls == [] {
    } else {
      LastTopNIsKept(st, calls[..|calls| - 1]);
    }
  }

  // ----- the row-number column is a readable item -----

  lemma ItemOpen(rest: string, depth: nat)
    ensures ItemOk("(" + rest, depth) == ItemOk(rest, depth + 1)
  {
    PrefixOfSum("(", rest);
  }

  lemma ItemClose(rest: string, depth: nat)
    requires depth > 0
    ensures ItemOk(")" + rest, depth) == ItemOk(rest, depth - 1)
  {
    PrefixOfSum(")", rest);
  }

  lemma ItemSpace(rest: string)
    requires rest != "" && rest[0] != 'F'
    ensures ItemOk(" " + rest, 0) == ItemOk(rest, 0)
  {
    PrefixOfSum(" ", rest);
    assert (" " + rest)[1] == rest[0];
  }

  /** Inside parentheses balanced text does not matter. */
  lemma {:induction false} ItemBalanced(c: string, inner: nat, rest: string, depth: nat)
    requires Enclosed(c, inner) && depth >= 1
    ensures ItemOk(c + rest, depth + inner) == ItemOk(rest, depth)
  {
    if c == "" {
      assert c + rest == rest;
    } else {
      assert (c + rest)[1..] == c[1..] + rest;
      ItemBalanced(c[1..], if c[0] == '(' then inner + 1 else if c[0] == ')' then inner - 1 else inner, rest, depth);
    }
  }

  lemma {:induction false} ItemList(cs: seq<string>, rest: string)
    requires forall i :: 0 <= i < |cs| ==> Enclosed(cs[i], 0)
    ensures ItemOk(Join(cs, ", ") + rest, 1) == ItemOk(rest, 1)
  {
    if cs == [] {
      assert "" + rest == rest;
    } else if |cs| == 1 {
      ItemBalanced(cs[0], 0, rest, 1);
    } else {
      var more := Join(cs[1..], ", ") + rest;
      JoinStep(cs, ", ", rest);
      ItemBalanced(cs[0], 0, ", " + more, 1);
      ItemWord(", ", more, 1);
      ItemList(cs[1..], rest);
    }
  }

  predicate OrderColumnOk(col: string) {
    ' ' !in col && Enclosed(col, 0)
  }

  lemma AliasItem()
    ensures ItemOk(") as top_n", 1)
  {
    assert ") as top_n" == ")" + (" " + ("as" + (" " + "top_n")));
    ItemClose(" " + ("as" + (" " + "top_n")), 1);
    AliasWords();
  }

  predicate PlainWord(w: string) {
    w != "" && w[0] != 'F' && forall i :: 0 <= i < |w| ==> w[i] != ' ' && w[i] != ',' && w[i] != '(' && w[i] != ')'
  }

  lemma TwoWords(a: string, b: string)
    requires PlainWord(a) && PlainWord(b)
    ensures ItemOk(" " + (a + (" " + b)), 0)
  {
    ItemWord(b, "", 0);
    assert b + "" == b;
    ItemSpace(b);
    ItemWord(a, " " + b, 0);
    ItemSpace(a + (" " + b));
  }

  lemma AliasWords()
    ensures ItemOk(" " + ("as" + (" " + "top_n")), 0)
  {
    TwoWords("as", "top_n");
  }

  lemma ClosingItem(o: Direction)
    ensures ItemOk(" " + (DirectionSql(o) + ") as top_n"), 1)
  {
    Assoc(" ", DirectionSql(o), ") as top_n");
    ItemWord(" " + DirectionSql(o), ") as top_n", 1);
    AliasItem();
  }

  lemma OpeningItem(rest: string)
    ensures ItemOk(WINDOW + rest, 0) == ItemOk(rest, 1)
  {
    WindowText(rest);
    var inner := "partition by " + rest;
    ItemWord("partition by ", rest, 1);
    ItemOpen(inner, 0);
    ItemSpace("(" + inner);
    ItemWord("over", " " + ("(" + inner), 0);
    ItemSpace("over" + (" " + ("(" + inner)));
    ItemClose(" " + ("over" + (" " + ("(" + inner))), 1);
    ItemOpen(")" + (" " + ("over" + (" " + ("(" + inner)))), 0);
    ItemWord("row_number", "(" + (")" + (" " + ("over" + (" " + ("(" + inner))))), 0);
  }

  lemma WindowText(rest: string)
    ensures WINDOW + rest == "row_number" + ("(" + (")" + (" " + ("over" + (" " + ("(" + ("partition by " + rest)))))))
  {
    assert WINDOW == "row_number" + ("(" + (")" + (" " + ("over" + (" " + ("(" + "partition by "))))));
    Assoc("(", "partition by ", rest);
    Assoc(" ", "(" + "partition by ", rest);
    Assoc("over", " " + ("(" + "partition by "), rest);
    Assoc(" ", "over" + (" " + ("(" + "partition by ")), rest);
    Assoc(")", " " + ("over" + (" " + ("(" + "partition by "))), rest);
    Assoc("(", ")" + (" " + ("over" + (" " + ("(" + "partition by ")))), rest);
    Assoc("row_number", "(" + (")" + (" " + ("over" + (" " + ("(" + "partition by "))))), rest);
  }

  lemma RowNumberItem(cs: seq<string>, col: string, o: Direction)
    requires OrderColumnOk(col) && forall i :: 0 <= i < |cs| ==> Enclosed(cs[i], 0)
    ensures var item := RowNumberSql(Join(cs, ", "), col, o); item != "" && ItemOk(item, 0)
  {
    var closing := " " + (DirectionSql(o) + ") as top_n");
    WindowShape(Join(cs, ", "), col, o);
    OpeningItem(Join(cs, ", ") + (" order by " + (col + closing)));
    MiddleItem(cs, col, closing);
    ClosingItem(o);
  }

  lemma MiddleItem(cs: seq<string>, col: string, closing: string)
    requires OrderColumnOk(col) && forall i :: 0 <= i < |cs| ==> Enclosed(cs[i], 0)
    ensures ItemOk(Join(cs, ", ") + (" order by " + (col + closing)), 1) == ItemOk(closing, 1)
  {
    ItemList(cs, " order by " + (col + closing));
    ItemWord(" order by ", col + closing, 1);
    ItemBalanced(col, 0, closing, 1);
  }

  // ----- the run -----

  /** The arguments of the calls that add outer columns are readable. */
  predicate CallOk(call: Call) {
    match call
    case OuterSelect(c) => c != "" && ItemOk(c, 0)
    case AddTopN(cs, _, col, _) => OrderColumnOk(col) && forall i :: 0 <= i < |cs| ==> GroupColumnOk(cs[i])
    case _ => true
  }

  predicate OuterOk(st: State) {
    forall i :: 0 <= i < |st.outerSelect| ==> st.outerSelect[i] != "" && ItemOk(st.outerSelect[i], 0)
  }

  lemma OuterStep(st: State, call: Call)
    requires OuterOk(st) && CallOk(call)
    ensures OuterOk(Apply(st, call))
  {
    if call.AddTopN? {
      RowNumberItem(call.columns, call.orderColumn, call.order);
    }
  }

  lemma {:induction false} OuterItemsOk(st: State, calls: seq<Call>)
    requires OuterOk(st) && forall i :: 0 <= i < |calls| ==> CallOk(calls[i])
    ensures OuterOk(Run(st, calls))
  {
    if calls == [] {
    } else {
      OuterItemsOk(st, calls[..|calls| - 1]);
      OuterStep(Run(st, calls[..|calls| - 1]), calls[|calls| - 1]);
    }
  }

  lemma {:induction false} LastTopNIsCalled(calls: seq<Call>)
    requires LastTopN(calls).Some?
    ensures LastTopN(calls).value in calls
  {
    if calls[|calls| - 1].AddTopN? {
    } else {
      LastTopNIsCalled(calls[..|calls| - 1]);
    }
  }

  /** For every run that asks for the top rows, the text says which rows those are if and only if exactly one call of
      the run adds a column called `top_n` and that call names a partition; then it says the partition, the order and
      the bound that were asked for, around the base query. */
  lemma TopNRunExact(client: Client, table: Collection, calls: seq<Call>)
    requires TableName(client, table).Some? && LastTopN(calls).Some? && forall i :: 0 <= i < |calls| ==> CallOk(calls[i])
    ensures var st, top := Run(NewState(client, table), calls), LastTopN(calls).value;
            && top.AddTopN? && st.table.Some?
            && TopOf(QuerySql(st))
               == if NamingCalls(calls) == 1 && top.columns != []
                  then Some((Window(top.columns, top.orderColumn, top.order), top.count, BaseSql(st))) else None
  {
    var st := Run(NewState(client, table), calls);
    LastTopNIsKept(NewState(client, table), calls);
    LastTopNIsCalled(calls);
    BuilderRuns.ClientIsFixed(NewState(client, table), calls);
    BuilderRuns.TopNColumnIsSelected(client, table, calls);
    OuterItemsOk(NewState(client, table), calls);
    WrappedReads(st);
    TopOfReads(QuerySql(st), WrapOuter(st, BaseSql(st)), st.topN.value.count, st.outerSelect, BaseSql(st));
    NamedCount(NewState(client, table), calls);
    TheNamedColumn(st, LastTopN(calls).value);
  }

  lemma TopOfReads(text: string, inner: string, n: nat, items: seq<string>, base: string)
    requires ReadTopN(text) == Some((inner, n)) && ReadOuter(inner) == Some((items, base))
    ensures TopOf(text)
         == if |Named(items)| == 1 && ReadWindow(Named(items)[0]).Some?
            then Some((ReadWindow(Named(items)[0]).value, n, base)) else None
  {
  }

  lemma OnlyNamed(items: seq<string>, item: string)
    requires item in items && NamesTopN(item) && |Named(items)| == 1
    ensures Named(items)[0] == item
  {
    NamedMember(items, item);
  }

  lemma TheNamedColumn(st: State, top: Call)
    requires top.AddTopN? && CallOk(top) && RowNumberSql(Join(top.columns, ", "), top.orderColumn, top.order) in st.outerSelect
    ensures |Named(st.outerSelect)| == 1 ==>
              ReadWindow(Named(st.outerSelect)[0])
              == if top.columns == [] then None else Some(Window(top.columns, top.orderColumn, top.order))
  {
    RowNumberNamesTopN(Join(top.columns, ", "), top.orderColumn, top.order);
    if |Named(st.outerSelect)| == 1 {
      OnlyNamed(st.outerSelect, RowNumberSql(Join(top.columns, ", "), top.orderColumn, top.order));
    }
    WindowReads(top.columns, top.orderColumn, top.order);
  }

  /** What a text keeps of the rows of its base query: for every way of numbering them, min(n, size) rows of each
      partition, none of them behind a row that is dropped. */
  ghost predicate KeepsFirst(w: Window, n: nat) {
    forall rows, rn, k :: Numbering(w, rows, rn) ==> FirstKept(w, rows, rn, n, k)
  }

  /** End to end, for every run with one top-n clause over some columns: the window and bound read from its text keep
      the first rows of every partition. */
  lemma TopNRunKeepsTheFirst(client: Client, table: Collection, calls: seq<Call>)
    requires TableName(client, table).Some? && LastTopN(calls).Some? && forall i :: 0 <= i < |calls| ==> CallOk(calls[i])
    requires NamingCalls(calls) == 1 && (LastTopN(calls).value.AddTopN? ==> LastTopN(calls).value.columns != [])
    ensures var st, top := Run(NewState(client, table), calls), LastTopN(calls).value;
            && top.AddTopN? && st.table.Some? && TopOf(QuerySql(st)).Some?
            && var (w, n, base) := TopOf(QuerySql(st)).value;
               && w == Window(top.columns, top.orderColumn, top.order) && n == top.count && base == BaseSql(st)
               && KeepsFirst(w, n)
  {
    TopNRunExact(client, table, calls);
    var top := LastTopN(calls).value;
    var w, n := Window(top.columns, top.orderColumn, top.order), top.count;
    forall rows, rn, k | Numbering(w, rows, rn)
      ensures FirstKept(w, rows, rn, n, k)
    {
      TopNKeepsTheFirst(w, rows, rn, n, k);
    }
  }
}
