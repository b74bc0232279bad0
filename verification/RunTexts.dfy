/** What every run of builder calls leaves in the builder, and what its text gives back. */
module RunTexts {
  import opened Text
  import opened SqlLiteral
  import opened Filters
  import opened Aggregates
  import opened TableNames
  import opened QueryBuilding
  import opened BuilderRuns
  import opened QueryReading
  import opened HavingRuns
  import opened WrapperReading
  import T = TopNRuns
  import E = EngineAgreement

  // ----- what the calls ask for, in call order -----

  /** The texts a list of calls asks for, one call after the other. */
  function Collected(calls: seq<Call>, part: Call -> seq<string>): seq<string> {
    if calls == [] then [] else Collected(calls[..|calls| - 1], part) + part(calls[|calls| - 1])
  }

  function ColumnOf(call: Call): seq<string> { if call.SelectColumn? then [call.column] else [] }

  function GroupingOf(call: Call): seq<string> { if call.GroupBy? then [call.column] else [] }

  function OrderOf(call: Call): seq<string> { if call.OrderBy? then [call.column + " " + call.orderText] else [] }

  function OuterOf(call: Call): seq<string> {
    match call
    case OuterSelect(c) => [c]
    case AddTopN(cs, _, column, order) => [RowNumberSql(Join(cs, ", "), column, order)]
    case _ => []
  }

  function LastLimit(calls: seq<Call>): Option<LimitBy> {
    if calls == [] then None
    else
      match calls[|calls| - 1]
      case SetLimitBy(n, cs) => Some(LimitBy(n, cs))
      case _ => LastLimit(calls[..|calls| - 1])
  }

  predicate AsksDistinct(calls: seq<Call>) {
    exists i :: 0 <= i < |calls| && calls[i] == SetDistinct
  }

  /** The builder holds what the calls asked for. */
  predicate HoldsCalls(st: State, calls: seq<Call>) {
    && st.columns == Collected(calls, ColumnOf)
    && st.groupBy == Collected(calls, GroupingOf)
    && st.orderBy == Collected(calls, OrderOf)
    && st.outerSelect == Collected(calls, OuterOf)
    && st.limitBy == LastLimit(calls)
    && st.distinct == AsksDistinct(calls)
  }

  lemma CollectStep(st: State, call: Call)
    ensures Apply(st, call).columns == st.columns + ColumnOf(call)
    ensures Apply(st, call).groupBy == st.groupBy + GroupingOf(call)
    ensures Apply(st, call).orderBy == st.orderBy + OrderOf(call)
    ensures Apply(st, call).outerSelect == st.outerSelect + OuterOf(call)
  {
    assert st.columns + [] == st.columns && st.groupBy + [] == st.groupBy;
    assert st.orderBy + [] == st.orderBy && st.outerSelect + [] == st.outerSelect;
  }

  lemma LastStep(st: State, call: Call)
    ensures Apply(st, call).limitBy == if call.SetLimitBy? then Some(LimitBy(call.limit, call.columns)) else st.limitBy
    ensures Apply(st, call).distinct == (st.distinct || call == SetDistinct)
  {
  }

  lemma DistinctStep(calls: seq<Call>)
    requires calls != []
    ensures AsksDistinct(calls) <==> AsksDistinct(calls[..|calls| - 1]) || calls[|calls| - 1] == SetDistinct
  {
    var before := calls[..|calls| - 1];
    if AsksDistinct(before) {
      var i :| 0 <= i < |before| && before[i] == SetDistinct;
      assert calls[i] == SetDistinct;
    }
    if AsksDistinct(calls) {
      var i :| 0 <= i < |calls| && calls[i] == SetDistinct;
      assert i < |before| ==> before[i] == SetDistinct;
    }
  }

  /** For every run of a new builder: columns, groupings, order items and outer columns are those of their calls in call
      order, the limit is that of the last call that sets one, and the flag is set if and only if some call sets it. */
  lemma {:induction false} RunHoldsCalls(client: Client, table: Collection, calls: seq<Call>)
    ensures HoldsCalls(Run(NewState(client, table), calls), calls)
  {
    if calls == [] {
    } else {
      var before, last := calls[..|calls| - 1], calls[|calls| - 1];
      RunHoldsCalls(client, table, before);
      CollectStep(Run(NewState(client, table), before), last);
      LastStep(Run(NewState(client, table), before), last);
      DistinctStep(calls);
    }
  }

  // ----- runs whose text is readable -----

  ghost predicate FilterOk(f: Filter) {
    Printable(f) && Complete(f)
  }

  ghost predicate CallOk(client: Client, engine: Engine, call: Call) {
    match call
    case SelectColumn(c) => c != "" && ItemOk(c, 0)
    case CustomFilter(l, r, op) => FilterOk(Plain(l, op, r))
    case FilterIn(key, vs) => FilterOk(Plain(key, In, SanitizedList(vs)))
    case NestedFilter(f) => FilterOk(f)
    case GroupBy(c) => GroupColumnOk(c)
    case OrderBy(c, o) => OrderOk(c + " " + o)
    case SetLimitBy(n, cs) => LimitOk(LimitBy(n, cs))
    case Having(a, op, v) => HavingOk(HavingEntry(AggregateSql(client, engine, a), op, v))
    case _ => T.CallOk(call)
  }

  /** Every argument is readable; the run names a column, not one that begins with DISTINCT, and a filter. */
  ghost predicate RunOk(client: Client, table: Collection, calls: seq<Call>) {
    && HasTable(client, table)
    && (forall i :: 0 <= i < |calls| ==> CallOk(client, TableEngine(client, table), calls[i]))
    && Collected(calls, ColumnOf) != [] && !("DISTINCT" <= Collected(calls, ColumnOf)[0])
    && AddedFilters(calls) != []
  }

  ghost predicate PartOk(part: Call -> seq<string>, ok: string -> bool, call: Call) {
    forall i :: 0 <= i < |part(call)| ==> ok(part(call)[i])
  }

  lemma {:induction false} CollectedOk(calls: seq<Call>, part: Call -> seq<string>, ok: string -> bool)
    requires forall i :: 0 <= i < |calls| ==> PartOk(part, ok, calls[i])
    ensures forall i :: 0 <= i < |Collected(calls, part)| ==> ok(Collected(calls, part)[i])
  {
    if calls == [] {
    } else {
      CollectedOk(calls[..|calls| - 1], part, ok);
      assert PartOk(part, ok, calls[|calls| - 1]);
    }
  }

  lemma {:induction false} LastLimitOk(client: Client, engine: Engine, calls: seq<Call>)
    requires forall i :: 0 <= i < |calls| ==> CallOk(client, engine, calls[i])
    ensures LastLimit(calls).Some? ==> LimitOk(LastLimit(calls).value)
  {
    if calls == [] {
    } else {
      assert CallOk(client, engine, calls[|calls| - 1]);
      LastLimitOk(client, engine, calls[..|calls| - 1]);
    }
  }

  lemma {:induction false} AddedOk(client: Client, engine: Engine, calls: seq<Call>)
    requires forall i :: 0 <= i < |calls| ==> CallOk(client, engine, calls[i])
    ensures forall f :: f in AddedFilters(calls) ==> FilterOk(f)
  {
    if calls == [] {
    } else {
      assert CallOk(client, engine, calls[|calls| - 1]);
      AddedOk(client, engine, calls[..|calls| - 1]);
    }
  }

  lemma {:induction false} UserOk(st: State, calls: seq<Call>)
    requires forall i :: 0 <= i < |calls| ==> CallOk(st.client, st.engine, calls[i])
    ensures forall e :: e in UserHaving(st, calls) ==> HavingOk(e)
  {
    if calls == [] {
    } else {
      assert CallOk(st.client, st.engine, calls[|calls| - 1]);
      UserOk(st, calls[..|calls| - 1]);
    }
  }

  predicate SelectOk(c: string) { c != "" && ItemOk(c, 0) }

  lemma PartsOk(client: Client, engine: Engine, call: Call)
    requires CallOk(client, engine, call)
    ensures PartOk(ColumnOf, SelectOk, call) && PartOk(GroupingOf, GroupColumnOk, call) && PartOk(OrderOf, OrderOk, call)
  {
  }

  lemma OuterPartOk(client: Client, engine: Engine, call: Call)
    requires CallOk(client, engine, call)
    ensures PartOk(OuterOf, SelectOk, call)
  {
    if call.AddTopN? {
      T.RowNumberItem(call.columns, call.orderColumn, call.order);
    }
  }

  /** The clauses of a readable run. */
  lemma RunClausesOk(client: Client, table: Collection, calls: seq<Call>)
    requires RunOk(client, table, calls)
    ensures var st := Run(NewState(client, table), calls);
            && (forall i :: 0 <= i < |st.columns| ==> SelectOk(st.columns[i]))
            && (forall i :: 0 <= i < |st.groupBy| ==> GroupColumnOk(st.groupBy[i]))
            && (forall i :: 0 <= i < |st.outerSelect| ==> SelectOk(st.outerSelect[i]))
            && TailOk(st)
  {
    var engine := TableEngine(client, table);
    RunHoldsCalls(client, table, calls);
    forall i | 0 <= i < |calls|
      ensures PartOk(ColumnOf, SelectOk, calls[i]) && PartOk(GroupingOf, GroupColumnOk, calls[i])
      ensures PartOk(OrderOf, OrderOk, calls[i]) && PartOk(OuterOf, SelectOk, calls[i])
    {
      PartsOk(client, engine, calls[i]);
      OuterPartOk(client, engine, calls[i]);
    }
    CollectedOk(calls, ColumnOf, SelectOk);
    CollectedOk(calls, GroupingOf, GroupColumnOk);
    CollectedOk(calls, OrderOf, OrderOk);
    CollectedOk(calls, OuterOf, SelectOk);
    LastLimitOk(client, engine, calls);
  }

  lemma RootOk(fs: seq<Filter>)
    requires fs != [] && forall f :: f in fs ==> FilterOk(f)
    ensures Printable(Nested(And, fs)) && Complete(Nested(And, fs))
  {
    forall i | 0 <= i < |fs|
      ensures Printable(fs[i]) && Complete(fs[i])
    {
      assert fs[i] in fs;
    }
  }

  lemma RunFiltersOk(client: Client, table: Collection, calls: seq<Call>)
    requires RunOk(client, table, calls)
    ensures var f := Run(NewState(client, table), calls).filters;
            f == Nested(And, AddedFilters(calls)) && Printable(f) && Complete(f)
  {
    RootCollects(NewState(client, table), calls);
    AddedOk(client, TableEngine(client, table), calls);
    RootOk(AddedFilters(calls));
  }

  lemma RunHavingOk(client: Client, table: Collection, calls: seq<Call>)
    requires RunOk(client, table, calls)
    ensures var st := Run(NewState(client, table), calls);
            st.having.Some? ==> st.having.value != [] && forall i :: 0 <= i < |st.having.value| ==> HavingOk(st.having.value[i])
  {
    var start := NewState(client, table);
    TablesNamed(client, table);
    E.NameOk(client, table);
    UserOk(start, calls);
    SignEntryOk(start);
    HavingMeansConjunction(start, calls);
    EntriesAreOk(Run(start, calls), UserHaving(start, calls), SignPushed(start, calls), SignEntry(start));
  }

  lemma EntriesAreOk(st: State, user: seq<HavingEntry>, pushed: bool, sign: HavingEntry)
    requires HavingIs(st, user, pushed, sign) && HavingOk(sign) && forall e :: e in user ==> HavingOk(e)
    ensures st.having.Some? ==> st.having.value != [] && forall i :: 0 <= i < |st.having.value| ==> HavingOk(st.having.value[i])
  {
    if st.having.Some? {
      var hs := st.having.value;
      forall i | 0 <= i < |hs|
        ensures HavingOk(hs[i])
      {
        assert hs[i] in HavingList(st);
      }
      if pushed {
        assert sign in HavingList(st);
      } else {
        assert user[0] in user && user[0] in HavingList(st);
      }
    }
  }

  lemma RunIsReadable(client: Client, table: Collection, calls: seq<Call>)
    requires RunOk(client, table, calls)
    ensures Readable(Run(NewState(client, table), calls)) && TailOk(Run(NewState(client, table), calls))
  {
    TablesNamed(client, table);
    E.NameOk(client, table);
    ClientIsFixed(NewState(client, table), calls);
    RunHoldsCalls(client, table, calls);
    RunClausesOk(client, table, calls);
    RunFiltersOk(client, table, calls);
    RunHavingOk(client, table, calls);
  }

  // ----- the text -----

  /** A base text reads as a query with these clauses. */
  predicate ReadsAs(text: string, d: Dialect, distinct: bool, columns: seq<string>, groupBy: seq<string>,
                    orders: seq<string>, limit: Option<LimitBy>) {
    match ReadSelect(text, d)
    case None => false
    case Some(s) =>
      && s.distinct == distinct && s.items == columns && s.groupBy == groupBy
      && ReadTail(s.tail) == Some((orders, limit))
  }

  lemma BaseReads(st: State, d: Dialect)
    requires Readable(st) && TailOk(st)
    ensures ReadsAs(BaseSql(st), d, st.distinct, st.columns, st.groupBy, st.orderBy, st.limitBy)
    ensures ReadSelect(BaseSql(st), d).value.where_ == FilterCond(st.filters, d)
    ensures ReadSelect(BaseSql(st), d).value.table == st.table.value
  {
    BaseSqlReads(st, d);
    TailReads(st);
  }

  /** The base text of a run gives back the flag, the columns, the groupings, the order items in call order and the last
      limit; its table and the conjunction of the added filters. */
  lemma RunBaseReads(client: Client, table: Collection, calls: seq<Call>, d: Dialect)
    requires RunOk(client, table, calls)
    ensures var st := Run(NewState(client, table), calls);
            && st.table.Some? && Printable(Nested(And, AddedFilters(calls)))
            && ReadsAs(BaseSql(st), d, AsksDistinct(calls), Collected(calls, ColumnOf), Collected(calls, GroupingOf),
                       Collected(calls, OrderOf), LastLimit(calls))
            && ReadSelect(BaseSql(st), d).value.where_ == FilterCond(Nested(And, AddedFilters(calls)), d)
            && TableOf(client, ReadSelect(BaseSql(st), d).value.table) == Some(table)
  {
    var st := Run(NewState(client, table), calls);
    RunHoldsCalls(client, table, calls);
    RunIsReadable(client, table, calls);
    RunFiltersOk(client, table, calls);
    BaseReads(st, d);
    ClientIsFixed(NewState(client, table), calls);
    TablesNamed(client, table);
    NamesTable(client, table);
  }

  /** The text of a run, wrappers peeled off: a top-n call leaves a bound around the outer columns around the base text,
      other outer columns leave just these around it, and without any the text is the base text. */
  lemma RunTextReads(client: Client, table: Collection, calls: seq<Call>)
    requires RunOk(client, table, calls)
    ensures var st, outer := Run(NewState(client, table), calls), Collected(calls, OuterOf);
            st.table.Some? &&
            if T.LastTopN(calls).Some? then
              && T.LastTopN(calls).value.AddTopN?
              && ReadTopN(QuerySql(st)) == Some((WrapOuter(st, BaseSql(st)), T.LastTopN(calls).value.count))
              && ReadOuter(WrapOuter(st, BaseSql(st))) == Some((outer, BaseSql(st)))
            else if outer != [] then ReadOuter(QuerySql(st)) == Some((outer, BaseSql(st)))
            else QuerySql(st) == BaseSql(st)
  {
    var start := NewState(client, table);
    var st := Run(start, calls);
    RunHoldsCalls(client, table, calls);
    RunIsReadable(client, table, calls);
    RunClausesOk(client, table, calls);
    T.LastTopNIsKept(start, calls);
    if T.LastTopN(calls).None? {
      NoTopN(start, calls);
    }
    TopNColumnIsSelected(client, table, calls);
    if st.topN.Some? {
      WrappedReads(st);
    } else if st.outerSelect != [] {
      OuterReads(st.outerSelect, BaseSql(st));
    }
  }

  lemma {:induction false} NoTopN(st: State, calls: seq<Call>)
    requires st.topN.None? && T.LastTopN(calls).None?
    ensures Run(st, calls).topN.None?
  {
    if calls == [] {
    } else {
      NoTopN(st, calls[..|calls| - 1]);
      TopNStays(Run(st, calls[..|calls| - 1]), calls[|calls| - 1]);
    }
  }

  lemma TopNStays(st: State, call: Call)
    requires !call.AddTopN?
    ensures Apply(st, call).topN == st.topN
  {
  }
}
