/** What every sequence of builder calls leaves behind. */
module BuilderRuns {
  import opened Text
  import opened SqlLiteral
  import opened Filters
  import opened Aggregates
  import opened QueryBuilding

  /** The filter a call adds, if it adds one. */
  function FilterOf(call: Call): seq<Filter> {
    match call
    case CustomFilter(l, r, op) => [Plain(l, op, r)]
    case FilterIn(key, vs) => [Plain(key, In, SanitizedList(vs))]
    case NestedFilter(f) => [f]
    case _ => []
  }

  function AddedFilters(calls: seq<Call>): seq<Filter> {
    if calls == [] then [] else AddedFilters(calls[..|calls| - 1]) + FilterOf(calls[|calls| - 1])
  }

  /** Once the root is a conjunction it stays one and just collects what is added. */
  lemma {:induction false} RootCollects(st: State, calls: seq<Call>)
    requires st.filters == Nested(And, [])
    ensures Run(st, calls).filters == Nested(And, AddedFilters(calls))
  {
    if calls == [] {
    } else {
      var before, last := calls[..|calls| - 1], calls[|calls| - 1];
      RootCollects(st, before);
      RootStep(Run(st, before), last, AddedFilters(before));
    }
  }

  lemma RootStep(st: State, call: Call, fs: seq<Filter>)
    requires st.filters == Nested(And, fs)
    ensures Apply(st, call).filters == Nested(And, fs + FilterOf(call))
  {
    assert fs + [] == fs;
  }

  /** For every run from `new` that adds a filter, the WHERE text means the conjunction of all added filters. */
  lemma WhereMeansConjunction(client: Client, table: Collection, calls: seq<Call>)
    requires AddedFilters(calls) != []
    requires forall f :: f in AddedFilters(calls) ==> Printable(f) && Complete(f)
    ensures var st := Run(NewState(client, table), calls);
            && WhereSql(st) == " WHERE " + FilterSql(st.filters)
            && ReadFilter(FilterSql(st.filters), BackslashEscapes).Some?
            && var (c, rest) := ReadFilter(FilterSql(st.filters), BackslashEscapes).value;
               rest == "" &&
               forall row, le :: CondHolds(c, row, le)
                 <==> forall i :: 0 <= i < |AddedFilters(calls)| ==> Holds(AddedFilters(calls)[i], row, le)
  {
    var st := Run(NewState(client, table), calls);
    RootCollects(NewState(client, table), calls);
    PrintedFilterMeansFilter(st.filters);
    assert FilterSql(st.filters)[0] == '(';
  }

  /** A run that adds none still prints a WHERE, with text no engine reads. */
  lemma WithoutFiltersWhereIsUnreadable(client: Client, table: Collection, calls: seq<Call>)
    requires AddedFilters(calls) == []
    ensures WhereSql(Run(NewState(client, table), calls)) == " WHERE (  )"
    ensures forall d :: ReadFilter("(  )", d) == None
  {
    RootCollects(NewState(client, table), calls);
    var root := Nested(And, []);
    assert ItemsSql([], " AND ") == "";
    assert "( " + "" + " )" == "(  )";
    assert FilterSql(root) == "(  )";
    assert " WHERE " + "(  )" == " WHERE (  )";
    forall d
      ensures ReadFilter("(  )", d) == None
    {
      IncompleteDoesNotRead(root, "", d);
      assert FilterSql(root) + "" == "(  )";
    }
  }

  // ----- HAVING -----

  function HavingList(st: State): seq<HavingEntry> {
    if st.having.Some? then st.having.value else []
  }

  /** The conditions the caller asked for. */
  function UserHaving(st: State, calls: seq<Call>): seq<HavingEntry> {
    if calls == [] then []
    else
      var last := calls[|calls| - 1];
      UserHaving(st, calls[..|calls| - 1]) + AskedHaving(st, last)
  }

  function AskedHaving(st: State, call: Call): seq<HavingEntry> {
    if call.Having? then [HavingEntry(AggregateSql(st.client, st.engine, call.aggregate), call.op, call.value)] else []
  }

  /** Some build of the run pushed the sign condition. */
  predicate SignPushed(st: State, calls: seq<Call>) {
    calls != [] &&
    var before := calls[..|calls| - 1];
    || SignPushed(st, before)
    || PushesSign(Run(st, before), calls[|calls| - 1])
  }

  predicate PushesSign(st: State, call: Call) {
    call.Build? && BuildFails(st).None? && st.groupBy != [] && st.engine.CollapsingMergeTree?
  }

  lemma {:induction false} ClientIsFixed(st: State, calls: seq<Call>)
    ensures Run(st, calls).client == st.client && Run(st, calls).engine == st.engine && Run(st, calls).table == st.table
  {
    if calls == [] {
    } else {
      ClientIsFixed(st, calls[..|calls| - 1]);
      ClientStays(Run(st, calls[..|calls| - 1]), calls[|calls| - 1]);
    }
  }

  lemma ClientStays(st: State, call: Call)
    ensures Apply(st, call).client == st.client && Apply(st, call).engine == st.engine && Apply(st, call).table == st.table
  {
  }

  ghost predicate HavingIs(st: State, user: seq<HavingEntry>, pushed: bool, sign: HavingEntry) {
    && (forall e :: e in HavingList(st) <==> e in user || (pushed && e == sign))
    && (st.having.Some? <==> user != [] || pushed)
  }

  lemma HavingStep(st: State, call: Call, user: seq<HavingEntry>, pushed: bool)
    requires HavingIs(st, user, pushed, SignEntry(st))
    ensures HavingIs(Apply(st, call), user + AskedHaving(st, call), pushed || PushesSign(st, call), SignEntry(st))
  {
    var added := if PushesSign(st, call) then [SignEntry(st)] else AskedHaving(st, call);
    assert HavingList(Apply(st, call)) == HavingList(st) + added;
  }

  /** In every run, with however many builds, HAVING means the caller's conditions together with the sign
      condition once a grouped build on a collapsing table has happened. */
  lemma {:induction false} HavingMeansConjunction(st: State, calls: seq<Call>)
    requires st.having == None
    ensures HavingIs(Run(st, calls), UserHaving(st, calls), SignPushed(st, calls), SignEntry(st))
  {
    if calls == [] {
    } else {
      var before := calls[..|calls| - 1];
      HavingMeansConjunction(st, before);
      ClientIsFixed(st, before);
      HavingStep(Run(st, before), calls[|calls| - 1], UserHaving(st, before), SignPushed(st, before));
    }
  }

  // ----- top n -----

  predicate TopNSelected(st: State) {
    st.topN.Some? ==>
      RowNumberSql(st.topN.value.columns, st.topN.value.orderColumn, st.topN.value.order) in st.outerSelect
  }

  lemma TopNStep(st: State, call: Call)
    requires TopNSelected(st)
    ensures TopNSelected(Apply(st, call))
  {
  }

  /** A top-n bound is always accompanied by the outer column that defines `top_n`, so the wrapper that filters
      on it sits above an outer select. */
  lemma {:induction false} TopNColumnIsSelected(client: Client, table: Collection, calls: seq<Call>)
    ensures var st := Run(NewState(client, table), calls);
            TopNSelected(st) && (st.topN.Some? ==> st.outerSelect != [])
  {
    if calls == [] {
    } else {
      TopNColumnIsSelected(client, table, calls[..|calls| - 1]);
      TopNStep(Run(NewState(client, table), calls[..|calls| - 1]), calls[|calls| - 1]);
    }
  }
}
