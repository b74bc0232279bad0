/** A metric request and the builder calls that turn it into query text on either client. */
module Metrics {
  import opened Text
  import opened Filters
  import opened Aggregates
  import opened Decimal
  import opened TimeBuckets
  import opened TimeTexts
  import opened TimeRanges
  import opened GroupExpressions
  import Q = Queries
  import opened QueryBuilding

  /** What a metric asks for: dimensions and a granularity to group by, aggregates, filters, a time range and HAVING
      conditions. */
  datatype Metric = Metric(
    dimensions: seq<string>, granularity: Option<Granularity>, aggregates: seq<Aggregate>, filters: seq<Filter>,
    range: Range, having: seq<(Aggregate, Comparison, string)>)

  predicate Grouped(m: Metric) {
    m.dimensions != [] || m.granularity.Some?
  }

  function OpOf(cmp: Comparison): FilterType {
    match cmp
    case Eq => Equal
    case Ne => NotEqual
    case Ge => Gte
    case Le => Lte
    case More => Gt
  }

  function AggregateTexts(client: Client, engine: Engine, as_: seq<Aggregate>): (ts: seq<string>)
    ensures |ts| == |as_|
    ensures forall i :: 0 <= i < |as_| ==> ts[i] == AggregateSql(client, engine, as_[i])
  {
    seq(|as_|, i requires 0 <= i < |as_| => AggregateSql(client, engine, as_[i]))
  }

  function Entries(client: Client, engine: Engine, hs: seq<(Aggregate, Comparison, string)>): (es: seq<HavingEntry>)
    ensures |es| == |hs|
    ensures forall i :: 0 <= i < |hs| ==> es[i] == HavingEntry(AggregateSql(client, engine, hs[i].0), OpOf(hs[i].1), hs[i].2)
  {
    seq(|hs|, i requires 0 <= i < |hs| => HavingEntry(AggregateSql(client, engine, hs[i].0), OpOf(hs[i].1), hs[i].2))
  }

  /** The metric's filters and then its range, as the client prints it. */
  function MetricFilters(client: Client, m: Metric): seq<Filter> {
    m.filters + RangeFilters(client, m.range)
  }

  /** The state the metric's calls lead to, for a table and filters. */
  function StateWith(client: Client, engine: Engine, table: Option<string>, m: Metric, filters: seq<Filter>): State {
    var es := Entries(client, engine, Q.FullHaving(engine, Grouped(m), m.having));
    EmptyState(client, engine, table).(
      columns := m.dimensions + AggregateTexts(client, engine, m.aggregates),
      filters := Nested(And, filters),
      groupBy := Q.GroupTexts(client, m.dimensions, m.granularity),
      having := if es == [] then None else Some(es))
  }

  function MetricState(client: Client, table: Collection, m: Metric): State {
    StateWith(client, TableEngine(client, table), TableName(client, table), m, MetricFilters(client, m))
  }

  method SelectAll(qb: QueryBuilder, columns: seq<string>)
    modifies qb`columns
    ensures qb.columns == old(qb.columns) + columns
  {
    for i := 0 to |columns|
      invariant qb.columns == old(qb.columns) + columns[..i]
    {
      qb.AddSelectColumn(columns[i]);
      assert qb.columns == qb.Snapshot().columns;
    }
  }

  method FilterAll(qb: QueryBuilder, filters: seq<Filter>)
    requires qb.filters == Nested(And, [])
    modifies qb`filters
    ensures qb.filters == Nested(And, filters)
  {
    for i := 0 to |filters|
      invariant qb.filters == Nested(And, filters[..i])
    {
      qb.AddNestedFilterClause(filters[i]);
      assert qb.filters == qb.Snapshot().filters;
      assert filters[..i] + [filters[i]] == filters[..i + 1];
    }
  }

  /** `TimeRange::set_filter_clause`: each bound goes through the client's own `ToSql`. */
  method SetRangeClause(qb: QueryBuilder, range: Range, ghost before: seq<Filter>)
    requires qb.filters == Nested(And, before)
    modifies qb`filters
    ensures qb.filters == Nested(And, before + RangeFilters(qb.client, range))
  {
    AddBound(qb, Gte, range.start, before);
    if range.end.Some? {
      ghost var first := Plain(CREATED_AT, Gte, TimeText(qb.client, range.start));
      AddBound(qb, Lte, range.end.value, before + [first]);
      TwoSteps(before, first, Plain(CREATED_AT, Lte, TimeText(qb.client, range.end.value)));
    }
  }

  lemma TwoSteps(fs: seq<Filter>, a: Filter, b: Filter)
    ensures fs + [a] + [b] == fs + ([a] + [b])
  {
  }

  method AddBound(qb: QueryBuilder, op: FilterType, bound: Time, ghost before: seq<Filter>)
    requires qb.filters == Nested(And, before)
    modifies qb`filters
    ensures qb.filters == Nested(And, before + [Plain(CREATED_AT, op, TimeText(qb.client, bound))])
  {
    qb.AddCustomFilterClause(CREATED_AT, TimeText(qb.client, bound), op);
    assert qb.filters == qb.Snapshot().filters;
  }

  method GroupAll(qb: QueryBuilder, columns: seq<string>)
    modifies qb`groupBy
    ensures qb.groupBy == old(qb.groupBy) + columns
  {
    for i := 0 to |columns|
      invariant qb.groupBy == old(qb.groupBy) + columns[..i]
    {
      qb.AddGroupByClause(columns[i]);
      assert qb.groupBy == qb.Snapshot().groupBy;
    }
  }

  lemma TakeStep(es: seq<HavingEntry>, i: nat)
    requires i < |es|
    ensures es[..i + 1] == es[..i] + [es[i]]
  {
  }

  method HavingAll(qb: QueryBuilder, hs: seq<(Aggregate, Comparison, string)>)
    requires qb.having == None
    modifies qb`having
    ensures qb.having == if hs == [] then None else Some(Entries(qb.client, qb.engine, hs))
  {
    ghost var es := Entries(qb.client, qb.engine, hs);
    for i := 0 to |hs|
      invariant qb.having == if i == 0 then None else Some(es[..i])
    {
      ghost var before := qb.Snapshot();
      qb.AddHavingClause(hs[i].0, OpOf(hs[i].1), hs[i].2);
      assert qb.having == qb.Snapshot().having;
      TakeStep(es, i);
    }
    assert es[..|hs|] == es;
  }

  /** `Granularity::set_group_by_clause` of either client. */
  method SetGroupByClause(qb: QueryBuilder, g: Granularity)
    modifies qb`groupBy
    ensures qb.groupBy == old(qb.groupBy) + GranularityTexts(qb.client, g)
  {
    match qb.client {
      case Sqlx =>
        AddGroup(qb, CallSql("DATE_TRUNC", "'" + LevelText(LevelOf(g)) + "', created_at"));
        if BelowHour(g) {
          AddGroup(qb, CallSql("FLOOR", "DATE_PART('minute', created_at)/" + NatText(BucketSize(g))));
        }
      case Clickhouse =>
        if g.ThirtyMin? {
          AddGroup(qb, CallSql("toStartOfInterval", "created_at, INTERVAL " + NatText(30) + " minute"));
        } else {
          AddGroup(qb, CallSql(StartOfName(g), "created_at"));
        }
    }
  }

  method AddGroup(qb: QueryBuilder, text: string)
    modifies qb`groupBy
    ensures qb.groupBy == old(qb.groupBy) + [text]
  {
    qb.AddGroupByClause(text);
    assert qb.groupBy == qb.Snapshot().groupBy;
  }

  /** The calls every metric makes, in their order; the same code runs for either client. */
  method MetricQuery(client: Client, table: Collection, m: Metric) returns (r: Result<string>)
    requires m.dimensions != [] || m.aggregates != []
    ensures TableName(client, table).None? ==> r == Err(SqlSerializeError)
    ensures TableName(client, table).Some? ==> r == Ok(BaseSql(MetricState(client, table, m)))
  {
    var qb := new QueryBuilder(client, table);
    assert qb.client == qb.Snapshot().client && qb.engine == qb.Snapshot().engine && qb.table == qb.Snapshot().table;
    ghost var filters := LoadMetric(qb, m);
    r := BuildMetric(qb, m, filters);
  }

  method BuildMetric(qb: QueryBuilder, m: Metric, ghost filters: seq<Filter>) returns (r: Result<string>)
    requires m.dimensions != [] || m.aggregates != []
    requires qb.Snapshot() == BeforeBuild(qb.client, qb.engine, qb.table, m, filters)
    modifies qb`having
    ensures qb.table.None? ==> r == Err(SqlSerializeError)
    ensures qb.table.Some? ==> r == Ok(BaseSql(StateWith(qb.client, qb.engine, qb.table, m, filters)))
  {
    ghost var st := qb.Snapshot();
    FailsWithoutTable(qb.client, qb.engine, qb.table, m, filters);
    r := BuildState(qb, st);
    if qb.table.Some? {
      AfterBuildIs(qb.client, qb.engine, qb.table, m, filters);
    }
  }

  /** Building a state without outer columns and top-n. */
  method BuildState(qb: QueryBuilder, ghost st: State) returns (r: Result<string>)
    requires qb.Snapshot() == st && st.outerSelect == [] && st.topN.None?
    modifies qb`having
    ensures BuildFails(st).Some? ==> r == Err(BuildFails(st).value)
    ensures BuildFails(st).None? ==> r == Ok(BaseSql(AfterBuild(st)))
  {
    r := qb.BuildQuery();
  }

  method LoadMetric(qb: QueryBuilder, m: Metric) returns (ghost filters: seq<Filter>)
    requires qb.Snapshot() == EmptyState(qb.client, qb.engine, qb.table)
    modifies qb
    ensures qb.Snapshot() == BeforeBuild(qb.client, qb.engine, qb.table, m, filters) && filters == MetricFilters(qb.client, m)
  {
    assert qb.filters == qb.Snapshot().filters && qb.columns == qb.Snapshot().columns == [];
    assert qb.groupBy == qb.Snapshot().groupBy == [] && qb.having == qb.Snapshot().having;
    LoadColumns(qb, m);
    assert [] + m.dimensions == m.dimensions;
    filters := LoadFilters(qb, m);
    LoadGroups(qb, m);
    HavingAll(qb, m.having);
  }

  method LoadFilters(qb: QueryBuilder, m: Metric) returns (ghost filters: seq<Filter>)
    requires qb.filters == Nested(And, [])
    modifies qb`filters
    ensures qb.filters == Nested(And, filters) && filters == MetricFilters(qb.client, m)
  {
    FilterAll(qb, m.filters);
    SetRangeClause(qb, m.range, m.filters);
    filters := MetricFilters(qb.client, m);
  }

  method LoadGroups(qb: QueryBuilder, m: Metric)
    requires qb.groupBy == []
    modifies qb`groupBy
    ensures qb.groupBy == Q.GroupTexts(qb.client, m.dimensions, m.granularity)
  {
    GroupAll(qb, m.dimensions);
    assert qb.groupBy == m.dimensions;
    if m.granularity.Some? {
      SetGroupByClause(qb, m.granularity.value);
    }
  }

  method LoadColumns(qb: QueryBuilder, m: Metric)
    modifies qb`columns
    ensures qb.columns == old(qb.columns) + m.dimensions + AggregateTexts(qb.client, qb.engine, m.aggregates)
  {
    SelectAll(qb, m.dimensions);
    SelectAll(qb, AggregateTexts(qb.client, qb.engine, m.aggregates));
  }

  function BeforeBuild(client: Client, engine: Engine, table: Option<string>, m: Metric, filters: seq<Filter>): State {
    EmptyState(client, engine, table).(
      columns := m.dimensions + AggregateTexts(client, engine, m.aggregates),
      filters := Nested(And, filters),
      groupBy := Q.GroupTexts(client, m.dimensions, m.granularity),
      having := if m.having == [] then None else Some(Entries(client, engine, m.having)))
  }

  lemma EntriesConcat(client: Client, engine: Engine, a: seq<(Aggregate, Comparison, string)>, b: seq<(Aggregate, Comparison, string)>)
    ensures Entries(client, engine, a + b) == Entries(client, engine, a) + Entries(client, engine, b)
  {
  }

  /** Building appends the sign condition and nothing else. */
  lemma AfterBuildIs(client: Client, engine: Engine, table: Option<string>, m: Metric, filters: seq<Filter>)
    requires (m.dimensions != [] || m.aggregates != []) && table.Some?
    ensures AfterBuild(BeforeBuild(client, engine, table, m, filters)) == StateWith(client, engine, table, m, filters)
  {
    var st := BeforeBuild(client, engine, table, m, filters);
    assert Grouped(m) <==> st.groupBy != [];
    if Grouped(m) && engine.CollapsingMergeTree? {
      EntriesConcat(client, engine, m.having, [(Count(None), Ge, "1")]);
      assert Entries(client, engine, [(Count(None), Ge, "1")]) == [SignEntry(st)];
    }
  }

  lemma FailsWithoutTable(client: Client, engine: Engine, table: Option<string>, m: Metric, filters: seq<Filter>)
    requires m.dimensions != [] || m.aggregates != []
    ensures BuildFails(BeforeBuild(client, engine, table, m, filters)) == if table.None? then Some(SqlSerializeError) else None
  {
  }
}
