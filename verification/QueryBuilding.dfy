/** The mutable query builder: its calls, the state they leave and the SQL text it builds. */
module QueryBuilding {
  import opened Text
  import opened Decimal
  import opened SqlLiteral
  import opened Filters
  import opened Aggregates

  datatype Direction = Ascending | Descending

  function DirectionSql(o: Direction): string {
    match o
    case Ascending => "asc"
    case Descending => "desc"
  }

  datatype TopN = TopN(columns: string, count: nat, orderColumn: string, order: Direction)

  datatype LimitBy = LimitBy(limit: nat, columns: seq<string>)

  datatype HavingEntry = HavingEntry(aggregate: string, op: FilterType, value: string)

  datatype BuildError = InvalidQuery | SqlSerializeError

  datatype Result<T> = Ok(value: T) | Err(error: BuildError)

  /** `table` is absent when the client has no such table. */
  datatype State = State(
    client: Client, engine: Engine, table: Option<string>,
    columns: seq<string>, filters: Filter, groupBy: seq<string>, orderBy: seq<string>,
    having: Option<seq<HavingEntry>>, limitBy: Option<LimitBy>, outerSelect: seq<string>,
    topN: Option<TopN>, distinct: bool)

  /** One builder call, its arguments already rendered by their own `to_sql`. */
  datatype Call =
    | SelectColumn(column: string)
    | CustomFilter(lhs: string, rhs: string, op: FilterType)
    | FilterIn(key: string, values: seq<string>)
    | NestedFilter(filter: Filter)
    | GroupBy(column: string)
    | OrderBy(column: string, orderText: string)
    | SetLimitBy(limit: nat, columns: seq<string>)
    | Having(aggregate: Aggregate, op: FilterType, value: string)
    | OuterSelect(column: string)
    | AddTopN(columns: seq<string>, count: nat, orderColumn: string, order: Direction)
    | SetDistinct
    | Build

  function EmptyState(client: Client, engine: Engine, table: Option<string>): State {
    State(client, engine, table, [], Nested(And, []), [], [], None, None, [], None, false)
  }

  function NewState(client: Client, table: Collection): State {
    EmptyState(client, TableEngine(client, table), TableName(client, table))
  }

  /** `row_number() over (partition by .. order by ..) as top_n`; the clients print it alike. */
  function RowNumberSql(partitionBy: string, orderColumn: string, order: Direction): string {
    "row_number() over (partition by " + partitionBy + " order by " + orderColumn + " " + DirectionSql(order) + ") as top_n"
  }

  function PushFilter(root: Filter, f: Filter): Filter {
    match root
    case Nested(c, fs) => Nested(c, fs + [f])
    case Plain(_, _, _) => Nested(And, [root, f])
  }

  function PushHaving(st: State, entry: HavingEntry): State {
    st.(having := Some((if st.having.Some? then st.having.value else []) + [entry]))
  }

  /** The condition that drops groups without a live row. */
  function SignEntry(st: State): HavingEntry {
    HavingEntry(AggregateSql(st.client, st.engine, Count(None)), Gte, "1")
  }

  function BuildFails(st: State): Option<BuildError> {
    if st.columns == [] then Some(InvalidQuery)
    else if st.table.None? then Some(SqlSerializeError)
    else None
  }

  /** Building pushes the sign condition, and only that. */
  function AfterBuild(st: State): State {
    if BuildFails(st).None? && st.groupBy != [] && st.engine.CollapsingMergeTree? then PushHaving(st, SignEntry(st)) else st
  }

  function Apply(st: State, call: Call): State {
    match call
    case SelectColumn(c) => st.(columns := st.columns + [c])
    case CustomFilter(l, r, op) => st.(filters := PushFilter(st.filters, Plain(l, op, r)))
    case FilterIn(key, vs) => st.(filters := PushFilter(st.filters, Plain(key, In, SanitizedList(vs))))
    case NestedFilter(f) => st.(filters := PushFilter(st.filters, f))
    case GroupBy(c) => st.(groupBy := st.groupBy + [c])
    case OrderBy(c, o) => st.(orderBy := st.orderBy + [c + " " + o])
    case SetLimitBy(n, cs) => st.(limitBy := Some(LimitBy(n, cs)))
    case Having(a, op, v) => PushHaving(st, HavingEntry(AggregateSql(st.client, st.engine, a), op, v))
    case OuterSelect(c) => st.(outerSelect := st.outerSelect + [c])
    case AddTopN(cs, n, oc, o) =>
      var partition := Join(cs, ", ");
      st.(outerSelect := st.outerSelect + [RowNumberSql(partition, oc, o)], topN := Some(TopN(partition, n, oc, o)))
    case SetDistinct => st.(distinct := true)
    case Build => AfterBuild(st)
  }

  function Run(st: State, calls: seq<Call>): State {
    if calls == [] then st
    else Apply(Run(st, calls[..|calls| - 1]), calls[|calls| - 1])
  }

  // ----- the text -----

  function HavingTexts(hs: seq<HavingEntry>): seq<string> {
    seq(|hs|, i requires 0 <= i < |hs| => PlainSql(hs[i].aggregate, hs[i].op, hs[i].value))
  }

  function HavingSql(st: State): string {
    if st.having.None? then "" else " HAVING " + Join(HavingTexts(st.having.value), " AND ")
  }

  function LimitSql(st: State): string {
    match st.limitBy
    case None => ""
    case Some(LimitBy(n, cs)) => " LIMIT " + NatText(n) + " BY " + Join(cs, ", ")
  }

  function OrderSql(st: State): string {
    if st.orderBy == [] then "" else " ORDER BY " + Join(st.orderBy, ", ")
  }

  function GroupSql(st: State): string {
    if st.groupBy == [] then "" else " GROUP BY " + Join(st.groupBy, ", ")
  }

  function WhereSql(st: State): string {
    if FilterSql(st.filters) == "" then "" else " WHERE " + FilterSql(st.filters)
  }

  function SelectSql(st: State): string
    requires st.table.Some?
  {
    "SELECT " + (if st.distinct then "DISTINCT " else "") + Join(st.columns, ", ") + " FROM " + st.table.value
  }

  /** The query before it is wrapped. */
  function BaseSql(st: State): string
    requires st.table.Some?
  {
    SelectSql(st) + WhereSql(st) + GroupSql(st) + HavingSql(st) + OrderSql(st) + LimitSql(st)
  }

  function WrapOuter(st: State, q: string): string {
    if st.outerSelect == [] then q else "SELECT " + Join(st.outerSelect, ", ") + " FROM (" + q + ") _"
  }

  function WrapTopN(st: State, q: string): string {
    match st.topN
    case None => q
    case Some(t) => "SELECT * FROM (" + q + ") _ WHERE top_n <= " + NatText(t.count)
  }

  function QuerySql(st: State): string
    requires st.table.Some?
  {
    WrapTopN(st, WrapOuter(st, BaseSql(st)))
  }

  // ----- the builder object -----

  class QueryBuilder {
    const client: Client
    const engine: Engine
    const table: Option<string>
    var columns: seq<string>
    var filters: Filter
    var groupBy: seq<string>
    var orderBy: seq<string>
    var having: Option<seq<HavingEntry>>
    var limitBy: Option<LimitBy>
    var outerSelect: seq<string>
    var topN: Option<TopN>
    var distinct: bool

    function Snapshot(): State
      reads this
    {
      State(client, engine, table, columns, filters, groupBy, orderBy, having, limitBy, outerSelect, topN, distinct)
    }

    constructor (client: Client, table: Collection)
      ensures Snapshot() == NewState(client, table)
    {
      this.client, this.engine, this.table := client, TableEngine(client, table), TableName(client, table);
      columns, filters, groupBy, orderBy := [], Nested(And, []), [], [];
      having, limitBy, outerSelect, topN, distinct := None, None, [], None, false;
    }

    method AddSelectColumn(column: string)
      modifies this`columns
      ensures Snapshot() == Apply(old(Snapshot()), SelectColumn(column))
    {
      columns := columns + [column];
    }

    method AddNestedFilterClause(filter: Filter)
      modifies this`filters
      ensures Snapshot() == Apply(old(Snapshot()), NestedFilter(filter))
    {
      match filters {
        case Nested(c, fs) => filters := Nested(c, fs + [filter]);
        case Plain(_, _, _) => filters := Nested(And, [filters, filter]);
      }
    }

    method AddCustomFilterClause(lhs: string, rhs: string, op: FilterType)
      modifies this`filters
      ensures Snapshot() == Apply(old(Snapshot()), CustomFilter(lhs, rhs, op))
    {
      AddNestedFilterClause(Plain(lhs, op, rhs));
    }

    method AddFilterInRangeClause(key: string, values: seq<string>)
      modifies this`filters
      ensures Snapshot() == Apply(old(Snapshot()), FilterIn(key, values))
    {
      var list := [];
      for i := 0 to |values|
        invariant list == seq(i, j requires 0 <= j < i => Sanitize(values[j]))
      {
        list := list + [Sanitize(values[i])];
      }
      assert list == seq(|values|, i requires 0 <= i < |values| => Sanitize(values[i]));
      AddCustomFilterClause(key, Join(list, ", "), In);
    }

    method AddGroupByClause(column: string)
      modifies this`groupBy
      ensures Snapshot() == Apply(old(Snapshot()), GroupBy(column))
    {
      groupBy := groupBy + [column];
    }

    method AddOrderByClause(column: string, order: string)
      modifies this`orderBy
      ensures Snapshot() == Apply(old(Snapshot()), OrderBy(column, order))
    {
      orderBy := orderBy + [column + " " + order];
    }

    method AddLimitBy(limit: nat, limitColumns: seq<string>)
      modifies this`limitBy
      ensures Snapshot() == Apply(old(Snapshot()), SetLimitBy(limit, limitColumns))
    {
      limitBy := Some(LimitBy(limit, limitColumns));
    }

    method AddHavingClause(aggregate: Aggregate, op: FilterType, value: string)
      modifies this`having
      ensures Snapshot() == Apply(old(Snapshot()), Having(aggregate, op, value))
    {
      var entry := HavingEntry(AggregateSql(client, engine, aggregate), op, value);
      if having.Some? {
        having := Some(having.value + [entry]);
      } else {
        having := Some([entry]);
        assert [] + [entry] == [entry];
      }
    }

    method AddOuterSelectColumn(column: string)
      modifies this`outerSelect
      ensures Snapshot() == Apply(old(Snapshot()), OuterSelect(column))
    {
      outerSelect := outerSelect + [column];
    }

    method AddTopNClause(topColumns: seq<string>, count: nat, orderColumn: string, order: Direction)
      modifies this`outerSelect, this`topN
      ensures Snapshot() == Apply(old(Snapshot()), AddTopN(topColumns, count, orderColumn, order))
    {
      var partition := Join(topColumns, ", ");
      AddOuterSelectColumn(RowNumberSql(partition, orderColumn, order));
      topN := Some(TopN(partition, count, orderColumn, order));
    }

    method MarkDistinct()
      modifies this`distinct
      ensures Snapshot() == Apply(old(Snapshot()), SetDistinct)
    {
      distinct := true;
    }

    method PushTail(start: string) returns (query: string)
      ensures query == start + HavingSql(Snapshot()) + OrderSql(Snapshot()) + LimitSql(Snapshot())
    {
      query := start;
      if having.Some? {
        Assoc(query, " HAVING ", Join(HavingTexts(having.value), " AND "));
        query := query + " HAVING ";
        query := query + Join(HavingTexts(having.value), " AND ");
      }
      Assoc(query, " ORDER BY ", Join(orderBy, ", "));
      if orderBy != [] {
        query := query + " ORDER BY ";
        query := query + Join(orderBy, ", ");
      }
      if limitBy.Some? {
        query := query + (" LIMIT " + NatText(limitBy.value.limit) + " BY " + Join(limitBy.value.columns, ", "));
      }
    }

    method Wrap(start: string) returns (query: string)
      ensures query == WrapTopN(Snapshot(), WrapOuter(Snapshot(), start))
    {
      query := start;
      if outerSelect != [] {
        query := "SELECT " + Join(outerSelect, ", ") + " FROM (" + query;
        query := query + ") _";
      }
      if topN.Some? {
        var bound := ") _ WHERE top_n <= " + NatText(topN.value.count);
        Assoc("SELECT * FROM (" + query, ") _ WHERE top_n <= ", NatText(topN.value.count));
        query := "SELECT * FROM (" + query;
        query := query + bound;
      }
    }

    /** Builds the text by pushing clause after clause onto a string; the sign condition is pushed
        onto `having` on the way, so building twice pushes it twice. */
    method BuildQuery() returns (r: Result<string>)
      modifies this`having
      ensures Snapshot() == Apply(old(Snapshot()), Build)
      ensures BuildFails(old(Snapshot())).Some? ==> r == Err(BuildFails(old(Snapshot())).value)
      ensures BuildFails(old(Snapshot())).None? ==> r == Ok(QuerySql(Snapshot()))
    {
      if columns == [] {
        return Err(InvalidQuery);
      }
      var query := "SELECT ";
      if distinct {
        query := query + "DISTINCT ";
      }
      query := query + Join(columns, ", ");
      query := query + " FROM ";
      if table.None? {
        return Err(SqlSerializeError);
      }
      query := query + table.value;
      assert "SELECT " + "" == "SELECT ";
      assert query == SelectSql(Snapshot());
      var filterClause := FilterSql(filters);
      Assoc(query, " WHERE ", filterClause);
      if filterClause != "" {
        query := query + " WHERE ";
        query := query + filterClause;
      }
      Assoc(query, " GROUP BY ", Join(groupBy, ", "));
      if groupBy != [] {
        query := query + " GROUP BY ";
        query := query + Join(groupBy, ", ");
        if engine.CollapsingMergeTree? {
          AddHavingClause(Count(None), Gte, "1");
        }
      }
      ghost var st := Snapshot();
      assert query == SelectSql(st) + WhereSql(st) + GroupSql(st);
      query := PushTail(query);
      assert query == BaseSql(st);
      query := Wrap(query);
      return Ok(query);
    }
  }
}
