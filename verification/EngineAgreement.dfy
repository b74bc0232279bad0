/** From a metric's text back to equal answers on both clients. */
module EngineAgreement {
  import opened Text
  import opened SqlLiteral
  import opened Filters
  import opened Aggregates
  import opened TableNames
  import opened Decimal
  import opened TimeBuckets
  import opened TimeRanges
  import opened GroupExpressions
  import C = Collapsing
  import Q = Queries
  import R = ResultAgreement
  import U = UnsignedAggregates
  import L = LiveAnswers
  import opened QueryBuilding
  import opened QueryReading
  import opened Metrics

  // ----- an engine's understanding of the text -----

  /** The aggregates among the select items; the other items are dimensions. */
  function SelectAggregates(items: seq<string>): seq<SqlAgg> {
    if items == [] then []
    else
      (match ReadAggregate(items[0]) case None => [] case Some((a, _)) => [a]) + SelectAggregates(items[1..])
  }

  function HavingAggregates(conds: seq<Cond>): Option<seq<(SqlAgg, Comparison, string)>> {
    if conds == [] then Some([])
    else if !conds[0].Compare? then None
    else
      match (ReadAggregate(conds[0].col), HavingAggregates(conds[1..]))
      case (Some((a, None)), Some(more)) => Some([(a, conds[0].cmp, conds[0].value)] + more)
      case _ => None
  }

  /** How each engine quotes. */
  function DialectOf(client: Client): Dialect {
    if client.Clickhouse? then BackslashEscapes else PlainQuotes
  }

  /** The query an engine understands by a text. */
  function Understood(text: string, client: Client, d: Dialect, le: Order): Option<Q.Query> {
    match ReadSelect(text, d)
    case None => None
    case Some(s) =>
      match HavingAggregates(s.having)
      case None => None
      case Some(having) => Some(Q.Query(client, s.where_, le, s.groupBy, SelectAggregates(s.items), having))
  }

  /** Running a text over a table. */
  ghost function Answer(text: string, client: Client, le: Order, rs: seq<C.Record>): Option<map<Q.Key, seq<Option<int>>>> {
    match Understood(text, client, DialectOf(client), le)
    case None => None
    case Some(q) => Some(Q.Result(q, rs))
  }

  // ----- requests that print readably -----

  predicate WordOk(w: string) {
    FieldOk(w) && ',' !in w
  }

  predicate DimensionOk(w: string) {
    WordOk(w) && !("DISTINCT" <= w)
  }

  predicate AliasOk(alias: Option<string>) {
    alias.Some? ==> WordOk(alias.value) && alias.value[0] != 'F'
  }

  /** Dimensions, aggregates and conditions that print readably. */
  predicate ShapeOk(m: Metric) {
    && (m.dimensions != [] || m.aggregates != [])
    && (forall i :: 0 <= i < |m.dimensions| ==> DimensionOk(m.dimensions[i]))
    && (forall i :: 0 <= i < |m.aggregates| ==> AggregateOk(m.aggregates[i]) && AliasOk(m.aggregates[i].alias))
    && HavingArgsOk(m.having)
  }

  /** A filter both engines read alike, on a column other than the creation time. */
  ghost predicate FilterOk(f: Filter) {
    Printable(f) && Complete(f) && NoQuotedBackslash(f) && Q.Timeless(FilterCond(f, BackslashEscapes))
  }

  ghost predicate MetricOk(m: Metric) {
    ShapeOk(m) && CREATED_AT !in m.dimensions && forall i :: 0 <= i < |m.filters| ==> FilterOk(m.filters[i])
  }

  ghost function CondsOf(fs: seq<Filter>): (cs: seq<Cond>)
    requires forall i :: 0 <= i < |fs| ==> FilterOk(fs[i])
    ensures Q.Timeless(AllOf(cs))
  {
    assert forall i :: 0 <= i < |fs| ==> FilterOk(fs[i]) && Printable(fs[i]);
    FilterConds(fs, BackslashEscapes)
  }

  ghost function RequestOf(m: Metric, le: Order): Q.Request
    requires MetricOk(m)
  {
    Q.Request(Q.WhereOf(Clickhouse, CondsOf(m.filters), m.range), Q.WhereOf(Sqlx, CondsOf(m.filters), m.range), le, m.dimensions,
              m.granularity, m.aggregates, m.having)
  }

  // ----- items -----

  lemma AliasItem(alias: Option<string>)
    requires AliasOk(alias)
    ensures ItemOk(AliasSql(alias), 0)
  {
    if alias.Some? {
      var a := alias.value;
      var s := " as " + a;
      assert s[1..] == "as" + (" " + a);
      ItemWord("as", " " + a, 0);
      assert (" " + a)[1..] == a;
      ItemWord(a, "", 0);
      assert a + "" == a;
    }
  }

  lemma AggregateItem(client: Client, engine: Engine, a: Aggregate)
    requires AggregateOk(a) && EngineOk(engine) && AliasOk(a.alias)
    ensures ItemOk(AggregateSql(client, engine, a), 0)
    ensures var t := AggregateSql(client, engine, a); t != "" && t[0] != 'D'
  {
    var i, tail := Intended(client, engine, a), AliasSql(a.alias);
    ExprShape(client, engine, a, tail);
    var name, arg := NameOf(i), ArgumentOf(i);
    AliasItem(a.alias);
    NoParentheses(i);
    assert '(' !in arg && ')' !in name && ' ' !in name && ',' !in name;
    CallItem(name, arg, tail);
    assert AggregateSql(client, engine, a)[0] == name[0];
  }

  lemma CallItem(name: string, arg: string, tail: string)
    requires '(' !in name && ')' !in name && ' ' !in name && ',' !in name
    requires '(' !in arg && ')' !in arg && ItemOk(tail, 0)
    ensures ItemOk(name + ("(" + (arg + (")" + tail))), 0)
  {
    PrefixOfSum(")", tail);
    ItemWord(arg, ")" + tail, 1);
    PrefixOfSum("(", arg + (")" + tail));
    ItemWord(name, "(" + (arg + (")" + tail)), 0);
  }

  lemma DimensionIsNotAggregate(w: string)
    requires DimensionOk(w)
    ensures ReadAggregate(w) == None && ItemOk(w, 0) && GroupColumnOk(w)
  {
    UntilRun(w, "", IsOpen);
    assert w + "" == w;
    ItemWord(w, "", 0);
    EnclosedWord(w, "", 0);
  }

  lemma SkipDimension(w: string, rest: seq<string>)
    requires DimensionOk(w)
    ensures SelectAggregates([w] + rest) == SelectAggregates(rest)
  {
    DimensionIsNotAggregate(w);
    assert ([w] + rest)[1..] == rest;
  }

  lemma TakeAggregate(client: Client, engine: Engine, a: Aggregate, rest: seq<string>)
    requires AggregateOk(a) && EngineOk(engine)
    ensures SelectAggregates([AggregateSql(client, engine, a)] + rest) == [Intended(client, engine, a)] + SelectAggregates(rest)
  {
    AggregateReads(client, engine, a);
    assert ([AggregateSql(client, engine, a)] + rest)[1..] == rest;
  }

  lemma {:induction false} AggregatesOf(client: Client, engine: Engine, as_: seq<Aggregate>)
    requires EngineOk(engine) && forall i :: 0 <= i < |as_| ==> AggregateOk(as_[i])
    ensures SelectAggregates(AggregateTexts(client, engine, as_)) == Q.IntendedAll(client, engine, as_)
  {
    if as_ == [] {
    } else {
      AggregatesOf(client, engine, as_[1..]);
      TakeAggregate(client, engine, as_[0], AggregateTexts(client, engine, as_[1..]));
      assert AggregateTexts(client, engine, as_) == [AggregateSql(client, engine, as_[0])] + AggregateTexts(client, engine, as_[1..]);
    }
  }

  lemma {:induction false} SelectAggregatesOf(dims: seq<string>, texts: seq<string>)
    requires forall i :: 0 <= i < |dims| ==> DimensionOk(dims[i])
    ensures SelectAggregates(dims + texts) == SelectAggregates(texts)
  {
    if dims == [] {
      assert dims + texts == texts;
    } else {
      SelectAggregatesOf(dims[1..], texts);
      HeadOfSum(dims, texts);
      SkipDimension(dims[0], dims[1..] + texts);
    }
  }

  lemma HeadOfSum(a: seq<string>, b: seq<string>)
    requires a != []
    ensures a + b == [a[0]] + (a[1..] + b)
  {
  }

  // ----- conditions -----

  lemma EntryOk(client: Client, engine: Engine, a: Aggregate, cmp: Comparison, v: string)
    requires AggregateOk(a) && EngineOk(engine) && a.alias.None? && v != "" && AllDigits(v)
    ensures var t := AggregateSql(client, engine, a);
            && HavingOk(HavingEntry(t, OpOf(cmp), v))
            && forall d :: PlainCond(t, OpOf(cmp), v, d) == Compare(t, cmp, v)
  {
    AggregateIsColumn(client, engine, a);
    var t := AggregateSql(client, engine, a);
    assert t == ExprSql(client, engine, a);
    assert '\\' !in v;
    SeenPlain(v);
    assert IsDigit(v[0]);
  }

  predicate HavingArgsOk(hs: seq<(Aggregate, Comparison, string)>) {
    forall i :: 0 <= i < |hs| ==> AggregateOk(hs[i].0) && hs[i].0.alias.None? && hs[i].2 != "" && AllDigits(hs[i].2)
  }

  lemma EntriesOk(client: Client, engine: Engine, hs: seq<(Aggregate, Comparison, string)>)
    requires EngineOk(engine) && HavingArgsOk(hs)
    ensures forall i :: 0 <= i < |hs| ==> HavingOk(Entries(client, engine, hs)[i])
  {
    forall i | 0 <= i < |hs|
      ensures HavingOk(Entries(client, engine, hs)[i])
    {
      EntryOk(client, engine, hs[i].0, hs[i].1, hs[i].2);
    }
  }

  lemma TakeCondition(t: string, a: SqlAgg, cmp: Comparison, v: string, conds: seq<Cond>, more: seq<(SqlAgg, Comparison, string)>)
    requires ReadAggregate(t) == Some((a, None)) && HavingAggregates(conds) == Some(more)
    ensures HavingAggregates([Compare(t, cmp, v)] + conds) == Some([(a, cmp, v)] + more)
  {
    assert ([Compare(t, cmp, v)] + conds)[1..] == conds;
  }

  lemma {:induction false} HavingAggregatesOf(client: Client, engine: Engine, hs: seq<(Aggregate, Comparison, string)>, d: Dialect)
    requires EngineOk(engine) && HavingArgsOk(hs)
    requires forall i :: 0 <= i < |hs| ==> HavingOk(Entries(client, engine, hs)[i])
    ensures HavingAggregates(EntryConds(Entries(client, engine, hs), d)) == Some(Q.IntendedHaving(client, engine, hs))
  {
    if hs == [] {
    } else {
      var (a, cmp, v) := hs[0];
      var es := Entries(client, engine, hs);
      assert es[1..] == Entries(client, engine, hs[1..]);
      EntriesOk(client, engine, hs[1..]);
      HavingAggregatesOf(client, engine, hs[1..], d);
      EntryOk(client, engine, a, cmp, v);
      AggregateReads(client, engine, a);
      TakeCondition(es[0].aggregate, Intended(client, engine, a), cmp, v, EntryConds(es[1..], d), Q.IntendedHaving(client, engine, hs[1..]));
    }
  }

  // ----- grouping texts -----

  lemma CallIsGroupColumn(name: string, arg: string)
    requires name != "" && '(' !in name && ')' !in name && ' ' !in name
    requires Enclosed(arg + ")", 1)
    ensures GroupColumnOk(CallSql(name, arg))
  {
    var s, rest := CallSql(name, arg), "(" + (arg + ")");
    Assoc(name, "(", arg);
    Assoc(name, "(" + arg, ")");
    Assoc("(", arg, ")");
    EnclosedWord(name, rest, 0);
    PrefixOfSum("(", arg + ")");
    assert s[|s| - 1] == ')';
  }

  lemma PlainArgument(arg: string)
    requires '(' !in arg && ')' !in arg
    ensures Enclosed(arg + ")", 1)
  {
    EnclosedWord(arg, ")", 1);
    assert ")"[1..] == "";
  }

  /** An argument that is itself a call followed by plain text. */
  lemma NestedArgument(name: string, arg: string, tail: string)
    requires '(' !in name && ')' !in name && '(' !in arg && ')' !in arg && '(' !in tail && ')' !in tail
    ensures Enclosed(name + ("(" + (arg + (")" + (tail + ")")))), 1)
  {
    PlainArgument(tail);
    PrefixOfSum(")", tail + ")");
    EnclosedWord(arg, ")" + (tail + ")"), 2);
    PrefixOfSum("(", arg + (")" + (tail + ")")));
    EnclosedWord(name, "(" + (arg + (")" + (tail + ")"))), 1);
  }

  lemma DigitsArePlain(n: nat)
    ensures '(' !in NatText(n) && ')' !in NatText(n)
  {
    NatTextRoundTrip(n);
  }

  lemma TruncIsGroupColumn(level: Level)
    ensures GroupColumnOk(CallSql("DATE_TRUNC", "'" + LevelText(level) + "', created_at"))
  {
    PlainArgument("'" + LevelText(level) + "', created_at");
    CallIsGroupColumn("DATE_TRUNC", "'" + LevelText(level) + "', created_at");
  }

  lemma MinutePartIsGroupColumn(n: nat)
    ensures GroupColumnOk(CallSql("FLOOR", "DATE_PART('minute', created_at)/" + NatText(n)))
  {
    var arg, tail := "'minute', created_at", "/" + NatText(n);
    DigitsArePlain(n);
    NestedArgument("DATE_PART", arg, tail);
    MinutePartShape(NatText(n));
    CallIsGroupColumn("FLOOR", "DATE_PART('minute', created_at)/" + NatText(n));
  }

  lemma MinutePartShape(digits: string)
    ensures "DATE_PART('minute', created_at)/" + digits + ")"
         == "DATE_PART" + ("(" + ("'minute', created_at" + (")" + ("/" + digits + ")"))))
  {
    assert "DATE_PART('minute', created_at)/" == "DATE_PART" + ("(" + ("'minute', created_at" + (")" + "/")));
    Assoc(")", "/", digits + ")");
    Assoc("/", digits, ")");
    Assoc("'minute', created_at", ")" + "/", digits + ")");
    Assoc("(", "'minute', created_at" + (")" + "/"), digits + ")");
    Assoc("DATE_PART", "(" + ("'minute', created_at" + (")" + "/")), digits + ")");
    Assoc("DATE_PART('minute', created_at)/", digits, ")");
  }

  lemma IntervalIsGroupColumn()
    ensures GroupColumnOk(CallSql("toStartOfInterval", "created_at, INTERVAL " + NatText(30) + " minute"))
  {
    DigitsArePlain(30);
    IntervalCallIsGroupColumn(NatText(30));
  }

  lemma IntervalArgument(digits: string)
    requires '(' !in digits && ')' !in digits
    ensures Enclosed("created_at, INTERVAL " + digits + " minute" + ")", 1)
  {
    var arg := "created_at, INTERVAL " + digits + " minute";
    assert '(' !in arg && ')' !in arg;
    PlainArgument(arg);
  }

  lemma IntervalCallIsGroupColumn(digits: string)
    requires '(' !in digits && ')' !in digits
    ensures GroupColumnOk(CallSql("toStartOfInterval", "created_at, INTERVAL " + digits + " minute"))
  {
    IntervalArgument(digits);
    CallIsGroupColumn("toStartOfInterval", "created_at, INTERVAL " + digits + " minute");
  }

  lemma StartOfIsGroupColumn(g: Granularity)
    requires !g.ThirtyMin?
    ensures GroupColumnOk(CallSql(StartOfName(g), "created_at"))
  {
    PlainArgument("created_at");
    StartOfNameIsPlain(g);
    CallIsGroupColumn(StartOfName(g), "created_at");
  }

  lemma StartOfNameIsPlain(g: Granularity)
    requires !g.ThirtyMin?
    ensures var name := StartOfName(g); name != "" && '(' !in name && ')' !in name && ' ' !in name
  {
  }

  lemma GranularityColumnsOk(client: Client, g: Granularity)
    ensures forall i :: 0 <= i < |GranularityTexts(client, g)| ==> GroupColumnOk(GranularityTexts(client, g)[i])
  {
    if client.Sqlx? {
      TruncIsGroupColumn(LevelOf(g));
      MinutePartIsGroupColumn(BucketSize(g));
    } else if g.ThirtyMin? {
      IntervalIsGroupColumn();
    } else {
      StartOfIsGroupColumn(g);
    }
  }

  // ----- the two theorems -----

  lemma FullHavingOk(engine: Engine, m: Metric)
    requires ShapeOk(m)
    ensures HavingArgsOk(Q.FullHaving(engine, Grouped(m), m.having))
  {
  }

  lemma ColumnsOk(client: Client, engine: Engine, dims: seq<string>, as_: seq<Aggregate>)
    requires EngineOk(engine) && forall i :: 0 <= i < |dims| ==> DimensionOk(dims[i])
    requires forall i :: 0 <= i < |as_| ==> AggregateOk(as_[i]) && AliasOk(as_[i].alias)
    ensures var cs := dims + AggregateTexts(client, engine, as_);
            forall i :: 0 <= i < |cs| ==> cs[i] != "" && ItemOk(cs[i], 0)
  {
    var ts := AggregateTexts(client, engine, as_);
    forall i | 0 <= i < |dims|
      ensures dims[i] != "" && ItemOk(dims[i], 0)
    {
      DimensionIsNotAggregate(dims[i]);
    }
    forall i | 0 <= i < |as_|
      ensures ts[i] != "" && ItemOk(ts[i], 0)
    {
      AggregateItem(client, engine, as_[i]);
    }
  }

  lemma GroupColumnsOk(client: Client, dims: seq<string>, granularity: Option<Granularity>)
    requires forall i :: 0 <= i < |dims| ==> DimensionOk(dims[i])
    ensures var texts := Q.GroupTexts(client, dims, granularity);
            forall i :: 0 <= i < |texts| ==> GroupColumnOk(texts[i])
  {
    forall i | 0 <= i < |dims|
      ensures GroupColumnOk(dims[i])
    {
      DimensionIsNotAggregate(dims[i]);
    }
    if granularity.Some? {
      GranularityColumnsOk(client, granularity.value);
    }
  }

  lemma SignIsOk()
    ensures FieldOk(SIGN) && SIGN != CREATED_AT
  {
    assert |SIGN| == 9 && |CREATED_AT| == 10;
  }

  lemma PostgresNameOk(table: Collection)
    requires TableName(Sqlx, table).Some?
    ensures TableName(Sqlx, table).value != "" && ' ' !in TableName(Sqlx, table).value
  {
  }

  lemma ClickhouseNameOk(table: Collection)
    ensures ClickhouseName(table) != "" && ' ' !in ClickhouseName(table)
  {
    if EventTable(table) {
      EventNameOk(table);
    } else {
      RecordNameOk(table);
    }
  }

  predicate EventTable(table: Collection) {
    TableEngine(Clickhouse, table).BasicTree?
  }

  lemma EventNameOk(table: Collection)
    requires EventTable(table)
    ensures ClickhouseName(table) != "" && ' ' !in ClickhouseName(table)
  {
    match table
    case ConnectorEvents | ConnectorPayoutEvents | PrismConnectorEvents | PrismConnectorPayoutEvents => ConnectorNameOk(table);
    case OutgoingWebhookEvent | OutgoingWebhookPayoutEvent | RoutingEvents => OutgoingNameOk(table);
    case _ => ApiNameOk(table);
  }

  lemma ConnectorNameOk(table: Collection)
    requires table.ConnectorEvents? || table.ConnectorPayoutEvents? || table.PrismConnectorEvents? || table.PrismConnectorPayoutEvents?
    ensures ClickhouseName(table) != "" && ' ' !in ClickhouseName(table)
  {
  }

  lemma OutgoingNameOk(table: Collection)
    requires table.OutgoingWebhookEvent? || table.OutgoingWebhookPayoutEvent? || table.RoutingEvents?
    ensures ClickhouseName(table) != "" && ' ' !in ClickhouseName(table)
  {
  }

  lemma ApiNameOk(table: Collection)
    requires table.SdkEvents? || table.SdkEventsAnalytics? || table.ApiEvents? || table.ApiPayoutEvents?
             || table.ApiEventsAnalytics? || table.ActivePaymentsAnalytics?
    ensures ClickhouseName(table) != "" && ' ' !in ClickhouseName(table)
  {
  }

  lemma RecordNameOk(table: Collection)
    requires !EventTable(table)
    ensures ClickhouseName(table) != "" && ' ' !in ClickhouseName(table)
  {
    match table
    case PaymentSessionized | RefundSessionized | PaymentIntentSessionized | DisputeSessionized => SessionNameOk(table);
    case _ => PlainNameOk(table);
  }

  lemma SessionNameOk(table: Collection)
    requires table.PaymentSessionized? || table.RefundSessionized? || table.PaymentIntentSessionized? || table.DisputeSessionized?
    ensures ClickhouseName(table) != "" && ' ' !in ClickhouseName(table)
  {
  }

  lemma PlainNameOk(table: Collection)
    requires table.Payment? || table.Refund? || table.FraudCheck? || table.PaymentIntent? || table.Authentications? || table.Dispute?
    ensures ClickhouseName(table) != "" && ' ' !in ClickhouseName(table)
  {
  }

  lemma NameOk(client: Client, table: Collection)
    requires TableName(client, table).Some?
    ensures TableName(client, table).value != "" && ' ' !in TableName(client, table).value
    ensures EngineOk(TableEngine(client, table))
  {
    if client.Sqlx? {
      PostgresNameOk(table);
    } else {
      ClickhouseNameOk(table);
    }
    SignIsOk();
  }

  lemma FirstColumn(client: Client, engine: Engine, m: Metric)
    requires ShapeOk(m) && EngineOk(engine)
    ensures var cs := m.dimensions + AggregateTexts(client, engine, m.aggregates);
            cs != [] && !("DISTINCT" <= cs[0])
  {
    if m.dimensions != [] {
      assert DimensionOk(m.dimensions[0]);
    } else {
      AggregateItem(client, engine, m.aggregates[0]);
    }
  }

  predicate AllComplete(fs: seq<Filter>) {
    forall i :: 0 <= i < |fs| ==> Complete(fs[i])
  }

  ghost predicate AllPrintable(fs: seq<Filter>) {
    forall i :: 0 <= i < |fs| ==> Printable(fs[i])
  }

  predicate TableOk(table: Option<string>) {
    table.Some? && table.value != "" && ' ' !in table.value
  }

  lemma StateIsReadable(client: Client, engine: Engine, table: Option<string>, m: Metric, fs: seq<Filter>)
    requires ShapeOk(m) && EngineOk(engine) && TableOk(table) && fs != [] && AllPrintable(fs) && AllComplete(fs)
    ensures Readable(StateWith(client, engine, table, m, fs))
  {
    ColumnsOk(client, engine, m.dimensions, m.aggregates);
    FirstColumn(client, engine, m);
    GroupColumnsOk(client, m.dimensions, m.granularity);
    FullHavingOk(engine, m);
    EntriesOk(client, engine, Q.FullHaving(engine, Grouped(m), m.having));
  }

  lemma StateHaving(client: Client, engine: Engine, table: Option<string>, m: Metric, fs: seq<Filter>, d: Dialect)
    requires ShapeOk(m) && EngineOk(engine) && Readable(StateWith(client, engine, table, m, fs))
    ensures HavingAggregates(HavingConds(StateWith(client, engine, table, m, fs), d))
         == Some(Q.IntendedHaving(client, engine, Q.FullHaving(engine, Grouped(m), m.having)))
  {
    var hs := Q.FullHaving(engine, Grouped(m), m.having);
    FullHavingOk(engine, m);
    EntriesOk(client, engine, hs);
    HavingAggregatesOf(client, engine, hs, d);
  }

  lemma StateSelect(client: Client, engine: Engine, m: Metric)
    requires ShapeOk(m) && EngineOk(engine)
    ensures SelectAggregates(m.dimensions + AggregateTexts(client, engine, m.aggregates)) == Q.IntendedAll(client, engine, m.aggregates)
  {
    SelectAggregatesOf(m.dimensions, AggregateTexts(client, engine, m.aggregates));
    AggregatesOf(client, engine, m.aggregates);
  }

  ghost function QueryWith(client: Client, engine: Engine, m: Metric, where_: Cond, le: Order): Q.Query {
    Q.Query(client, where_, le, Q.GroupTexts(client, m.dimensions, m.granularity), Q.IntendedAll(client, engine, m.aggregates),
            Q.IntendedHaving(client, engine, Q.FullHaving(engine, Grouped(m), m.having)))
  }

  lemma UnderstoodAs(st: State, client: Client, d: Dialect, le: Order, q: Q.Query)
    requires Readable(st) && HavingAggregates(HavingConds(st, d)) == Some(q.having)
    requires q.client == client && q.where_ == FilterCond(st.filters, d) && q.le == le && q.groupBy == st.groupBy
    requires q.select == SelectAggregates(st.columns)
    ensures Understood(BaseSql(st), client, d, le) == Some(q)
  {
    BaseSqlReads(st, d);
  }

  /** What an engine understands by the text of a metric's state. */
  lemma StateTextMeans(client: Client, engine: Engine, table: Option<string>, m: Metric, fs: seq<Filter>, d: Dialect, le: Order)
    requires ShapeOk(m) && EngineOk(engine) && TableOk(table) && fs != [] && AllPrintable(fs) && AllComplete(fs)
    ensures Understood(BaseSql(StateWith(client, engine, table, m, fs)), client, d, le)
         == Some(QueryWith(client, engine, m, AllOf(FilterConds(fs, d)), le))
  {
    var st := StateWith(client, engine, table, m, fs);
    StateIsReadable(client, engine, table, m, fs);
    StateHaving(client, engine, table, m, fs, d);
    StateSelect(client, engine, m);
    UnderstoodAs(st, client, d, le, QueryWith(client, engine, m, AllOf(FilterConds(fs, d)), le));
  }

  lemma CondsConcat(a: seq<Filter>, b: seq<Filter>, d: Dialect)
    requires AllPrintable(a) && AllPrintable(b)
    ensures AllPrintable(a + b) && FilterConds(a + b, d) == FilterConds(a, d) + FilterConds(b, d)
  {
  }

  lemma SameConds(fs: seq<Filter>, d: Dialect)
    requires forall i :: 0 <= i < |fs| ==> FilterOk(fs[i])
    ensures AllPrintable(fs) && AllComplete(fs) && FilterConds(fs, d) == CondsOf(fs)
  {
    forall i | 0 <= i < |fs|
      ensures Printable(fs[i]) && Complete(fs[i]) && FilterCond(fs[i], d) == FilterCond(fs[i], BackslashEscapes)
    {
      assert FilterOk(fs[i]);
      SameCondExact(fs[i]);
    }
  }

  lemma BoundCond(op: FilterType, literal: string, d: Dialect)
    requires (op.Gte? || op.Lte?) && Printable(Plain(CREATED_AT, op, literal)) && NoQuotedBackslash(Plain(CREATED_AT, op, literal))
    ensures FilterCond(Plain(CREATED_AT, op, literal), d) == Compare(CREATED_AT, if op.Gte? then Ge else Le, literal)
  {
    SeenPlain(literal);
  }

  lemma RangeCondsOf(client: Client, range: Range, d: Dialect)
    ensures AllPrintable(RangeFilters(client, range)) && AllComplete(RangeFilters(client, range))
    ensures FilterConds(RangeFilters(client, range), d) == RangeConds(client, range)
  {
    var fs := RangeFilters(client, range);
    RangeFiltersOk(client, range);
    assert BoundOk(fs[0]);
    BoundCond(Gte, fs[0].rhs, d);
    if range.end.Some? {
      assert BoundOk(fs[1]);
      BoundCond(Lte, fs[1].rhs, d);
      TwoConds(fs[0], fs[1], d);
    } else {
      OneCond(fs[0], d);
      assert fs == [fs[0]];
    }
  }

  lemma OneCond(a: Filter, d: Dialect)
    requires BoundOk(a)
    ensures AllPrintable([a]) && AllComplete([a]) && FilterConds([a], d) == [FilterCond(a, d)]
  {
    assert [a][1..] == [];
  }

  lemma TwoConds(a: Filter, b: Filter, d: Dialect)
    requires BoundOk(a) && BoundOk(b)
    ensures var fs := [a] + [b]; AllPrintable(fs) && AllComplete(fs) && FilterConds(fs, d) == [FilterCond(a, d)] + [FilterCond(b, d)]
  {
    OneCond(a, d);
    OneCond(b, d);
    CondsConcat([a], [b], d);
  }

  /** The WHERE clause an engine reads is the metric's conditions and its range as the client printed it. */
  lemma MetricWhere(client: Client, m: Metric, d: Dialect)
    requires MetricOk(m)
    ensures var fs := MetricFilters(client, m);
            && fs != [] && AllPrintable(fs) && AllComplete(fs)
            && AllOf(FilterConds(fs, d)) == Q.WhereOf(client, CondsOf(m.filters), m.range)
  {
    RangeCondsOf(client, m.range, d);
    SameConds(m.filters, d);
    CondsConcat(m.filters, RangeFilters(client, m.range), d);
  }

  lemma CompiledQuery(client: Client, engine: Engine, m: Metric, le: Order)
    requires MetricOk(m)
    ensures QueryWith(client, engine, m, Q.WhereOf(client, CondsOf(m.filters), m.range), le) == Q.Compile(client, engine, RequestOf(m, le))
  {
  }

  lemma StateMeansMetric(client: Client, engine: Engine, table: Option<string>, m: Metric, d: Dialect, le: Order)
    requires MetricOk(m) && EngineOk(engine) && TableOk(table)
    ensures Understood(BaseSql(StateWith(client, engine, table, m, MetricFilters(client, m))), client, d, le)
         == Some(Q.Compile(client, engine, RequestOf(m, le)))
  {
    MetricWhere(client, m, d);
    StateTextMeans(client, engine, table, m, MetricFilters(client, m), d, le);
    CompiledQuery(client, engine, m, le);
  }

  /** What an engine understands by a metric's text is the metric, compiled for that engine. */
  lemma MetricTextMeans(client: Client, table: Collection, m: Metric, d: Dialect, le: Order)
    requires MetricOk(m) && TableName(client, table).Some?
    ensures Understood(BaseSql(MetricState(client, table, m)), client, d, le)
         == Some(Q.Compile(client, TableEngine(client, table), RequestOf(m, le)))
  {
    NameOk(client, table);
    StateMeansMetric(client, TableEngine(client, table), TableName(client, table), m, d, le);
  }

  /** The metric filters its groups by counts and sums only. */
  predicate FiltersByCounts(m: Metric) {
    forall i :: 0 <= i < |m.having| ==> Q.CountOrSum(m.having[i].0, SIGN)
  }

  predicate IsStart(a: Aggregate) { a.Min? && a.field == CREATED_AT }

  predicate IsEnd(a: Aggregate) { a.Max? && a.field == CREATED_AT }

  /** Whichever columns hold the first and last creation time, the row is reported under the same range. */
  predicate RangesAgree(m: Metric, ch: seq<Option<int>>, pg: seq<Option<int>>)
    requires |ch| == |m.aggregates| == |pg|
  {
    forall i, j :: 0 <= i < |ch| && 0 <= j < |ch| && IsStart(m.aggregates[i]) && IsEnd(m.aggregates[j]) ==>
      R.ReportedRange(m.granularity, m.range, ch[i], ch[j]) == R.ReportedRange(m.granularity, m.range, pg[i], pg[j])
  }

  /** The group is in both answers or in neither; its counts and sums are equal, its minima, maxima and distinct
      counts err one way, and it is reported under the same time range. */
  predicate GroupAgrees(m: Metric, ch: map<Q.Key, seq<Option<int>>>, ks: Q.Key, pg: map<Q.Key, seq<Option<int>>>, kp: Q.Key) {
    && (ks in ch <==> kp in pg)
    && (ks in ch && kp in pg ==>
          && R.RowsAgree(m.aggregates, SIGN, ch[ks], pg[kp])
          && RangesAgree(m, ch[ks], pg[kp]))
  }

  lemma TimeCells(a: Aggregate, b: Aggregate, client: Client, engine: Engine)
    requires IsStart(a) && IsEnd(b)
    ensures Intended(client, engine, a) == MinOf(CREATED_AT) && Intended(client, engine, b) == MaxOf(CREATED_AT)
  {
  }

  lemma RowRanges(m: Metric, engine: Engine, q: Q.Query, k: Q.Key, rs: seq<C.Record>)
    requires q.select == Q.IntendedAll(q.client, engine, m.aggregates)
    ensures var row := Q.ResultRow(q, k, rs);
            forall i, j :: 0 <= i < |row| && 0 <= j < |row| && IsStart(m.aggregates[i]) && IsEnd(m.aggregates[j]) ==>
              R.ReportedRange(m.granularity, m.range, row[i], row[j]) == R.RangeOf(m.granularity, m.range, q, k, rs)
  {
    var row := Q.ResultRow(q, k, rs);
    forall i, j | 0 <= i < |row| && 0 <= j < |row| && IsStart(m.aggregates[i]) && IsEnd(m.aggregates[j])
      ensures R.ReportedRange(m.granularity, m.range, row[i], row[j]) == R.RangeOf(m.granularity, m.range, q, k, rs)
    {
      TimeCells(m.aggregates[i], m.aggregates[j], q.client, engine);
    }
  }

  lemma ResultsAgree(history: seq<C.Change>, steps: seq<(nat, nat)>, merged: seq<C.Entry>, m: Metric, r: Q.Request, rep: C.Record)
    requires C.MergedTo(C.Log(history), steps, merged) && R.Comparable(r, SIGN)
    requires r.having == m.having && r.select == m.aggregates && r.granularity == m.granularity
    ensures var sq, pq := Q.Compile(Clickhouse, CollapsingMergeTree(SIGN), r), Q.Compile(Sqlx, BasicTree, r);
            GroupAgrees(m, Q.Result(sq, Q.Physical(merged, SIGN)), Q.GroupKey(sq.groupBy, rep),
                        Q.Result(pq, C.Records(C.Live(history))), Q.GroupKey(pq.groupBy, rep))
  {
    var sq, pq := Q.Compile(Clickhouse, CollapsingMergeTree(SIGN), r), Q.Compile(Sqlx, BasicTree, r);
    var srs, prs := Q.Physical(merged, SIGN), C.Records(C.Live(history));
    var ks, kp := Q.GroupKey(sq.groupBy, rep), Q.GroupKey(pq.groupBy, rep);
    R.EnginesAgree(history, steps, merged, SIGN, r, rep);
    if kp in Q.Result(pq, prs) {
      R.ResultKey(sq, ks, srs);
      R.ResultKey(pq, kp, prs);
      R.ReportedRangesAgree(history, steps, merged, SIGN, r, rep, m.range);
      RowRanges(m, CollapsingMergeTree(SIGN), sq, ks, srs);
      RowRanges(m, BasicTree, pq, kp, prs);
    }
  }

  /** The text the metric's calls build. */
  predicate IsTextOf(text: string, client: Client, table: Collection, m: Metric) {
    TableName(client, table).Some? && text == BaseSql(MetricState(client, table, m))
  }

  type Table = map<Q.Key, seq<Option<int>>>

  /** The client's engine, given the metric's text, answers with the table. */
  ghost predicate Answers(result: Table, client: Client, table: Collection, m: Metric, le: Order, rs: seq<C.Record>) {
    && HasTable(client, table)
    && forall text: string :: IsTextOf(text, client, table, m) ==> Answer(text, client, le, rs) == Some(result)
  }

  lemma OneAnswer(a: Table, b: Table, client: Client, table: Collection, m: Metric, le: Order, rs: seq<C.Record>)
    requires Answers(a, client, table, m, le, rs) && Answers(b, client, table, m, le, rs)
    ensures a == b
  {
    TablesNamed(client, table);
    var text := BaseSql(MetricState(client, table, m));
    assert IsTextOf(text, client, table, m);
  }

  lemma TextIsAnswered(text: string, client: Client, table: Collection, m: Metric, le: Order, r: Q.Request, rs: seq<C.Record>)
    requires MetricOk(m) && IsTextOf(text, client, table, m) && r == RequestOf(m, le)
    ensures Answer(text, client, le, rs) == Some(Q.Result(Q.Compile(client, TableEngine(client, table), r), rs))
  {
    MetricTextMeans(client, table, m, DialectOf(client), le);
  }

  lemma AnswerIs(client: Client, table: Collection, m: Metric, le: Order, r: Q.Request, rs: seq<C.Record>)
    requires MetricOk(m) && HasTable(client, table) && r == RequestOf(m, le)
    ensures Answers(Q.Result(Q.Compile(client, TableEngine(client, table), r), rs), client, table, m, le, rs)
  {
    forall text: string | IsTextOf(text, client, table, m)
      ensures Answer(text, client, le, rs) == Some(Q.Result(Q.Compile(client, TableEngine(client, table), r), rs))
    {
      TextIsAnswered(text, client, table, m, le, r, rs);
    }
  }

  /** The request asks what the metric asks, and its compiled queries are what the engines answer. */
  ghost predicate Asks(r: Q.Request, m: Metric, le: Order) {
    && r.le == le && r.dimensions == m.dimensions && r.granularity == m.granularity
    && r.select == m.aggregates && r.having == m.having
    && forall client: Client, table: Collection, rs: seq<C.Record> | HasTable(client, table) ::
         Answers(Q.Result(Q.Compile(client, TableEngine(client, table), r), rs), client, table, m, le, rs)
  }

  lemma MetricAsks(m: Metric, le: Order)
    requires MetricOk(m)
    ensures Asks(RequestOf(m, le), m, le)
  {
    var r := RequestOf(m, le);
    forall client: Client, table: Collection, rs: seq<C.Record> | HasTable(client, table)
      ensures Answers(Q.Result(Q.Compile(client, TableEngine(client, table), r), rs), client, table, m, le, rs)
    {
      AnswerIs(client, table, m, le, r, rs);
    }
  }

  lemma RequestComparable(m: Metric, le: Order)
    requires MetricOk(m) && FiltersByCounts(m) && Exact(m.range)
    ensures R.Comparable(RequestOf(m, le), SIGN)
  {
    Q.AdmitAlikeExact(CondsOf(m.filters), m.range, le);
    SignIsOk();
  }

  lemma ComparableRequest(m: Metric, le: Order) returns (r: Q.Request)
    requires MetricOk(m) && FiltersByCounts(m) && Exact(m.range)
    ensures Asks(r, m, le) && R.Comparable(r, SIGN)
  {
    r := RequestOf(m, le);
    MetricAsks(m, le);
    RequestComparable(m, le);
  }

  lemma BothAnswer(r: Q.Request, history: seq<C.Change>, merged: seq<C.Entry>, table: Collection, m: Metric, le: Order)
    requires Asks(r, m, le) && HasTable(Sqlx, table)
    ensures Answers(Q.Result(Q.Compile(Clickhouse, CollapsingMergeTree(SIGN), r), Q.Physical(merged, SIGN)),
                    Clickhouse, table, m, le, Q.Physical(merged, SIGN))
    ensures Answers(Q.Result(Q.Compile(Sqlx, BasicTree, r), C.Records(C.Live(history))),
                    Sqlx, table, m, le, C.Records(C.Live(history)))
  {
    SharedTablesCollapse(table);
    ClientAnswers(r, Clickhouse, CollapsingMergeTree(SIGN), table, m, le, Q.Physical(merged, SIGN));
    ClientAnswers(r, Sqlx, BasicTree, table, m, le, C.Records(C.Live(history)));
  }

  lemma ClientAnswers(r: Q.Request, client: Client, engine: Engine, table: Collection, m: Metric, le: Order, rs: seq<C.Record>)
    requires Asks(r, m, le) && HasTable(client, table) && engine == TableEngine(client, table)
    ensures Answers(Q.Result(Q.Compile(client, engine, r), rs), client, table, m, le, rs)
  {
  }

  /** The two clients answer the metric, and their answers agree on the group of a record. */
  ghost predicate AnswersAgree(history: seq<C.Change>, merged: seq<C.Entry>, table: Collection, m: Metric, le: Order, rep: C.Record) {
    exists ch: Table, pg: Table ::
      && Answers(ch, Clickhouse, table, m, le, Q.Physical(merged, SIGN))
      && Answers(pg, Sqlx, table, m, le, C.Records(C.Live(history)))
      && GroupAgrees(m, ch, Q.GroupKey(Q.GroupTexts(Clickhouse, m.dimensions, m.granularity), rep),
                     pg, Q.GroupKey(Q.GroupTexts(Sqlx, m.dimensions, m.granularity), rep))
  }

  /** A metric's ClickHouse text over the signed rows and its Postgres text over the live rows agree on the group of
      every record, for every history of a table both have and every state of its background merges, when the time
      range cuts no second in two. */
  lemma MetricsAgree(history: seq<C.Change>, steps: seq<(nat, nat)>, merged: seq<C.Entry>,
                     table: Collection, m: Metric, le: Order, rep: C.Record)
    requires C.MergedTo(C.Log(history), steps, merged)
    requires HasTable(Sqlx, table) && MetricOk(m) && FiltersByCounts(m) && Exact(m.range)
    ensures AnswersAgree(history, merged, table, m, le, rep)
  {
    var r := ComparableRequest(m, le);
    BothAnswer(r, history, merged, table, m, le);
    ResultsAgree(history, steps, merged, m, r, rep);
  }

  /** The answers agree after every history, in every state of its merges, on every group. */
  ghost predicate AlwaysAgree(table: Collection, m: Metric, le: Order) {
    forall history: seq<C.Change>, steps: seq<(nat, nat)>, merged: seq<C.Entry>, rep: C.Record ::
      C.MergedTo(C.Log(history), steps, merged) ==> AnswersAgree(history, merged, table, m, le, rep)
  }

  /** A metric that groups or counts. */
  predicate GroupsOrCounts(m: Metric) {
    Grouped(m) || exists i :: 0 <= i < |m.aggregates| && m.aggregates[i].Count?
  }

  lemma SplitResults(m: Metric, r: Q.Request, rec: C.Record)
    requires GroupsOrCounts(m) && m.having == r.having == [] && m.aggregates == r.select && CREATED_AT !in r.dimensions
    requires r.dimensions == m.dimensions && r.granularity == m.granularity
    requires Q.Admits(r.clickhouse, Clickhouse, C.Whole(rec), r.le) && !Q.Admits(r.postgres, Sqlx, rec, r.le)
    ensures var sq, pq, history := Q.Compile(Clickhouse, CollapsingMergeTree(SIGN), r), Q.Compile(Sqlx, BasicTree, r), [C.Insert(0, rec)];
            !GroupAgrees(m, Q.Result(sq, Q.Physical(C.Log(history), SIGN)), Q.GroupKey(sq.groupBy, rec),
                         Q.Result(pq, C.Records(C.Live(history))), Q.GroupKey(pq.groupBy, rec))
  {
    SignIsOk();
    if Grouped(m) {
      R.SplitRowSplitsGroups(SIGN, r, rec);
    } else {
      var i :| 0 <= i < |m.aggregates| && m.aggregates[i].Count?;
      R.SplitRowSplitsCounts(SIGN, r, rec, i);
      assert R.Ordinary(m.aggregates[i], SIGN);
    }
  }

  lemma SplitRequest(m: Metric, le: Order, row: Row) returns (r: Q.Request, rec: C.Record)
    requires MetricOk(m) && !Exact(m.range) && CondHolds(AllOf(CondsOf(m.filters)), row, le)
    ensures Asks(r, m, le)
    ensures Q.Admits(r.clickhouse, Clickhouse, C.Whole(rec), r.le) && !Q.Admits(r.postgres, Sqlx, rec, r.le)
    ensures rec == Q.GapRecord(m.range, row)
  {
    r, rec := RequestOf(m, le), Q.GapRecord(m.range, row);
    MetricAsks(m, le);
    Q.GapIsSplit(CondsOf(m.filters), m.range, le, row);
  }

  /** A range that cuts a second in two: after one insert in the cut second the answers differ. */
  lemma CutSecondSplitsAnswers(table: Collection, m: Metric, le: Order, row: Row)
    requires HasTable(Sqlx, table) && MetricOk(m) && m.having == [] && GroupsOrCounts(m)
    requires !Exact(m.range) && CondHolds(AllOf(CondsOf(m.filters)), row, le)
    ensures var rec := Q.GapRecord(m.range, row); var history := [C.Insert(0, rec)];
            !AnswersAgree(history, C.Log(history), table, m, le, rec)
  {
    var r, rec := SplitRequest(m, le, row);
    var history := [C.Insert(0, rec)];
    BothAnswer(r, history, C.Log(history), table, m, le);
    SplitResults(m, r, rec);
    if AnswersAgree(history, C.Log(history), table, m, le, rec) {
      var ch: Table, pg: Table :|
        && Answers(ch, Clickhouse, table, m, le, Q.Physical(C.Log(history), SIGN))
        && Answers(pg, Sqlx, table, m, le, C.Records(C.Live(history)))
        && GroupAgrees(m, ch, Q.GroupKey(Q.GroupTexts(Clickhouse, m.dimensions, m.granularity), rec),
                       pg, Q.GroupKey(Q.GroupTexts(Sqlx, m.dimensions, m.granularity), rec));
      var srs, prs := Q.Physical(C.Log(history), SIGN), C.Records(C.Live(history));
      OneAnswer(ch, Q.Result(Q.Compile(Clickhouse, CollapsingMergeTree(SIGN), r), srs), Clickhouse, table, m, le, srs);
      OneAnswer(pg, Q.Result(Q.Compile(Sqlx, BasicTree, r), prs), Sqlx, table, m, le, prs);
    }
  }

  /** A metric without conditions of its own on groups, and whose filters some row meets, is answered alike by the
      two clients after every history if and only if its time range cuts no second in two. */
  lemma MetricsAgreeExact(table: Collection, m: Metric, le: Order, row: Row)
    requires HasTable(Sqlx, table) && MetricOk(m) && m.having == [] && GroupsOrCounts(m)
    requires CondHolds(AllOf(CondsOf(m.filters)), row, le)
    ensures AlwaysAgree(table, m, le) <==> Exact(m.range)
  {
    if Exact(m.range) {
      ExactRangesAgree(table, m, le);
    } else {
      CutSecondSplitsAnswers(table, m, le, row);
      NotAlways(table, m, le, Q.GapRecord(m.range, row));
    }
  }

  lemma ExactRangesAgree(table: Collection, m: Metric, le: Order)
    requires HasTable(Sqlx, table) && MetricOk(m) && FiltersByCounts(m) && Exact(m.range)
    ensures AlwaysAgree(table, m, le)
  {
    forall history: seq<C.Change>, steps: seq<(nat, nat)>, merged: seq<C.Entry>, rep: C.Record | C.MergedTo(C.Log(history), steps, merged)
      ensures AnswersAgree(history, merged, table, m, le, rep)
    {
      MetricsAgree(history, steps, merged, table, m, le, rep);
    }
  }

  lemma NotAlways(table: Collection, m: Metric, le: Order, rec: C.Record)
    requires var history := [C.Insert(0, rec)]; !AnswersAgree(history, C.Log(history), table, m, le, rec)
    ensures !AlwaysAgree(table, m, le)
  {
    var history := [C.Insert(0, rec)];
    assert C.MergedTo(C.Log(history), [], C.Log(history));
  }

  /** The rows the two clients answer with for a group are equal exactly when no cancelled row still stored beats the
      live ones in a minimum, a maximum or a distinct count. */
  lemma MetricRowsEqualExact(history: seq<C.Change>, steps: seq<(nat, nat)>, merged: seq<C.Entry>,
                             table: Collection, m: Metric, le: Order, rep: C.Record)
    returns (sq: Q.Query, ch: Table, pg: Table)
    requires C.MergedTo(C.Log(history), steps, merged)
    requires HasTable(Sqlx, table) && MetricOk(m) && FiltersByCounts(m) && Exact(m.range)
    requires R.AllOrdinary(m.aggregates, SIGN)
    ensures Answers(ch, Clickhouse, table, m, le, Q.Physical(merged, SIGN)) && ch == Q.Result(sq, Q.Physical(merged, SIGN))
    ensures Answers(pg, Sqlx, table, m, le, C.Records(C.Live(history)))
    ensures var ks := Q.GroupKey(Q.GroupTexts(Clickhouse, m.dimensions, m.granularity), rep);
            var kp := Q.GroupKey(Q.GroupTexts(Sqlx, m.dimensions, m.granularity), rep);
            kp in pg ==>
              && ks in ch
              && (ch[ks] == pg[kp] <==> R.AllUnbeaten(m.aggregates, sq, ks, C.Shipped(C.Live(history)), U.Cancelled(merged)))
  {
    var r := ComparableRequest(m, le);
    BothAnswer(r, history, merged, table, m, le);
    var pq := Q.Compile(Sqlx, BasicTree, r);
    sq := Q.Compile(Clickhouse, CollapsingMergeTree(SIGN), r);
    ch, pg := Q.Result(sq, Q.Physical(merged, SIGN)), Q.Result(pq, C.Records(C.Live(history)));
    if Q.GroupKey(pq.groupBy, rep) in pg {
      R.RowsEqualExact(history, steps, merged, SIGN, r, rep);
    }
  }

  // ----- one table at a time -----

  /** A metric whose texts ClickHouse reads. */
  ghost predicate ReadableMetric(m: Metric) {
    ShapeOk(m) && AllPrintable(m.filters) && AllComplete(m.filters)
  }

  /** The conditions ClickHouse reads: the metric's and its range. */
  ghost function ClickhouseConds(m: Metric): Cond
    requires ReadableMetric(m)
  {
    AllOf(FilterConds(m.filters, BackslashEscapes) + RangeConds(Clickhouse, m.range))
  }

  /** What the metric asks of the rows it is put to. */
  ghost function RowsRequest(m: Metric, le: Order): Q.Request
    requires ReadableMetric(m)
  {
    Q.Request(ClickhouseConds(m), ClickhouseConds(m), le, m.dimensions, m.granularity, m.aggregates, m.having)
  }

  lemma ClickhouseFilters(m: Metric)
    requires ReadableMetric(m)
    ensures var fs := MetricFilters(Clickhouse, m);
            fs != [] && AllPrintable(fs) && AllComplete(fs) && AllOf(FilterConds(fs, BackslashEscapes)) == ClickhouseConds(m)
  {
    RangeCondsOf(Clickhouse, m.range, BackslashEscapes);
    CondsConcat(m.filters, RangeFilters(Clickhouse, m.range), BackslashEscapes);
  }

  lemma ClickhouseTextMeans(table: Collection, m: Metric, le: Order)
    requires ReadableMetric(m)
    ensures TableName(Clickhouse, table).Some?
    ensures Understood(BaseSql(MetricState(Clickhouse, table, m)), Clickhouse, BackslashEscapes, le)
         == Some(Q.Compile(Clickhouse, TableEngine(Clickhouse, table), RowsRequest(m, le)))
  {
    NameOk(Clickhouse, table);
    StateMeansRows(TableEngine(Clickhouse, table), TableName(Clickhouse, table), m, le);
  }

  lemma StateMeansRows(engine: Engine, table: Option<string>, m: Metric, le: Order)
    requires ReadableMetric(m) && EngineOk(engine) && TableOk(table)
    ensures Understood(BaseSql(StateWith(Clickhouse, engine, table, m, MetricFilters(Clickhouse, m))), Clickhouse, BackslashEscapes, le)
         == Some(Q.Compile(Clickhouse, engine, RowsRequest(m, le)))
  {
    ClickhouseFilters(m);
    StateTextMeans(Clickhouse, engine, table, m, MetricFilters(Clickhouse, m), BackslashEscapes, le);
  }

  lemma ClickhouseAnswers(table: Collection, m: Metric, le: Order, r: Q.Request, engine: Engine, rs: seq<C.Record>)
    requires ReadableMetric(m) && r == RowsRequest(m, le) && engine == TableEngine(Clickhouse, table)
    ensures Answers(Q.Result(Q.Compile(Clickhouse, engine, r), rs), Clickhouse, table, m, le, rs)
  {
    forall text: string | IsTextOf(text, Clickhouse, table, m)
      ensures Answer(text, Clickhouse, le, rs) == Some(Q.Result(Q.Compile(Clickhouse, engine, r), rs))
    {
      ClickhouseTextMeans(table, m, le);
    }
  }

  /** The tables of records that come and go. */
  predicate HoldsRecords(table: Collection) {
    match table
    case Payment | PaymentSessionized | PaymentIntent | PaymentIntentSessionized => true
    case Refund | RefundSessionized | Dispute | DisputeSessionized => true
    case FraudCheck | Authentications => true
    case _ => false
  }

  lemma RecordsCollapse(table: Collection)
    ensures TableEngine(Clickhouse, table) == if HoldsRecords(table) then CollapsingMergeTree("sign_flag") else BasicTree
  {
  }

  /** For every table of records, every history and every state of its merges: the metric's ClickHouse text, put to the
      signed rows, is answered with exactly the groups that have a live row, and with the live counts and sums. */
  lemma RecordTablesAnswerLive(history: seq<C.Change>, steps: seq<(nat, nat)>, merged: seq<C.Entry>, table: Collection, m: Metric, le: Order)
    returns (ch: Table)
    requires C.MergedTo(C.Log(history), steps, merged)
    requires HoldsRecords(table) && ReadableMetric(m) && FiltersByCounts(m)
    ensures Answers(ch, Clickhouse, table, m, le, Q.Physical(merged, "sign_flag"))
    ensures L.LiveAgrees(m.aggregates, "sign_flag", ch, Q.Result(L.Plain(RowsRequest(m, le)), C.Shipped(C.Live(history))))
  {
    var r := RowsRequest(m, le);
    RecordsCollapse(table);
    SignIsOk();
    ch := Q.Result(L.Signed("sign_flag", r), Q.Physical(merged, "sign_flag"));
    ClickhouseAnswers(table, m, le, r, CollapsingMergeTree("sign_flag"), Q.Physical(merged, "sign_flag"));
    L.SignedResultIsLive(history, steps, merged, "sign_flag", r);
  }

  /** Every other table holds events, which stay: the text is answered with the plain query over all rows. */
  lemma EventTablesAnswerAll(table: Collection, m: Metric, le: Order, rs: seq<C.Record>)
    requires !HoldsRecords(table) && ReadableMetric(m)
    ensures Answers(Q.Result(L.Plain(RowsRequest(m, le)), rs), Clickhouse, table, m, le, rs)
  {
    RecordsCollapse(table);
    ClickhouseAnswers(table, m, le, RowsRequest(m, le), BasicTree, rs);
  }

  /** A metric's text names its table, selects its dimensions and then its aggregates, and groups by its dimensions and
      then its granularity. */
  lemma MetricTextShape(client: Client, table: Collection, m: Metric, d: Dialect)
    requires MetricOk(m) && HasTable(client, table)
    ensures TableName(client, table).Some?
    ensures var s := ReadSelect(BaseSql(MetricState(client, table, m)), d);
            && s.Some? && TableOf(client, s.value.table) == Some(table) && !s.value.distinct
            && s.value.items == m.dimensions + AggregateTexts(client, TableEngine(client, table), m.aggregates)
            && s.value.groupBy == Q.GroupTexts(client, m.dimensions, m.granularity)
  {
    TablesNamed(client, table);
    NameOk(client, table);
    NamesTable(client, table);
    MetricWhere(client, m, d);
    StateIsReadable(client, TableEngine(client, table), TableName(client, table), m, MetricFilters(client, m));
    BaseSqlReads(MetricState(client, table, m), d);
  }

  /** `payment_count`: a count with the first and last creation time of each group. */
  function PaymentCount(dimensions: seq<string>, granularity: Option<Granularity>, filters: seq<Filter>, range: Range): Metric {
    Metric(dimensions, granularity,
           [Count(Some("count")), Min(CREATED_AT, Some("start_bucket")), Max(CREATED_AT, Some("end_bucket"))],
           filters, range, [])
  }

  /** What the metric reports for a group, its count and its time range, is the same from both. */
  predicate ReportsAlike(granularity: Option<Granularity>, range: Range, ch: Table, ks: Q.Key, pg: Table, kp: Q.Key) {
    && (ks in ch <==> kp in pg)
    && (ks in ch && kp in pg ==>
          var a, b := ch[ks], pg[kp];
          && |a| == |b| == 3 && a[0] == b[0]
          && R.ReportedRange(granularity, range, a[1], a[2]) == R.ReportedRange(granularity, range, b[1], b[2]))
  }

  lemma CountsReportAlike(dimensions: seq<string>, granularity: Option<Granularity>, filters: seq<Filter>, range: Range,
                          ch: Table, ks: Q.Key, pg: Table, kp: Q.Key)
    requires GroupAgrees(PaymentCount(dimensions, granularity, filters, range), ch, ks, pg, kp)
    ensures ReportsAlike(granularity, range, ch, ks, pg, kp)
  {
    var m := PaymentCount(dimensions, granularity, filters, range);
    assert R.Ordinary(m.aggregates[0], SIGN) && IsStart(m.aggregates[1]) && IsEnd(m.aggregates[2]);
  }

  /** For every history, merge state and group, when the range cuts no second in two. */
  lemma PaymentCountAgrees(history: seq<C.Change>, steps: seq<(nat, nat)>, merged: seq<C.Entry>, dimensions: seq<string>,
                           granularity: Option<Granularity>, filters: seq<Filter>, range: Range, le: Order, rep: C.Record)
    returns (ch: Table, pg: Table)
    requires C.MergedTo(C.Log(history), steps, merged) && Exact(range)
    requires MetricOk(PaymentCount(dimensions, granularity, filters, range))
    ensures Answers(ch, Clickhouse, Payment, PaymentCount(dimensions, granularity, filters, range), le, Q.Physical(merged, SIGN))
    ensures Answers(pg, Sqlx, Payment, PaymentCount(dimensions, granularity, filters, range), le, C.Records(C.Live(history)))
    ensures ReportsAlike(granularity, range, ch, Q.GroupKey(Q.GroupTexts(Clickhouse, dimensions, granularity), rep),
                         pg, Q.GroupKey(Q.GroupTexts(Sqlx, dimensions, granularity), rep))
  {
    var m := PaymentCount(dimensions, granularity, filters, range);
    MetricsAgree(history, steps, merged, Payment, m, le, rep);
    ch, pg :|
      && Answers(ch, Clickhouse, Payment, m, le, Q.Physical(merged, SIGN))
      && Answers(pg, Sqlx, Payment, m, le, C.Records(C.Live(history)))
      && GroupAgrees(m, ch, Q.GroupKey(Q.GroupTexts(Clickhouse, m.dimensions, m.granularity), rep),
                     pg, Q.GroupKey(Q.GroupTexts(Sqlx, m.dimensions, m.granularity), rep));
    CountsReportAlike(dimensions, granularity, filters, range, ch, Q.GroupKey(Q.GroupTexts(Clickhouse, dimensions, granularity), rep),
                      pg, Q.GroupKey(Q.GroupTexts(Sqlx, dimensions, granularity), rep));
  }
}
