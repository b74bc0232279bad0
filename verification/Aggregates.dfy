/** Table engines and the aggregate printers of the two clients, with a reader of the aggregate text. */
module Aggregates {
  import opened Text
  import Filters

  datatype Client = Clickhouse | Sqlx

  datatype Engine = CollapsingMergeTree(sign: string) | BasicTree

  datatype Collection =
    | Payment | PaymentSessionized | Refund | RefundSessionized | FraudCheck
    | PaymentIntent | PaymentIntentSessionized | Authentications | Dispute | DisputeSessionized
    | SdkEvents | SdkEventsAnalytics | ApiEvents | ApiPayoutEvents | ApiEventsAnalytics
    | ConnectorEvents | ConnectorPayoutEvents | PrismConnectorEvents | PrismConnectorPayoutEvents
    | RoutingEvents | OutgoingWebhookEvent | OutgoingWebhookPayoutEvent | ActivePaymentsAnalytics

  const SIGN := "sign_flag"

  function TableEngine(client: Client, table: Collection): Engine {
    if client.Sqlx? then BasicTree
    else
      match table
      case Payment | PaymentSessionized | Refund | RefundSessionized | FraudCheck
         | PaymentIntent | PaymentIntentSessionized | Authentications | Dispute | DisputeSessionized =>
        CollapsingMergeTree(SIGN)
      case _ => BasicTree
  }

  function ClickhouseName(table: Collection): string {
    match table
    case Payment => "payment_attempts"
    case PaymentSessionized => "sessionizer_payment_attempts"
    case Refund => "refunds"
    case RefundSessionized => "sessionizer_refunds"
    case FraudCheck => "fraud_check"
    case PaymentIntent => "payment_intents"
    case PaymentIntentSessionized => "sessionizer_payment_intents"
    case Authentications => "authentications"
    case Dispute => "dispute"
    case DisputeSessionized => "sessionizer_dispute"
    case SdkEvents => "sdk_events_audit"
    case SdkEventsAnalytics => "sdk_events"
    case ApiEvents => "api_events_audit"
    case ApiPayoutEvents => "api_events_payout_audit"
    case ApiEventsAnalytics => "api_events"
    case ConnectorEvents => "connector_events_audit"
    case ConnectorPayoutEvents => "connector_events_payout_audit"
    case PrismConnectorEvents => "prism_connector_events_audit"
    case PrismConnectorPayoutEvents => "prism_connector_events_payout_audit"
    case RoutingEvents => "routing_events_audit"
    case OutgoingWebhookEvent => "outgoing_webhook_events_audit"
    case OutgoingWebhookPayoutEvent => "outgoing_webhook_events_payout_audit"
    case ActivePaymentsAnalytics => "active_payments"
  }

  /** Postgres has only some of the tables. */
  function TableName(client: Client, table: Collection): Option<string> {
    if client.Clickhouse? then Some(ClickhouseName(table))
    else
      match table
      case Payment => Some("payment_attempt")
      case Refund => Some("refund")
      case FraudCheck => Some("fraud_check")
      case PaymentIntent => Some("payment_intent")
      case Dispute => Some("dispute")
      case _ => None
  }

  predicate HasTable(client: Client, table: Collection) {
    client.Clickhouse? || table.Payment? || table.Refund? || table.FraudCheck? || table.PaymentIntent? || table.Dispute?
  }

  lemma TablesNamed(client: Client, table: Collection)
    ensures TableName(client, table).Some? <==> HasTable(client, table)
  {
  }

  /** Every table that Postgres has is a collapsing one on ClickHouse. */
  lemma SharedTablesCollapse(table: Collection)
    requires HasTable(Sqlx, table)
    ensures TableEngine(Clickhouse, table) == CollapsingMergeTree(SIGN)
  {
  }

  datatype Aggregate =
    | Count(alias: Option<string>)
    | Sum(field: string, alias: Option<string>)
    | Min(field: string, alias: Option<string>)
    | Max(field: string, alias: Option<string>)
    | DistinctCount(field: string, alias: Option<string>)

  function AliasSql(alias: Option<string>): string {
    match alias
    case None => ""
    case Some(a) => " as " + a
  }

  /** The expression without its alias. Only ClickHouse's count and sum look at the engine. */
  function ExprSql(client: Client, engine: Engine, a: Aggregate): string {
    match a
    case Count(_) =>
      if client.Clickhouse? && engine.CollapsingMergeTree? then "sum(" + engine.sign + ")" else "count(*)"
    case Sum(f, _) =>
      if client.Clickhouse? && engine.CollapsingMergeTree? then "sum(" + engine.sign + " * " + f + ")" else "sum(" + f + ")"
    case Min(f, _) => "min(" + f + ")"
    case Max(f, _) => "max(" + f + ")"
    case DistinctCount(f, _) => "count(distinct " + f + ")"
  }

  function AggregateSql(client: Client, engine: Engine, a: Aggregate): string {
    ExprSql(client, engine, a) + AliasSql(a.alias)
  }

  // ----- reading -----

  datatype SqlAgg =
    | CountRows
    | SumOf(col: string)
    | SumOfProduct(factor: string, col: string)
    | MinOf(col: string)
    | MaxOf(col: string)
    | CountDistinct(col: string)

  predicate IsOpen(c: char) { c == '(' }
  predicate IsClose(c: char) { c == ')' }

  function ReadArgument(name: string, arg: string): Option<SqlAgg> {
    if name == "count" then
      if arg == "*" then Some(CountRows)
      else if "distinct " <= arg then Some(CountDistinct(arg[9..]))
      else None
    else if name == "sum" then
      var w := Until(arg, IsSpace);
      if w == arg then Some(SumOf(arg))
      else if " * " <= arg[|w|..] then Some(SumOfProduct(w, arg[|w| + 3..]))
      else None
    else if name == "min" then Some(MinOf(arg))
    else if name == "max" then Some(MaxOf(arg))
    else None
  }

  /** A function call, and the alias behind it if there is one. */
  function ReadAggregate(s: string): Option<(SqlAgg, Option<string>)> {
    var name := Until(s, IsOpen);
    if |name| == |s| then None
    else
      var inner := s[|name| + 1..];
      var arg := Until(inner, IsClose);
      if |arg| == |inner| then None
      else
        var tail := inner[|arg| + 1..];
        match ReadArgument(name, arg)
        case None => None
        case Some(a) =>
          if tail == "" then Some((a, None))
          else if " as " <= tail then Some((a, Some(tail[4..])))
          else None
  }

  // ----- what the text means -----

  /** A plain column name. */
  predicate FieldOk(f: string) {
    f != "" && ' ' !in f && '(' !in f && ')' !in f
  }

  predicate AggregateOk(a: Aggregate) {
    a.Count? || FieldOk(a.field)
  }

  predicate EngineOk(engine: Engine) {
    engine.CollapsingMergeTree? ==> FieldOk(engine.sign)
  }

  /** What an aggregate must compute on an engine. */
  function Intended(client: Client, engine: Engine, a: Aggregate): SqlAgg {
    var signed := client.Clickhouse? && engine.CollapsingMergeTree?;
    match a
    case Count(_) => if signed then SumOf(engine.sign) else CountRows
    case Sum(f, _) => if signed then SumOfProduct(engine.sign, f) else SumOf(f)
    case Min(f, _) => MinOf(f)
    case Max(f, _) => MaxOf(f)
    case DistinctCount(f, _) => CountDistinct(f)
  }

  lemma AfterOne(a: string, c: string, rest: string)
    requires |c| == 1
    ensures (a + (c + rest))[|a| + 1..] == rest
  {
    Assoc(a, c, rest);
    PrefixOfSum(a + c, rest);
  }

  lemma ReadCall(name: string, arg: string, tail: string)
    requires '(' !in name && ')' !in arg
    ensures var s := name + ("(" + (arg + (")" + tail)));
            && Until(s, IsOpen) == name && |name| < |s|
            && s[|name| + 1..] == arg + (")" + tail)
            && Until(arg + (")" + tail), IsClose) == arg
            && (arg + (")" + tail))[|arg| + 1..] == tail
  {
    UntilRun(name, "(" + (arg + (")" + tail)), IsOpen);
    AfterOne(name, "(", arg + (")" + tail));
    UntilRun(arg, ")" + tail, IsClose);
    AfterOne(arg, ")", tail);
  }

  function NameOf(a: SqlAgg): string {
    match a
    case CountRows | CountDistinct(_) => "count"
    case SumOf(_) | SumOfProduct(_, _) => "sum"
    case MinOf(_) => "min"
    case MaxOf(_) => "max"
  }

  function ArgumentOf(a: SqlAgg): string {
    match a
    case CountRows => "*"
    case CountDistinct(f) => "distinct " + f
    case SumOf(f) => f
    case SumOfProduct(s, f) => s + " * " + f
    case MinOf(f) => f
    case MaxOf(f) => f
  }

  lemma ExprShape(client: Client, engine: Engine, a: Aggregate, tail: string)
    ensures var i := Intended(client, engine, a);
            ExprSql(client, engine, a) + tail == NameOf(i) + ("(" + (ArgumentOf(i) + (")" + tail)))
  {
    var i := Intended(client, engine, a);
    ShapeParts(NameOf(i), ArgumentOf(i), tail);
    match a
    case Count(_) =>
      assert "count(*)" == "count" + "(" + "*" + ")";
      assert "sum(" == "sum" + "(";
    case Sum(f, _) =>
      assert "sum(" == "sum" + "(";
      if i.SumOfProduct? {
        assert "sum(" + engine.sign + " * " + f + ")" == "sum(" + (engine.sign + " * " + f) + ")";
      }
    case Min(f, _) => assert "min(" == "min" + "(";
    case Max(f, _) => assert "max(" == "max" + "(";
    case DistinctCount(f, _) =>
      assert "count(distinct " == "count" + "(" + "distinct ";
      assert "count" + "(" + "distinct " + f + ")" == "count" + "(" + ("distinct " + f) + ")";
  }

  lemma ShapeParts(name: string, arg: string, tail: string)
    ensures name + "(" + arg + ")" + tail == name + ("(" + (arg + (")" + tail)))
  {
  }

  predicate SqlAggOk(i: SqlAgg) {
    match i
    case CountRows => true
    case SumOfProduct(s, f) => FieldOk(s) && FieldOk(f)
    case _ => FieldOk(i.col)
  }

  lemma ReadProduct(s: string, f: string)
    requires FieldOk(s) && FieldOk(f)
    ensures ReadArgument("sum", s + " * " + f) == Some(SumOfProduct(s, f))
  {
    var arg := s + " * " + f;
    assert arg == s + (" * " + f);
    UntilRun(s, " * " + f, IsSpace);
    assert arg[|s|..] == " * " + f && arg[|s| + 3..] == f;
  }

  lemma ReadSingle(f: string)
    requires FieldOk(f)
    ensures ReadArgument("sum", f) == Some(SumOf(f))
    ensures ReadArgument("count", "distinct " + f) == Some(CountDistinct(f))
  {
    UntilRun(f, "", IsSpace);
    assert f + "" == f;
    assert ("distinct " + f)[9..] == f;
  }

  lemma ReadArgumentOf(i: SqlAgg)
    requires SqlAggOk(i)
    ensures ReadArgument(NameOf(i), ArgumentOf(i)) == Some(i)
  {
    match i
    case SumOf(f) => ReadSingle(f);
    case CountDistinct(f) => ReadSingle(f);
    case SumOfProduct(s, f) => ReadProduct(s, f);
    case _ =>
  }

  lemma ReadShape(i: SqlAgg, alias: Option<string>)
    requires SqlAggOk(i)
    ensures ReadAggregate(NameOf(i) + ("(" + (ArgumentOf(i) + (")" + AliasSql(alias))))) == Some((i, alias))
  {
    NoParentheses(i);
    ReadArgumentOf(i);
    ReadAliased(NameOf(i), ArgumentOf(i), i, alias);
  }

  lemma NoParentheses(i: SqlAgg)
    requires SqlAggOk(i)
    ensures '(' !in NameOf(i) && ')' !in ArgumentOf(i)
  {
  }

  lemma ReadAliased(name: string, arg: string, i: SqlAgg, alias: Option<string>)
    requires '(' !in name && ')' !in arg && ReadArgument(name, arg) == Some(i)
    ensures ReadAggregate(name + ("(" + (arg + (")" + AliasSql(alias))))) == Some((i, alias))
  {
    ReadCall(name, arg, AliasSql(alias));
    if alias.Some? {
      PrefixOfSum(" as ", alias.value);
    }
  }

  /** The printed aggregate says what the engine needs: the sign-weighted form on a collapsing
      ClickHouse table, the plain form everywhere else. */
  lemma AggregateReads(client: Client, engine: Engine, a: Aggregate)
    requires AggregateOk(a) && EngineOk(engine)
    ensures ReadAggregate(AggregateSql(client, engine, a)) == Some((Intended(client, engine, a), a.alias))
  {
    ExprShape(client, engine, a, AliasSql(a.alias));
    ReadShape(Intended(client, engine, a), a.alias);
  }

  lemma {:induction false} EnclosedWord(w: string, rest: string, depth: nat)
    requires '(' !in w && ')' !in w && (depth == 0 ==> ' ' !in w)
    ensures Filters.Enclosed(w + rest, depth) == Filters.Enclosed(rest, depth)
  {
    if w == "" {
      assert w + rest == rest;
    } else {
      assert (w + rest)[1..] == w[1..] + rest;
      EnclosedWord(w[1..], rest, depth);
    }
  }

  /** An aggregate without alias can stand as the left side of a HAVING condition. */
  lemma AggregateIsColumn(client: Client, engine: Engine, a: Aggregate)
    requires AggregateOk(a) && EngineOk(engine)
    ensures Filters.ColumnOk(ExprSql(client, engine, a))
  {
    var i := Intended(client, engine, a);
    ExprShape(client, engine, a, "");
    var name, arg := NameOf(i), ArgumentOf(i);
    var s := ExprSql(client, engine, a);
    assert s + "" == s;
    assert '(' !in arg && ')' !in arg;
    EnclosedWord(name, "(" + (arg + (")" + "")), 0);
    assert ("(" + (arg + (")" + "")))[1..] == arg + (")" + "");
    EnclosedWord(arg, ")" + "", 1);
    assert (")" + "")[1..] == "";
  }
}
