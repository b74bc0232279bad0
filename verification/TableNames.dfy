/** From a table's name back to the table. */
module TableNames {
  import opened Text
  import opened Aggregates

  /** The table a name stands for, as the databases' schemas have it. */
  function TableOf(client: Client, name: string): Option<Collection> {
    if client.Sqlx? then PostgresTable(name)
    else if "sessionizer_" <= name then SessionizedTable(name[12..])
    else if |name| > 6 && name[|name| - 6..] == "_audit" then AuditedTable(name[..|name| - 6])
    else RecordTable(name)
  }

  function PostgresTable(name: string): Option<Collection> {
    if name == "payment_attempt" then Some(Payment)
    else if name == "payment_intent" then Some(PaymentIntent)
    else if name == "refund" then Some(Refund)
    else if name == "dispute" then Some(Dispute)
    else if name == "fraud_check" then Some(FraudCheck)
    else None
  }

  function SessionizedTable(name: string): Option<Collection> {
    if name == "payment_attempts" then Some(PaymentSessionized)
    else if name == "payment_intents" then Some(PaymentIntentSessionized)
    else if name == "refunds" then Some(RefundSessionized)
    else if name == "dispute" then Some(DisputeSessionized)
    else None
  }

  function AuditedTable(name: string): Option<Collection> {
    if name == "sdk_events" then Some(SdkEvents)
    else if name == "api_events" then Some(ApiEvents)
    else if name == "api_events_payout" then Some(ApiPayoutEvents)
    else if name == "connector_events" then Some(ConnectorEvents)
    else if name == "connector_events_payout" then Some(ConnectorPayoutEvents)
    else if name == "prism_connector_events" then Some(PrismConnectorEvents)
    else if name == "prism_connector_events_payout" then Some(PrismConnectorPayoutEvents)
    else if name == "routing_events" then Some(RoutingEvents)
    else if name == "outgoing_webhook_events" then Some(OutgoingWebhookEvent)
    else if name == "outgoing_webhook_events_payout" then Some(OutgoingWebhookPayoutEvent)
    else None
  }

  function RecordTable(name: string): Option<Collection> {
    if name == "payment_attempts" then Some(Payment)
    else if name == "payment_intents" then Some(PaymentIntent)
    else if name == "refunds" then Some(Refund)
    else if name == "dispute" then Some(Dispute)
    else if name == "fraud_check" then Some(FraudCheck)
    else if name == "authentications" then Some(Authentications)
    else if name == "sdk_events" then Some(SdkEventsAnalytics)
    else if name == "api_events" then Some(ApiEventsAnalytics)
    else if name == "active_payments" then Some(ActivePaymentsAnalytics)
    else None
  }

  /** A client's name for a table stands for that table and no other. */
  lemma NamesTable(client: Client, table: Collection)
    requires HasTable(client, table)
    ensures TableName(client, table).Some? && TableOf(client, TableName(client, table).value) == Some(table)
  {
    if client.Sqlx? {
      PostgresNamesTable(table);
    } else {
      match table
      case PaymentSessionized | PaymentIntentSessionized | RefundSessionized | DisputeSessionized => SessionNamesTable(table);
      case Payment | PaymentIntent | Refund => PaymentNamesTable(table);
      case Dispute | FraudCheck | Authentications => RecordNamesTable(table);
      case SdkEventsAnalytics | ApiEventsAnalytics | ActivePaymentsAnalytics => AnalyticsNamesTable(table);
      case SdkEvents => SdkNamesTable();
      case RoutingEvents => RoutingNamesTable();
      case ApiEvents => ApiNamesTable();
      case ApiPayoutEvents => ApiPayoutNamesTable();
      case ConnectorEvents => ConnectorNamesTable();
      case ConnectorPayoutEvents => ConnectorPayoutNamesTable();
      case PrismConnectorEvents => PrismNamesTable();
      case PrismConnectorPayoutEvents => PrismPayoutNamesTable();
      case OutgoingWebhookEvent => WebhookNamesTable();
      case OutgoingWebhookPayoutEvent => WebhookPayoutNamesTable();
    }
  }

  lemma PostgresNamesTable(table: Collection)
    requires HasTable(Sqlx, table)
    ensures TableName(Sqlx, table).Some? && TableOf(Sqlx, TableName(Sqlx, table).value) == Some(table)
  {
  }

  lemma SessionNamesTable(table: Collection)
    requires table.PaymentSessionized? || table.PaymentIntentSessionized? || table.RefundSessionized? || table.DisputeSessionized?
    ensures TableOf(Clickhouse, ClickhouseName(table)) == Some(table)
  {
    var name := ClickhouseName(table);
    assert "sessionizer_" <= name;
    assert name[12..] == (if table.PaymentSessionized? then "payment_attempts"
                          else if table.PaymentIntentSessionized? then "payment_intents"
                          else if table.RefundSessionized? then "refunds" else "dispute");
  }

  lemma PaymentNamesTable(table: Collection)
    requires table.Payment? || table.PaymentIntent? || table.Refund?
    ensures TableOf(Clickhouse, ClickhouseName(table)) == Some(table)
  {
    var name := ClickhouseName(table);
    assert name[0] != 's' && name[|name| - 1] != 't';
  }

  lemma RecordNamesTable(table: Collection)
    requires table.Dispute? || table.FraudCheck? || table.Authentications?
    ensures TableOf(Clickhouse, ClickhouseName(table)) == Some(table)
  {
    var name := ClickhouseName(table);
    assert name[0] != 's' && name[|name| - 1] != 't';
  }

  lemma AnalyticsNamesTable(table: Collection)
    requires table.SdkEventsAnalytics? || table.ApiEventsAnalytics? || table.ActivePaymentsAnalytics?
    ensures TableOf(Clickhouse, ClickhouseName(table)) == Some(table)
  {
    var name := ClickhouseName(table);
    assert name[|name| - 1] == 's' && name[1] != 'e';
  }

  /** An audited table's name is that of its events with the ending. */
  lemma AuditedName(name: string, base: string)
    requires name == base + "_audit" && |base| >= 2 && base[1] != 'e'
    ensures TableOf(Clickhouse, name) == AuditedTable(base)
  {
    PrefixOfSum(base, "_audit");
    assert name[..|name| - 6] == base;
    assert name[1] == base[1];
  }

  lemma SdkNamesTable()
    ensures TableOf(Clickhouse, ClickhouseName(SdkEvents)) == Some(SdkEvents)
  {
    AuditedName(ClickhouseName(SdkEvents), "sdk_events");
  }

  lemma RoutingNamesTable()
    ensures TableOf(Clickhouse, ClickhouseName(RoutingEvents)) == Some(RoutingEvents)
  {
    AuditedName(ClickhouseName(RoutingEvents), "routing_events");
  }

  lemma ApiNamesTable()
    ensures TableOf(Clickhouse, ClickhouseName(ApiEvents)) == Some(ApiEvents)
  {
    AuditedName(ClickhouseName(ApiEvents), "api_events");
  }

  lemma ApiPayoutNamesTable()
    ensures TableOf(Clickhouse, ClickhouseName(ApiPayoutEvents)) == Some(ApiPayoutEvents)
  {
    AuditedName(ClickhouseName(ApiPayoutEvents), "api_events_payout");
  }

  lemma ConnectorNamesTable()
    ensures TableOf(Clickhouse, ClickhouseName(ConnectorEvents)) == Some(ConnectorEvents)
  {
    AuditedName(ClickhouseName(ConnectorEvents), "connector_events");
  }

  lemma ConnectorPayoutNamesTable()
    ensures TableOf(Clickhouse, ClickhouseName(ConnectorPayoutEvents)) == Some(ConnectorPayoutEvents)
  {
    AuditedName(ClickhouseName(ConnectorPayoutEvents), "connector_events_payout");
  }

  lemma PrismNamesTable()
    ensures TableOf(Clickhouse, ClickhouseName(PrismConnectorEvents)) == Some(PrismConnectorEvents)
  {
    AuditedName(ClickhouseName(PrismConnectorEvents), "prism_connector_events");
  }

  lemma PrismPayoutNamesTable()
    ensures TableOf(Clickhouse, ClickhouseName(PrismConnectorPayoutEvents)) == Some(PrismConnectorPayoutEvents)
  {
    AuditedName(ClickhouseName(PrismConnectorPayoutEvents), "prism_connector_events_payout");
  }

  lemma WebhookNamesTable()
    ensures TableOf(Clickhouse, ClickhouseName(OutgoingWebhookEvent)) == Some(OutgoingWebhookEvent)
  {
    AuditedName(ClickhouseName(OutgoingWebhookEvent), "outgoing_webhook_events");
  }

  lemma WebhookPayoutNamesTable()
    ensures TableOf(Clickhouse, ClickhouseName(OutgoingWebhookPayoutEvent)) == Some(OutgoingWebhookPayoutEvent)
  {
    AuditedName(ClickhouseName(OutgoingWebhookPayoutEvent), "outgoing_webhook_events_payout");
  }
}
