/** From a search request to the documents it finds: the keys its filters are stored under, and what each of them means
    on documents written with their own field names. */
module SearchRequests {
  import opened Text
  import Amounts
  import opened OpenSearch
  import opened SearchMeaning

  /** The filters a request may carry. */
  datatype Field =
    | Currency | Status | PaymentMethod | CustomerEmail | SearchTags | Connector | PaymentMethodType | CardNetwork
    | CardLast4 | ActiveAttemptId | MerchantConnectorId | CardIssuer | RoutingApproach | RefundsStatus | DisputeStatus
    | ClientSource | ClientVersion | FirstAttempt | PaymentId | Amount | CustomerId | AuthenticationType | CardDiscovery
    | MerchantOrderReferenceId

  /** The key a filter is stored under. */
  function Key(field: Field): string {
    match field
    case Currency => "currency.keyword"
    case Status => "status.keyword"
    case PaymentMethod => "payment_method.keyword"
    case CustomerEmail => "customer_email.keyword"
    case SearchTags => "feature_metadata.search_tags.keyword"
    case Connector => "connector.keyword"
    case PaymentMethodType => "payment_method_type.keyword"
    case CardNetwork => "card_network.keyword"
    case CardLast4 => "card_last_4.keyword"
    case ActiveAttemptId => "active_attempt_id.keyword"
    case MerchantConnectorId => "merchant_connector_id.keyword"
    case CardIssuer => "card_issuer.keyword"
    case RoutingApproach => "routing_approach.keyword"
    case RefundsStatus => "refunds_status.keyword"
    case DisputeStatus => "dispute_status.keyword"
    case ClientSource => "client_source.keyword"
    case ClientVersion => "client_version.keyword"
    case FirstAttempt => "first_attempt"
    case PaymentId => "payment_id.keyword"
    case Amount => "amount"
    case CustomerId => "customer_id.keyword"
    case AuthenticationType => "authentication_type.keyword"
    case CardDiscovery => "card_discovery.keyword"
    case MerchantOrderReferenceId => "merchant_order_reference_id.keyword"
  }

  datatype Wish = Wish(field: Field, values: Option<seq<Value>>)

  /** A filter that is absent or empty is not stored. */
  predicate Given(w: Wish) {
    w.values.Some? && w.values.value != []
  }

  function Stored(wishes: seq<Wish>): seq<Filter> {
    if wishes == [] then []
    else
      var last := wishes[|wishes| - 1];
      Stored(wishes[..|wishes| - 1]) + (if Given(last) then [Filter(Key(last.field), last.values.value)] else [])
  }

  /** The `append_filter!` lines of a request, one after the other. */
  method AppendFilters(qb: QueryBuilder, wishes: seq<Wish>)
    modifies qb`filters
    ensures qb.filters == old(qb.filters) + Stored(wishes)
  {
    for i := 0 to |wishes|
      invariant qb.filters == old(qb.filters) + Stored(wishes[..i])
    {
      assert wishes[..i + 1][..i] == wishes[..i];
      if wishes[i].values.Some? {
        if wishes[i].values.value != [] {
          Append(qb, Key(wishes[i].field), wishes[i].values.value);
        }
      }
    }
    assert wishes[..|wishes|] == wishes;
  }

  method Append(qb: QueryBuilder, key: string, values: seq<Value>)
    modifies qb`filters
    ensures qb.filters == old(qb.filters) + [Filter(key, values)]
  {
    qb.AddFilterClause(key, values);
    assert qb.filters == qb.Snapshot().filters;
  }

  // ----- what a filter means on a document -----

  /** Compared as it is; every other text matches in any case. */
  predicate Exactly(field: Field) {
    match field
    case CustomerEmail | CustomerId | PaymentId | ActiveAttemptId => true
    case MerchantConnectorId | MerchantOrderReferenceId | CardLast4 => true
    case _ => false
  }

  /** The cells of a document that hold the field, for the fields held in one place. */
  function CellsOf(field: Field, doc: Doc): seq<Value> {
    match field
    case Currency => Cells(doc, "currency.keyword")
    case PaymentMethod => Cells(doc, "payment_method.keyword")
    case PaymentMethodType => Cells(doc, "payment_method_type.keyword")
    case CustomerEmail => Cells(doc, "customer_email.keyword")
    case CustomerId => Cells(doc, "customer_id.keyword")
    case SearchTags => Cells(doc, "feature_metadata.search_tags.keyword")
    case Connector => Cells(doc, "connector.keyword")
    case CardNetwork => Cells(doc, "card_network.keyword")
    case CardIssuer => Cells(doc, "card_issuer.keyword")
    case CardLast4 => Cells(doc, "card_last_4.keyword")
    case PaymentId => Cells(doc, "payment_id.keyword")
    case ActiveAttemptId => Cells(doc, "active_attempt_id.keyword")
    case MerchantConnectorId => Cells(doc, "merchant_connector_id.keyword")
    case MerchantOrderReferenceId => Cells(doc, "merchant_order_reference_id.keyword")
    case RoutingApproach => Cells(doc, "routing_approach.keyword")
    case AuthenticationType => Cells(doc, "authentication_type.keyword")
    case ClientSource => Cells(doc, "client_source.keyword")
    case ClientVersion => Cells(doc, "client_version.keyword")
    case _ => []
  }

  /** The document is what the filter asks for. */
  ghost predicate Accepts(field: Field, values: seq<Value>, kind: Kind, doc: Doc) {
    match field
    case Amount => AnyIn(AmountCells(kind, doc), values)
    case Status => AnyFolded(StatusCells(kind, doc), values)
    case FirstAttempt => (Flag(true) !in values && Flag(false) !in values) || FirstAttemptHolds(values, doc)
    case CardDiscovery => ActiveAttemptHolds("card_discovery", values, doc)
    case RefundsStatus => RefundStatusHolds(values, doc)
    case DisputeStatus => DisputeStatusHolds(values, doc)
    case _ => if Exactly(field) then AnyIn(CellsOf(field, doc), values) else AnyFolded(CellsOf(field, doc), values)
  }

  lemma CurrencyIsFolded()
    ensures FoldedKey("currency.keyword")
  {
  }

  lemma PaymentMethodIsFolded()
    ensures FoldedKey("payment_method.keyword")
  {
  }

  lemma PaymentMethodTypeIsFolded()
    ensures FoldedKey("payment_method_type.keyword")
  {
  }

  lemma SearchTagsIsFolded()
    ensures FoldedKey("feature_metadata.search_tags.keyword")
  {
  }

  lemma ConnectorIsFolded()
    ensures FoldedKey("connector.keyword")
  {
  }

  lemma CardNetworkIsFolded()
    ensures FoldedKey("card_network.keyword")
  {
  }

  lemma CardIssuerIsFolded()
    ensures FoldedKey("card_issuer.keyword")
  {
  }

  lemma RoutingApproachIsFolded()
    ensures FoldedKey("routing_approach.keyword")
  {
  }

  lemma AuthenticationTypeIsFolded()
    ensures FoldedKey("authentication_type.keyword")
  {
  }

  lemma ClientSourceIsFolded()
    ensures FoldedKey("client_source.keyword")
  {
  }

  lemma ClientVersionIsFolded()
    ensures FoldedKey("client_version.keyword")
  {
  }

  lemma OwnerKeyIsExact(field: Field)
    requires field.CustomerEmail? || field.CustomerId? || field.PaymentId? || field.CardLast4?
    ensures ExactKey(Key(field)) && Key(field) != "first_attempt" && Key(field) != "amount"
  {
  }

  lemma ReferenceKeyIsExact(field: Field)
    requires field.ActiveAttemptId? || field.MerchantConnectorId? || field.MerchantOrderReferenceId?
    ensures ExactKey(Key(field)) && Key(field) != "first_attempt" && Key(field) != "amount"
  {
  }

  lemma ExactFilter(key: string, values: seq<Value>, index: SearchIndex, doc: Doc)
    requires ExactKey(key) && key != "first_attempt" && key != "amount"
    ensures Constrains(Filter(key, values)) && (FilterHolds(Filter(key, values), index, doc) <==> Has(doc, key, values))
  {
  }

  /** The filter as it is stored lets a document pass. */
  ghost predicate Passes(f: Filter, index: SearchIndex, doc: Doc) {
    Constrains(f) ==> FilterHolds(f, index, doc)
  }

  lemma AmountMeans(values: seq<Value>, index: SearchIndex, doc: Doc)
    ensures Passes(Filter("amount", values), index, doc) <==> AnyIn(AmountCells(KindOf(index), doc), values)
  {
  }

  lemma StatusKeyIsOwn(key: string)
    requires key == "status.keyword"
    ensures !ExactKey(key) && key != "card_discovery.keyword" && key != "refunds_status.keyword" && key != "dispute_status.keyword"
  {
  }

  lemma StatusFilterMeans(key: string, values: seq<Value>, index: SearchIndex, doc: Doc)
    requires key == "status.keyword" && !ExactKey(key) && key != "card_discovery.keyword" && key != "refunds_status.keyword" && key != "dispute_status.keyword" && values != []
    ensures Passes(Filter(key, values), index, doc) <==> AnyFolded(StatusCells(KindOf(index), doc), values)
  {
  }

  lemma StatusMeans(values: seq<Value>, index: SearchIndex, doc: Doc)
    requires values != []
    ensures Passes(Filter("status.keyword", values), index, doc) <==> AnyFolded(StatusCells(KindOf(index), doc), values)
  {
    StatusKeyIsOwn("status.keyword");
    StatusFilterMeans("status.keyword", values, index, doc);
  }

  lemma FirstAttemptFilter(values: seq<Value>, index: SearchIndex, doc: Doc)
    ensures Passes(Filter("first_attempt", values), index, doc)
       <==> (Flag(true) !in values && Flag(false) !in values) || FirstAttemptHolds(values, doc)
  {
  }

  lemma DiscoveryMeans(values: seq<Value>, index: SearchIndex, doc: Doc)
    ensures Passes(Filter("card_discovery.keyword", values), index, doc) <==> ActiveAttemptHolds("card_discovery", values, doc)
  {
  }

  lemma RefundsKeyIsOwn(key: string)
    requires key == "refunds_status.keyword"
    ensures !ExactKey(key) && key != "card_discovery.keyword"
  {
  }

  lemma RefundsFilterMeans(key: string, values: seq<Value>, index: SearchIndex, doc: Doc)
    requires key == "refunds_status.keyword" && !ExactKey(key) && key != "card_discovery.keyword" && values != []
    ensures Passes(Filter(key, values), index, doc) <==> RefundStatusHolds(values, doc)
  {
  }

  lemma RefundsMean(values: seq<Value>, index: SearchIndex, doc: Doc)
    requires values != []
    ensures Passes(Filter("refunds_status.keyword", values), index, doc) <==> RefundStatusHolds(values, doc)
  {
    RefundsKeyIsOwn("refunds_status.keyword");
    RefundsFilterMeans("refunds_status.keyword", values, index, doc);
  }

  lemma DisputesKeyIsOwn(key: string)
    requires key == "dispute_status.keyword"
    ensures !ExactKey(key) && key != "card_discovery.keyword" && key != "refunds_status.keyword"
  {
  }

  lemma DisputesFilterMeans(key: string, values: seq<Value>, index: SearchIndex, doc: Doc)
    requires key == "dispute_status.keyword" && !ExactKey(key) && key != "card_discovery.keyword" && key != "refunds_status.keyword" && values != []
    ensures Passes(Filter(key, values), index, doc) <==> DisputeStatusHolds(values, doc)
  {
  }

  lemma DisputesMean(values: seq<Value>, index: SearchIndex, doc: Doc)
    requires values != []
    ensures Passes(Filter("dispute_status.keyword", values), index, doc) <==> DisputeStatusHolds(values, doc)
  {
    DisputesKeyIsOwn("dispute_status.keyword");
    DisputesFilterMeans("dispute_status.keyword", values, index, doc);
  }

  lemma CurrencyMeans(values: seq<Value>, index: SearchIndex, doc: Doc)
    requires values != []
    ensures Passes(Filter(Key(Currency), values), index, doc) <==> AnyFolded(CellsOf(Currency, doc), values)
  {
    CurrencyIsFolded();
    FoldedFilter(Key(Currency), values, index, doc);
  }

  lemma PaymentMethodMeans(values: seq<Value>, index: SearchIndex, doc: Doc)
    requires values != []
    ensures Passes(Filter(Key(PaymentMethod), values), index, doc) <==> AnyFolded(CellsOf(PaymentMethod, doc), values)
  {
    PaymentMethodIsFolded();
    FoldedFilter(Key(PaymentMethod), values, index, doc);
  }

  lemma PaymentMethodTypeMeans(values: seq<Value>, index: SearchIndex, doc: Doc)
    requires values != []
    ensures Passes(Filter(Key(PaymentMethodType), values), index, doc) <==> AnyFolded(CellsOf(PaymentMethodType, doc), values)
  {
    PaymentMethodTypeIsFolded();
    FoldedFilter(Key(PaymentMethodType), values, index, doc);
  }

  lemma SearchTagsMeans(values: seq<Value>, index: SearchIndex, doc: Doc)
    requires values != []
    ensures Passes(Filter(Key(SearchTags), values), index, doc) <==> AnyFolded(CellsOf(SearchTags, doc), values)
  {
    SearchTagsIsFolded();
    FoldedFilter(Key(SearchTags), values, index, doc);
  }

  lemma ConnectorMeans(values: seq<Value>, index: SearchIndex, doc: Doc)
    requires values != []
    ensures Passes(Filter(Key(Connector), values), index, doc) <==> AnyFolded(CellsOf(Connector, doc), values)
  {
    ConnectorIsFolded();
    FoldedFilter(Key(Connector), values, index, doc);
  }

  lemma CardNetworkMeans(values: seq<Value>, index: SearchIndex, doc: Doc)
    requires values != []
    ensures Passes(Filter(Key(CardNetwork), values), index, doc) <==> AnyFolded(CellsOf(CardNetwork, doc), values)
  {
    CardNetworkIsFolded();
    FoldedFilter(Key(CardNetwork), values, index, doc);
  }

  lemma CardIssuerMeans(values: seq<Value>, index: SearchIndex, doc: Doc)
    requires values != []
    ensures Passes(Filter(Key(CardIssuer), values), index, doc) <==> AnyFolded(CellsOf(CardIssuer, doc), values)
  {
    CardIssuerIsFolded();
    FoldedFilter(Key(CardIssuer), values, index, doc);
  }

  lemma RoutingApproachMeans(values: seq<Value>, index: SearchIndex, doc: Doc)
    requires values != []
    ensures Passes(Filter(Key(RoutingApproach), values), index, doc) <==> AnyFolded(CellsOf(RoutingApproach, doc), values)
  {
    RoutingApproachIsFolded();
    FoldedFilter(Key(RoutingApproach), values, index, doc);
  }

  lemma AuthenticationTypeMeans(values: seq<Value>, index: SearchIndex, doc: Doc)
    requires values != []
    ensures Passes(Filter(Key(AuthenticationType), values), index, doc) <==> AnyFolded(CellsOf(AuthenticationType, doc), values)
  {
    AuthenticationTypeIsFolded();
    FoldedFilter(Key(AuthenticationType), values, index, doc);
  }

  lemma ClientSourceMeans(values: seq<Value>, index: SearchIndex, doc: Doc)
    requires values != []
    ensures Passes(Filter(Key(ClientSource), values), index, doc) <==> AnyFolded(CellsOf(ClientSource, doc), values)
  {
    ClientSourceIsFolded();
    FoldedFilter(Key(ClientSource), values, index, doc);
  }

  lemma ClientVersionMeans(values: seq<Value>, index: SearchIndex, doc: Doc)
    requires values != []
    ensures Passes(Filter(Key(ClientVersion), values), index, doc) <==> AnyFolded(CellsOf(ClientVersion, doc), values)
  {
    ClientVersionIsFolded();
    FoldedFilter(Key(ClientVersion), values, index, doc);
  }

  lemma OwnerKeyMeans(field: Field, values: seq<Value>, index: SearchIndex, doc: Doc)
    requires field.CustomerEmail? || field.CustomerId? || field.PaymentId? || field.CardLast4?
    ensures Passes(Filter(Key(field), values), index, doc) <==> AnyIn(CellsOf(field, doc), values)
  {
    OwnerKeyIsExact(field);
    ExactFilter(Key(field), values, index, doc);
  }

  lemma ReferenceKeyMeans(field: Field, values: seq<Value>, index: SearchIndex, doc: Doc)
    requires field.ActiveAttemptId? || field.MerchantConnectorId? || field.MerchantOrderReferenceId?
    ensures Passes(Filter(Key(field), values), index, doc) <==> AnyIn(CellsOf(field, doc), values)
  {
    ReferenceKeyIsExact(field);
    ExactFilter(Key(field), values, index, doc);
  }

  /** Each filter of a request, as it is stored, asks for exactly the documents it should. */
  lemma FieldMeans(field: Field, values: seq<Value>, index: SearchIndex, doc: Doc)
    requires values != []
    ensures Passes(Filter(Key(field), values), index, doc) <==> Accepts(field, values, KindOf(index), doc)
  {
    match field
    case Amount => AmountMeans(values, index, doc);
    case Status => StatusMeans(values, index, doc);
    case FirstAttempt => FirstAttemptFilter(values, index, doc);
    case CardDiscovery => DiscoveryMeans(values, index, doc);
    case RefundsStatus => RefundsMean(values, index, doc);
    case DisputeStatus => DisputesMean(values, index, doc);
    case Currency => CurrencyMeans(values, index, doc);
    case PaymentMethod => PaymentMethodMeans(values, index, doc);
    case PaymentMethodType => PaymentMethodTypeMeans(values, index, doc);
    case SearchTags => SearchTagsMeans(values, index, doc);
    case Connector => ConnectorMeans(values, index, doc);
    case CardNetwork => CardNetworkMeans(values, index, doc);
    case CardIssuer => CardIssuerMeans(values, index, doc);
    case RoutingApproach => RoutingApproachMeans(values, index, doc);
    case AuthenticationType => AuthenticationTypeMeans(values, index, doc);
    case ClientSource => ClientSourceMeans(values, index, doc);
    case ClientVersion => ClientVersionMeans(values, index, doc);
    case CustomerEmail | CustomerId | PaymentId | CardLast4 => OwnerKeyMeans(field, values, index, doc);
    case ActiveAttemptId | MerchantConnectorId | MerchantOrderReferenceId => ReferenceKeyMeans(field, values, index, doc);
  }

  lemma {:induction false} StoredMembers(wishes: seq<Wish>, f: Filter)
    ensures f in Stored(wishes) <==> exists w :: w in wishes && Given(w) && f == Filter(Key(w.field), w.values.value)
  {
    if wishes == [] {
    } else {
      var front, last := wishes[..|wishes| - 1], wishes[|wishes| - 1];
      StoredMembers(front, f);
      assert wishes == front + [last];
      if f in Stored(wishes) && f !in Stored(front) {
        assert last in wishes;
      }
      if w :| w in wishes && Given(w) && f == Filter(Key(w.field), w.values.value) {
        assert w in front || w == last;
      }
    }
  }

  ghost predicate WishesHold(wishes: seq<Wish>, kind: Kind, doc: Doc) {
    forall w :: w in wishes && Given(w) ==> Accepts(w.field, w.values.value, kind, doc)
  }

  lemma StoredMean(wishes: seq<Wish>, index: SearchIndex, doc: Doc)
    ensures (forall f :: f in Stored(wishes) && Constrains(f) ==> FilterHolds(f, index, doc)) <==> WishesHold(wishes, KindOf(index), doc)
  {
    forall w | w in wishes && Given(w)
      ensures var f := Filter(Key(w.field), w.values.value);
              f in Stored(wishes) && (Passes(f, index, doc) <==> Accepts(w.field, w.values.value, KindOf(index), doc))
    {
      StoredMembers(wishes, Filter(Key(w.field), w.values.value));
      FieldMeans(w.field, w.values.value, index, doc);
    }
    forall f | f in Stored(wishes)
      ensures exists w :: w in wishes && Given(w) && f == Filter(Key(w.field), w.values.value)
    {
      StoredMembers(wishes, f);
    }
  }

  /** For every request, index and document: what is found is what the text, each filter that is given, both ranges and
      one of the scopes ask for, all of it said of the document's own fields. */
  lemma SearchMeans(text: string, wishes: seq<Wish>, timeRange: Option<TimeRange>, amountRange: Option<AmountRange>,
                    scopes: seq<AuthInfo>, index: SearchIndex, doc: Doc)
    ensures var r := Request(text, Stored(wishes), timeRange, amountRange, scopes);
            Eval(QueryOf(PayloadOf(r, index)), doc)
            <==> && TextHolds(text, index, doc)
                 && WishesHold(wishes, KindOf(index), doc)
                 && RangesHold(r, index, doc)
                 && (scopes == [] || exists i :: 0 <= i < |scopes| && ScopeHolds(scopes[i], doc))
  {
    var r := Request(text, Stored(wishes), timeRange, amountRange, scopes);
    PayloadMeans(r, index, doc);
    StoredMean(wishes, index, doc);
  }

  // ----- refunds, disputes and payments as they are indexed -----

  /** A record with an amount and a status. */
  datatype Item = Item(kind: Kind, amount: int, status: string)

  /** Its document; `words` are the phrases it matches. */
  function DocOf(item: Item, words: set<string>): Doc {
    match item.kind
    case RefundKind => Doc(map["refund_amount" := [Num(item.amount)], "refund_status.keyword" := [Str(item.status)]], words, None)
    case DisputeKind => Doc(map["dispute_amount" := [Num(item.amount)], "dispute_status.keyword" := [Str(item.status)]], words, None)
    case PaymentKind => Doc(map["amount" := [Num(item.amount)], "status.keyword" := [Str(item.status)]], words, None)
  }

  lemma AmountOf(item: Item, words: set<string>, kind: Kind)
    ensures AmountCells(kind, DocOf(item, words)) == if kind == item.kind then [Num(item.amount)] else []
  {
  }

  lemma StatusOf(item: Item, words: set<string>, kind: Kind)
    ensures StatusCells(kind, DocOf(item, words)) == if kind == item.kind then [Str(item.status)] else []
  {
  }

  predicate Found(r: Request, index: SearchIndex, doc: Doc) {
    Eval(QueryOf(PayloadOf(r, index)), doc)
  }

  /** A request without filters and scopes. */
  lemma NoWishes(text: string, range: Option<AmountRange>, index: SearchIndex, doc: Doc)
    ensures Found(Request(text, [], None, range, []), index, doc)
       <==> TextHolds(text, index, doc)
            && (range.Some? ==> WithinCells(AmountCells(KindOf(index), doc), range.value.gte, range.value.lte))
  {
    assert Stored([]) == [];
    SearchMeans(text, [], None, range, [], index, doc);
  }

  lemma OneWithin(n: int, gte: Option<int>, lte: Option<int>)
    ensures WithinCells([Num(n)], gte, lte) <==> (gte.Some? ==> n >= gte.value) && (lte.Some? ==> n <= lte.value)
    ensures !WithinCells([], gte, lte)
  {
    assert Num(n) in [Num(n)];
  }

  /** A request by amount range finds, in each index, the records of its kind with an amount in the range. */
  lemma ByAmountRange(index: SearchIndex, item: Item, gte: Option<int>, lte: Option<int>)
    ensures Found(Request("", [], None, Some(AmountRange(gte, lte)), []), index, DocOf(item, {}))
       <==> item.kind == KindOf(index) && (gte.Some? ==> item.amount >= gte.value) && (lte.Some? ==> item.amount <= lte.value)
  {
    NoWishes("", Some(AmountRange(gte, lte)), index, DocOf(item, {}));
    AmountOf(item, {}, KindOf(index));
    OneWithin(item.amount, gte, lte);
  }

  lemma OneWish(field: Field, values: seq<Value>, index: SearchIndex, doc: Doc)
    requires values != []
    ensures Found(Request("", [Filter(Key(field), values)], None, None, []), index, doc) <==> Accepts(field, values, KindOf(index), doc)
  {
    var w := Wish(field, Some(values));
    assert [w][..0] == [] && Stored([]) == [];
    assert Stored([w]) == [] + [Filter(Key(field), values)] == [Filter(Key(field), values)];
    SearchMeans("", [w], None, None, [], index, doc);
    assert w in [w];
  }

  /** By amount filter: the records of the index's kind with one of the amounts. */
  lemma ByAmount(index: SearchIndex, item: Item, values: seq<Value>)
    requires values != []
    ensures Found(Request("", [Filter("amount", values)], None, None, []), index, DocOf(item, {}))
       <==> item.kind == KindOf(index) && Num(item.amount) in values
  {
    OneWish(Amount, values, index, DocOf(item, {}));
    AmountOf(item, {}, KindOf(index));
    assert item.kind == KindOf(index) ==> Num(item.amount) in AmountCells(KindOf(index), DocOf(item, {}));
  }

  /** By status: the records of the index's kind whose status is one of the values, in any case. */
  lemma ByStatus(index: SearchIndex, item: Item, values: seq<Value>)
    requires values != []
    ensures Found(Request("", [Filter("status.keyword", values)], None, None, []), index, DocOf(item, {}))
       <==> item.kind == KindOf(index) && exists i :: 0 <= i < |values| && SameUpToCase(Str(item.status), values[i])
  {
    OneWish(Status, values, index, DocOf(item, {}));
    StatusOf(item, {}, KindOf(index));
    assert item.kind == KindOf(index) ==> Str(item.status) in StatusCells(KindOf(index), DocOf(item, {}));
  }

  /** By text: what matches the phrase, and the records of the index's kind with an amount the text means. */
  lemma ByText(index: SearchIndex, item: Item, words: set<string>, text: string)
    requires text != ""
    ensures Found(Request(text, [], None, None, []), index, DocOf(item, words))
       <==> text in words || (item.kind == KindOf(index) && item.amount >= 0 && item.amount in Amounts.SearchAmounts(text))
  {
    var doc := DocOf(item, words);
    NoWishes(text, None, index, doc);
    AmountOf(item, words, KindOf(index));
    assert item.kind == KindOf(index) ==> Num(item.amount) in AmountCells(KindOf(index), doc);
  }

  // ----- upper and lower case -----

  /** A document that holds one text under the field, and nothing else that a filter looks at. */
  ghost predicate HoldsOnly(field: Field, kind: Kind, doc: Doc, s: string) {
    match field
    case Status => StatusCells(kind, doc) == [Str(s)]
    case CardDiscovery =>
      Cells(doc, "card_discovery.keyword") == [Str(s)] && Cells(doc, "card_discovery") != [] && Cells(doc, "attempt_count") == []
    case RefundsStatus =>
      && Cells(doc, "refunds_status.keyword") == [Str(s)]
      && Cells(doc, "refunds_list.refund_status.keyword") == [] && Cells(doc, "refunds_list.status.keyword") == []
    case DisputeStatus =>
      && Cells(doc, "dispute_status.keyword") == [Str(s)]
      && Cells(doc, "disputes_list.dispute_status.keyword") == [] && Cells(doc, "disputes_list.status.keyword") == []
      && Cells(doc, "dispute_list.dispute_status.keyword") == [] && Cells(doc, "dispute_list.status.keyword") == []
    case _ => CellsOf(field, doc) == [Str(s)]
  }

  predicate IsText(field: Field) {
    !field.Amount? && !field.FirstAttempt?
  }

  /** Identifiers, addresses, the last digits of a card and the way a card was found must be given as they are. */
  predicate CaseMatters(field: Field) {
    Exactly(field) || field.CardDiscovery?
  }

  lemma OneCell(x: Value, v: Value)
    ensures AnyIn([x], [v]) <==> x == v
    ensures AnyFolded([x], [v]) <==> SameUpToCase(x, v)
    ensures !AnyIn([], [v]) && !AnyFolded([], [v])
  {
    assert x in [x] && v in [v] && [v][0] == v;
  }

  lemma OneTextAccepted(field: Field, kind: Kind, doc: Doc, s: string, asked: string)
    requires IsText(field) && HoldsOnly(field, kind, doc, s)
    ensures Accepts(field, [Str(asked)], kind, doc)
       <==> if CaseMatters(field) then s == asked else SameUpToCase(Str(s), Str(asked))
  {
    OneCell(Str(s), Str(asked));
    assert "card_discovery" + ".keyword" == "card_discovery.keyword";
  }

  /** For every text filter of a request, and a document that holds one text there: the document is found when the text
      is the same, or, where case does not matter, when it is the same up to case. */
  lemma CaseExact(field: Field, index: SearchIndex, doc: Doc, s: string, asked: string)
    requires IsText(field) && HoldsOnly(field, KindOf(index), doc, s)
    ensures Found(Request("", [Filter(Key(field), [Str(asked)])], None, None, []), index, doc)
       <==> if CaseMatters(field) then s == asked else SameUpToCase(Str(s), Str(asked))
  {
    OneWish(field, [Str(asked)], index, doc);
    OneTextAccepted(field, KindOf(index), doc, s, asked);
  }

  /** Search tags are listed among the case-sensitive fields, but not under the key their filter is stored with: a tag
      is found in any case. */
  lemma TagsMatchInAnyCase(index: SearchIndex)
    ensures "search_tags.keyword" in CASE_SENSITIVE
    ensures var doc := Doc(map["feature_metadata.search_tags.keyword" := [Str("VIP")]], {}, None);
            Found(Request("", [Filter(Key(SearchTags), [Str("vip")])], None, None, []), index, doc)
  {
    var doc := Doc(map["feature_metadata.search_tags.keyword" := [Str("VIP")]], {}, None);
    assert CellsOf(SearchTags, doc) == [Str("VIP")];
    CaseExact(SearchTags, index, doc, "VIP", "vip");
    assert SameLetter('V', 'v') && SameLetter('I', 'i') && SameLetter('P', 'p');
  }
}
