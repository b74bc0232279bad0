/** The OpenSearch query builder: filters, ranges, scopes and free text compiled into a bool query, with an
    evaluator of bool queries over documents. */
module OpenSearch {
  import opened Text
  import Amounts

  datatype Value = Str(s: string) | Num(n: int) | Flag(b: bool)

  /** One attempt of a payment as stored in the source document. */
  datatype Attempt = Attempt(id: Option<string>, fields: map<string, Value>)

  /** The part of the source the attempt script reads; an entry may be null. */
  datatype Source = Source(activeAttemptId: Option<string>, attempts: Option<seq<Option<Attempt>>>)

  /** An indexed document: field values, the phrases it matches and its source. */
  datatype Doc = Doc(cells: map<string, seq<Value>>, matches: set<string>, source: Option<Source>)

  datatype Query =
    | Term(field: string, value: Value, caseInsensitive: bool)
    | Terms(field: string, values: seq<Value>)
    | Range(field: string, gt: Option<int>, gte: Option<int>, lte: Option<int>)
    | Phrase(text: string)
    | Exists(field: string)
    | Script(field: string, values: seq<Value>)
    | Bool(must: seq<Query>, filter: seq<Query>, should: seq<Query>, mustNot: seq<Query>, minimumShouldMatch: Option<nat>)

  // ----- evaluation -----

  function Cells(doc: Doc, field: string): seq<Value> {
    if field in doc.cells then doc.cells[field] else []
  }

  function LowerChar(c: char): char {
    if 'A' <= c <= 'Z' then (c as int + 32) as char else c
  }

  function Lower(s: string): string {
    seq(|s|, i requires 0 <= i < |s| => LowerChar(s[i]))
  }

  predicate SameFolded(a: Value, b: Value) {
    if a.Str? && b.Str? then Lower(a.s) == Lower(b.s) else a == b
  }

  predicate InBounds(v: Value, gt: Option<int>, gte: Option<int>, lte: Option<int>) {
    && v.Num?
    && (gt.Some? ==> v.n > gt.value)
    && (gte.Some? ==> v.n >= gte.value)
    && (lte.Some? ==> v.n <= lte.value)
  }

  /** The first attempt with the id, nulls and attempts without id passed over. */
  function FindAttempt(attempts: seq<Option<Attempt>>, id: string): Option<Attempt> {
    if attempts == [] then None
    else if attempts[0].Some? && attempts[0].value.id == Some(id) then attempts[0]
    else FindAttempt(attempts[1..], id)
  }

  /** The field of the active attempt is among the values. */
  predicate ScriptAccepts(source: Option<Source>, field: string, values: seq<Value>) {
    source.Some? && source.value.activeAttemptId.Some? && source.value.attempts.Some? &&
    var a := FindAttempt(source.value.attempts.value, source.value.activeAttemptId.value);
    a.Some? && field in a.value.fields && a.value.fields[field] in values
  }

  /** The script itself: a scan with early exits. */
  method RunScript(source: Option<Source>, field: string, values: seq<Value>) returns (accepted: bool)
    ensures accepted == ScriptAccepts(source, field, values)
  {
    if source.None? { return false; }
    if source.value.activeAttemptId.None? { return false; }
    if source.value.attempts.None? { return false; }
    var active, attempts := source.value.activeAttemptId.value, source.value.attempts.value;
    var i := 0;
    while i < |attempts|
      invariant 0 <= i <= |attempts|
      invariant FindAttempt(attempts, active) == FindAttempt(attempts[i..], active)
    {
      var attempt := attempts[i];
      if attempt.Some? && attempt.value.id.Some? && attempt.value.id.value == active {
        if field !in attempt.value.fields { return false; }
        return attempt.value.fields[field] in values;
      }
      i := i + 1;
    }
    return false;
  }

  /** Without `minimum_should_match`, optional clauses count only when nothing else is required. */
  function Required(must: seq<Query>, filter: seq<Query>, should: seq<Query>, minimum: Option<nat>): nat {
    match minimum
    case Some(n) => n
    case None => if must == [] && filter == [] && should != [] then 1 else 0
  }

  /** A bool query without clauses matches everything. */
  predicate Eval(q: Query, doc: Doc)
    decreases q, 1
  {
    match q
    case Term(f, v, ci) => exists x :: x in Cells(doc, f) && (x == v || (ci && SameFolded(x, v)))
    case Terms(f, vs) => exists x :: x in Cells(doc, f) && x in vs
    case Range(f, gt, gte, lte) => exists x :: x in Cells(doc, f) && InBounds(x, gt, gte, lte)
    case Phrase(t) => t in doc.matches
    case Exists(f) => Cells(doc, f) != []
    case Script(f, vs) => ScriptAccepts(doc.source, f, vs)
    case Bool(must, filter, should, mustNot, minimum) =>
      || (must == [] && filter == [] && should == [] && mustNot == [])
      || (&& AllMatch(must, doc) && AllMatch(filter, doc) && CountMatches(mustNot, doc) == 0
          && CountMatches(should, doc) >= Required(must, filter, should, minimum))
  }

  predicate AllMatch(qs: seq<Query>, doc: Doc)
    decreases qs, 0
  {
    qs == [] || (Eval(qs[0], doc) && AllMatch(qs[1..], doc))
  }

  function CountMatches(qs: seq<Query>, doc: Doc): nat
    decreases qs, 0
  {
    if qs == [] then 0 else (if Eval(qs[0], doc) then 1 else 0) + CountMatches(qs[1..], doc)
  }

  lemma {:induction false} AllMatchIsForall(qs: seq<Query>, doc: Doc)
    ensures AllMatch(qs, doc) <==> forall i :: 0 <= i < |qs| ==> Eval(qs[i], doc)
  {
    if qs == [] {
    } else {
      AllMatchIsForall(qs[1..], doc);
      assert forall i :: 1 <= i < |qs| ==> qs[i] == qs[1..][i - 1];
    }
  }

  predicate AnyMatch(qs: seq<Query>, doc: Doc) {
    exists i :: 0 <= i < |qs| && Eval(qs[i], doc)
  }

  lemma {:induction false} CountIsExists(qs: seq<Query>, doc: Doc)
    ensures CountMatches(qs, doc) >= 1 <==> AnyMatch(qs, doc)
  {
    if qs == [] {
    } else {
      CountIsExists(qs[1..], doc);
      assert forall i :: 1 <= i < |qs| ==> qs[i] == qs[1..][i - 1];
      if CountMatches(qs[1..], doc) >= 1 {
        var i :| 0 <= i < |qs[1..]| && Eval(qs[1..][i], doc);
        assert Eval(qs[i + 1], doc);
      }
    }
  }

  lemma {:induction false} AllMatchConcat(a: seq<Query>, b: seq<Query>, doc: Doc)
    ensures AllMatch(a + b, doc) <==> AllMatch(a, doc) && AllMatch(b, doc)
  {
    AllMatchIsForall(a + b, doc);
    AllMatchIsForall(a, doc);
    AllMatchIsForall(b, doc);
    if AllMatch(a + b, doc) {
      assert forall i :: 0 <= i < |a| ==> a[i] == (a + b)[i];
      assert forall i :: 0 <= i < |b| ==> b[i] == (a + b)[|a| + i];
    }
  }

  /** Any of the alternatives, with `minimum_should_match` 1. */
  function AnyOf(qs: seq<Query>): Query {
    Bool([], [], qs, [], Some(1))
  }

  function AllOf(qs: seq<Query>): Query {
    Bool(qs, [], [], [], None)
  }

  lemma AnyOfMeans(qs: seq<Query>, doc: Doc)
    ensures Eval(AnyOf(qs), doc) <==> qs == [] || AnyMatch(qs, doc)
  {
    CountIsExists(qs, doc);
  }

  // ----- fields -----

  datatype SearchIndex =
    | PaymentAttempts | PaymentIntents | Refunds | Disputes | Payouts
    | SessionizerPaymentAttempts | SessionizerPaymentIntents | SessionizerRefunds | SessionizerDisputes

  function StatusField(index: SearchIndex): string {
    match index
    case Refunds | SessionizerRefunds => "refund_status.keyword"
    case Disputes | SessionizerDisputes => "dispute_status.keyword"
    case _ => "status.keyword"
  }

  function AmountField(index: SearchIndex): string {
    match index
    case Refunds | SessionizerRefunds => "refund_amount"
    case Disputes | SessionizerDisputes => "dispute_amount"
    case _ => "amount"
  }

  const CASE_SENSITIVE: set<string> := {
    "customer_email.keyword", "search_tags.keyword", "card_last_4.keyword", "payment_id.keyword",
    "active_attempt_id.keyword", "merchant_connector_id.keyword", "amount", "first_attempt",
    "customer_id.keyword", "merchant_order_reference_id.keyword"
  }

  // ----- the filter makers -----

  datatype Filter = Filter(key: string, values: seq<Value>)

  function AmountValues(amounts: seq<nat>): seq<Value> {
    seq(|amounts|, i requires 0 <= i < |amounts| => Num(amounts[i]))
  }

  /** The free-text clause: the phrase, or the amount field when the text reads as an amount. */
  function QueryFilter(text: string, index: SearchIndex): Option<Query> {
    if text == "" then None
    else
      var amounts := Amounts.SearchAmounts(text);
      if amounts == [] then Some(Phrase(text))
      else Some(AnyOf([Phrase(text), Terms(AmountField(index), AmountValues(amounts))]))
  }

  function ActiveAttemptFilter(field: string, values: seq<Value>): Query {
    AnyOf([
      Terms(field + ".keyword", values),
      AllOf([Term("attempt_count", Num(1), false), Terms("attempts_list." + field + ".keyword", values)]),
      AllOf([Range("attempt_count", Some(1), None, None),
             Bool([], [], [], [Exists(field)], None),
             Script(field, values)])
    ])
  }

  function TermsFolded(field: string, values: seq<Value>): seq<Query> {
    seq(|values|, i requires 0 <= i < |values| => Term(field, values[i], true))
  }

  /** Every field with every value, field by field. */
  function MultiFieldTerms(fields: seq<string>, values: seq<Value>): seq<Query> {
    if fields == [] then [] else TermsFolded(fields[0], values) + MultiFieldTerms(fields[1..], values)
  }

  const REFUND_STATUS := ["refunds_status.keyword", "refunds_list.refund_status.keyword", "refunds_list.status.keyword"]

  const DISPUTE_STATUS := [
    "dispute_status.keyword", "disputes_list.dispute_status.keyword", "disputes_list.status.keyword",
    "dispute_list.dispute_status.keyword", "dispute_list.status.keyword"
  ]

  function FirstAttemptClauses(values: seq<Value>): seq<Query> {
    (if Flag(true) in values then [Term("attempt_count", Num(1), false)] else []) +
    (if Flag(false) in values then [Range("attempt_count", Some(1), None, None)] else [])
  }

  function CaseSensitiveQuery(f: Filter, index: SearchIndex): Query {
    if f.key == "first_attempt" then AnyOf(FirstAttemptClauses(f.values))
    else if f.key == "amount" then Terms(AmountField(index), f.values)
    else Terms(f.key, f.values)
  }

  function CaseInsensitiveQuery(f: Filter, index: SearchIndex): Query {
    if f.key == "card_discovery.keyword" then ActiveAttemptFilter("card_discovery", f.values)
    else if f.key == "refunds_status.keyword" then AnyOf(MultiFieldTerms(REFUND_STATUS, f.values))
    else if f.key == "dispute_status.keyword" then AnyOf(MultiFieldTerms(DISPUTE_STATUS, f.values))
    else AllOf([AnyOf(TermsFolded(if f.key == "status.keyword" then StatusField(index) else f.key, f.values))])
  }

  // ----- scopes -----

  datatype AuthInfo =
    | OrgLevel(orgId: string)
    | MerchantLevel(orgId: string, merchantIds: seq<string>, processorMerchantIds: Option<seq<string>>)
    | ProfileLevel(orgId: string, merchantId: string, profileIds: seq<string>, processorMerchantId: Option<string>)

  function Strs(ss: seq<string>): seq<Value> {
    seq(|ss|, i requires 0 <= i < |ss| => Str(ss[i]))
  }

  function AuthClauses(a: AuthInfo): seq<Query> {
    match a
    case OrgLevel(org) => [Term("organization_id.keyword", Str(org), false)]
    case MerchantLevel(org, ms, ps) =>
      [Term("organization_id.keyword", Str(org), false), Terms("merchant_id.keyword", Strs(ms))] +
      (if ps.Some? then [Terms("processor_merchant_id.keyword", Strs(ps.value))] else [])
    case ProfileLevel(org, m, ps, pm) =>
      [Term("organization_id.keyword", Str(org), false), Term("merchant_id.keyword", Str(m), false),
       Terms("profile_id.keyword", Strs(ps))] +
      (if pm.Some? then [Term("processor_merchant_id.keyword", Str(pm.value), false)] else [])
  }

  function AuthQuery(a: AuthInfo): Query {
    AllOf(AuthClauses(a))
  }

  // ----- the builder -----

  datatype TimeRange = TimeRange(gte: int, lte: Option<int>)

  datatype AmountRange = AmountRange(gte: Option<int>, lte: Option<int>)

  datatype Request = Request(text: string, filters: seq<Filter>, timeRange: Option<TimeRange>,
                             amountRange: Option<AmountRange>, scopes: seq<AuthInfo>)

  /** `partition`: the filters on case-sensitive fields and the others, each in their order. */
  function Partition(filters: seq<Filter>, sensitive: bool): seq<Filter> {
    if filters == [] then []
    else (if (filters[0].key in CASE_SENSITIVE) == sensitive then [filters[0]] else []) + Partition(filters[1..], sensitive)
  }

  function SensitiveQueries(fs: seq<Filter>, index: SearchIndex): seq<Query> {
    seq(|fs|, i requires 0 <= i < |fs| => CaseSensitiveQuery(fs[i], index))
  }

  function InsensitiveQueries(fs: seq<Filter>, index: SearchIndex): seq<Query> {
    seq(|fs|, i requires 0 <= i < |fs| => CaseInsensitiveQuery(fs[i], index))
  }

  function AuthArray(scopes: seq<AuthInfo>): seq<Query> {
    seq(|scopes|, i requires 0 <= i < |scopes| => AuthQuery(scopes[i]))
  }

  function TimeClauses(r: Request): seq<Query> {
    if r.timeRange.Some? then [Range("@timestamp", None, Some(r.timeRange.value.gte), r.timeRange.value.lte)] else []
  }

  function AmountClauses(r: Request, index: SearchIndex): seq<Query> {
    if r.amountRange.Some? then [Range(AmountField(index), None, r.amountRange.value.gte, r.amountRange.value.lte)] else []
  }

  function TextClauses(r: Request, index: SearchIndex): seq<Query> {
    match QueryFilter(r.text, index) case None => [] case Some(q) => [q]
  }

  function FilterArray(r: Request, index: SearchIndex): seq<Query> {
    TextClauses(r, index) + SensitiveQueries(Partition(r.filters, true), index) + TimeClauses(r) + AmountClauses(r, index)
  }

  function MustArray(r: Request, index: SearchIndex): seq<Query> {
    InsensitiveQueries(Partition(r.filters, false), index) + [AllOf([AnyOf(AuthArray(r.scopes))])]
  }

  /** The object under `query.bool` of a payload: clause arrays by key. */
  type BoolObject = map<string, seq<Query>>

  function Entry(o: BoolObject, key: string): seq<Query> {
    if key in o then o[key] else []
  }

  /** How OpenSearch reads the object. */
  function QueryOf(o: BoolObject): Query {
    Bool(Entry(o, "must"), Entry(o, "filter"), Entry(o, "should"), Entry(o, "must_not"), None)
  }

  class QueryBuilder {
    const text: string
    const scopes: seq<AuthInfo>
    var filters: seq<Filter>
    var timeRange: Option<TimeRange>
    var amountRange: Option<AmountRange>

    function Snapshot(): Request
      reads this
    {
      Request(text, filters, timeRange, amountRange, scopes)
    }

    constructor (text: string, scopes: seq<AuthInfo>)
      ensures Snapshot() == Request(text, [], None, None, scopes)
    {
      this.text, this.scopes := text, scopes;
      filters, timeRange, amountRange := [], None, None;
    }

    method SetTimeRange(range: TimeRange)
      modifies this`timeRange
      ensures Snapshot() == old(Snapshot()).(timeRange := Some(range))
    {
      timeRange := Some(range);
    }

    method SetAmountRange(range: AmountRange)
      modifies this`amountRange
      ensures Snapshot() == old(Snapshot()).(amountRange := Some(range))
    {
      amountRange := Some(range);
    }

    method AddFilterClause(key: string, values: seq<Value>)
      modifies this`filters
      ensures Snapshot() == old(Snapshot()).(filters := old(filters) + [Filter(key, values)])
    {
      filters := filters + [Filter(key, values)];
    }

    method BuildFilterArray(sensitive: seq<Filter>, index: SearchIndex) returns (clauses: seq<Query>)
      requires sensitive == Partition(filters, true)
      ensures clauses == FilterArray(Snapshot(), index)
    {
      clauses := [];
      var queryFilter := QueryFilter(text, index);
      if queryFilter.Some? {
        clauses := clauses + [queryFilter.value];
      }
      assert clauses == TextClauses(Snapshot(), index);
      var queries := MapSensitive(sensitive, index);
      clauses := clauses + queries;
      if timeRange.Some? {
        clauses := clauses + [Range("@timestamp", None, Some(timeRange.value.gte), timeRange.value.lte)];
      }
      assert clauses == TextClauses(Snapshot(), index) + SensitiveQueries(sensitive, index) + TimeClauses(Snapshot());
      if amountRange.Some? {
        clauses := clauses + [Range(AmountField(index), None, amountRange.value.gte, amountRange.value.lte)];
      }
    }

    static method MapSensitive(fs: seq<Filter>, index: SearchIndex) returns (queries: seq<Query>)
      ensures queries == SensitiveQueries(fs, index)
    {
      queries := [];
      for i := 0 to |fs|
        invariant queries == SensitiveQueries(fs, index)[..i]
      {
        queries := queries + [CaseSensitiveQuery(fs[i], index)];
      }
    }

    static method MapInsensitive(fs: seq<Filter>, index: SearchIndex) returns (queries: seq<Query>)
      ensures queries == InsensitiveQueries(fs, index)
    {
      queries := [];
      for i := 0 to |fs|
        invariant queries == InsensitiveQueries(fs, index)[..i]
      {
        queries := queries + [CaseInsensitiveQuery(fs[i], index)];
      }
    }

    method BuildCaseInsensitiveFilters(payload: BoolObject, insensitive: seq<Filter>, index: SearchIndex) returns (r: BoolObject)
      requires insensitive == Partition(filters, false)
      ensures r == payload["must" := MustArray(Snapshot(), index)]
    {
      var must := MapInsensitive(insensitive, index);
      must := must + [AllOf([AnyOf(AuthArray(scopes))])];
      r := payload["must" := must];
    }

    /** One payload per index; the empty bool object gets its `filter` and `must` arrays one after the other. */
    method ConstructPayload(indexes: seq<SearchIndex>) returns (payloads: seq<BoolObject>)
      ensures |payloads| == |indexes|
      ensures forall i :: 0 <= i < |indexes| ==> payloads[i] == PayloadOf(Snapshot(), indexes[i])
    {
      var sensitive, insensitive := Partition(filters, true), Partition(filters, false);
      payloads := [];
      for i := 0 to |indexes|
        invariant |payloads| == i
        invariant forall j :: 0 <= j < i ==> payloads[j] == PayloadOf(Snapshot(), indexes[j])
      {
        var payload: BoolObject := map[];
        var clauses := BuildFilterArray(sensitive, indexes[i]);
        if clauses != [] {
          payload := payload["filter" := clauses];
        }
        payload := BuildCaseInsensitiveFilters(payload, insensitive, indexes[i]);
        payloads := payloads + [payload];
      }
    }
  }

  function PayloadOf(r: Request, index: SearchIndex): BoolObject {
    var clauses := FilterArray(r, index);
    (if clauses != [] then map["filter" := clauses] else map[])["must" := MustArray(r, index)]
  }
}
