/** What a search payload accepts, stated on documents without naming any query. */
module SearchMeaning {
  import opened Text
  import Amounts
  import opened OpenSearch

  // ----- reference meaning -----

  /** One of the cells is one of the values. */
  predicate AnyIn(cells: seq<Value>, values: seq<Value>) {
    exists x :: x in cells && x in values
  }

  predicate Has(doc: Doc, field: string, values: seq<Value>) {
    AnyIn(Cells(doc, field), values)
  }

  /** The same letter, or the same letter of the ASCII alphabet in the other case. */
  predicate SameLetter(c: char, d: char) {
    || c == d
    || ('a' <= c <= 'z' && d as int == c as int - 'a' as int + 'A' as int)
    || ('a' <= d <= 'z' && c as int == d as int - 'a' as int + 'A' as int)
  }

  /** Texts that differ at most in the case of their letters; other values are the same. */
  predicate SameUpToCase(a: Value, b: Value) {
    if a.Str? && b.Str? then |a.s| == |b.s| && forall i :: 0 <= i < |a.s| ==> SameLetter(a.s[i], b.s[i])
    else a == b
  }

  /** One of the cells is one of the values up to case. */
  predicate AnyFolded(cells: seq<Value>, values: seq<Value>) {
    exists x, i :: x in cells && 0 <= i < |values| && SameUpToCase(x, values[i])
  }

  predicate HasFolded(doc: Doc, field: string, values: seq<Value>) {
    AnyFolded(Cells(doc, field), values)
  }

  predicate WithinCells(cells: seq<Value>, gte: Option<int>, lte: Option<int>) {
    exists x :: x in cells && InBounds(x, None, gte, lte)
  }

  predicate Within(doc: Doc, field: string, gte: Option<int>, lte: Option<int>) {
    WithinCells(Cells(doc, field), gte, lte)
  }

  datatype Kind = RefundKind | DisputeKind | PaymentKind

  /** What the documents of an index are about; payouts are kept like payments. */
  function KindOf(index: SearchIndex): Kind {
    match index
    case PaymentAttempts | PaymentIntents | SessionizerPaymentAttempts | SessionizerPaymentIntents | Payouts => PaymentKind
    case Refunds | SessionizerRefunds => RefundKind
    case Disputes | SessionizerDisputes => DisputeKind
  }

  /** Where a document keeps its amount. */
  function AmountCells(kind: Kind, doc: Doc): seq<Value> {
    match kind
    case RefundKind => Cells(doc, "refund_amount")
    case DisputeKind => Cells(doc, "dispute_amount")
    case PaymentKind => Cells(doc, "amount")
  }

  /** Where a document keeps its status. */
  function StatusCells(kind: Kind, doc: Doc): seq<Value> {
    match kind
    case RefundKind => Cells(doc, "refund_status.keyword")
    case DisputeKind => Cells(doc, "dispute_status.keyword")
    case PaymentKind => Cells(doc, "status.keyword")
  }

  /** Identifiers, addresses and the two numeric keys are compared as they are. */
  predicate ExactKey(key: string) {
    || key == "payment_id.keyword" || key == "customer_id.keyword" || key == "customer_email.keyword"
    || key == "active_attempt_id.keyword" || key == "merchant_connector_id.keyword"
    || key == "merchant_order_reference_id.keyword" || key == "card_last_4.keyword" || key == "search_tags.keyword"
    || key == "amount" || key == "first_attempt"
  }

  lemma ExactKeys(key: string)
    ensures key in CASE_SENSITIVE <==> ExactKey(key)
  {
  }

  lemma AmountCellsAre(index: SearchIndex, doc: Doc)
    ensures AmountCells(KindOf(index), doc) == Cells(doc, AmountField(index))
  {
  }

  lemma StatusCellsAre(index: SearchIndex, doc: Doc)
    ensures StatusCells(KindOf(index), doc) == Cells(doc, StatusField(index))
  {
  }

  lemma LetterFolds(c: char, d: char)
    ensures LowerChar(c) == LowerChar(d) <==> SameLetter(c, d)
  {
  }

  /** Folding to lower case identifies exactly the texts that differ in case only. */
  lemma FoldingExact(a: Value, b: Value)
    ensures SameFolded(a, b) <==> SameUpToCase(a, b)
  {
    if a.Str? && b.Str? {
      forall i | 0 <= i < |a.s| && i < |b.s|
        ensures LowerChar(a.s[i]) == LowerChar(b.s[i]) <==> SameLetter(a.s[i], b.s[i])
      {
        LetterFolds(a.s[i], b.s[i]);
      }
      if Lower(a.s) == Lower(b.s) {
        assert |Lower(a.s)| == |a.s| && |Lower(b.s)| == |b.s|;
        forall i | 0 <= i < |a.s|
          ensures SameLetter(a.s[i], b.s[i])
        {
          assert Lower(a.s)[i] == Lower(b.s)[i];
        }
      }
    }
  }

  predicate MoreThanOneAttempt(doc: Doc) {
    exists x :: x in Cells(doc, "attempt_count") && x.Num? && x.n > 1
  }

  /** The document matches the text as a phrase, or holds an amount the text means. */
  predicate TextHolds(text: string, index: SearchIndex, doc: Doc) {
    || text == ""
    || text in doc.matches
    || exists a :: a in Amounts.SearchAmounts(text) && Num(a) in AmountCells(KindOf(index), doc)
  }

  predicate AnyHasFolded(doc: Doc, fields: seq<string>, values: seq<Value>) {
    exists i :: 0 <= i < |fields| && HasFolded(doc, fields[i], values)
  }

  /** The top-level field is wanted; or the only attempt has a wanted field; or, with several attempts and no
      top-level field, the active one has. */
  predicate ActiveAttemptHolds(field: string, values: seq<Value>, doc: Doc) {
    || Has(doc, field + ".keyword", values)
    || (Num(1) in Cells(doc, "attempt_count") && Has(doc, "attempts_list." + field + ".keyword", values))
    || (MoreThanOneAttempt(doc) && Cells(doc, field) == [] && ScriptAccepts(doc.source, field, values))
  }

  /** The payment itself or one of its refunds has such a status. */
  predicate RefundStatusHolds(values: seq<Value>, doc: Doc) {
    || HasFolded(doc, "refunds_status.keyword", values)
    || HasFolded(doc, "refunds_list.refund_status.keyword", values)
    || HasFolded(doc, "refunds_list.status.keyword", values)
  }

  /** The document or one of its disputes, under either name of the list, has such a status. */
  predicate DisputeStatusHolds(values: seq<Value>, doc: Doc) {
    || HasFolded(doc, "dispute_status.keyword", values)
    || HasFolded(doc, "disputes_list.dispute_status.keyword", values)
    || HasFolded(doc, "disputes_list.status.keyword", values)
    || HasFolded(doc, "dispute_list.dispute_status.keyword", values)
    || HasFolded(doc, "dispute_list.status.keyword", values)
  }

  predicate FirstAttemptHolds(values: seq<Value>, doc: Doc) {
    || (Flag(true) in values && Num(1) in Cells(doc, "attempt_count"))
    || (Flag(false) in values && MoreThanOneAttempt(doc))
  }

  ghost predicate FilterHolds(f: Filter, index: SearchIndex, doc: Doc) {
    if f.key == "first_attempt" then FirstAttemptHolds(f.values, doc)
    else if f.key == "amount" then AnyIn(AmountCells(KindOf(index), doc), f.values)
    else if ExactKey(f.key) then Has(doc, f.key, f.values)
    else if f.key == "card_discovery.keyword" then ActiveAttemptHolds("card_discovery", f.values, doc)
    else if f.key == "refunds_status.keyword" then RefundStatusHolds(f.values, doc)
    else if f.key == "dispute_status.keyword" then DisputeStatusHolds(f.values, doc)
    else if f.key == "status.keyword" then AnyFolded(StatusCells(KindOf(index), doc), f.values)
    else HasFolded(doc, f.key, f.values)
  }

  /** Keys without a treatment of their own. */
  predicate FoldedKey(key: string) {
    && !ExactKey(key) && key != "card_discovery.keyword"
    && key != "refunds_status.keyword" && key != "dispute_status.keyword" && key != "status.keyword"
  }

  lemma FoldedFilter(key: string, values: seq<Value>, index: SearchIndex, doc: Doc)
    requires FoldedKey(key) && values != []
    ensures Constrains(Filter(key, values)) && (FilterHolds(Filter(key, values), index, doc) <==> HasFolded(doc, key, values))
  {
  }

  /** The filter constrains anything at all: its alternatives are not an empty list. */
  predicate Constrains(f: Filter) {
    if f.key == "first_attempt" then Flag(true) in f.values || Flag(false) in f.values
    else ExactKey(f.key) || f.key == "card_discovery.keyword" || f.values != []
  }

  predicate ScopeHolds(a: AuthInfo, doc: Doc) {
    && Str(a.orgId) in Cells(doc, "organization_id.keyword")
    && match a
       case OrgLevel(_) => true
       case MerchantLevel(_, ms, ps) =>
         && Has(doc, "merchant_id.keyword", Strs(ms))
         && (ps.Some? ==> Has(doc, "processor_merchant_id.keyword", Strs(ps.value)))
       case ProfileLevel(_, m, ps, pm) =>
         && Str(m) in Cells(doc, "merchant_id.keyword")
         && Has(doc, "profile_id.keyword", Strs(ps))
         && (pm.Some? ==> Str(pm.value) in Cells(doc, "processor_merchant_id.keyword"))
  }

  predicate RangesHold(r: Request, index: SearchIndex, doc: Doc) {
    && (r.timeRange.Some? ==> Within(doc, "@timestamp", Some(r.timeRange.value.gte), r.timeRange.value.lte))
    && (r.amountRange.Some? ==>
          WithinCells(AmountCells(KindOf(index), doc), r.amountRange.value.gte, r.amountRange.value.lte))
  }

  // ----- clause by clause -----

  lemma TextMeans(r: Request, index: SearchIndex, doc: Doc)
    ensures AllMatch(TextClauses(r, index), doc) <==> TextHolds(r.text, index, doc)
  {
    AllMatchIsForall(TextClauses(r, index), doc);
    AmountCellsAre(index, doc);
    if r.text != "" {
      var amounts := Amounts.SearchAmounts(r.text);
      var q := QueryFilter(r.text, index).value;
      assert TextClauses(r, index)[0] == q;
      if amounts != [] {
        AmountTerms(AmountField(index), amounts, doc);
        EitherOf(Phrase(r.text), Terms(AmountField(index), AmountValues(amounts)), doc);
      }
    }
  }

  lemma AmountTerms(field: string, amounts: seq<nat>, doc: Doc)
    ensures Eval(Terms(field, AmountValues(amounts)), doc) <==> exists a :: a in amounts && Num(a) in Cells(doc, field)
  {
    var vs := AmountValues(amounts);
    if Eval(Terms(field, vs), doc) {
      var x :| x in Cells(doc, field) && x in vs;
      var i :| 0 <= i < |vs| && vs[i] == x;
      assert amounts[i] in amounts && Num(amounts[i]) in Cells(doc, field);
    }
    if a :| a in amounts && Num(a) in Cells(doc, field) {
      var i :| 0 <= i < |amounts| && amounts[i] == a;
      assert vs[i] == Num(a);
    }
  }

  lemma FoldedTerm(field: string, v: Value, doc: Doc)
    ensures Eval(Term(field, v, true), doc) <==> exists x :: x in Cells(doc, field) && SameUpToCase(x, v)
  {
    forall x: Value
      ensures SameFolded(x, v) <==> SameUpToCase(x, v)
    {
      FoldingExact(x, v);
    }
    assert SameUpToCase(v, v);
  }

  lemma FoldedTerms(field: string, values: seq<Value>, doc: Doc)
    ensures AnyMatch(TermsFolded(field, values), doc) <==> HasFolded(doc, field, values)
  {
    var ts := TermsFolded(field, values);
    forall i | 0 <= i < |values|
      ensures Eval(ts[i], doc) <==> exists x :: x in Cells(doc, field) && SameUpToCase(x, values[i])
    {
      FoldedTerm(field, values[i], doc);
    }
  }

  lemma {:induction false} MultiFieldMeans(fields: seq<string>, values: seq<Value>, doc: Doc)
    ensures AnyMatch(MultiFieldTerms(fields, values), doc) <==> AnyHasFolded(doc, fields, values)
  {
    if fields == [] {
    } else {
      MultiFieldMeans(fields[1..], values, doc);
      FoldedTerms(fields[0], values, doc);
      EitherPart(TermsFolded(fields[0], values), MultiFieldTerms(fields[1..], values), doc);
      FirstFieldOrLater(fields, values, doc);
    }
  }

  lemma FirstFieldOrLater(fields: seq<string>, values: seq<Value>, doc: Doc)
    requires fields != []
    ensures AnyHasFolded(doc, fields, values) <==> HasFolded(doc, fields[0], values) || AnyHasFolded(doc, fields[1..], values)
  {
    if i :| 0 <= i < |fields[1..]| && HasFolded(doc, fields[1..][i], values) {
      assert HasFolded(doc, fields[i + 1], values);
    }
    if i :| 1 <= i < |fields| && HasFolded(doc, fields[i], values) {
      assert HasFolded(doc, fields[1..][i - 1], values);
    }
  }

  lemma {:induction false} MultiFieldEmpty(fields: seq<string>, values: seq<Value>)
    ensures MultiFieldTerms(fields, values) == [] <==> fields == [] || values == []
  {
    if fields == [] {
    } else {
      MultiFieldEmpty(fields[1..], values);
    }
  }

  lemma EitherPart(a: seq<Query>, b: seq<Query>, doc: Doc)
    ensures AnyMatch(a + b, doc) <==> AnyMatch(a, doc) || AnyMatch(b, doc)
  {
    if i :| 0 <= i < |a| && Eval(a[i], doc) {
      assert Eval((a + b)[i], doc);
    }
    if i :| 0 <= i < |b| && Eval(b[i], doc) {
      assert Eval((a + b)[|a| + i], doc);
    }
  }

  lemma OneMatch(q: Query, doc: Doc)
    ensures AnyMatch([q], doc) <==> Eval(q, doc)
    ensures AllMatch([q], doc) <==> Eval(q, doc)
  {
    assert [q][0] == q && [q][1..] == [];
  }

  lemma EitherOf(a: Query, b: Query, doc: Doc)
    ensures Eval(AnyOf([a, b]), doc) <==> Eval(a, doc) || Eval(b, doc)
  {
    AnyOfMeans([a, b], doc);
    assert [a, b] == [a] + [b];
    EitherPart([a], [b], doc);
    OneMatch(a, doc);
    OneMatch(b, doc);
  }

  lemma BothOf(a: Query, b: Query, doc: Doc)
    ensures Eval(AllOf([a, b]), doc) <==> Eval(a, doc) && Eval(b, doc)
  {
    assert [a, b] == [a] + [b];
    AllMatchConcat([a], [b], doc);
    OneMatch(a, doc);
    OneMatch(b, doc);
  }

  lemma ThreeOf(a: Query, b: Query, c: Query, doc: Doc)
    ensures Eval(AllOf([a, b, c]), doc) <==> Eval(a, doc) && Eval(b, doc) && Eval(c, doc)
    ensures Eval(AnyOf([a, b, c]), doc) <==> Eval(a, doc) || Eval(b, doc) || Eval(c, doc)
  {
    assert [a, b, c] == [a] + [b, c];
    AllMatchConcat([a], [b, c], doc);
    BothOf(b, c, doc);
    AnyOfMeans([a, b, c], doc);
    EitherPart([a], [b, c], doc);
    AnyOfMeans([b, c], doc);
    EitherOf(b, c, doc);
    OneMatch(a, doc);
  }

  lemma AbsentMeans(field: string, doc: Doc)
    ensures Eval(Bool([], [], [], [Exists(field)], None), doc) <==> Cells(doc, field) == []
  {
    assert [Exists(field)][1..] == [];
    assert CountMatches([Exists(field)], doc) == if Cells(doc, field) != [] then 1 else 0;
  }

  /** The three branches of the card-discovery filter. */
  lemma ActiveAttemptMeans(field: string, values: seq<Value>, doc: Doc)
    ensures Eval(ActiveAttemptFilter(field, values), doc) <==> ActiveAttemptHolds(field, values, doc)
  {
    var listed := "attempts_list." + field + ".keyword";
    var one, wanted := Term("attempt_count", Num(1), false), Terms(listed, values);
    var more, absent := Range("attempt_count", Some(1), None, None), Bool([], [], [], [Exists(field)], None);
    ThreeOf(Terms(field + ".keyword", values), AllOf([one, wanted]), AllOf([more, absent, Script(field, values)]), doc);
    BothOf(one, wanted, doc);
    ThreeOf(more, absent, Script(field, values), doc);
    AbsentMeans(field, doc);
    AttemptCountMeans(doc);
  }

  lemma AttemptCountMeans(doc: Doc)
    ensures Eval(Term("attempt_count", Num(1), false), doc) <==> Num(1) in Cells(doc, "attempt_count")
    ensures Eval(Range("attempt_count", Some(1), None, None), doc) <==> MoreThanOneAttempt(doc)
  {
  }

  lemma FirstAttemptMeans(values: seq<Value>, doc: Doc)
    ensures Eval(AnyOf(FirstAttemptClauses(values)), doc)
       <==> (Flag(true) !in values && Flag(false) !in values) || FirstAttemptHolds(values, doc)
  {
    var one, more := Term("attempt_count", Num(1), false), Range("attempt_count", Some(1), None, None);
    var a, b := if Flag(true) in values then [one] else [], if Flag(false) in values then [more] else [];
    assert FirstAttemptClauses(values) == a + b;
    AnyOfMeans(a + b, doc);
    EitherPart(a, b, doc);
    AttemptCountMeans(doc);
    OneMatch(one, doc);
    OneMatch(more, doc);
  }

  lemma SensitiveFilterMeans(f: Filter, index: SearchIndex, doc: Doc)
    requires ExactKey(f.key)
    ensures Eval(CaseSensitiveQuery(f, index), doc) <==> (Constrains(f) ==> FilterHolds(f, index, doc))
  {
    AmountCellsAre(index, doc);
    if f.key == "first_attempt" {
      FirstAttemptMeans(f.values, doc);
    }
  }

  lemma StatusFieldsMean(fields: seq<string>, values: seq<Value>, doc: Doc)
    requires fields != []
    ensures Eval(AnyOf(MultiFieldTerms(fields, values)), doc) <==> (values != [] ==> AnyHasFolded(doc, fields, values))
  {
    MultiFieldMeans(fields, values, doc);
    MultiFieldEmpty(fields, values);
    AnyOfMeans(MultiFieldTerms(fields, values), doc);
  }

  lemma RefundStatusMeans(values: seq<Value>, doc: Doc)
    ensures AnyHasFolded(doc, REFUND_STATUS, values) <==> RefundStatusHolds(values, doc)
  {
    AnyOfFields(doc, REFUND_STATUS, values);
  }

  lemma DisputeStatusMeans(values: seq<Value>, doc: Doc)
    ensures AnyHasFolded(doc, DISPUTE_STATUS, values) <==> DisputeStatusHolds(values, doc)
  {
    AnyOfFields(doc, DISPUTE_STATUS, values);
  }

  lemma AnyOfFields(doc: Doc, fields: seq<string>, values: seq<Value>)
    ensures |fields| == 3 ==> (AnyHasFolded(doc, fields, values) <==>
              HasFolded(doc, fields[0], values) || HasFolded(doc, fields[1], values) || HasFolded(doc, fields[2], values))
    ensures |fields| == 5 ==> (AnyHasFolded(doc, fields, values) <==>
              || HasFolded(doc, fields[0], values) || HasFolded(doc, fields[1], values) || HasFolded(doc, fields[2], values)
              || HasFolded(doc, fields[3], values) || HasFolded(doc, fields[4], values))
  {
  }

  lemma InsensitiveFilterMeans(f: Filter, index: SearchIndex, doc: Doc)
    requires !ExactKey(f.key)
    ensures Eval(CaseInsensitiveQuery(f, index), doc) <==> (Constrains(f) ==> FilterHolds(f, index, doc))
  {
    if f.key == "card_discovery.keyword" {
      ActiveAttemptMeans("card_discovery", f.values, doc);
    } else if f.key == "refunds_status.keyword" {
      StatusFieldsMean(REFUND_STATUS, f.values, doc);
      RefundStatusMeans(f.values, doc);
    } else if f.key == "dispute_status.keyword" {
      StatusFieldsMean(DISPUTE_STATUS, f.values, doc);
      DisputeStatusMeans(f.values, doc);
    } else if f.key == "status.keyword" {
      SingleFieldMeans(StatusField(index), f.values, doc);
      StatusCellsAre(index, doc);
    } else {
      SingleFieldMeans(f.key, f.values, doc);
    }
  }

  /** Each filter's query means the filter; a filter without alternatives lets every document pass. */
  lemma FilterMeans(f: Filter, index: SearchIndex, doc: Doc)
    ensures var q := if f.key in CASE_SENSITIVE then CaseSensitiveQuery(f, index) else CaseInsensitiveQuery(f, index);
            Eval(q, doc) <==> (Constrains(f) ==> FilterHolds(f, index, doc))
  {
    ExactKeys(f.key);
    if f.key in CASE_SENSITIVE {
      SensitiveFilterMeans(f, index, doc);
    } else {
      InsensitiveFilterMeans(f, index, doc);
    }
  }

  lemma SingleFieldMeans(field: string, values: seq<Value>, doc: Doc)
    ensures Eval(AllOf([AnyOf(TermsFolded(field, values))]), doc) <==> (values != [] ==> HasFolded(doc, field, values))
  {
    OneMatch(AnyOf(TermsFolded(field, values)), doc);
    AnyOfMeans(TermsFolded(field, values), doc);
    FoldedTerms(field, values, doc);
  }

  lemma ScopeMeans(a: AuthInfo, doc: Doc)
    ensures Eval(AuthQuery(a), doc) <==> ScopeHolds(a, doc)
  {
    var org := Term("organization_id.keyword", Str(a.orgId), false);
    TermMeans("organization_id.keyword", Str(a.orgId), doc);
    match a
    case OrgLevel(_) => OneMatch(org, doc);
    case MerchantLevel(_, ms, ps) =>
      var merchants := Terms("merchant_id.keyword", Strs(ms));
      BothOf(org, merchants, doc);
      assert [org, merchants] + [] == [org, merchants];
      if ps.Some? {
        var processors := Terms("processor_merchant_id.keyword", Strs(ps.value));
        AllMatchConcat([org, merchants], [processors], doc);
        OneMatch(processors, doc);
      }
    case ProfileLevel(_, m, ps, pm) =>
      var merchant, profiles := Term("merchant_id.keyword", Str(m), false), Terms("profile_id.keyword", Strs(ps));
      ThreeOf(org, merchant, profiles, doc);
      TermMeans("merchant_id.keyword", Str(m), doc);
      assert [org, merchant, profiles] + [] == [org, merchant, profiles];
      if pm.Some? {
        var processor := Term("processor_merchant_id.keyword", Str(pm.value), false);
        AllMatchConcat([org, merchant, profiles], [processor], doc);
        OneMatch(processor, doc);
        TermMeans("processor_merchant_id.keyword", Str(pm.value), doc);
      }
  }

  lemma TermMeans(field: string, v: Value, doc: Doc)
    ensures Eval(Term(field, v, false), doc) <==> v in Cells(doc, field)
  {
  }

  lemma ScopesMean(scopes: seq<AuthInfo>, doc: Doc)
    ensures Eval(AllOf([AnyOf(AuthArray(scopes))]), doc)
       <==> scopes == [] || exists i :: 0 <= i < |scopes| && ScopeHolds(scopes[i], doc)
  {
    var qs := AuthArray(scopes);
    OneMatch(AnyOf(qs), doc);
    AnyOfMeans(qs, doc);
    forall i | 0 <= i < |scopes|
      ensures Eval(qs[i], doc) <==> ScopeHolds(scopes[i], doc)
    {
      ScopeMeans(scopes[i], doc);
    }
  }

  // ----- the partition -----

  /** Splitting by case sensitivity neither loses nor repeats a filter. */
  lemma {:induction false} PartitionIsExact(filters: seq<Filter>)
    ensures multiset(Partition(filters, true)) + multiset(Partition(filters, false)) == multiset(filters)
    ensures forall f :: f in Partition(filters, true) <==> f in filters && f.key in CASE_SENSITIVE
    ensures forall f :: f in Partition(filters, false) <==> f in filters && f.key !in CASE_SENSITIVE
  {
    if filters == [] {
    } else {
      PartitionIsExact(filters[1..]);
      assert filters == [filters[0]] + filters[1..];
    }
  }

  lemma SensitiveMean(fs: seq<Filter>, index: SearchIndex, doc: Doc)
    requires forall f :: f in fs ==> f.key in CASE_SENSITIVE
    ensures AllMatch(SensitiveQueries(fs, index), doc)
       <==> forall f :: f in fs && Constrains(f) ==> FilterHolds(f, index, doc)
  {
    var qs := SensitiveQueries(fs, index);
    AllMatchIsForall(qs, doc);
    forall i | 0 <= i < |fs|
      ensures Eval(qs[i], doc) <==> (Constrains(fs[i]) ==> FilterHolds(fs[i], index, doc))
    {
      assert fs[i] in fs;
      FilterMeans(fs[i], index, doc);
    }
  }

  lemma InsensitiveMean(fs: seq<Filter>, index: SearchIndex, doc: Doc)
    requires forall f :: f in fs ==> f.key !in CASE_SENSITIVE
    ensures AllMatch(InsensitiveQueries(fs, index), doc)
       <==> forall f :: f in fs && Constrains(f) ==> FilterHolds(f, index, doc)
  {
    var qs := InsensitiveQueries(fs, index);
    AllMatchIsForall(qs, doc);
    forall i | 0 <= i < |fs|
      ensures Eval(qs[i], doc) <==> (Constrains(fs[i]) ==> FilterHolds(fs[i], index, doc))
    {
      assert fs[i] in fs;
      FilterMeans(fs[i], index, doc);
    }
  }

  // ----- the payload -----

  lemma RangesMean(r: Request, index: SearchIndex, doc: Doc)
    ensures AllMatch(TimeClauses(r), doc) && AllMatch(AmountClauses(r, index), doc) <==> RangesHold(r, index, doc)
  {
    AllMatchIsForall(TimeClauses(r), doc);
    AllMatchIsForall(AmountClauses(r, index), doc);
    AmountCellsAre(index, doc);
    if r.timeRange.Some? {
      assert TimeClauses(r)[0] == Range("@timestamp", None, Some(r.timeRange.value.gte), r.timeRange.value.lte);
    }
    if r.amountRange.Some? {
      assert AmountClauses(r, index)[0] == Range(AmountField(index), None, r.amountRange.value.gte, r.amountRange.value.lte);
    }
  }

  lemma FilterArrayMeans(r: Request, index: SearchIndex, doc: Doc)
    ensures AllMatch(FilterArray(r, index), doc)
       <==> && TextHolds(r.text, index, doc)
            && (forall f :: f in Partition(r.filters, true) && Constrains(f) ==> FilterHolds(f, index, doc))
            && RangesHold(r, index, doc)
  {
    var t, s, tr, ar := TextClauses(r, index), SensitiveQueries(Partition(r.filters, true), index), TimeClauses(r), AmountClauses(r, index);
    AllMatchConcat(t + s + tr, ar, doc);
    AllMatchConcat(t + s, tr, doc);
    AllMatchConcat(t, s, doc);
    TextMeans(r, index, doc);
    PartitionIsExact(r.filters);
    SensitiveMean(Partition(r.filters, true), index, doc);
    RangesMean(r, index, doc);
  }

  lemma MustArrayMeans(r: Request, index: SearchIndex, doc: Doc)
    ensures AllMatch(MustArray(r, index), doc)
       <==> && (forall f :: f in Partition(r.filters, false) && Constrains(f) ==> FilterHolds(f, index, doc))
            && (r.scopes == [] || exists i :: 0 <= i < |r.scopes| && ScopeHolds(r.scopes[i], doc))
  {
    var scope := AllOf([AnyOf(AuthArray(r.scopes))]);
    AllMatchConcat(InsensitiveQueries(Partition(r.filters, false), index), [scope], doc);
    OneMatch(scope, doc);
    PartitionIsExact(r.filters);
    InsensitiveMean(Partition(r.filters, false), index, doc);
    ScopesMean(r.scopes, doc);
  }

  /** For every request, index and document: the payload accepts exactly the documents that satisfy the free
      text, every stored filter that has alternatives, both ranges and, when scopes are given, one of them. */
  lemma PayloadMeans(r: Request, index: SearchIndex, doc: Doc)
    ensures Eval(QueryOf(PayloadOf(r, index)), doc)
       <==> && TextHolds(r.text, index, doc)
            && (forall f :: f in r.filters && Constrains(f) ==> FilterHolds(f, index, doc))
            && RangesHold(r, index, doc)
            && (r.scopes == [] || exists i :: 0 <= i < |r.scopes| && ScopeHolds(r.scopes[i], doc))
  {
    PayloadMatches(r, index, doc);
    FilterArrayMeans(r, index, doc);
    MustArrayMeans(r, index, doc);
    EveryFilterIsInOnePart(r.filters, index, doc);
  }

  lemma PayloadMatches(r: Request, index: SearchIndex, doc: Doc)
    ensures Eval(QueryOf(PayloadOf(r, index)), doc)
       <==> AllMatch(MustArray(r, index), doc) && AllMatch(FilterArray(r, index), doc)
  {
    var o := PayloadOf(r, index);
    assert Entry(o, "filter") == FilterArray(r, index) && Entry(o, "must") == MustArray(r, index);
    assert Entry(o, "should") == [] && Entry(o, "must_not") == [];
    assert MustArray(r, index) != [];
  }

  lemma EveryFilterIsInOnePart(filters: seq<Filter>, index: SearchIndex, doc: Doc)
    ensures (forall f :: f in filters && Constrains(f) ==> FilterHolds(f, index, doc))
       <==> && (forall f :: f in Partition(filters, true) && Constrains(f) ==> FilterHolds(f, index, doc))
            && (forall f :: f in Partition(filters, false) && Constrains(f) ==> FilterHolds(f, index, doc))
  {
    PartitionIsExact(filters);
  }

  /** The two guards matter: a status filter without values and a request without scopes pass a document that
      has neither status nor owner. */
  lemma EmptyListsAdmitEverything()
    ensures var doc := Doc(map[], {}, None);
            var f := Filter("status.keyword", []);
            && Eval(QueryOf(PayloadOf(Request("", [f], None, None, []), PaymentIntents)), doc)
            && !FilterHolds(f, PaymentIntents, doc)
  {
    var doc, f := Doc(map[], {}, None), Filter("status.keyword", []);
    var r := Request("", [f], None, None, []);
    PayloadMeans(r, PaymentIntents, doc);
    assert forall g :: g in r.filters ==> g == f;
    assert !ExactKey(f.key);
  }
}
