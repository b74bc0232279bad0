/** One scope value, two filters: the SQL conditions and the OpenSearch clauses. */
module Scopes {
  import opened Text
  import opened SqlLiteral
  import F = Filters
  import Q = QueryBuilding
  import opened OpenSearch
  import opened SearchMeaning

  /** The scope's filters, in order. */
  function ScopeFilters(a: AuthInfo): seq<F.Filter> {
    match a
    case OrgLevel(org) => [F.Plain("organization_id", F.Equal, org)]
    case MerchantLevel(org, ms, ps) =>
      [F.Plain("organization_id", F.Equal, org), F.Plain("merchant_id", F.In, SanitizedList(ms))] +
      (if ps.Some? then [F.Plain("processor_merchant_id", F.In, SanitizedList(ps.value))] else [])
    case ProfileLevel(org, m, ps, pm) =>
      [F.Plain("organization_id", F.Equal, org), F.Plain("merchant_id", F.Equal, m), F.Plain("profile_id", F.In, SanitizedList(ps))] +
      (if pm.Some? then [F.Plain("processor_merchant_id", F.Equal, pm.value)] else [])
  }

  method SetFilterClause(qb: Q.QueryBuilder, a: AuthInfo)
    requires qb.filters == F.Nested(F.And, [])
    modifies qb`filters
    ensures qb.filters == F.Nested(F.And, ScopeFilters(a))
  {
    match a {
      case OrgLevel(org) =>
        AddEqual(qb, "organization_id", org);
      case MerchantLevel(org, ms, ps) =>
        AddEqual(qb, "organization_id", org);
        AddIn(qb, "merchant_id", ms);
        if ps.Some? {
          AddIn(qb, "processor_merchant_id", ps.value);
        }
      case ProfileLevel(org, m, ps, pm) =>
        AddEqual(qb, "organization_id", org);
        AddEqual(qb, "merchant_id", m);
        AddIn(qb, "profile_id", ps);
        if pm.Some? {
          AddEqual(qb, "processor_merchant_id", pm.value);
        }
    }
  }

  method AddEqual(qb: Q.QueryBuilder, key: string, value: string)
    requires qb.filters.Nested? && qb.filters.combinator.And?
    modifies qb`filters
    ensures qb.filters == F.Nested(F.And, old(qb.filters.filters) + [F.Plain(key, F.Equal, value)])
  {
    qb.AddCustomFilterClause(key, value, F.Equal);
    assert qb.filters == qb.Snapshot().filters;
  }

  method AddIn(qb: Q.QueryBuilder, key: string, values: seq<string>)
    requires qb.filters.Nested? && qb.filters.combinator.And?
    modifies qb`filters
    ensures qb.filters == F.Nested(F.And, old(qb.filters.filters) + [F.Plain(key, F.In, SanitizedList(values))])
  {
    qb.AddFilterInRangeClause(key, values);
    assert qb.filters == qb.Snapshot().filters;
  }

  /** The record's columns as the search index holds them. */
  predicate SameRecord(row: F.Row, doc: Doc) {
    && Cells(doc, "organization_id.keyword") == Cell(row, "organization_id")
    && Cells(doc, "merchant_id.keyword") == Cell(row, "merchant_id")
    && Cells(doc, "profile_id.keyword") == Cell(row, "profile_id")
    && Cells(doc, "processor_merchant_id.keyword") == Cell(row, "processor_merchant_id")
  }

  function Cell(row: F.Row, col: string): seq<Value> {
    if col in row then [Str(row[col])] else []
  }

  /** The ids that go through an IN list and so lose their spaces in SQL. */
  function ListedIds(a: AuthInfo): seq<string> {
    match a
    case OrgLevel(_) => []
    case MerchantLevel(_, ms, ps) => ms + (if ps.Some? then ps.value else [])
    case ProfileLevel(_, _, ps, _) => ps
  }

  predicate NoListedSpaces(a: AuthInfo) {
    forall i :: 0 <= i < |ListedIds(a)| ==> ' ' !in ListedIds(a)[i]
  }

  predicate IsColumn(col: string) {
    col == "organization_id" || col == "merchant_id" || col == "profile_id" || col == "processor_merchant_id"
  }

  lemma {:induction false} WordEnclosed(w: string)
    requires forall i :: 0 <= i < |w| ==> w[i] != ' ' && w[i] != '(' && w[i] != ')'
    ensures F.Enclosed(w, 0)
  {
    if w == "" {
    } else {
      WordEnclosed(w[1..]);
    }
  }

  lemma ColumnIsOk(col: string)
    requires IsColumn(col)
    ensures F.ColumnOk(col)
  {
    if col == "organization_id" || col == "merchant_id" {
      OwnerColumnIsOk(col);
    } else {
      OtherColumnIsOk(col);
    }
  }

  lemma OwnerColumnIsOk(col: string)
    requires col == "organization_id" || col == "merchant_id"
    ensures F.ColumnOk(col)
  {
    WordEnclosed(col);
  }

  lemma OtherColumnIsOk(col: string)
    requires col == "profile_id" || col == "processor_merchant_id"
    ensures F.ColumnOk(col)
  {
    WordEnclosed(col);
  }

  lemma ListIsText(vs: seq<string>)
    ensures F.IsListText(SanitizedList(vs)) && F.InValues(SanitizedList(vs)) == MapNoSpaces(vs)
  {
    SanitizedIsQuoted(vs);
    F.InValuesUnique(MapNoSpaces(vs));
  }

  ghost predicate Admits(f: F.Filter, row: F.Row, le: F.Order) {
    F.Printable(f) && F.Holds(f, row, le)
  }

  /** The record passes every condition of the SQL scope. */
  ghost predicate SqlAdmits(a: AuthInfo, row: F.Row, le: F.Order) {
    AllAdmit(ScopeFilters(a), row, le)
  }

  ghost predicate AllAdmit(fs: seq<F.Filter>, row: F.Row, le: F.Order) {
    forall i :: 0 <= i < |fs| ==> Admits(fs[i], row, le)
  }

  lemma AdmitConcat(a: seq<F.Filter>, b: seq<F.Filter>, row: F.Row, le: F.Order)
    ensures AllAdmit(a + b, row, le) <==> AllAdmit(a, row, le) && AllAdmit(b, row, le)
  {
    if AllAdmit(a + b, row, le) {
      assert forall i :: 0 <= i < |a| ==> a[i] == (a + b)[i];
      assert forall i :: 0 <= i < |b| ==> b[i] == (a + b)[|a| + i];
    }
  }

  lemma AdmitOne(f: F.Filter, row: F.Row, le: F.Order)
    ensures AllAdmit([f], row, le) <==> Admits(f, row, le)
  {
    assert [f][0] == f;
  }

  lemma AdmitTwo(f: F.Filter, g: F.Filter, row: F.Row, le: F.Order)
    ensures AllAdmit([f, g], row, le) <==> Admits(f, row, le) && Admits(g, row, le)
  {
    assert [f, g] == [f] + [g];
    AdmitConcat([f], [g], row, le);
    AdmitOne(f, row, le);
    AdmitOne(g, row, le);
  }

  /** In SQL an id list admits the ids with their spaces removed. */
  predicate InStripped(row: F.Row, col: string, ids: seq<string>) {
    col in row && row[col] in MapNoSpaces(ids)
  }

  predicate Is(row: F.Row, col: string, id: string) {
    col in row && row[col] == id
  }

  lemma EqualMeans(col: string, id: string, row: F.Row, le: F.Order)
    requires IsColumn(col)
    ensures Admits(F.Plain(col, F.Equal, id), row, le) <==> Is(row, col, id)
    ensures F.Printable(F.Plain(col, F.Equal, id))
  {
    ColumnIsOk(col);
  }

  lemma InMeans(col: string, ids: seq<string>, row: F.Row, le: F.Order)
    requires IsColumn(col)
    ensures Admits(F.Plain(col, F.In, SanitizedList(ids)), row, le) <==> InStripped(row, col, ids)
    ensures F.Printable(F.Plain(col, F.In, SanitizedList(ids)))
  {
    ColumnIsOk(col);
    ListIsText(ids);
  }

  predicate SqlScope(a: AuthInfo, row: F.Row) {
    && Is(row, "organization_id", a.orgId)
    && match a
       case OrgLevel(_) => true
       case MerchantLevel(_, ms, ps) =>
         InStripped(row, "merchant_id", ms) && (ps.Some? ==> InStripped(row, "processor_merchant_id", ps.value))
       case ProfileLevel(_, m, ps, pm) =>
         Is(row, "merchant_id", m) && InStripped(row, "profile_id", ps) && (pm.Some? ==> Is(row, "processor_merchant_id", pm.value))
  }

  lemma SqlMerchantMeans(a: AuthInfo, row: F.Row, le: F.Order)
    requires a.MerchantLevel?
    ensures SqlAdmits(a, row, le) <==> SqlScope(a, row)
  {
    var org, merchants := F.Plain("organization_id", F.Equal, a.orgId), F.Plain("merchant_id", F.In, SanitizedList(a.merchantIds));
    EqualMeans("organization_id", a.orgId, row, le);
    InMeans("merchant_id", a.merchantIds, row, le);
    AdmitTwo(org, merchants, row, le);
    match a.processorMerchantIds
    case None => assert ScopeFilters(a) == [org, merchants];
    case Some(ps) =>
      var processors := F.Plain("processor_merchant_id", F.In, SanitizedList(ps));
      InMeans("processor_merchant_id", ps, row, le);
      AdmitOne(processors, row, le);
      AdmitConcat([org, merchants], [processors], row, le);
  }

  lemma ProfileFilters(org: string, m: string, ps: seq<string>)
    ensures ScopeFilters(ProfileLevel(org, m, ps, None))
         == [F.Plain("organization_id", F.Equal, org), F.Plain("merchant_id", F.Equal, m)]
            + [F.Plain("profile_id", F.In, SanitizedList(ps))]
  {
  }

  lemma SqlProfileBase(org: string, m: string, ps: seq<string>, row: F.Row, le: F.Order)
    ensures SqlAdmits(ProfileLevel(org, m, ps, None), row, le) <==> SqlScope(ProfileLevel(org, m, ps, None), row)
  {
    var owner, merchant := F.Plain("organization_id", F.Equal, org), F.Plain("merchant_id", F.Equal, m);
    var profiles := F.Plain("profile_id", F.In, SanitizedList(ps));
    EqualMeans("organization_id", org, row, le);
    EqualMeans("merchant_id", m, row, le);
    InMeans("profile_id", ps, row, le);
    ProfileFilters(org, m, ps);
    AdmitTwo(owner, merchant, row, le);
    AdmitOne(profiles, row, le);
    AdmitConcat([owner, merchant], [profiles], row, le);
  }

  lemma SqlProfileMeans(org: string, m: string, ps: seq<string>, pm: string, row: F.Row, le: F.Order)
    ensures SqlAdmits(ProfileLevel(org, m, ps, Some(pm)), row, le) <==> SqlScope(ProfileLevel(org, m, ps, Some(pm)), row)
  {
    var base, processor := ScopeFilters(ProfileLevel(org, m, ps, None)), F.Plain("processor_merchant_id", F.Equal, pm);
    assert ScopeFilters(ProfileLevel(org, m, ps, Some(pm))) == base + [processor];
    AdmitConcat(base, [processor], row, le);
    SqlProfileBase(org, m, ps, row, le);
    EqualMeans("processor_merchant_id", pm, row, le);
    AdmitOne(processor, row, le);
  }

  lemma SqlScopeMeans(a: AuthInfo, row: F.Row, le: F.Order)
    ensures SqlAdmits(a, row, le) <==> SqlScope(a, row)
  {
    match a
    case OrgLevel(_) =>
      EqualMeans("organization_id", a.orgId, row, le);
      AdmitOne(F.Plain("organization_id", F.Equal, a.orgId), row, le);
    case MerchantLevel(_, _, _) => SqlMerchantMeans(a, row, le);
    case ProfileLevel(org, m, ps, None) => SqlProfileBase(org, m, ps, row, le);
    case ProfileLevel(org, m, ps, Some(pm)) => SqlProfileMeans(org, m, ps, pm, row, le);
  }

  lemma ScopePrintable(a: AuthInfo)
    ensures F.Printable(F.Nested(F.And, ScopeFilters(a)))
    ensures F.Complete(F.Nested(F.And, ScopeFilters(a))) <==> NonEmptyLists(a)
  {
    forall i | 0 <= i < |ScopeFilters(a)|
      ensures F.Printable(ScopeFilters(a)[i])
    {
      FilterPrintable(ScopeFilters(a)[i].lhs, ScopeFilters(a)[i]);
    }
    CompleteIsNonEmpty(a);
  }

  lemma FilterPrintable(col: string, f: F.Filter)
    requires IsColumn(col) && f.Plain? && f.lhs == col
    requires f.op.Equal? || (f.op.In? && exists vs :: f.rhs == SanitizedList(vs))
    ensures F.Printable(f)
  {
    ColumnIsOk(col);
    if f.op.In? {
      var vs :| f.rhs == SanitizedList(vs);
      ListIsText(vs);
    }
  }

  lemma ListEmpty(vs: seq<string>)
    ensures SanitizedList(vs) == "" <==> vs == []
  {
    SanitizedIsQuoted(vs);
    if vs != [] { QuotedListStartsWithQuote(MapNoSpaces(vs)); }
  }

  lemma CompleteIsNonEmpty(a: AuthInfo)
    ensures F.Complete(F.Nested(F.And, ScopeFilters(a))) <==> NonEmptyLists(a)
  {
    var fs := ScopeFilters(a);
    match a
    case OrgLevel(_) =>
    case MerchantLevel(_, ms, ps) =>
      ListEmpty(ms);
      assert fs[1] == F.Plain("merchant_id", F.In, SanitizedList(ms));
      if ps.Some? {
        ListEmpty(ps.value);
        assert fs[2] == F.Plain("processor_merchant_id", F.In, SanitizedList(ps.value));
      }
    case ProfileLevel(_, _, ps, _) =>
      ListEmpty(ps);
      assert fs[2] == F.Plain("profile_id", F.In, SanitizedList(ps));
  }

  /** The WHERE text of a scope is readable exactly when its id lists are not empty, and then means the scope. */
  lemma ScopeTextMeans(a: AuthInfo)
    ensures var text := F.FilterSql(F.Nested(F.And, ScopeFilters(a)));
            && (F.ReadFilter(text, BackslashEscapes).Some? <==> NonEmptyLists(a))
            && (NonEmptyLists(a) ==>
                  var (c, rest) := F.ReadFilter(text, BackslashEscapes).value;
                  rest == "" && forall row, le :: F.CondHolds(c, row, le) <==> SqlScope(a, row))
  {
    var f := F.Nested(F.And, ScopeFilters(a));
    ScopePrintable(a);
    F.PrintedFilterMeansFilter(f);
    if NonEmptyLists(a) {
      forall row, le
        ensures F.Holds(f, row, le) <==> SqlScope(a, row)
      {
        SqlScopeMeans(a, row, le);
      }
    }
  }

  lemma OneSame(row: F.Row, doc: Doc, col: string, field: string, id: string)
    requires Cells(doc, field) == Cell(row, col)
    ensures Str(id) in Cells(doc, field) <==> Is(row, col, id)
  {
  }

  lemma ListSame(row: F.Row, doc: Doc, col: string, field: string, ids: seq<string>)
    requires Cells(doc, field) == Cell(row, col)
    ensures Has(doc, field, Strs(ids)) <==> col in row && row[col] in ids
    ensures (forall i :: 0 <= i < |ids| ==> ' ' !in ids[i]) ==> (InStripped(row, col, ids) <==> col in row && row[col] in ids)
  {
    if col in row {
      assert Str(row[col]) in Cells(doc, field);
      if row[col] in ids {
        var i :| 0 <= i < |ids| && ids[i] == row[col];
        assert Strs(ids)[i] == Str(row[col]);
      }
      if forall i :: 0 <= i < |ids| ==> ' ' !in ids[i] {
        forall i | 0 <= i < |ids|
          ensures MapNoSpaces(ids)[i] == ids[i]
        {
          NoSpacesLeavesNone(ids[i]);
        }
        assert MapNoSpaces(ids) == ids;
      }
    }
  }

  lemma ScopeConditionsAgree(a: AuthInfo, row: F.Row, doc: Doc)
    requires SameRecord(row, doc) && NoListedSpaces(a)
    ensures SqlScope(a, row) <==> ScopeHolds(a, doc)
  {
    OneSame(row, doc, "organization_id", "organization_id.keyword", a.orgId);
    match a
    case OrgLevel(_) =>
    case MerchantLevel(_, ms, ps) =>
      assert forall i :: 0 <= i < |ms| ==> ListedIds(a)[i] == ms[i];
      ListSame(row, doc, "merchant_id", "merchant_id.keyword", ms);
      if ps.Some? {
        assert forall i :: 0 <= i < |ps.value| ==> ListedIds(a)[|ms| + i] == ps.value[i];
        ListSame(row, doc, "processor_merchant_id", "processor_merchant_id.keyword", ps.value);
      }
    case ProfileLevel(_, m, ps, pm) =>
      OneSame(row, doc, "merchant_id", "merchant_id.keyword", m);
      assert forall i :: 0 <= i < |ps| ==> ListedIds(a)[i] == ps[i];
      ListSame(row, doc, "profile_id", "profile_id.keyword", ps);
      if pm.Some? { OneSame(row, doc, "processor_merchant_id", "processor_merchant_id.keyword", pm.value); }
  }

  /** For ids without spaces the two engines admit the same records. */
  lemma ScopesAgree(a: AuthInfo, row: F.Row, doc: Doc, le: F.Order)
    requires SameRecord(row, doc) && NoListedSpaces(a)
    ensures SqlAdmits(a, row, le) <==> Eval(AuthQuery(a), doc)
  {
    SqlScopeMeans(a, row, le);
    ScopeMeans(a, doc);
    ScopeConditionsAgree(a, row, doc);
  }

  predicate NonEmptyLists(a: AuthInfo) {
    match a
    case OrgLevel(_) => true
    case MerchantLevel(_, ms, ps) => ms != [] && (ps.Some? ==> ps.value != [])
    case ProfileLevel(_, _, ps, _) => ps != []
  }

  function DocOf(row: F.Row): Doc {
    Doc(map["organization_id.keyword" := Cell(row, "organization_id"), "merchant_id.keyword" := Cell(row, "merchant_id"),
            "profile_id.keyword" := Cell(row, "profile_id"), "processor_merchant_id.keyword" := Cell(row, "processor_merchant_id")],
        {}, None)
  }

  /** A record admitted by search and refused by SQL, for a scope that lists an id with a space. */
  function SpacedRecord(a: AuthInfo, i: nat): F.Row
    requires NonEmptyLists(a) && i < |ListedIds(a)|
  {
    var base: F.Row := map["organization_id" := a.orgId];
    match a
    case OrgLevel(_) => base
    case MerchantLevel(_, ms, ps) =>
      if ps.None? then base["merchant_id" := ms[i]]
      else if i < |ms| then base["merchant_id" := ms[i]]["processor_merchant_id" := ps.value[0]]
      else base["merchant_id" := ms[0]]["processor_merchant_id" := ps.value[i - |ms|]]
    case ProfileLevel(_, m, ps, pm) =>
      var row := base["merchant_id" := m]["profile_id" := ps[i]];
      if pm.Some? then row["processor_merchant_id" := pm.value] else row
  }

  lemma NotStripped(row: F.Row, col: string, ids: seq<string>)
    requires col in row && ' ' in row[col]
    ensures !InStripped(row, col, ids)
  {
    forall i | 0 <= i < |ids|
      ensures MapNoSpaces(ids)[i] != row[col]
    {
      NoSpacesLeavesNone(ids[i]);
    }
  }

  lemma SpaceBreaksAgreement(a: AuthInfo, i: nat, le: F.Order)
    requires NonEmptyLists(a) && i < |ListedIds(a)| && ' ' in ListedIds(a)[i]
    ensures var row := SpacedRecord(a, i);
            SameRecord(row, DocOf(row)) && Eval(AuthQuery(a), DocOf(row)) && !SqlAdmits(a, row, le)
  {
    var row := SpacedRecord(a, i);
    SqlScopeMeans(a, row, le);
    ScopeMeans(a, DocOf(row));
    DocOfSame(row);
    if a.MerchantLevel? {
      SpaceInMerchants(a, i);
    } else {
      SpaceInProfiles(a, i);
    }
  }

  lemma DocOfSame(row: F.Row)
    ensures SameRecord(row, DocOf(row))
  {
  }

  lemma SpaceInMerchants(a: AuthInfo, i: nat)
    requires a.MerchantLevel? && NonEmptyLists(a) && i < |ListedIds(a)| && ' ' in ListedIds(a)[i]
    ensures ScopeHolds(a, DocOf(SpacedRecord(a, i))) && !SqlScope(a, SpacedRecord(a, i))
  {
    var row := SpacedRecord(a, i);
    var doc, ms, ps := DocOf(row), a.merchantIds, a.processorMerchantIds;
    DocOfSame(row);
    ListSame(row, doc, "merchant_id", "merchant_id.keyword", ms);
    if ps.Some? { ListSame(row, doc, "processor_merchant_id", "processor_merchant_id.keyword", ps.value); }
    if ps.None? || i < |ms| {
      NotStripped(row, "merchant_id", ms);
    } else {
      NotStripped(row, "processor_merchant_id", ps.value);
    }
  }

  lemma SpaceInProfiles(a: AuthInfo, i: nat)
    requires a.ProfileLevel? && NonEmptyLists(a) && i < |ListedIds(a)| && ' ' in ListedIds(a)[i]
    ensures ScopeHolds(a, DocOf(SpacedRecord(a, i))) && !SqlScope(a, SpacedRecord(a, i))
  {
    var row := SpacedRecord(a, i);
    DocOfSame(row);
    ListSame(row, DocOf(row), "profile_id", "profile_id.keyword", a.profileIds);
    NotStripped(row, "profile_id", a.profileIds);
  }

  ghost predicate AgreeEverywhere(a: AuthInfo, le: F.Order) {
    forall row, doc :: SameRecord(row, doc) ==> (SqlAdmits(a, row, le) <==> Eval(AuthQuery(a), doc))
  }

  /** A scope selects the same records in SQL and in search exactly when none of its listed ids has a space. */
  lemma ScopesAgreeExact(a: AuthInfo, le: F.Order)
    requires NonEmptyLists(a)
    ensures AgreeEverywhere(a, le) <==> NoListedSpaces(a)
  {
    if NoListedSpaces(a) {
      forall row, doc | SameRecord(row, doc)
        ensures SqlAdmits(a, row, le) <==> Eval(AuthQuery(a), doc)
      {
        ScopesAgree(a, row, doc, le);
      }
    } else {
      var i :| 0 <= i < |ListedIds(a)| && ' ' in ListedIds(a)[i];
      SpaceBreaksAgreement(a, i, le);
    }
  }

  /** Every row of a profile scope is in the merchant scope, as SQL selects them. */
  ghost predicate SqlContained(org: string, m: string, ms: seq<string>, ps: seq<string>) {
    forall row :: SqlScope(ProfileLevel(org, m, ps, None), row) ==> SqlScope(MerchantLevel(org, ms, None), row)
  }

  /** In SQL a profile scope compares its merchant as given while a merchant scope lists it without spaces, so it
      lies inside if and only if it admits nothing or its merchant id is listed once stripped. */
  lemma SqlScopesNestExact(org: string, m: string, ms: seq<string>, ps: seq<string>)
    ensures SqlContained(org, m, ms, ps) <==> ps == [] || m in MapNoSpaces(ms)
  {
    if ps != [] {
      NoSpacesLeavesNone(ps[0]);
      var row: F.Row := map["organization_id" := org, "merchant_id" := m, "profile_id" := NoSpaces(ps[0])];
      assert MapNoSpaces(ps)[0] == NoSpaces(ps[0]);
      assert row["profile_id"] in MapNoSpaces(ps);
      assert SqlScope(ProfileLevel(org, m, ps, None), row);
      assert SqlScope(MerchantLevel(org, ms, None), row) <==> m in MapNoSpaces(ms);
    }
  }

  /** Profile scopes without a processor lie inside the merchant's scope, and merchant scopes inside the
      organisation's. */
  lemma ScopesNest(org: string, m: string, ms: seq<string>, ps: seq<string>, processors: Option<seq<string>>, doc: Doc)
    requires m in ms
    ensures Eval(AuthQuery(ProfileLevel(org, m, ps, None)), doc) ==> Eval(AuthQuery(MerchantLevel(org, ms, None)), doc)
    ensures Eval(AuthQuery(MerchantLevel(org, ms, processors)), doc) ==> Eval(AuthQuery(OrgLevel(org)), doc)
  {
    ScopeMeans(ProfileLevel(org, m, ps, None), doc);
    ScopeMeans(MerchantLevel(org, ms, None), doc);
    ScopeMeans(MerchantLevel(org, ms, processors), doc);
    ScopeMeans(OrgLevel(org), doc);
    var i :| 0 <= i < |ms| && ms[i] == m;
    assert Strs(ms)[i] == Str(m);
  }
}
