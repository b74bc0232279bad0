/** The HAVING clause of a run's text: what an engine reads from it. */
module HavingRuns {
  import opened Text
  import opened SqlLiteral
  import opened Filters
  import opened Aggregates
  import opened QueryBuilding
  import opened BuilderRuns
  import opened QueryReading

  ghost function EntryCond(e: HavingEntry, d: Dialect): Cond
    requires HavingOk(e)
  {
    PlainCond(e.aggregate, e.op, e.value, d)
  }

  /** The conditions are those of the entries, and no others. */
  ghost predicate CondsOfEntries(cs: seq<Cond>, hs: seq<HavingEntry>, d: Dialect) {
    && (forall e :: e in hs && HavingOk(e) ==> EntryCond(e, d) in cs)
    && (forall c :: c in cs ==> exists e :: e in hs && HavingOk(e) && c == EntryCond(e, d))
  }

  lemma {:induction false} EntryCondsAre(hs: seq<HavingEntry>, d: Dialect)
    requires forall i :: 0 <= i < |hs| ==> HavingOk(hs[i])
    ensures CondsOfEntries(EntryConds(hs, d), hs, d)
  {
    if hs == [] {
    } else {
      var rest := hs[1..];
      EntryCondsAre(rest, d);
      var cs, more := EntryConds(hs, d), EntryConds(rest, d);
      assert cs == [EntryCond(hs[0], d)] + more;
      forall e | e in hs && HavingOk(e)
        ensures EntryCond(e, d) in cs
      {
        assert e == hs[0] || e in rest;
      }
      forall c | c in cs
        ensures exists e :: e in hs && HavingOk(e) && c == EntryCond(e, d)
      {
        if c in more {
          var e :| e in rest && HavingOk(e) && c == EntryCond(e, d);
          assert e in hs;
        } else {
          assert hs[0] in hs && c == EntryCond(hs[0], d);
        }
      }
    }
  }

  lemma HavingListReads(st: State, d: Dialect)
    requires (st.having.Some? ==> st.having.value != []) && forall e :: e in HavingList(st) ==> HavingOk(e)
    ensures forall i :: 0 <= i < |HavingList(st)| ==> HavingOk(HavingList(st)[i])
    ensures ReadHaving(HavingSql(st) + TailSql(st), d) == Some((EntryConds(HavingList(st), d), TailSql(st)))
  {
    var tail, hs := TailSql(st), HavingList(st);
    TailStart(st);
    forall i | 0 <= i < |hs|
      ensures HavingOk(hs[i])
    {
      assert hs[i] in hs;
    }
    if st.having.None? {
      assert HavingSql(st) + tail == tail;
    } else {
      HavingKeyword(Join(HavingTexts(hs), " AND "), tail, d);
      ReadJoinedConditions(hs, tail, d);
    }
  }

  lemma SignEntryOk(st: State)
    requires EngineOk(st.engine)
    ensures HavingOk(SignEntry(st))
  {
    AggregateIsColumn(st.client, st.engine, Count(None));
    var t := ExprSql(st.client, st.engine, Count(None));
    assert AliasSql(None) == "" && AggregateSql(st.client, st.engine, Count(None)) == t + "" == t;
  }

  /** The entries of a run: those the caller asked for, and the sign condition once it was pushed. */
  function AskedEntries(st: State, calls: seq<Call>): seq<HavingEntry> {
    UserHaving(st, calls) + (if SignPushed(st, calls) then [SignEntry(st)] else [])
  }

  /** In every run, with however many builds, an engine reads from the HAVING text of the run exactly the conditions the
      caller asked for and, once a grouped build on a collapsing table has happened, the sign condition. */
  lemma HavingTextMeansConjunction(st: State, calls: seq<Call>, d: Dialect)
    requires st.having == None && EngineOk(st.engine)
    requires forall e :: e in UserHaving(st, calls) ==> HavingOk(e)
    ensures var end := Run(st, calls);
            var read := ReadHaving(HavingSql(end) + TailSql(end), d);
            && read.Some? && read.value.1 == TailSql(end)
            && CondsOfEntries(read.value.0, AskedEntries(st, calls), d)
  {
    var end, asked := Run(st, calls), AskedEntries(st, calls);
    HavingMeansConjunction(st, calls);
    SignEntryOk(st);
    SameEntries(HavingList(end), st, calls);
    assert end.having.Some? ==> HavingList(end) != [] by {
      if end.having.Some? {
        NotEmpty(HavingList(end), asked);
      }
    }
    HavingListReads(end, d);
    EntryCondsAre(HavingList(end), d);
    SameConditions(EntryConds(HavingList(end), d), HavingList(end), asked, d);
  }

  lemma NotEmpty(hs: seq<HavingEntry>, asked: seq<HavingEntry>)
    requires asked != [] && forall e :: e in hs <==> e in asked
    ensures hs != []
  {
    assert asked[0] in asked;
  }

  lemma SameEntries(hs: seq<HavingEntry>, st: State, calls: seq<Call>)
    requires forall e :: e in hs <==> e in UserHaving(st, calls) || (SignPushed(st, calls) && e == SignEntry(st))
    ensures forall e :: e in hs <==> e in AskedEntries(st, calls)
  {
  }

  lemma SameConditions(cs: seq<Cond>, hs: seq<HavingEntry>, asked: seq<HavingEntry>, d: Dialect)
    requires CondsOfEntries(cs, hs, d) && forall e :: e in hs <==> e in asked
    ensures CondsOfEntries(cs, asked, d)
  {
  }
}
