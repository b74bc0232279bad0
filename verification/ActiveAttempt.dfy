/** The card-discovery filter: three branches that together ask about the active attempt. */
module ActiveAttempt {
  import opened Text
  import opened OpenSearch
  import opened SearchMeaning

  /** A payment document as the pipeline writes it: no null attempts, distinct attempt ids, the active one among
      them, the attempt count equal to their number, the attempts' field values indexed under the list, and the
      top-level field indexed as text whenever it is present. */
  ghost predicate PaymentDoc(doc: Doc, attempts: seq<Attempt>, active: nat, field: string) {
    && active < |attempts|
    && (forall i :: 0 <= i < |attempts| ==> attempts[i].id.Some?)
    && (forall i, j :: 0 <= i < j < |attempts| ==> attempts[i].id != attempts[j].id)
    && doc.source == Some(Source(attempts[active].id, Some(Present(attempts))))
    && Cells(doc, "attempt_count") == [Num(|attempts|)]
    && (forall v :: v in Cells(doc, "attempts_list." + field + ".keyword") <==>
          exists i :: 0 <= i < |attempts| && Holds(attempts[i], field, v))
    && (Cells(doc, field) == [] <==> Cells(doc, field + ".keyword") == [])
  }

  predicate Holds(a: Attempt, field: string, v: Value) {
    field in a.fields && a.fields[field] == v
  }

  predicate Wanted(a: Attempt, field: string, values: seq<Value>) {
    field in a.fields && a.fields[field] in values
  }

  /** The top-level field, where present, is that of the active attempt. */
  predicate TopLevelIsActive(doc: Doc, a: Attempt, field: string) {
    forall v :: v in Cells(doc, field + ".keyword") ==> Holds(a, field, v)
  }

  function Present(attempts: seq<Attempt>): (r: seq<Option<Attempt>>)
    ensures |r| == |attempts| && forall i :: 0 <= i < |attempts| ==> r[i] == Some(attempts[i])
  {
    seq(|attempts|, i requires 0 <= i < |attempts| => Some(attempts[i]))
  }

  lemma {:induction false} FindsActive(attempts: seq<Option<Attempt>>, id: string, at: nat)
    requires at < |attempts| && attempts[at].Some? && attempts[at].value.id == Some(id)
    requires forall i :: 0 <= i < at ==> attempts[i].None? || attempts[i].value.id != Some(id)
    ensures FindAttempt(attempts, id) == attempts[at]
  {
    if at == 0 {
    } else {
      FindsActive(attempts[1..], id, at - 1);
    }
  }

  lemma ScriptReadsActive(doc: Doc, attempts: seq<Attempt>, active: nat, field: string, values: seq<Value>)
    requires PaymentDoc(doc, attempts, active, field)
    ensures ScriptAccepts(doc.source, field, values) <==> Wanted(attempts[active], field, values)
  {
    FindsActive(Present(attempts), attempts[active].id.value, active);
  }

  /** With a current top-level field the filter accepts exactly when the active attempt's field is wanted. */
  lemma FilterAsksAboutActiveAttempt(doc: Doc, attempts: seq<Attempt>, active: nat, field: string, values: seq<Value>)
    requires PaymentDoc(doc, attempts, active, field) && TopLevelIsActive(doc, attempts[active], field)
    ensures Eval(ActiveAttemptFilter(field, values), doc) <==> Wanted(attempts[active], field, values)
  {
    ActiveAttemptMeans(field, values, doc);
    ScriptReadsActive(doc, attempts, active, field, values);
    assert Num(|attempts|) in Cells(doc, "attempt_count");
    if Cells(doc, field + ".keyword") != [] {
      assert Cells(doc, field + ".keyword")[0] in Cells(doc, field + ".keyword");
    }
    if |attempts| == 1 && field in attempts[active].fields {
      assert Holds(attempts[active], field, attempts[active].fields[field]);
      assert attempts[active].fields[field] in Cells(doc, "attempts_list." + field + ".keyword");
    }
  }

  /** A value of the top-level field is accepted, whatever the active attempt holds. */
  lemma TopLevelIsTrusted(doc: Doc, field: string, v: Value)
    requires v in Cells(doc, field + ".keyword")
    ensures Eval(ActiveAttemptFilter(field, [v]), doc)
  {
    ActiveAttemptMeans(field, [v], doc);
    assert v in [v];
  }

  /** For every payment document: the filter asks about the active attempt, whatever values are wanted, if and only
      if the top-level field is absent or the active attempt's. */
  lemma FilterAsksAboutActiveAttemptExact(doc: Doc, attempts: seq<Attempt>, active: nat, field: string)
    requires PaymentDoc(doc, attempts, active, field)
    ensures (forall values :: Eval(ActiveAttemptFilter(field, values), doc) <==> Wanted(attempts[active], field, values))
       <==> TopLevelIsActive(doc, attempts[active], field)
  {
    if TopLevelIsActive(doc, attempts[active], field) {
      forall values
        ensures Eval(ActiveAttemptFilter(field, values), doc) <==> Wanted(attempts[active], field, values)
      {
        FilterAsksAboutActiveAttempt(doc, attempts, active, field, values);
      }
    } else {
      var v :| v in Cells(doc, field + ".keyword") && !Holds(attempts[active], field, v);
      TopLevelIsTrusted(doc, field, v);
      assert !Wanted(attempts[active], field, [v]);
    }
  }

  // ----- a stale document -----

  function StaleAttempts(field: string): seq<Attempt> {
    [Attempt(Some("a"), map[field := Str("x")])]
  }

  /** A payment whose only attempt holds one value and whose top-level field still holds another. */
  function StaleDoc(field: string): Doc {
    Doc(map["attempt_count" := [Num(1)], "attempts_list." + field + ".keyword" := [Str("x")],
            field := [Str("y")], field + ".keyword" := [Str("y")]], {},
        Some(Source(Some("a"), Some(Present(StaleAttempts(field))))))
  }

  lemma StaleCells(field: string)
    requires field != "attempt_count"
    ensures Cells(StaleDoc(field), "attempt_count") == [Num(1)]
    ensures Cells(StaleDoc(field), "attempts_list." + field + ".keyword") == [Str("x")]
    ensures Cells(StaleDoc(field), field) == [Str("y")] && Cells(StaleDoc(field), field + ".keyword") == [Str("y")]
  {
    var count, list, keyword := "attempt_count", "attempts_list." + field + ".keyword", field + ".keyword";
    assert |list| > |keyword| > |field| && |list| > |count|;
    assert keyword[|keyword| - 1] == 'd' && count[|count| - 1] == 't';
  }

  /** A stale top-level field is trusted: the filter accepts a payment whose active attempt holds another value. */
  lemma StaleTopLevelFieldWins(field: string)
    requires field != "attempt_count"
    ensures var doc, attempts := StaleDoc(field), StaleAttempts(field);
            && PaymentDoc(doc, attempts, 0, field) && !TopLevelIsActive(doc, attempts[0], field)
            && Eval(ActiveAttemptFilter(field, [Str("y")]), doc) && !Wanted(attempts[0], field, [Str("y")])
  {
    var doc, attempts := StaleDoc(field), StaleAttempts(field);
    StaleCells(field);
    assert Holds(attempts[0], field, Str("x"));
    assert Str("y") in Cells(doc, field + ".keyword") && !Holds(attempts[0], field, Str("y"));
    TopLevelIsTrusted(doc, field, Str("y"));
  }
}
