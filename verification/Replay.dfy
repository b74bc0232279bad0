/** The replaying proxy: cassettes by request id, served in order through a cursor that a test start rewinds. */
module Replay {
  import opened Text
  import opened Capture

  /** A response is identified by the flow it was recorded from. */
  type Response = FlowId

  datatype Store = Store(cassettes: map<Rid, seq<Response>>, cursor: map<Rid, nat>)

  // ----- loading -----

  /** A file as the loader sees it; unreadable or foreign files are skipped. */
  datatype LoadedFile = Skipped | Readable(cassette: Cassette)

  /** The entries of a rid in listing order. */
  function EntriesOf(listing: seq<LoadedFile>, rid: Rid): seq<(nat, Response)> {
    if listing == [] then []
    else
      var before, last := EntriesOf(listing[..|listing| - 1], rid), listing[|listing| - 1];
      if last.Readable? && last.cassette.rid == rid then before + [(last.cassette.sequence, last.cassette.flow)] else before
  }

  /** Stable insertion: behind every entry whose key is not larger. */
  function Insert(entries: seq<(nat, Response)>, e: (nat, Response)): seq<(nat, Response)> {
    if entries == [] || entries[|entries| - 1].0 <= e.0 then entries + [e]
    else Insert(entries[..|entries| - 1], e) + [entries[|entries| - 1]]
  }

  /** `entries.sort(key=sequence)`: Python's sort is stable. */
  function SortBySequence(entries: seq<(nat, Response)>): seq<(nat, Response)> {
    if entries == [] then [] else Insert(SortBySequence(entries[..|entries| - 1]), entries[|entries| - 1])
  }

  function Responses(entries: seq<(nat, Response)>): seq<Response> {
    seq(|entries|, i requires 0 <= i < |entries| => entries[i].1)
  }

  function LoadedResponses(listing: seq<LoadedFile>, rid: Rid): seq<Response> {
    Responses(SortBySequence(EntriesOf(listing, rid)))
  }

  predicate Sorted(entries: seq<(nat, Response)>) {
    forall i, j :: 0 <= i < j < |entries| ==> entries[i].0 <= entries[j].0
  }

  lemma {:induction false} InsertKeeps(entries: seq<(nat, Response)>, e: (nat, Response))
    ensures multiset(Insert(entries, e)) == multiset(entries) + multiset{e}
  {
    if entries == [] || entries[|entries| - 1].0 <= e.0 {
    } else {
      InsertKeeps(entries[..|entries| - 1], e);
      assert entries == entries[..|entries| - 1] + [entries[|entries| - 1]];
    }
  }

  lemma {:induction false} InsertBelow(entries: seq<(nat, Response)>, e: (nat, Response), bound: nat)
    requires e.0 <= bound && forall i :: 0 <= i < |entries| ==> entries[i].0 <= bound
    ensures forall i :: 0 <= i < |Insert(entries, e)| ==> Insert(entries, e)[i].0 <= bound
  {
    if entries == [] || entries[|entries| - 1].0 <= e.0 {
    } else {
      InsertBelow(entries[..|entries| - 1], e, bound);
    }
  }

  lemma {:induction false} InsertSorts(entries: seq<(nat, Response)>, e: (nat, Response))
    requires Sorted(entries)
    ensures Sorted(Insert(entries, e))
  {
    if entries == [] || entries[|entries| - 1].0 <= e.0 {
    } else {
      InsertSorts(entries[..|entries| - 1], e);
      InsertBelow(entries[..|entries| - 1], e, entries[|entries| - 1].0);
    }
  }

  /** The sort puts the entries in order of their sequence and loses or invents none. */
  lemma {:induction false} SortSorts(entries: seq<(nat, Response)>)
    ensures Sorted(SortBySequence(entries))
    ensures multiset(SortBySequence(entries)) == multiset(entries)
  {
    if entries == [] {
    } else {
      var front, last := entries[..|entries| - 1], entries[|entries| - 1];
      SortSorts(front);
      InsertSorts(SortBySequence(front), last);
      InsertKeeps(SortBySequence(front), last);
      WithLast(entries);
    }
  }

  lemma WithLast(entries: seq<(nat, Response)>)
    requires entries != []
    ensures var front, last := entries[..|entries| - 1], entries[|entries| - 1]; multiset(entries) == multiset(front) + multiset{last}
  {
    assert entries == entries[..|entries| - 1] + [entries[|entries| - 1]];
  }

  /** The responses with a sequence, in their order. */
  function WithSequence(entries: seq<(nat, Response)>, k: nat): seq<Response> {
    if entries == [] then []
    else
      var front, last := entries[..|entries| - 1], entries[|entries| - 1];
      WithSequence(front, k) + (if last.0 == k then [last.1] else [])
  }

  lemma {:induction false} InsertIsStable(entries: seq<(nat, Response)>, e: (nat, Response), k: nat)
    requires Sorted(entries)
    ensures WithSequence(Insert(entries, e), k) == WithSequence(entries, k) + (if e.0 == k then [e.1] else [])
  {
    if entries == [] || entries[|entries| - 1].0 <= e.0 {
      assert (entries + [e])[..|entries|] == entries;
    } else {
      var front, last := entries[..|entries| - 1], entries[|entries| - 1];
      InsertIsStable(front, e, k);
      var inserted := Insert(front, e);
      assert (inserted + [last])[..|inserted|] == inserted;
      var added := if e.0 == k then [e.1] else [];
      if last.0 == k {
        assert added == [];
        assert WithSequence(front, k) + added + [last.1] == WithSequence(front, k) + [last.1] + added;
      }
    }
  }

  /** Files of one sequence keep their listing order. */
  lemma {:induction false} SortIsStable(entries: seq<(nat, Response)>, k: nat)
    ensures WithSequence(SortBySequence(entries), k) == WithSequence(entries, k)
  {
    if entries == [] {
    } else {
      var front, last := entries[..|entries| - 1], entries[|entries| - 1];
      SortIsStable(front, k);
      SortSorts(front);
      InsertIsStable(SortBySequence(front), last, k);
    }
  }

  // ----- serving -----

  function CursorOf(st: Store, rid: Rid): nat {
    if rid in st.cursor then st.cursor[rid] else 0
  }

  function CassettesOf(cassettes: map<Rid, seq<Response>>, rid: Rid): seq<Response> {
    if rid in cassettes then cassettes[rid] else []
  }

  function ServeAnswer(st: Store, rid: Rid): Option<Response> {
    var cs := CassettesOf(st.cassettes, rid);
    if CursorOf(st, rid) < |cs| then Some(cs[CursorOf(st, rid)]) else None
  }

  /** `rid.startswith(hash + "-")`. */
  predicate HasPrefix(rid: Rid, hash: Hash) {
    hash + "-" <= rid
  }

  datatype Op = Serve(rid: Rid) | Rewind(hash: Hash)

  function Apply(st: Store, op: Op): Store {
    match op
    case Serve(rid) => if ServeAnswer(st, rid).Some? then st.(cursor := st.cursor[rid := CursorOf(st, rid) + 1]) else st
    case Rewind(h) => st.(cursor := map r | r in st.cursor && !HasPrefix(r, h) :: st.cursor[r])
  }

  function After(st: Store, ops: seq<Op>): Store {
    if ops == [] then st else Apply(After(st, ops[..|ops| - 1]), ops[|ops| - 1])
  }

  class CassetteStore {
    var cassettes: map<Rid, seq<Response>>
    var cursor: map<Rid, nat>

    function Snapshot(): Store
      reads this
    {
      Store(cassettes, cursor)
    }

    constructor ()
      ensures Snapshot() == Store(map[], map[])
    {
      cassettes, cursor := map[], map[];
    }

    static method Collect(listing: seq<LoadedFile>) returns (byRid: map<Rid, seq<(nat, Response)>>)
      ensures forall rid :: (if rid in byRid then byRid[rid] else []) == EntriesOf(listing, rid)
    {
      byRid := map[];
      for i := 0 to |listing|
        invariant forall rid :: (if rid in byRid then byRid[rid] else []) == EntriesOf(listing[..i], rid)
      {
        assert listing[..i + 1][..i] == listing[..i];
        if listing[i].Readable? {
          var c := listing[i].cassette;
          byRid := byRid[c.rid := (if c.rid in byRid then byRid[c.rid] else []) + [(c.sequence, c.flow)]];
        }
      }
      assert listing[..|listing|] == listing;
    }

    /** Collects by rid over the listing, then sorts each rid's entries. */
    method Load(listing: seq<LoadedFile>)
      requires cassettes == map[]
      modifies this`cassettes
      ensures forall rid :: CassettesOf(cassettes, rid) == LoadedResponses(listing, rid)
    {
      var byRid := Collect(listing);
      var todo := byRid.Keys;
      while todo != {}
        invariant todo <= byRid.Keys
        invariant cassettes.Keys == byRid.Keys - todo
        invariant forall rid :: rid in cassettes ==> cassettes[rid] == Responses(SortBySequence(byRid[rid]))
        decreases |todo|
      {
        var rid :| rid in todo;
        cassettes := cassettes[rid := Responses(SortBySequence(byRid[rid]))];
        todo := todo - {rid};
      }
    }

    /** The next cassette of the rid, if one is left. */
    method ServeNext(rid: Rid) returns (r: Option<Response>)
      modifies this`cursor
      ensures r == ServeAnswer(old(Snapshot()), rid)
      ensures Snapshot() == Apply(old(Snapshot()), Serve(rid))
    {
      if rid !in cassettes || cassettes[rid] == [] { return None; }
      var at := if rid in cursor then cursor[rid] else 0;
      if at >= |cassettes[rid]| { return None; }
      cursor := cursor[rid := at + 1];
      return Some(cassettes[rid][at]);
    }

    /** Rewinds the test's rids and tells how many there were. */
    method ResetForHash(hash: Hash) returns (count: nat)
      modifies this`cursor
      ensures Snapshot() == Apply(old(Snapshot()), Rewind(hash))
      ensures count == |set r | r in old(cursor) && HasPrefix(r, hash)|
    {
      var keys := set r | r in cursor && HasPrefix(r, hash);
      var todo := keys;
      while todo != {}
        invariant todo <= keys
        invariant cursor == old(cursor) - (keys - todo)
        decreases |todo|
      {
        var k :| k in todo;
        DropOne(old(cursor), keys, todo, k);
        cursor := cursor - {k};
        todo := todo - {k};
      }
      assert keys - todo == keys;
      assert cursor == map r | r in old(cursor) && !HasPrefix(r, hash) :: old(cursor)[r];
      count := |keys|;
    }

    /** The request hook: what happens to a connector call. */
    method HandleRequest(strict: bool, connector: string, rid: Rid) returns (outcome: Outcome)
      modifies this`cursor
      ensures outcome == Decide(old(Snapshot()), strict, connector, rid)
      ensures Snapshot() == if connector == "" || rid == "" then old(Snapshot()) else Apply(old(Snapshot()), Serve(rid))
      ensures strict && connector != "" ==> !outcome.Live?
    {
      if connector == "" { return NotHandled; }
      if rid == "" { return if strict then Blocked else Live; }
      var recorded := ServeNext(rid);
      match recorded {
        case None => return if strict then Blocked else Live;
        case Some(r) => return Hit(r);
      }
    }
  }

  datatype Outcome = NotHandled | Live | Blocked | Hit(response: Response)

  function Decide(st: Store, strict: bool, connector: string, rid: Rid): Outcome {
    if connector == "" then NotHandled
    else
      match (if rid == "" then None else ServeAnswer(st, rid))
      case Some(r) => Hit(r)
      case None => if strict then Blocked else Live
  }

  // ----- what a run of requests and rewinds serves -----

  /** Requests for the rid since its cursor was last rewound. */
  function RequestsSince(ops: seq<Op>, rid: Rid): nat {
    if ops == [] then 0
    else
      var before, last := RequestsSince(ops[..|ops| - 1], rid), ops[|ops| - 1];
      match last
      case Rewind(h) => if HasPrefix(rid, h) then 0 else before
      case Serve(r) => if r == rid then before + 1 else before
  }

  function Min(a: nat, b: nat): nat { if a <= b then a else b }

  /** Hits since the last rewind are min(requests, cassettes): the cursor counts them. */
  lemma {:induction false} CursorCounts(cassettes: map<Rid, seq<Response>>, ops: seq<Op>, rid: Rid)
    ensures var st := After(Store(cassettes, map[]), ops);
            && st.cassettes == cassettes
            && CursorOf(st, rid) == Min(RequestsSince(ops, rid), |CassettesOf(cassettes, rid)|)
  {
    if ops == [] {
    } else {
      CursorCounts(cassettes, ops[..|ops| - 1], rid);
    }
  }

  /** In every run of requests and rewinds, whatever other rids do in between, the k-th request of a rid since
      its last rewind is answered with the rid's k-th cassette, and a request beyond them is a miss. */
  lemma KthRequestGetsKthCassette(cassettes: map<Rid, seq<Response>>, ops: seq<Op>, rid: Rid)
    ensures var k, cs := RequestsSince(ops, rid), CassettesOf(cassettes, rid);
            ServeAnswer(After(Store(cassettes, map[]), ops), rid) == if k < |cs| then Some(cs[k]) else None
  {
    CursorCounts(cassettes, ops, rid);
  }

  /** The whole outcome of a call after a run: not handled when it is no connector call, otherwise a hit for the k-th
      request of a rid with a k-th cassette, and without one blocked in strict mode and live in the other. */
  lemma KthOutcome(cassettes: map<Rid, seq<Response>>, ops: seq<Op>, strict: bool, connector: string, rid: Rid)
    ensures var k, cs := RequestsSince(ops, rid), CassettesOf(cassettes, rid);
            Decide(After(Store(cassettes, map[]), ops), strict, connector, rid)
              == if connector == "" then NotHandled
                 else if rid != "" && k < |cs| then Hit(cs[k])
                 else if strict then Blocked else Live
  {
    KthRequestGetsKthCassette(cassettes, ops, rid);
  }

  predicate RewindsNone(ops: seq<Op>, rid: Rid) {
    forall i :: 0 <= i < |ops| && ops[i].Rewind? ==> !HasPrefix(rid, ops[i].hash)
  }

  lemma {:induction false} RequestsGrow(ops: seq<Op>, more: seq<Op>, rid: Rid)
    requires RewindsNone(more, rid)
    ensures RequestsSince(ops + [Serve(rid)] + more, rid) > RequestsSince(ops, rid)
  {
    var all := ops + [Serve(rid)] + more;
    if more == [] {
      assert all[..|all| - 1] == ops;
    } else {
      assert all[..|all| - 1] == ops + [Serve(rid)] + more[..|more| - 1];
      assert all[|all| - 1] == more[|more| - 1];
      RequestsGrow(ops, more[..|more| - 1], rid);
    }
  }

  /** Two hits of a rid without a rewind of its test in between serve cassettes of different positions, the later
      one further on; where a rid's cassettes are distinct, so are the answers. */
  lemma NoCassetteTwice(cassettes: map<Rid, seq<Response>>, ops: seq<Op>, more: seq<Op>, rid: Rid)
    requires RewindsNone(more, rid)
    ensures var first, second := After(Store(cassettes, map[]), ops), After(Store(cassettes, map[]), ops + [Serve(rid)] + more);
            var cs := CassettesOf(cassettes, rid);
            ServeAnswer(first, rid).Some? && ServeAnswer(second, rid).Some? ==>
              && CursorOf(first, rid) < CursorOf(second, rid) < |cs|
              && ServeAnswer(first, rid) == Some(cs[CursorOf(first, rid)])
              && ServeAnswer(second, rid) == Some(cs[CursorOf(second, rid)])
              && ((forall i, j :: 0 <= i < j < |cs| ==> cs[i] != cs[j]) ==> ServeAnswer(first, rid) != ServeAnswer(second, rid))
  {
    CursorCounts(cassettes, ops, rid);
    CursorCounts(cassettes, ops + [Serve(rid)] + more, rid);
    RequestsGrow(ops, more, rid);
  }

  lemma {:induction false} RequestsAfterRewind(ops: seq<Op>, h: Hash, more: seq<Op>, rid: Rid)
    ensures HasPrefix(rid, h) ==> RequestsSince(ops + [Rewind(h)] + more, rid) == RequestsSince(more, rid)
    ensures !HasPrefix(rid, h) ==> RequestsSince(ops + [Rewind(h)] + more, rid) == RequestsSince(ops + more, rid)
  {
    var all := ops + [Rewind(h)] + more;
    if more == [] {
      assert all[..|all| - 1] == ops && ops + more == ops;
    } else {
      var front := more[..|more| - 1];
      assert all[..|all| - 1] == ops + [Rewind(h)] + front;
      assert (ops + more)[..|ops + more| - 1] == ops + front;
      assert all[|all| - 1] == more[|more| - 1] && (ops + more)[|ops + more| - 1] == more[|more| - 1];
      RequestsAfterRewind(ops, h, front, rid);
    }
  }

  /** After a rewind the test's rids are served as from a fresh load, and every other rid as if there had been
      no rewind. */
  lemma RewindIsFreshForItsTestOnly(cassettes: map<Rid, seq<Response>>, ops: seq<Op>, h: Hash, more: seq<Op>, rid: Rid)
    ensures var st := Store(cassettes, map[]);
            ServeAnswer(After(st, ops + [Rewind(h)] + more), rid)
              == if HasPrefix(rid, h) then ServeAnswer(After(st, more), rid) else ServeAnswer(After(st, ops + more), rid)
  {
    RequestsAfterRewind(ops, h, more, rid);
    KthRequestGetsKthCassette(cassettes, ops + [Rewind(h)] + more, rid);
    KthRequestGetsKthCassette(cassettes, more, rid);
    KthRequestGetsKthCassette(cassettes, ops + more, rid);
  }

  /** Replay's prefix test and capture's hash of a rid pick out the same tests. */
  lemma SameTests(rid: Rid, h: Hash)
    requires RidOk(rid)
    ensures HasPrefix(rid, h) <==> HashFromRid(rid) == h
  {
    HashOfRid(rid);
    assert rid[..9] == rid[..8] + "-";
    if HasPrefix(rid, h) {
      assert rid[|h|] == (h + "-")[|h|] == '-';
      assert |h| == 8;
    }
  }
}
