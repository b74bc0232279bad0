/** The recording proxy: sequence slots are claimed in request order, responses are written as files in any order.
    One step per locked region, plus the unlocked wipe and the file write. */
module Capture {
  import opened Text
  import opened Decimal
  import opened Globs

  type Rid = string
  type Hash = string
  type Folder = string
  type FlowId = nat
  type Path = (Folder, string)

  // ----- request ids and file names -----

  predicate IsHex(c: char) { IsDigit(c) || 'a' <= c <= 'f' || 'A' <= c <= 'F' }

  predicate IsDash(c: char) { c == '-' }

  /** Eight hex characters, a dash, three digits. */
  predicate RidOk(rid: Rid) {
    && |rid| == 12 && rid[8] == '-'
    && (forall i :: 0 <= i < 8 ==> IsHex(rid[i]))
    && (forall i :: 9 <= i < 12 ==> IsDigit(rid[i]))
  }

  /** `rid.split("-", 1)[0]`. */
  function HashFromRid(rid: Rid): Hash {
    Until(rid, IsDash)
  }

  function FileName(rid: Rid, slot: nat): string {
    rid + "-" + Padded(slot, 2) + ".json"
  }

  predicate OnlyOf(s: string, allowed: string) {
    forall i :: 0 <= i < |s| ==> s[i] in allowed
  }

  /** Of all texts with a dash, those are accepted that have eight hexadecimal characters before it and three digits
      behind it. */
  lemma RidExact(h: string, d: string)
    requires '-' !in h && '-' !in d
    ensures RidOk(h + "-" + d) <==> |h| == 8 && |d| == 3 && OnlyOf(h, "0123456789abcdefABCDEF") && OnlyOf(d, "0123456789")
  {
    var rid := h + "-" + d;
    forall c: char
      ensures IsHex(c) <==> c in "0123456789abcdefABCDEF"
    {
      HexExact(c);
    }
    forall c: char
      ensures IsDigit(c) <==> c in "0123456789"
    {
      DigitExact(c);
    }
    assert forall i :: 0 <= i < |h| ==> rid[i] == h[i];
    assert forall i :: 0 <= i < |d| ==> rid[|h| + 1 + i] == d[i];
    if RidOk(rid) {
      assert |h| == 8;
    }
  }

  lemma DigitExact(c: char)
    ensures IsDigit(c) <==> c in "0123456789"
  {
    var all := "0123456789";
    if IsDigit(c) {
      assert all[c as int - '0' as int] == c;
    }
  }

  lemma HexExact(c: char)
    ensures IsHex(c) <==> c in "0123456789abcdefABCDEF"
  {
    var all := "0123456789abcdefABCDEF";
    DigitExact(c);
    assert all[..10] == "0123456789";
    if IsDigit(c) {
      assert all[c as int - '0' as int] == c;
    } else if 'a' <= c <= 'f' {
      assert all[c as int - 'a' as int + 10] == c;
    } else if 'A' <= c <= 'F' {
      assert all[c as int - 'A' as int + 16] == c;
    }
  }

  /** The slot is printed with at least two digits. */
  lemma FileNameIs(rid: Rid, slot: nat)
    ensures FileName(rid, slot) == rid + "-" + ((if slot < 10 then "0" else "") + NatText(slot)) + ".json"
  {
    NatTextRoundTrip(slot);
    assert Zeros(1) == "0" + Zeros(0);
  }

  lemma HashOfRid(rid: Rid)
    requires RidOk(rid)
    ensures HashFromRid(rid) == rid[..8]
  {
    assert rid == rid[..8] + rid[8..];
    UntilRun(rid[..8], rid[8..], IsDash);
  }

  /** Distinct request ids and slots never share a file name. */
  lemma FileNameInjective(rid: Rid, slot: nat, rid': Rid, slot': nat)
    requires RidOk(rid) && RidOk(rid') && FileName(rid, slot) == FileName(rid', slot')
    ensures rid == rid' && slot == slot'
  {
    var n, n' := Padded(slot, 2), Padded(slot', 2);
    var s := FileName(rid, slot);
    assert s[..12] == rid && s[..12] == rid';
    assert |n| == |n'|;
    assert s[13..13 + |n|] == n && s[13..13 + |n|] == n';
    PaddedInjective(slot, slot', 2);
  }

  // ----- state -----

  datatype Phase = Claimed | LookedUp(folder: Folder) | Written(folder: Folder) | Failed

  /** A flow holding a slot. */
  datatype Flow = Flow(rid: Rid, slot: nat, phase: Phase)

  /** A cassette; the recorded response is identified by the flow that received it. */
  datatype Cassette = Cassette(rid: Rid, sequence: nat, flow: FlowId)

  /** `pending` is the start between its wipe and its registration; the admin server runs one at a time. */
  datatype Addon = Addon(
    tests: map<Hash, Folder>, seqByRid: map<Rid, nat>, flows: map<FlowId, Flow>,
    files: map<Path, Cassette>, pending: Option<(Hash, Folder)>)

  datatype Step =
    | Wipe(hash: Hash, folder: Folder)
    | Register
    | Request(flow: FlowId, rid: Rid)
    | Lookup(flow: FlowId)
    | Write(flow: FlowId)

  /** What `{folder}/{hash}-*.json` matches; both the folder and the hash may hold wildcards. */
  predicate Wiped(p: Path, hash: Hash, folder: Folder) {
    Glob(folder + "/" + hash + "-" + "*.json", p.0 + "/" + p.1)
  }

  function SlotOf(st: Addon, rid: Rid): nat {
    if rid in st.seqByRid then st.seqByRid[rid] else 0
  }

  /** The rids whose counters a start drops. */
  predicate OfTest(rid: Rid, hash: Hash) {
    HashFromRid(rid) == hash
  }

  /** A step that does not apply (an unknown flow, a start while one is pending) changes nothing. */
  function Do(st: Addon, step: Step): Addon {
    match step
    case Wipe(h, folder) =>
      if st.pending.Some? then st
      else st.(files := map p | p in st.files && !Wiped(p, h, folder) :: st.files[p], pending := Some((h, folder)))
    case Register =>
      if st.pending.None? then st
      else
        var (h, folder) := st.pending.value;
        st.(tests := st.tests[h := folder],
            seqByRid := map rid | rid in st.seqByRid && !OfTest(rid, h) :: st.seqByRid[rid],
            pending := None)
    case Request(f, rid) =>
      if f in st.flows || !RidOk(rid) || HashFromRid(rid) !in st.tests then st
      else
        var slot := SlotOf(st, rid);
        st.(seqByRid := st.seqByRid[rid := slot + 1], flows := st.flows[f := Flow(rid, slot, Claimed)])
    case Lookup(f) =>
      if f !in st.flows || !st.flows[f].phase.Claimed? then st
      else
        var h := HashFromRid(st.flows[f].rid);
        st.(flows := st.flows[f := st.flows[f].(phase := if h in st.tests then LookedUp(st.tests[h]) else Failed)])
    case Write(f) =>
      if f !in st.flows || !st.flows[f].phase.LookedUp? then st
      else
        var flow := st.flows[f];
        st.(files := st.files[(flow.phase.folder, FileName(flow.rid, flow.slot)) := Cassette(flow.rid, flow.slot, f)],
            flows := st.flows[f := flow.(phase := Written(flow.phase.folder))])
  }

  function Run(st: Addon, steps: seq<Step>): Addon {
    if steps == [] then st else Do(Run(st, steps[..|steps| - 1]), steps[|steps| - 1])
  }

  function Boot(files: map<Path, Cassette>): Addon {
    Addon(map[], map[], map[], files, None)
  }

  // ----- the requests since a test's last start -----

  /** The flows that claimed a slot for the rid since its test was last registered, in request order. */
  function Claims(start: Addon, steps: seq<Step>, rid: Rid): seq<FlowId> {
    if steps == [] then []
    else
      var before, last := steps[..|steps| - 1], steps[|steps| - 1];
      NextClaims(Run(start, before), Claims(start, before, rid), last, rid)
  }

  function NextClaims(st: Addon, cs: seq<FlowId>, step: Step, rid: Rid): seq<FlowId> {
    match step
    case Register => if st.pending.Some? && OfTest(rid, st.pending.value.0) then [] else cs
    case Request(f, r) => if r == rid && f !in st.flows && RidOk(r) && HashFromRid(r) in st.tests then cs + [f] else cs
    case _ => cs
  }

  /** Each claimed flow holds the slot of its position, and the next slot is their number. */
  predicate ClaimsOk(st: Addon, rid: Rid, cs: seq<FlowId>) {
    && |cs| == SlotOf(st, rid)
    && forall k :: 0 <= k < |cs| ==> cs[k] in st.flows && st.flows[cs[k]].rid == rid && st.flows[cs[k]].slot == k
  }

  lemma ClaimsStep(st: Addon, cs: seq<FlowId>, step: Step, rid: Rid)
    requires ClaimsOk(st, rid, cs)
    ensures ClaimsOk(Do(st, step), rid, NextClaims(st, cs, step, rid))
  {
  }

  ghost predicate SlotsOk(start: Addon, steps: seq<Step>) {
    forall rid :: ClaimsOk(Run(start, steps), rid, Claims(start, steps, rid))
  }

  /** Under every interleaving, the slots claimed for a rid since its test's last start are 0, 1, 2, .. in
      request order. */
  lemma {:induction false} SlotsInRequestOrder(files: map<Path, Cassette>, steps: seq<Step>)
    ensures SlotsOk(Boot(files), steps)
  {
    var start := Boot(files);
    if steps == [] {
    } else {
      var before, last := steps[..|steps| - 1], steps[|steps| - 1];
      SlotsInRequestOrder(files, before);
      forall rid
        ensures ClaimsOk(Run(start, steps), rid, Claims(start, steps, rid))
      {
        ClaimsStep(Run(start, before), Claims(start, before, rid), last, rid);
      }
    }
  }

  predicate FlowsOk(st: Addon) {
    forall f :: f in st.flows ==>
      RidOk(st.flows[f].rid) && HashFromRid(st.flows[f].rid) in st.tests && !st.flows[f].phase.Failed?
  }

  lemma FlowsOkStep(st: Addon, step: Step)
    requires FlowsOk(st)
    ensures FlowsOk(Do(st, step))
  {
    match step
    case Register => assert forall h :: h in st.tests ==> h in Do(st, step).tests;
    case _ =>
  }

  /** No flow ever looks up a test that is not registered. */
  lemma {:induction false} LookupsNeverFail(files: map<Path, Cassette>, steps: seq<Step>)
    ensures FlowsOk(Run(Boot(files), steps))
  {
    if steps == [] {
    } else {
      LookupsNeverFail(files, steps[..|steps| - 1]);
      FlowsOkStep(Run(Boot(files), steps[..|steps| - 1]), steps[|steps| - 1]);
    }
  }

  /** Dropping keys one by one. */
  lemma DropOne<K, V>(m: map<K, V>, keys: set<K>, todo: set<K>, k: K)
    requires k in todo && todo <= keys
    ensures m - (keys - todo) - {k} == m - (keys - (todo - {k}))
  {
  }

  // ----- the addon object -----

  class CaptureAddon {
    var tests: map<Hash, Folder>
    var seqByRid: map<Rid, nat>
    var flows: map<FlowId, Flow>
    var files: map<Path, Cassette>
    var pending: Option<(Hash, Folder)>

    function Snapshot(): Addon
      reads this
    {
      Addon(tests, seqByRid, flows, files, pending)
    }

    constructor (onDisk: map<Path, Cassette>)
      ensures Snapshot() == Boot(onDisk)
    {
      tests, seqByRid, flows, files, pending := map[], map[], map[], onDisk, None;
    }

    /** Deletes the matching files one by one, outside the lock. */
    method WipeTestCassettes(hash: Hash, folder: Folder) returns (removed: nat)
      requires pending.None?
      modifies this`files, this`pending
      ensures Snapshot() == Do(old(Snapshot()), Wipe(hash, folder))
      ensures removed == |set p | p in old(files) && Wiped(p, hash, folder)|
    {
      var matching := set p | p in files && Wiped(p, hash, folder);
      var todo := matching;
      removed := 0;
      while todo != {}
        invariant todo <= matching
        invariant files == old(files) - (matching - todo)
        invariant removed == |matching| - |todo|
        decreases |todo|
      {
        var p :| p in todo;
        DropOne(old(files), matching, todo, p);
        files := files - {p};
        todo := todo - {p};
        removed := removed + 1;
      }
      pending := Some((hash, folder));
      assert matching - todo == matching;
      assert files == map p | p in old(files) && !Wiped(p, hash, folder) :: old(files)[p];
    }

    /** Registers the test and drops its counters, under the lock. */
    method RegisterTest()
      requires pending.Some?
      modifies this`tests, this`seqByRid, this`pending
      ensures Snapshot() == Do(old(Snapshot()), Register)
    {
      var (hash, folder) := pending.value;
      tests := tests[hash := folder];
      var stale := set rid | rid in seqByRid && HashFromRid(rid) == hash;
      var todo := stale;
      while todo != {}
        invariant todo <= stale && tests == old(tests)[hash := folder]
        invariant seqByRid == old(seqByRid) - (stale - todo)
        decreases |todo|
      {
        var rid :| rid in todo;
        DropOne(old(seqByRid), stale, todo, rid);
        seqByRid := seqByRid - {rid};
        todo := todo - {rid};
      }
      pending := None;
      assert stale - todo == stale;
      assert seqByRid == map rid | rid in old(seqByRid) && !OfTest(rid, hash) :: old(seqByRid)[rid];
    }

    /** Claims the next slot of the rid; flows that are not ours get none. */
    method OnRequest(flow: FlowId, rid: Rid)
      requires flow !in flows
      modifies this`seqByRid, this`flows
      ensures Snapshot() == Do(old(Snapshot()), Request(flow, rid))
    {
      if !RidOk(rid) { return; }
      var hash := HashFromRid(rid);
      if hash !in tests { return; }
      var slot := if rid in seqByRid then seqByRid[rid] else 0;
      seqByRid := seqByRid[rid := slot + 1];
      flows := flows[flow := Flow(rid, slot, Claimed)];
    }

    /** The locked part of the response hook. */
    method OnResponse(flow: FlowId)
      modifies this`flows
      ensures Snapshot() == Do(old(Snapshot()), Lookup(flow))
    {
      if flow !in flows || !flows[flow].phase.Claimed? { return; }
      var hash := HashFromRid(flows[flow].rid);
      flows := flows[flow := flows[flow].(phase := if hash in tests then LookedUp(tests[hash]) else Failed)];
    }

    /** The file write that follows it. */
    method WriteCassette(flow: FlowId)
      modifies this`flows, this`files
      ensures Snapshot() == Do(old(Snapshot()), Write(flow))
    {
      if flow !in flows || !flows[flow].phase.LookedUp? { return; }
      var info := flows[flow];
      files := files[(info.phase.folder, FileName(info.rid, info.slot)) := Cassette(info.rid, info.slot, flow)];
      flows := flows[flow := info.(phase := Written(info.phase.folder))];
    }
  }
}
