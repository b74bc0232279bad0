/** From a capture run to what replay serves: which responses come back, and exactly when they are the right ones. */
module RecordReplay {
  import opened Text
  import opened Decimal
  import opened Globs
  import opened Capture
  import R = Replay

  function PathOf(folder: Folder, rid: Rid, slot: nat): Path {
    (folder, FileName(rid, slot))
  }

  function DiskFlows(files: map<Path, Cassette>): set<FlowId> {
    set p | p in files :: files[p].flow
  }

  /** The cassettes found on disk were recorded by flows of earlier runs. */
  predicate Fresh(files: map<Path, Cassette>, steps: seq<Step>) {
    forall i :: 0 <= i < |steps| && steps[i].Request? ==> steps[i].flow !in DiskFlows(files)
  }

  /** Cassettes are named as the addon names them. */
  predicate Placed(files: map<Path, Cassette>) {
    forall p :: p in files ==> RidOk(files[p].rid) && p.1 == FileName(files[p].rid, files[p].sequence)
  }

  predicate PendingFor(st: Addon, rid: Rid) {
    st.pending.Some? && OfTest(rid, st.pending.value.0)
  }

  /** The files that do not belong to their test's current start: last written by a flow that claimed earlier and was
      still in flight when the old cassettes were wiped, or left by that wipe in the test's own folder. */
  function Stale(start: Addon, steps: seq<Step>): set<Path> {
    if steps == [] then {}
    else
      var before, last := steps[..|steps| - 1], steps[|steps| - 1];
      var st, stale := Run(start, before), Stale(start, before);
      match last
      case Wipe(h, folder) =>
        if st.pending.Some? then stale
        else
          (set p | p in stale && !Wiped(p, h, folder)) +
          (set p | p in st.files && p.0 == folder && OfTest(st.files[p].rid, h) && !Wiped(p, h, folder))
      case Write(f) =>
        if f !in st.flows || !st.flows[f].phase.LookedUp? then stale
        else
          var p := WrittenPath(st.flows[f]);
          if PendingFor(st, st.flows[f].rid) || f !in Claims(start, before, st.flows[f].rid) then stale + {p} else stale - {p}
      case _ => stale
  }

  function WrittenPath(flow: Flow): Path
    requires flow.phase.LookedUp? || flow.phase.Written?
  {
    PathOf(flow.phase.folder, flow.rid, flow.slot)
  }

  /** The flow that claimed the slot since the last start has written its file. */
  predicate Answered(st: Addon, cs: seq<FlowId>, slot: nat) {
    slot < |cs| && cs[slot] in st.flows && st.flows[cs[slot]].phase.Written?
  }

  datatype Place = Place(folder: Folder, rid: Rid, slot: nat)

  /** The files of the current run removed by a start that is not their own test's. */
  function Lost(start: Addon, steps: seq<Step>): set<Place> {
    if steps == [] then {}
    else
      var before, last := steps[..|steps| - 1], steps[|steps| - 1];
      var st, lost := Run(start, before), Lost(start, before);
      match last
      case Wipe(h, folder) =>
        if st.pending.Some? then lost
        else
          (set x | x in lost && !OfTest(x.rid, h)) +
          (set p | p in st.files && Wiped(p, h, folder) && !OfTest(st.files[p].rid, h)
                   && Answered(st, Claims(start, before, st.files[p].rid), st.files[p].sequence)
                 :: Place(p.0, st.files[p].rid, st.files[p].sequence))
      case _ => lost
  }

  // ----- the invariant -----

  predicate Started(st: Addon, rid: Rid) {
    HashFromRid(rid) in st.tests || PendingFor(st, rid)
  }

  /** Where the test of a rid records, from the wipe of its last start on. */
  function FolderOf(st: Addon, rid: Rid): Folder
    requires Started(st, rid)
  {
    if PendingFor(st, rid) then st.pending.value.1 else st.tests[HashFromRid(rid)]
  }

  /** Every file was on disk before or is the one its flow wrote. */
  predicate Owned(st: Addon, disk: set<FlowId>) {
    forall p :: p in st.files ==>
      var f := st.files[p].flow;
      && (f in disk || f in st.flows)
      && (f in st.flows ==> st.flows[f].phase.Written? && WrittenPath(st.flows[f]) == p)
  }

  predicate ClaimFolderOk(st: Addon, rid: Rid, f: FlowId) {
    f in st.flows && (st.flows[f].phase.LookedUp? || st.flows[f].phase.Written?) ==>
      HashFromRid(rid) in st.tests && st.flows[f].phase.folder == st.tests[HashFromRid(rid)]
  }

  /** Flows that claimed their slot since the last start write where it says. */
  predicate ClaimFoldersOk(st: Addon, rid: Rid, cs: seq<FlowId>) {
    forall k :: 0 <= k < |cs| ==> ClaimFolderOk(st, rid, cs[k])
  }

  /** The file of one slot, against the flows that claimed slots since the last start. */
  predicate CellOk(st: Addon, claims: seq<FlowId>, stale: bool, lost: bool, rid: Rid, slot: nat)
    requires Started(st, rid)
  {
    var p := PathOf(FolderOf(st, rid), rid, slot);
    if PendingFor(st, rid) then (p in st.files <==> stale) && !lost
    else
      && (stale ==> p in st.files && st.files[p].flow !in claims)
      && (!stale && p in st.files ==> !lost && slot < |claims| && st.files[p].flow == claims[slot])
      && (lost ==> Answered(st, claims, slot))
      && (!stale && !lost && Answered(st, claims, slot) ==> p in st.files)
  }

  ghost predicate CellInv(start: Addon, steps: seq<Step>, rid: Rid, slot: nat) {
    var st := Run(start, steps);
    RidOk(rid) && Started(st, rid) ==>
      CellOk(st, Claims(start, steps, rid), PathOf(FolderOf(st, rid), rid, slot) in Stale(start, steps),
             Place(FolderOf(st, rid), rid, slot) in Lost(start, steps), rid, slot)
  }

  predicate StaleOnDisk(start: Addon, steps: seq<Step>) {
    forall p :: p in Stale(start, steps) ==> p in Run(start, steps).files
  }

  ghost predicate Inv(start: Addon, steps: seq<Step>) {
    && FlowsOk(Run(start, steps)) && SlotsOk(start, steps) && Placed(Run(start, steps).files)
    && Owned(Run(start, steps), DiskFlows(start.files)) && StaleOnDisk(start, steps)
    && (forall rid :: ClaimFoldersOk(Run(start, steps), rid, Claims(start, steps, rid)))
    && (forall rid, slot: nat :: CellInv(start, steps, rid, slot))
  }

  lemma PathInjective(folder: Folder, rid: Rid, slot: nat, folder': Folder, rid': Rid, slot': nat)
    requires RidOk(rid) && RidOk(rid') && PathOf(folder, rid, slot) == PathOf(folder', rid', slot')
    ensures folder == folder' && rid == rid' && slot == slot'
  {
    FileNameInjective(rid, slot, rid', slot');
  }

  /** The dashes of a file name. */
  lemma DashesOf(rid: Rid, slot: nat, k: nat)
    requires RidOk(rid) && k < |FileName(rid, slot)|
    ensures FileName(rid, slot)[k] == '-' <==> k == 8 || k == 12
  {
    var name, digits := FileName(rid, slot), Padded(slot, 2);
    PaddedRoundTrip(slot, 2);
    assert name == rid + "-" + digits + ".json";
    if 13 <= k < 13 + |digits| {
      assert name[k] == digits[k - 13];
    } else if k >= 13 + |digits| {
      assert name[k] == ".json"[k - 13 - |digits|];
    }
  }

  /** A path without wildcards and a name are determined by their joined text. */
  lemma JoinInjective(a: Folder, x: string, b: Folder, y: string)
    requires '/' !in x && '/' !in y && a + "/" + x == b + "/" + y
    ensures a == b && x == y
  {
    var s := a + "/" + x;
    assert s[|a|] == '/' && s[|b|] == '/';
    LastSlash(a, x);
    LastSlash(b, y);
    assert |a| == |b|;
    assert a == s[..|a|] && b == s[..|a|] && x == s[|a| + 1..] && y == s[|a| + 1..];
  }

  lemma LastSlash(a: Folder, x: string)
    requires '/' !in x
    ensures forall k :: |a| < k < |a| + 1 + |x| ==> (a + "/" + x)[k] != '/'
  {
    forall k | |a| < k < |a| + 1 + |x|
      ensures (a + "/" + x)[k] != '/'
    {
      assert (a + "/" + x)[k] == x[k - |a| - 1];
    }
  }

  lemma NameHasNoSlash(rid: Rid, slot: nat)
    requires RidOk(rid)
    ensures '/' !in FileName(rid, slot)
  {
    var name, digits := FileName(rid, slot), Padded(slot, 2);
    PaddedRoundTrip(slot, 2);
    forall k | 0 <= k < |name|
      ensures name[k] != '/'
    {
      if k < 12 {
        assert name[k] == rid[k];
      } else if 13 <= k < 13 + |digits| {
        assert name[k] == digits[k - 13];
      } else if k >= 13 + |digits| {
        assert name[k] == ".json"[k - 13 - |digits|];
      }
    }
  }

  lemma JsonIsLiteral()
    ensures IsLiteral(".json") && "*.json" == "*" + ".json"
  {
  }

  /** With a literal front, a wipe matches what starts with it and ends in `.json` in the same folder. */
  lemma WipeMatches(front: string, s: string)
    requires IsLiteral(front)
    ensures Glob(front + "*.json", s) <==> front <= s && EndsIn(s[|front|..], ".json")
  {
    JsonIsLiteral();
    GlobLiteral(front, "*.json", s);
    if front <= s {
      StarThenEnd(".json", s[|front|..]);
    }
  }

  lemma NamePasses(h: Hash, rid: Rid, slot: nat)
    requires RidOk(rid) && (h == rid[..8] || h == rid)
    ensures h + "-" <= FileName(rid, slot) && EndsIn(FileName(rid, slot)[|h| + 1..], ".json")
  {
    var name := FileName(rid, slot);
    PrefixesOf(h, rid, slot);
    NameHasNoSlash(rid, slot);
    PaddedRoundTrip(slot, 2);
    assert name[|name| - 5..] == ".json" && |name| >= 20;
    assert name[|h| + 1..][|name| - |h| - 6..] == ".json";
  }

  /** What a start without wildcards matches lies in its folder. */
  lemma MatchedInFolder(h: Hash, folder: Folder, at: Folder, name: string)
    requires '/' !in h && '/' !in name
    requires var s, front := at + "/" + name, folder + "/" + h + "-"; front <= s && EndsIn(s[|front|..], ".json")
    ensures at == folder && h + "-" <= name
  {
    var s, front := at + "/" + name, folder + "/" + h + "-";
    var rest := s[|front|..];
    EndHasNoSlash(rest);
    assert s == folder + "/" + (h + "-" + rest);
    JoinInjective(at, name, folder, h + "-" + rest);
  }

  lemma MatchedInPlace(h: Hash, folder: Folder, name: string)
    requires h + "-" <= name && EndsIn(name[|h| + 1..], ".json")
    ensures var s, front := folder + "/" + name, folder + "/" + h + "-"; front <= s && EndsIn(s[|front|..], ".json")
  {
    var s, front := folder + "/" + name, folder + "/" + h + "-";
    assert s == front + name[|h| + 1..];
  }

  /** A start whose hash and folder hold no wildcard removes, from that folder, the cassettes of the test with that
      hash or of the rid given as a hash, and no others. */
  lemma WipeIsPerTest(h: Hash, folder: Folder, at: Folder, rid: Rid, slot: nat)
    requires RidOk(rid) && IsLiteral(folder) && IsLiteral(h) && '/' !in h
    ensures Wiped(PathOf(at, rid, slot), h, folder) <==> at == folder && (OfTest(rid, h) || h == rid)
  {
    var name, front := FileName(rid, slot), folder + "/" + h + "-";
    HashOfRid(rid);
    NameHasNoSlash(rid, slot);
    WipeMatches(front, at + "/" + name);
    if Wiped(PathOf(at, rid, slot), h, folder) {
      MatchedInFolder(h, folder, at, name);
      PrefixesOf(h, rid, slot);
    }
    if at == folder && (h == rid[..8] || h == rid) {
      NamePasses(h, rid, slot);
      MatchedInPlace(h, folder, name);
    }
  }

  lemma EndHasNoSlash(s: string)
    requires EndsIn(s, ".json")
    ensures '/' !in s
  {
    assert s == s[..|s| - 5] + ".json";
  }

  /** What stands before a dash of a file name is the hash or the rid. */
  lemma PrefixesOf(h: Hash, rid: Rid, slot: nat)
    requires RidOk(rid)
    ensures h + "-" <= FileName(rid, slot) <==> h == rid[..8] || h == rid
  {
    var name := FileName(rid, slot);
    assert name[..12] == rid && name[..9] == rid[..8] + "-" && name[..13] == rid + "-";
    if h + "-" <= name {
      assert name[|h|] == (h + "-")[|h|] == '-';
      DashesOf(rid, slot, |h|);
      assert name[..|h|] == h;
    }
  }

  // ----- preserved by every step -----

  lemma PlacedStep(st: Addon, step: Step)
    requires FlowsOk(st) && Placed(st.files)
    ensures Placed(Do(st, step).files)
  {
  }

  lemma StaleOnDiskStep(start: Addon, before: seq<Step>, step: Step)
    requires StaleOnDisk(start, before)
    ensures StaleOnDisk(start, before + [step])
  {
    assert (before + [step])[..|before|] == before;
  }

  lemma OwnedStep(st: Addon, disk: set<FlowId>, step: Step)
    requires Owned(st, disk) && (step.Request? ==> step.flow !in disk)
    ensures Owned(Do(st, step), disk)
  {
  }

  lemma ClaimFolderStep(st: Addon, step: Step, rid: Rid, f: FlowId)
    requires f in st.flows && st.flows[f].rid == rid && ClaimFolderOk(st, rid, f)
    requires !(step.Register? && PendingFor(st, rid))
    ensures ClaimFolderOk(Do(st, step), rid, f)
  {
  }

  lemma ClaimFoldersStep(st: Addon, cs: seq<FlowId>, step: Step, rid: Rid)
    requires ClaimsOk(st, rid, cs) && ClaimFoldersOk(st, rid, cs)
    ensures ClaimFoldersOk(Do(st, step), rid, NextClaims(st, cs, step, rid))
  {
    var cs' := NextClaims(st, cs, step, rid);
    forall k | 0 <= k < |cs'|
      ensures ClaimFolderOk(Do(st, step), rid, cs'[k])
    {
      if k < |cs| {
        assert ClaimFolderOk(st, rid, cs[k]);
        ClaimFolderStep(st, step, rid, cs[k]);
      }
    }
  }

  lemma CellWipe(st: Addon, h: Hash, folder: Folder, cs: seq<FlowId>, stale: bool, lost: bool, rid: Rid, slot: nat)
    requires st.pending.None? && Started(Do(st, Wipe(h, folder)), rid)
    requires !OfTest(rid, h) ==> Started(st, rid) && CellOk(st, cs, stale, lost, rid, slot)
    ensures var st' := Do(st, Wipe(h, folder));
            var p := PathOf(FolderOf(st', rid), rid, slot);
            var wiped := Wiped(p, h, folder);
            && (OfTest(rid, h) ==> CellOk(st', cs, p in st'.files, false, rid, slot))
            && (!OfTest(rid, h) ==>
                  CellOk(st', cs, stale && !wiped, lost || (p in st.files && wiped && Answered(st, cs, slot)), rid, slot))
  {
  }

  lemma CellRegister(st: Addon, cs: seq<FlowId>, stale: bool, lost: bool, rid: Rid, slot: nat)
    requires st.pending.Some? && Started(st, rid) && CellOk(st, cs, stale, lost, rid, slot)
    ensures Started(Do(st, Register), rid) && FolderOf(Do(st, Register), rid) == FolderOf(st, rid)
    ensures CellOk(Do(st, Register), NextClaims(st, cs, Register, rid), stale, lost, rid, slot)
  {
  }

  lemma CellRequest(st: Addon, disk: set<FlowId>, f: FlowId, r: Rid, cs: seq<FlowId>, stale: bool, lost: bool, rid: Rid, slot: nat)
    requires Started(st, rid) && CellOk(st, cs, stale, lost, rid, slot) && Owned(st, disk) && f !in disk
    ensures CellOk(Do(st, Request(f, r)), NextClaims(st, cs, Request(f, r), rid), stale, lost, rid, slot)
  {
  }

  lemma CellLookup(st: Addon, f: FlowId, cs: seq<FlowId>, stale: bool, lost: bool, rid: Rid, slot: nat)
    requires Started(st, rid) && CellOk(st, cs, stale, lost, rid, slot)
    ensures CellOk(Do(st, Lookup(f)), cs, stale, lost, rid, slot)
  {
  }

  lemma CellWrite(st: Addon, f: FlowId, cs: seq<FlowId>, stale: bool, lost: bool, rid: Rid, slot: nat)
    requires RidOk(rid) && Started(st, rid) && FlowsOk(st) && ClaimsOk(st, rid, cs) && ClaimFoldersOk(st, rid, cs)
    requires CellOk(st, cs, stale, lost, rid, slot)
    requires f in st.flows && st.flows[f].phase.LookedUp?
    ensures var mine := WrittenPath(st.flows[f]) == PathOf(FolderOf(st, rid), rid, slot);
            CellOk(Do(st, Write(f)), cs, if mine then PendingFor(st, rid) || f !in cs else stale, lost, rid, slot)
  {
    var flow := st.flows[f];
    if WrittenPath(flow) == PathOf(FolderOf(st, rid), rid, slot) {
      PathInjective(flow.phase.folder, flow.rid, flow.slot, FolderOf(st, rid), rid, slot);
    }
  }

  lemma Extend(start: Addon, steps: seq<Step>, step: Step, rid: Rid)
    ensures Run(start, steps + [step]) == Do(Run(start, steps), step)
    ensures Claims(start, steps + [step], rid) == NextClaims(Run(start, steps), Claims(start, steps, rid), step, rid)
  {
    assert (steps + [step])[..|steps|] == steps;
  }

  predicate Writes(st: Addon, step: Step) {
    step.Write? && step.flow in st.flows && st.flows[step.flow].phase.LookedUp?
  }

  /** Only an effective wipe and an effective write change what is stale. */
  lemma StaleStep(start: Addon, before: seq<Step>, step: Step, p: Path)
    ensures var st, was := Run(start, before), p in Stale(start, before);
            p in Stale(start, before + [step]) <==>
              if step.Wipe? && st.pending.None? then
                && !Wiped(p, step.hash, step.folder)
                && (was || (p in st.files && p.0 == step.folder && OfTest(st.files[p].rid, step.hash)))
              else if Writes(st, step) && WrittenPath(st.flows[step.flow]) == p
              then PendingFor(st, st.flows[step.flow].rid) || step.flow !in Claims(start, before, st.flows[step.flow].rid)
              else was
  {
    assert (before + [step])[..|before|] == before;
  }

  /** Only an effective wipe changes what is lost. */
  lemma LostStep(start: Addon, before: seq<Step>, step: Step, x: Place)
    requires RidOk(x.rid) && Placed(Run(start, before).files)
    ensures var st, was, p := Run(start, before), x in Lost(start, before), PathOf(x.folder, x.rid, x.slot);
            x in Lost(start, before + [step]) <==>
              if step.Wipe? && st.pending.None? then
                && !OfTest(x.rid, step.hash)
                && (was || (p in st.files && Wiped(p, step.hash, step.folder) && Answered(st, Claims(start, before, x.rid), x.slot)))
              else was
  {
    var st, p := Run(start, before), PathOf(x.folder, x.rid, x.slot);
    assert (before + [step])[..|before|] == before;
    if p in st.files {
      PathInjective(x.folder, x.rid, x.slot, p.0, st.files[p].rid, st.files[p].sequence);
    }
  }

  lemma InvWipe(start: Addon, before: seq<Step>, step: Step, rid: Rid, slot: nat)
    requires CellInv(start, before, rid, slot) && step.Wipe? && Run(start, before).pending.None?
    requires Placed(Run(start, before).files) && StaleOnDisk(start, before)
    ensures CellInv(start, before + [step], rid, slot)
  {
    var st := Run(start, before);
    var st' := Do(st, step);
    Extend(start, before, step, rid);
    if RidOk(rid) && Started(st', rid) {
      var at, cs := FolderOf(st', rid), Claims(start, before, rid);
      var p, x := PathOf(at, rid, slot), Place(at, rid, slot);
      WipedCell(start, before, step, at, rid, slot);
      assert !OfTest(rid, step.hash) ==> Started(st, rid) && FolderOf(st, rid) == FolderOf(st', rid);
      CellWipe(st, step.hash, step.folder, cs, p in Stale(start, before), x in Lost(start, before), rid, slot);
    }
  }

  /** What a wipe does to the stale and lost status of a file. */
  lemma WipedCell(start: Addon, before: seq<Step>, step: Step, at: Folder, rid: Rid, slot: nat)
    requires RidOk(rid) && step.Wipe? && Run(start, before).pending.None? && Placed(Run(start, before).files)
    requires StaleOnDisk(start, before) && (OfTest(rid, step.hash) ==> at == step.folder)
    ensures var st, p, x := Run(start, before), PathOf(at, rid, slot), Place(at, rid, slot);
            var wiped := Wiped(p, step.hash, step.folder);
            && (OfTest(rid, step.hash) ==>
                  (p in Stale(start, before + [step]) <==> p in Do(st, step).files) && x !in Lost(start, before + [step]))
            && (!OfTest(rid, step.hash) ==>
                  && (p in Stale(start, before + [step]) <==> p in Stale(start, before) && !wiped)
                  && (x in Lost(start, before + [step]) <==>
                        x in Lost(start, before) || (p in st.files && wiped && Answered(st, Claims(start, before, rid), slot))))
  {
    var st, p := Run(start, before), PathOf(at, rid, slot);
    StaleStep(start, before, step, p);
    LostStep(start, before, step, Place(at, rid, slot));
    if p in st.files {
      PathInjective(at, rid, slot, p.0, st.files[p].rid, st.files[p].sequence);
    }
  }

  lemma InvWrite(start: Addon, before: seq<Step>, step: Step, rid: Rid, slot: nat)
    requires CellInv(start, before, rid, slot) && Writes(Run(start, before), step)
    requires FlowsOk(Run(start, before)) && ClaimsOk(Run(start, before), rid, Claims(start, before, rid))
    requires ClaimFoldersOk(Run(start, before), rid, Claims(start, before, rid)) && Placed(Run(start, before).files)
    ensures CellInv(start, before + [step], rid, slot)
  {
    var st := Run(start, before);
    Extend(start, before, step, rid);
    if RidOk(rid) && Started(st, rid) {
      var p, x, flow := PathOf(FolderOf(st, rid), rid, slot), Place(FolderOf(st, rid), rid, slot), st.flows[step.flow];
      StaleStep(start, before, step, p);
      LostStep(start, before, step, x);
      CellWrite(st, step.flow, Claims(start, before, rid), p in Stale(start, before), x in Lost(start, before), rid, slot);
      if WrittenPath(flow) == p {
        PathInjective(flow.phase.folder, flow.rid, flow.slot, FolderOf(st, rid), rid, slot);
      }
    }
  }

  /** Only wipes and writes change what is stale or lost. */
  lemma SetsStay(start: Addon, before: seq<Step>, step: Step)
    requires !step.Wipe? && !step.Write?
    ensures Stale(start, before + [step]) == Stale(start, before) && Lost(start, before + [step]) == Lost(start, before)
  {
    assert (before + [step])[..|before|] == before;
  }

  lemma InvRegister(start: Addon, before: seq<Step>, rid: Rid, slot: nat)
    requires CellInv(start, before, rid, slot) && Run(start, before).pending.Some?
    ensures CellInv(start, before + [Register], rid, slot)
  {
    var st, cs := Run(start, before), Claims(start, before, rid);
    Extend(start, before, Register, rid);
    SetsStay(start, before, Register);
    if RidOk(rid) && Started(Do(st, Register), rid) {
      var p, x := PathOf(FolderOf(st, rid), rid, slot), Place(FolderOf(st, rid), rid, slot);
      CellRegister(st, cs, p in Stale(start, before), x in Lost(start, before), rid, slot);
    }
  }

  lemma InvRequest(start: Addon, before: seq<Step>, f: FlowId, r: Rid, rid: Rid, slot: nat)
    requires CellInv(start, before, rid, slot)
    requires Owned(Run(start, before), DiskFlows(start.files)) && f !in DiskFlows(start.files)
    ensures CellInv(start, before + [Request(f, r)], rid, slot)
  {
    var st, cs := Run(start, before), Claims(start, before, rid);
    Extend(start, before, Request(f, r), rid);
    SetsStay(start, before, Request(f, r));
    if RidOk(rid) && Started(st, rid) {
      var p, x := PathOf(FolderOf(st, rid), rid, slot), Place(FolderOf(st, rid), rid, slot);
      CellRequest(st, DiskFlows(start.files), f, r, cs, p in Stale(start, before), x in Lost(start, before), rid, slot);
    }
  }

  lemma InvLookup(start: Addon, before: seq<Step>, f: FlowId, rid: Rid, slot: nat)
    requires CellInv(start, before, rid, slot)
    ensures CellInv(start, before + [Lookup(f)], rid, slot)
  {
    var st, cs := Run(start, before), Claims(start, before, rid);
    Extend(start, before, Lookup(f), rid);
    SetsStay(start, before, Lookup(f));
    if RidOk(rid) && Started(st, rid) {
      var p, x := PathOf(FolderOf(st, rid), rid, slot), Place(FolderOf(st, rid), rid, slot);
      CellLookup(st, f, cs, p in Stale(start, before), x in Lost(start, before), rid, slot);
    }
  }

  /** A step that does not apply. */
  lemma InvSame(start: Addon, before: seq<Step>, step: Step, rid: Rid, slot: nat)
    requires CellInv(start, before, rid, slot) && Placed(Run(start, before).files)
    requires Do(Run(start, before), step) == Run(start, before) && !step.Request? && !step.Lookup?
    requires !Writes(Run(start, before), step) && !(step.Wipe? && Run(start, before).pending.None?)
    requires !(step.Register? && Run(start, before).pending.Some?)
    ensures CellInv(start, before + [step], rid, slot)
  {
    var st := Run(start, before);
    Extend(start, before, step, rid);
    if RidOk(rid) && Started(st, rid) {
      StaleStep(start, before, step, PathOf(FolderOf(st, rid), rid, slot));
      LostStep(start, before, step, Place(FolderOf(st, rid), rid, slot));
    }
  }

  lemma CellInvStep(start: Addon, before: seq<Step>, step: Step, rid: Rid, slot: nat)
    requires Inv(start, before) && (step.Request? ==> step.flow !in DiskFlows(start.files))
    ensures CellInv(start, before + [step], rid, slot)
  {
    var st := Run(start, before);
    assert CellInv(start, before, rid, slot);
    if Writes(st, step) {
      assert ClaimsOk(st, rid, Claims(start, before, rid));
      InvWrite(start, before, step, rid, slot);
    } else if step.Wipe? && st.pending.None? {
      InvWipe(start, before, step, rid, slot);
    } else if step.Request? {
      InvRequest(start, before, step.flow, step.rid, rid, slot);
    } else if step.Lookup? {
      InvLookup(start, before, step.flow, rid, slot);
    } else if step.Register? && st.pending.Some? {
      InvRegister(start, before, rid, slot);
    } else {
      InvSame(start, before, step, rid, slot);
    }
  }

  /** In every run each slot's file, where its test records, is that of the flow that claimed it, or one from before
      the last start, or absent: not written yet or removed by another test's start. */
  lemma {:induction false} InvHolds(files: map<Path, Cassette>, steps: seq<Step>)
    requires Placed(files) && Fresh(files, steps)
    ensures Inv(Boot(files), steps)
  {
    var start := Boot(files);
    SlotsInRequestOrder(files, steps);
    if steps == [] {
    } else {
      var before, last := steps[..|steps| - 1], steps[|steps| - 1];
      assert steps == before + [last];
      InvHolds(files, before);
      FlowsOkStep(Run(start, before), last);
      PlacedStep(Run(start, before), last);
      OwnedStep(Run(start, before), DiskFlows(files), last);
      StaleOnDiskStep(start, before, last);
      forall rid
        ensures ClaimFoldersOk(Run(start, steps), rid, Claims(start, steps, rid))
      {
        assert ClaimsOk(Run(start, before), rid, Claims(start, before, rid));
        ClaimFoldersStep(Run(start, before), Claims(start, before, rid), last, rid);
      }
      forall rid, slot: nat
        ensures CellInv(start, steps, rid, slot)
      {
        CellInvStep(start, before, last, rid, slot);
      }
    }
  }

  // ----- reading the files back -----

  /** The listing of all folders in the order the file system gives it; `None` is a file that is not a cassette. */
  predicate Lists(order: seq<Option<Path>>, files: map<Path, Cassette>) {
    && (forall i :: 0 <= i < |order| && order[i].Some? ==> order[i].value in files)
    && (forall p :: p in files ==> Some(p) in order)
    && (forall i, j :: 0 <= i < j < |order| && order[i].Some? ==> order[i] != order[j])
  }

  function Listing(order: seq<Option<Path>>, files: map<Path, Cassette>): seq<R.LoadedFile>
    requires Lists(order, files)
  {
    seq(|order|, i requires 0 <= i < |order| =>
      if order[i].Some? then R.Readable(files[order[i].value]) else R.Skipped)
  }

  lemma {:induction false} EntryMembers(listing: seq<R.LoadedFile>, rid: Rid, e: (nat, FlowId))
    ensures e in R.EntriesOf(listing, rid) <==> R.Readable(Cassette(rid, e.0, e.1)) in listing
  {
    if listing == [] {
    } else {
      var front, last := listing[..|listing| - 1], listing[|listing| - 1];
      EntryMembers(front, rid, e);
      assert listing == front + [last];
      assert R.Readable(Cassette(rid, e.0, e.1)) in listing <==>
             R.Readable(Cassette(rid, e.0, e.1)) in front || last == R.Readable(Cassette(rid, e.0, e.1));
    }
  }

  predicate IsEntry(listing: seq<R.LoadedFile>, rid: Rid, i: nat) {
    i < |listing| && listing[i].Readable? && listing[i].cassette.rid == rid
  }

  /** No two files of the rid carry the same sequence. */
  ghost predicate OneFilePerSlot(listing: seq<R.LoadedFile>, rid: Rid) {
    forall i: nat, j: nat :: i < j && IsEntry(listing, rid, i) && IsEntry(listing, rid, j) ==>
      listing[i].cassette.sequence != listing[j].cassette.sequence
  }

  predicate DistinctKeys(entries: seq<(nat, FlowId)>) {
    forall i, j :: 0 <= i < j < |entries| ==> entries[i].0 != entries[j].0
  }

  lemma {:induction false} EntriesDistinct(listing: seq<R.LoadedFile>, rid: Rid)
    requires OneFilePerSlot(listing, rid)
    ensures DistinctKeys(R.EntriesOf(listing, rid))
  {
    if listing == [] {
    } else {
      var front, last := listing[..|listing| - 1], listing[|listing| - 1];
      forall i: nat, j: nat | i < j && IsEntry(front, rid, i) && IsEntry(front, rid, j)
        ensures front[i].cassette.sequence != front[j].cassette.sequence
      {
        assert IsEntry(listing, rid, i) && IsEntry(listing, rid, j);
      }
      EntriesDistinct(front, rid);
      var es := R.EntriesOf(front, rid);
      if last.Readable? && last.cassette.rid == rid {
        forall i | 0 <= i < |es|
          ensures es[i].0 != last.cassette.sequence
        {
          LastIsDistinct(listing, rid, es[i]);
        }
      }
    }
  }

  lemma LastIsDistinct(listing: seq<R.LoadedFile>, rid: Rid, e: (nat, FlowId))
    requires listing != [] && OneFilePerSlot(listing, rid) && IsEntry(listing, rid, |listing| - 1)
    requires e in R.EntriesOf(listing[..|listing| - 1], rid)
    ensures e.0 != listing[|listing| - 1].cassette.sequence
  {
    var front := listing[..|listing| - 1];
    EntryMembers(front, rid, e);
    var k :| 0 <= k < |front| && front[k] == R.Readable(Cassette(rid, e.0, e.1));
    assert IsEntry(listing, rid, k);
  }

  lemma MultisetSame(a: seq<(nat, FlowId)>, b: seq<(nat, FlowId)>, e: (nat, FlowId))
    requires multiset(a) == multiset(b)
    ensures e in a <==> e in b
  {
    assert e in a <==> e in multiset(a);
    assert e in b <==> e in multiset(b);
  }

  lemma {:induction false} CountTwice(a: seq<(nat, FlowId)>, i: nat, j: nat)
    requires i < j < |a| && a[i] == a[j]
    ensures multiset(a)[a[i]] >= 2
  {
    assert a == a[..j] + a[j..];
    assert a[i] in a[..j] && a[j] in a[j..];
    assert a[..j][i] == a[i] && a[j..][0] == a[j];
  }

  lemma {:induction false} DistinctCount(a: seq<(nat, FlowId)>, e: (nat, FlowId))
    requires DistinctKeys(a)
    ensures multiset(a)[e] <= 1
  {
    if a == [] {
    } else {
      var front, last := a[..|a| - 1], a[|a| - 1];
      DistinctCount(front, e);
      assert a == front + [last];
      assert last == e ==> e !in front;
    }
  }

  lemma SameKeySameEntry(a: seq<(nat, FlowId)>, x: (nat, FlowId), y: (nat, FlowId))
    requires DistinctKeys(a) && x in a && y in a && x.0 == y.0
    ensures x == y
  {
    var i :| 0 <= i < |a| && a[i] == x;
    var j :| 0 <= j < |a| && a[j] == y;
    assert a[i].0 == a[j].0;
  }

  predicate Increasing(s: seq<(nat, FlowId)>) {
    forall i, j :: 0 <= i < j < |s| ==> s[i].0 < s[j].0
  }

  /** Sorted by distinct keys means strictly increasing. */
  lemma StrictlySorted(entries: seq<(nat, FlowId)>)
    requires DistinctKeys(entries)
    ensures Increasing(R.SortBySequence(entries))
    ensures forall e: (nat, FlowId) :: e in R.SortBySequence(entries) <==> e in entries
  {
    var s := R.SortBySequence(entries);
    R.SortSorts(entries);
    forall e: (nat, FlowId)
      ensures e in s <==> e in entries
    {
      MultisetSame(s, entries, e);
    }
    forall i, j | 0 <= i < j < |s|
      ensures s[i].0 < s[j].0
    {
      if s[i].0 == s[j].0 {
        SameKeySameEntry(entries, s[i], s[j]);
        CountTwice(s, i, j);
        DistinctCount(entries, s[i]);
      }
    }
  }

  predicate HasKey(s: seq<(nat, FlowId)>, k: nat) {
    exists i :: 0 <= i < |s| && s[i].0 == k
  }

  /** Strictly increasing keys that are exactly 0 to n - 1 are in their places. */
  lemma {:induction false} KeysInPlace(s: seq<(nat, FlowId)>, n: nat)
    requires Increasing(s)
    requires forall i :: 0 <= i < |s| ==> s[i].0 < n
    requires forall k: nat :: k < n ==> HasKey(s, k)
    ensures |s| == n && forall i :: 0 <= i < n ==> s[i].0 == i
  {
    assert s != [] ==> s[0].0 < n;
    if n == 0 {
    } else {
      var last := |s| - 1;
      assert HasKey(s, n - 1);
      var at :| 0 <= at < |s| && s[at].0 == n - 1;
      assert forall j :: 0 <= j < last ==> s[j].0 < s[last].0;
      assert at == last;
      forall k: nat | k < n - 1
        ensures HasKey(s[..last], k)
      {
        assert HasKey(s, k);
        var i :| 0 <= i < |s| && s[i].0 == k;
        assert s[..last][i].0 == k;
      }
      KeysInPlace(s[..last], n - 1);
    }
  }

  // ----- the refinement -----

  ghost predicate AllWritten(st: Addon, cs: seq<FlowId>) {
    forall k :: 0 <= k < |cs| ==> cs[k] in st.flows && st.flows[cs[k]].phase.Written?
  }

  /** The test's last start is complete and every request since then has its response on disk. */
  ghost predicate Settled(start: Addon, steps: seq<Step>, rid: Rid) {
    var st := Run(start, steps);
    RidOk(rid) && HashFromRid(rid) in st.tests && !PendingFor(st, rid) && AllWritten(st, Claims(start, steps, rid))
  }

  /** No file of the rid, where its test is registered, was left by a flow in flight across the last start. */
  ghost predicate NoneStale(start: Addon, steps: seq<Step>, rid: Rid)
    requires Settled(start, steps, rid)
  {
    forall slot: nat :: PathOf(Run(start, steps).tests[HashFromRid(rid)], rid, slot) !in Stale(start, steps)
  }

  /** No file of the rid was removed by the start of another test. */
  ghost predicate NoneLost(start: Addon, steps: seq<Step>, rid: Rid)
    requires Settled(start, steps, rid)
  {
    forall slot: nat :: Place(Run(start, steps).tests[HashFromRid(rid)], rid, slot) !in Lost(start, steps)
  }

  /** Every cassette of the rid lies in the folder its test is registered with. */
  predicate NoneOutside(st: Addon, rid: Rid)
    requires HashFromRid(rid) in st.tests
  {
    forall p :: p in st.files && st.files[p].rid == rid ==> p.0 == st.tests[HashFromRid(rid)]
  }

  lemma EntryIsFile(order: seq<Option<Path>>, files: map<Path, Cassette>, rid: Rid, e: (nat, FlowId))
    requires Lists(order, files)
    ensures e in R.EntriesOf(Listing(order, files), rid) <==> exists p :: p in files && files[p] == Cassette(rid, e.0, e.1)
  {
    var listing, c := Listing(order, files), Cassette(rid, e.0, e.1);
    EntryMembers(listing, rid, e);
    if R.Readable(c) in listing {
      var i :| 0 <= i < |listing| && listing[i] == R.Readable(c);
      assert files[order[i].value] == c;
    }
    if p :| p in files && files[p] == c {
      assert Some(p) in order;
      var i :| 0 <= i < |order| && order[i] == Some(p);
      assert listing[i] == R.Readable(c);
    }
  }

  /** The cassette of a slot whose file is neither stale nor lost. */
  lemma SlotFile(start: Addon, steps: seq<Step>, rid: Rid, slot: nat)
    requires Inv(start, steps) && Settled(start, steps, rid)
    ensures var st, cs := Run(start, steps), Claims(start, steps, rid);
            var p := PathOf(st.tests[HashFromRid(rid)], rid, slot);
            p !in Stale(start, steps) && Place(p.0, rid, slot) !in Lost(start, steps) ==>
              && (p in st.files <==> slot < |cs|)
              && (p in st.files ==> st.files[p] == Cassette(rid, slot, cs[slot]))
  {
    var st := Run(start, steps);
    var p := PathOf(st.tests[HashFromRid(rid)], rid, slot);
    assert CellInv(start, steps, rid, slot);
    if p in st.files {
      PathInjective(p.0, rid, slot, p.0, st.files[p].rid, st.files[p].sequence);
    }
  }

  lemma SoleFiles(st: Addon, rid: Rid, order: seq<Option<Path>>)
    requires Lists(order, st.files) && Placed(st.files) && HashFromRid(rid) in st.tests && NoneOutside(st, rid)
    ensures OneFilePerSlot(Listing(order, st.files), rid)
  {
    var listing := Listing(order, st.files);
    forall i: nat, j: nat | i < j && IsEntry(listing, rid, i) && IsEntry(listing, rid, j)
      ensures listing[i].cassette.sequence != listing[j].cassette.sequence
    {
      assert order[i].value.0 == order[j].value.0;
      assert order[i] != order[j];
    }
  }

  lemma CleanLoad(start: Addon, steps: seq<Step>, rid: Rid, order: seq<Option<Path>>)
    requires Inv(start, steps) && Settled(start, steps, rid) && Lists(order, Run(start, steps).files)
    requires NoneStale(start, steps, rid) && NoneLost(start, steps, rid) && NoneOutside(Run(start, steps), rid)
    ensures R.LoadedResponses(Listing(order, Run(start, steps).files), rid) == Claims(start, steps, rid)
  {
    var st, cs := Run(start, steps), Claims(start, steps, rid);
    var entries := R.EntriesOf(Listing(order, st.files), rid);
    forall e: (nat, FlowId)
      ensures e in entries <==> e.0 < |cs| && e.1 == cs[e.0]
    {
      EntryIsFile(order, st.files, rid, e);
      SlotFile(start, steps, rid, e.0);
      var p := PathOf(st.tests[HashFromRid(rid)], rid, e.0);
      if e in entries {
        var f :| f in st.files && st.files[f] == Cassette(rid, e.0, e.1);
        assert f == p;
      }
    }
    SoleFiles(st, rid, order);
    EntriesDistinct(Listing(order, st.files), rid);
    SortedAre(entries, cs);
  }

  /** Entries that are the numbered elements of a list sort to that list. */
  lemma SortedAre(entries: seq<(nat, FlowId)>, cs: seq<FlowId>)
    requires DistinctKeys(entries)
    requires forall e: (nat, FlowId) :: e in entries <==> e.0 < |cs| && e.1 == cs[e.0]
    ensures R.Responses(R.SortBySequence(entries)) == cs
  {
    StrictlySorted(entries);
    var s := R.SortBySequence(entries);
    forall k: nat | k < |cs|
      ensures HasKey(s, k)
    {
      assert (k, cs[k]) in entries;
      assert (k, cs[k]) in s;
    }
    forall i | 0 <= i < |s|
      ensures s[i].0 < |cs| && s[i].1 == cs[s[i].0]
    {
      assert s[i] in s;
      assert s[i] in entries;
    }
    KeysInPlace(s, |cs|);
  }

  /** A loaded file shows up among the loaded responses. */
  lemma FileIsLoaded(order: seq<Option<Path>>, files: map<Path, Cassette>, rid: Rid, p: Path)
    requires Lists(order, files) && p in files && files[p].rid == rid
    ensures files[p].flow in R.LoadedResponses(Listing(order, files), rid)
  {
    var e := (files[p].sequence, files[p].flow);
    var entries := R.EntriesOf(Listing(order, files), rid);
    EntryIsFile(order, files, rid, e);
    R.SortSorts(entries);
    var s := R.SortBySequence(entries);
    MultisetSame(s, entries, e);
    var i :| 0 <= i < |s| && s[i] == e;
    assert R.Responses(s)[i] == e.1;
  }

  lemma StaleLoad(start: Addon, steps: seq<Step>, rid: Rid, order: seq<Option<Path>>, slot: nat)
    requires Inv(start, steps) && Settled(start, steps, rid) && Lists(order, Run(start, steps).files)
    requires PathOf(Run(start, steps).tests[HashFromRid(rid)], rid, slot) in Stale(start, steps)
    ensures R.LoadedResponses(Listing(order, Run(start, steps).files), rid) != Claims(start, steps, rid)
  {
    var st := Run(start, steps);
    var p := PathOf(st.tests[HashFromRid(rid)], rid, slot);
    assert CellInv(start, steps, rid, slot);
    PathInjective(p.0, rid, slot, p.0, st.files[p].rid, st.files[p].sequence);
    FileIsLoaded(order, st.files, rid, p);
  }

  /** A response that is loaded comes from a file of the rid. */
  lemma LoadedIsFile(order: seq<Option<Path>>, files: map<Path, Cassette>, rid: Rid, f: FlowId)
    requires Lists(order, files) && f in R.LoadedResponses(Listing(order, files), rid)
    ensures exists p :: p in files && files[p].rid == rid && files[p].flow == f
  {
    var entries := R.EntriesOf(Listing(order, files), rid);
    var s := R.SortBySequence(entries);
    var i :| 0 <= i < |s| && R.Responses(s)[i] == f;
    R.SortSorts(entries);
    MultisetSame(s, entries, s[i]);
    EntryIsFile(order, files, rid, s[i]);
  }

  /** The file of a flow that claimed its slot since the last start lies where the test is registered. */
  lemma ClaimFile(start: Addon, steps: seq<Step>, rid: Rid, slot: nat, p: Path)
    requires Inv(start, steps) && Settled(start, steps, rid)
    requires slot < |Claims(start, steps, rid)| && p in Run(start, steps).files
    requires Run(start, steps).files[p].flow == Claims(start, steps, rid)[slot]
    ensures p == PathOf(Run(start, steps).tests[HashFromRid(rid)], rid, slot)
  {
    var st, cs := Run(start, steps), Claims(start, steps, rid);
    assert ClaimsOk(st, rid, cs) && ClaimFoldersOk(st, rid, cs);
    assert cs[slot] in st.flows;
  }

  lemma OutsideLoad(start: Addon, steps: seq<Step>, rid: Rid, order: seq<Option<Path>>, p: Path)
    requires Inv(start, steps) && Settled(start, steps, rid) && Lists(order, Run(start, steps).files)
    requires var st := Run(start, steps); p in st.files && st.files[p].rid == rid && p.0 != st.tests[HashFromRid(rid)]
    ensures R.LoadedResponses(Listing(order, Run(start, steps).files), rid) != Claims(start, steps, rid)
  {
    var st, cs := Run(start, steps), Claims(start, steps, rid);
    FileIsLoaded(order, st.files, rid, p);
    forall k | 0 <= k < |cs|
      ensures cs[k] != st.files[p].flow
    {
      if cs[k] == st.files[p].flow { ClaimFile(start, steps, rid, k, p); }
    }
  }

  lemma LostLoad(start: Addon, steps: seq<Step>, rid: Rid, order: seq<Option<Path>>, slot: nat)
    requires Inv(start, steps) && Settled(start, steps, rid) && Lists(order, Run(start, steps).files)
    requires Place(Run(start, steps).tests[HashFromRid(rid)], rid, slot) in Lost(start, steps)
    ensures R.LoadedResponses(Listing(order, Run(start, steps).files), rid) != Claims(start, steps, rid)
  {
    var st, cs := Run(start, steps), Claims(start, steps, rid);
    assert CellInv(start, steps, rid, slot);
    var f := cs[slot];
    assert f in cs;
    forall p | p in st.files
      ensures st.files[p].flow != f
    {
      if st.files[p].flow == f { ClaimFile(start, steps, rid, slot, p); }
    }
    if f in R.LoadedResponses(Listing(order, st.files), rid) {
      LoadedIsFile(order, st.files, rid, f);
    }
  }

  /** For every capture run and every order of listing the files: once a test's last start is complete and its
      requests have their responses on disk, a rid loads as its requests' responses in request order if and only
      if no file of it is left from before that start, none was removed by the start of another test, and none lies
      in another folder. */
  lemma LoadsInRequestOrderExact(files: map<Path, Cassette>, steps: seq<Step>, rid: Rid, order: seq<Option<Path>>)
    requires Placed(files) && Fresh(files, steps) && Settled(Boot(files), steps, rid)
    requires Lists(order, Run(Boot(files), steps).files)
    ensures R.LoadedResponses(Listing(order, Run(Boot(files), steps).files), rid) == Claims(Boot(files), steps, rid)
       <==> && NoneStale(Boot(files), steps, rid) && NoneLost(Boot(files), steps, rid)
            && NoneOutside(Run(Boot(files), steps), rid)
  {
    var start := Boot(files);
    var st := Run(start, steps);
    InvHolds(files, steps);
    if !NoneStale(start, steps, rid) {
      var slot: nat :| PathOf(st.tests[HashFromRid(rid)], rid, slot) in Stale(start, steps);
      StaleLoad(start, steps, rid, order, slot);
    } else if !NoneLost(start, steps, rid) {
      var slot: nat :| Place(st.tests[HashFromRid(rid)], rid, slot) in Lost(start, steps);
      LostLoad(start, steps, rid, order, slot);
    } else if !NoneOutside(st, rid) {
      var p :| p in st.files && st.files[p].rid == rid && p.0 != st.tests[HashFromRid(rid)];
      OutsideLoad(start, steps, rid, order, p);
    } else {
      CleanLoad(start, steps, rid, order);
    }
  }

  /** End to end: replay answers the k-th request of a rid since its last rewind with the response recorded for
      its k-th request since the last start, however responses, listings, rewinds and other rids interleave. */
  lemma ReplayRefinesCapture(files: map<Path, Cassette>, steps: seq<Step>, rid: Rid,
                             order: seq<Option<Path>>, cassettes: map<Rid, seq<FlowId>>, ops: seq<R.Op>)
    requires Placed(files) && Fresh(files, steps) && Settled(Boot(files), steps, rid)
    requires Lists(order, Run(Boot(files), steps).files)
    requires NoneStale(Boot(files), steps, rid) && NoneLost(Boot(files), steps, rid) && NoneOutside(Run(Boot(files), steps), rid)
    requires forall r :: R.CassettesOf(cassettes, r) == R.LoadedResponses(Listing(order, Run(Boot(files), steps).files), r)
    ensures var k, cs := R.RequestsSince(ops, rid), Claims(Boot(files), steps, rid);
            R.ServeAnswer(R.After(R.Store(cassettes, map[]), ops), rid) == if k < |cs| then Some(cs[k]) else None
  {
    LoadsInRequestOrderExact(files, steps, rid, order);
    R.KthRequestGetsKthCassette(cassettes, ops, rid);
  }

  // ----- the ways to fail -----

  /** A test started again, seen just after its registration. */
  lemma Restart(start: Addon, before: seq<Step>, rid: Rid, folder: Folder)
    requires RidOk(rid) && Run(start, before).pending.None?
    ensures var wipe := Wipe(HashFromRid(rid), folder);
            var st, steps := Run(start, before), before + [wipe] + [Register];
            && Settled(start, steps, rid) && Claims(start, steps, rid) == []
            && Run(start, steps).tests[HashFromRid(rid)] == folder
            && Run(start, steps).flows == st.flows && Run(start, steps).pending.None?
            && Run(start, steps).files == Do(st, wipe).files
  {
    var wipe := Wipe(HashFromRid(rid), folder);
    Extend(start, before, wipe, rid);
    Extend(start, before + [wipe], Register, rid);
  }

  /** A response that is written after its test was started again always leaves a stale file. */
  lemma LateWrite(start: Addon, before: seq<Step>, f: FlowId)
    requires var st := Run(start, before);
             f in st.flows && st.flows[f].phase.LookedUp? && RidOk(st.flows[f].rid) && st.pending.None?
    ensures var flow := Run(start, before).flows[f];
            var steps := before + [Wipe(HashFromRid(flow.rid), flow.phase.folder)] + [Register] + [Write(f)];
            && Settled(start, steps, flow.rid)
            && Claims(start, steps, flow.rid) == []
            && WrittenPath(flow) in Run(start, steps).files
            && !NoneStale(start, steps, flow.rid)
  {
    var flow := Run(start, before).flows[f];
    var again := before + [Wipe(HashFromRid(flow.rid), flow.phase.folder)] + [Register];
    Restart(start, before, flow.rid, flow.phase.folder);
    Extend(start, again, Write(f), flow.rid);
    StaleStep(start, again, Write(f), WrittenPath(flow));
    assert WrittenPath(flow) in Stale(start, again + [Write(f)]);
  }

  /** A test that is started again in another folder leaves its old cassettes where replay still reads them, unless
      that folder's name is a pattern that matches theirs. */
  lemma MovedTest(start: Addon, before: seq<Step>, p: Path, folder: Folder)
    requires var st := Run(start, before);
             && p in st.files && RidOk(st.files[p].rid) && st.pending.None? && p.0 != folder
             && !Wiped(p, HashFromRid(st.files[p].rid), folder)
    ensures var rid := Run(start, before).files[p].rid;
            var steps := before + [Wipe(HashFromRid(rid), folder)] + [Register];
            && Settled(start, steps, rid)
            && Claims(start, steps, rid) == []
            && !NoneOutside(Run(start, steps), rid)
  {
    var rid := Run(start, before).files[p].rid;
    Restart(start, before, rid, folder);
    assert p in Run(start, before + [Wipe(HashFromRid(rid), folder)] + [Register]).files;
  }

  lemma AwaitingWrite(rid: Rid, folder: Folder)
    requires RidOk(rid)
    ensures var steps := [Wipe(HashFromRid(rid), folder)] + [Register] + [Request(0, rid)] + [Lookup(0)];
            var st := Run(Boot(map[]), steps);
            st.flows == map[0 := Flow(rid, 0, LookedUp(folder))] && st.pending.None?
  {
    var h, boot := HashFromRid(rid), Boot(map[]);
    var s1 := [Wipe(h, folder)];
    var s2 := s1 + [Register];
    var s3 := s2 + [Request(0, rid)];
    Extend(boot, [], Wipe(h, folder), rid);
    assert [] + s1 == s1;
    Extend(boot, s1, Register, rid);
    assert Run(boot, s2).tests == map[h := folder] && Run(boot, s2).flows == map[];
    Extend(boot, s2, Request(0, rid), rid);
    Extend(boot, s3, Lookup(0), rid);
  }

  /** So replay can serve a response the run it replays never received: one request in flight across a restart. */
  lemma InFlightAcrossStart(rid: Rid, folder: Folder)
    requires RidOk(rid)
    ensures var start := Wipe(HashFromRid(rid), folder);
            var steps := [start] + [Register] + [Request(0, rid)] + [Lookup(0)] + [start] + [Register] + [Write(0)];
            && Settled(Boot(map[]), steps, rid)
            && Claims(Boot(map[]), steps, rid) == []
            && !NoneStale(Boot(map[]), steps, rid)
  {
    AwaitingWrite(rid, folder);
    LateWrite(Boot(map[]), [Wipe(HashFromRid(rid), folder)] + [Register] + [Request(0, rid)] + [Lookup(0)], 0);
  }

  /** And one recorded in a folder its test has left since: the collision the proxy warns about. */
  lemma RecordedInAnotherFolder(rid: Rid, folder: Folder, other: Folder)
    requires RidOk(rid) && folder != other && IsLiteral(other)
    ensures var first := [Wipe(HashFromRid(rid), folder)] + [Register] + [Request(0, rid)] + [Lookup(0)] + [Write(0)];
            var steps := first + [Wipe(HashFromRid(rid), other)] + [Register];
            && Settled(Boot(map[]), steps, rid)
            && Claims(Boot(map[]), steps, rid) == []
            && !NoneOutside(Run(Boot(map[]), steps), rid)
  {
    var waiting := [Wipe(HashFromRid(rid), folder)] + [Register] + [Request(0, rid)] + [Lookup(0)];
    AwaitingWrite(rid, folder);
    Extend(Boot(map[]), waiting, Write(0), rid);
    var p := PathOf(folder, rid, 0);
    assert Run(Boot(map[]), waiting + [Write(0)]).files[p] == Cassette(rid, 0, 0);
    HashOfRid(rid);
    RidIsLiteral(rid);
    WipeIsPerTest(rid[..8], other, folder, rid, 0);
    MovedTest(Boot(map[]), waiting + [Write(0)], p, other);
  }

  /** A start with another hash does nothing to the requests of a test. */
  lemma OtherStart(start: Addon, before: seq<Step>, rid: Rid, h: Hash, folder: Folder)
    requires Settled(start, before, rid) && Run(start, before).pending.None? && !OfTest(rid, h)
    ensures var steps := before + [Wipe(h, folder)] + [Register];
            && Settled(start, steps, rid) && Claims(start, steps, rid) == Claims(start, before, rid)
            && Run(start, steps).tests[HashFromRid(rid)] == Run(start, before).tests[HashFromRid(rid)]
  {
    Extend(start, before, Wipe(h, folder), rid);
    Extend(start, before + [Wipe(h, folder)], Register, rid);
  }

  /** A start that is not its own test's but whose pattern matches a file of the current run loses it. */
  lemma MatchingStart(start: Addon, before: seq<Step>, rid: Rid, slot: nat, h: Hash, folder: Folder)
    requires Settled(start, before, rid) && Inv(start, before) && Run(start, before).pending.None? && !OfTest(rid, h)
    requires slot < |Claims(start, before, rid)| && NoneStale(start, before, rid) && NoneLost(start, before, rid)
    requires Wiped(PathOf(Run(start, before).tests[HashFromRid(rid)], rid, slot), h, folder)
    ensures var steps := before + [Wipe(h, folder)] + [Register];
            && Settled(start, steps, rid) && Claims(start, steps, rid) == Claims(start, before, rid)
            && !NoneLost(start, steps, rid)
  {
    var st, wipe := Run(start, before), Wipe(h, folder);
    var x := Place(st.tests[HashFromRid(rid)], rid, slot);
    SlotFile(start, before, rid, slot);
    OtherStart(start, before, rid, h, folder);
    Extend(start, before, wipe, rid);
    PlacedStep(st, wipe);
    LostStep(start, before, wipe, x);
    LostStep(start, before + [wipe], Register, x);
    assert x in Lost(start, before + [wipe] + [Register]);
  }

  /** Such hashes: the rid itself, a star, and a question mark for each character of a hash. */
  lemma MatchingHashes(folder: Folder, rid: Rid, slot: nat)
    requires RidOk(rid) && IsLiteral(folder)
    ensures Wiped(PathOf(folder, rid, slot), rid, folder) && !OfTest(rid, rid)
    ensures Wiped(PathOf(folder, rid, slot), "*", folder) && !OfTest(rid, "*")
    ensures Wiped(PathOf(folder, rid, slot), "????????", folder) && !OfTest(rid, "????????")
  {
    HashOfRid(rid);
    RidIsLiteral(rid);
    WipeIsPerTest(rid, folder, folder, rid, slot);
    WipePattern("*", folder, rid, slot);
    WipePattern("????????", folder, rid, slot);
    StarHash(rid, slot);
    EightMarks(rid, slot);
    assert rid[..8][0] == rid[0] && IsHex(rid[0]);
  }

  lemma RidIsLiteral(rid: Rid)
    requires RidOk(rid)
    ensures IsLiteral(rid) && '/' !in rid
  {
    forall i | 0 <= i < |rid|
      ensures !IsMagic(rid[i]) && rid[i] != '/'
    {
      assert i < 8 || i == 8 || 9 <= i < 12;
    }
  }

  /** In a folder without wildcards only the name is left to match. */
  lemma WipePattern(h: Hash, folder: Folder, rid: Rid, slot: nat)
    requires IsLiteral(folder)
    ensures Wiped(PathOf(folder, rid, slot), h, folder) <==> Glob(h + ("-" + "*.json"), FileName(rid, slot))
  {
    var front, name := folder + "/", FileName(rid, slot);
    Assoc(front + h, "-", "*.json");
    Assoc(front, h, "-" + "*.json");
    GlobLiteral(front, h + ("-" + "*.json"), front + name);
    assert (front + name)[|front|..] == name;
  }

  lemma AfterHash(rid: Rid, slot: nat)
    requires RidOk(rid)
    ensures FileName(rid, slot) == rid[..8] + FileName(rid, slot)[8..]
    ensures Glob("-" + "*.json", FileName(rid, slot)[8..])
  {
    var name := FileName(rid, slot);
    NamePasses(rid[..8], rid, slot);
    assert name[8] == '-' && name[8..][1..] == name[9..];
    WipeMatches("-", name[8..]);
  }

  lemma StarHash(rid: Rid, slot: nat)
    requires RidOk(rid)
    ensures Glob("*" + ("-" + "*.json"), FileName(rid, slot))
  {
    var pattern := "*" + ("-" + "*.json");
    RidIsLiteral(rid);
    AfterHash(rid, slot);
    PrefixOfSum("*", "-" + "*.json");
    StarTakes(rid[..8], pattern, FileName(rid, slot)[8..]);
  }

  lemma MarkTakes(c: char, pattern: string, s: string)
    requires c != '/' && Glob(pattern, s)
    ensures Glob("?" + pattern, [c] + s)
  {
    PrefixOfSum("?", pattern);
    PrefixOfSum([c], s);
  }

  function Marks(n: nat): string {
    if n == 0 then "" else "?" + Marks(n - 1)
  }

  lemma FirstOfSum(w: string, s: string)
    requires w != ""
    ensures w + s == [w[0]] + (w[1..] + s)
  {
  }

  lemma {:induction false} MarksTake(w: string, pattern: string, s: string)
    requires '/' !in w && Glob(pattern, s)
    ensures Glob(Marks(|w|) + pattern, w + s)
  {
    if w == "" {
      assert Marks(0) + pattern == pattern && w + s == s;
    } else {
      MarksTake(w[1..], pattern, s);
      MarkTakes(w[0], Marks(|w| - 1) + pattern, w[1..] + s);
      Assoc("?", Marks(|w| - 1), pattern);
      FirstOfSum(w, s);
    }
  }

  lemma EightMarks(rid: Rid, slot: nat)
    requires RidOk(rid)
    ensures Glob("????????" + ("-" + "*.json"), FileName(rid, slot))
  {
    RidIsLiteral(rid);
    AfterHash(rid, slot);
    MarksTake(rid[..8], "-" + "*.json", FileName(rid, slot)[8..]);
    assert Marks(2) == "??" && Marks(4) == "????" && Marks(6) == "??????" && Marks(8) == "????????";
  }

  /** A start that gives a rid as its hash, or a star, or eight question marks, loses what a settled rid has recorded in
      that folder. */
  lemma StartedByPattern(start: Addon, before: seq<Step>, rid: Rid, slot: nat, h: Hash)
    requires Settled(start, before, rid) && Inv(start, before) && Run(start, before).pending.None?
    requires slot < |Claims(start, before, rid)| && NoneStale(start, before, rid) && NoneLost(start, before, rid)
    requires IsLiteral(Run(start, before).tests[HashFromRid(rid)]) && h in [rid, "*", "????????"]
    ensures var steps := before + [Wipe(h, Run(start, before).tests[HashFromRid(rid)])] + [Register];
            && Settled(start, steps, rid) && Claims(start, steps, rid) == Claims(start, before, rid)
            && !NoneLost(start, steps, rid)
  {
    var folder := Run(start, before).tests[HashFromRid(rid)];
    MatchingHashes(folder, rid, slot);
    MatchingStart(start, before, rid, slot, h, folder);
  }

  /** A folder whose name is a pattern: its test's own start leaves its files and removes those of another folder. */
  lemma PatternFolder(rid: Rid, slot: nat)
    requires RidOk(rid)
    ensures !Wiped(PathOf("[a]", rid, slot), HashFromRid(rid), "[a]")
    ensures Wiped(PathOf("a", rid, slot), HashFromRid(rid), "[a]")
  {
    var h := HashFromRid(rid);
    HashOfRid(rid);
    WipeIsPerTestHash(h, rid, slot);
    BracketPattern("/" + h + "-" + "*.json", "/" + FileName(rid, slot));
    Assoc("[a]", "/", h);
    Assoc("[a]", "/" + h, "-");
    Assoc("[a]", "/" + h + "-", "*.json");
    Assoc("[a]", "/", FileName(rid, slot));
    Assoc("a", "/", FileName(rid, slot));
  }

  lemma WipeIsPerTestHash(h: Hash, rid: Rid, slot: nat)
    requires RidOk(rid) && h == rid[..8]
    ensures Glob("/" + h + "-" + "*.json", "/" + FileName(rid, slot))
  {
    var name, front := FileName(rid, slot), "/" + h + "-";
    RidIsLiteral(rid);
    NamePasses(h, rid, slot);
    WipeMatches(front, "/" + name);
    assert "/" + name == front + name[|h| + 1..];
  }

  lemma BracketPattern(pattern: string, s: string)
    requires pattern != "" && pattern[0] == '/' && s != "" && Glob(pattern, s)
    ensures Glob("[a]" + pattern, "a" + s) && !Glob("[a]" + pattern, "[a]" + s)
  {
    var p := "[a]" + pattern;
    var t := p[1..];
    assert p[0] == '[' && t == "a]" + pattern && t[0] == 'a' && t[1] == ']';
    assert FindClose(t, 1) == Some(1);
    assert FindClose(t, 0) == Some(1) && ClassLength(t) == Some(1);
    assert p[1..2] == "a" && p[3..] == pattern;
    assert ("a" + s)[1..] == s && ("[a]" + s)[0] == '[';
  }
}
