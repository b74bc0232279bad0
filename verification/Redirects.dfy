/** The redirect proxy: reserved request ids are injected into redirect calls, and redirect bodies are numbered
    per test. One step per locked region. */
module Redirects {
  import opened Text
  import opened Decimal

  type Hash = string

  datatype Reservation = Reservation(rid: string, testHash: Hash)

  datatype Proxy = Proxy(reserved: map<string, Reservation>, counts: map<Hash, nat>)

  datatype Step =
    | Reserve(rid: string, testHash: Hash, paymentId: string)
    | Inject(paymentId: string)
    | Save(testHash: Hash, hasBody: bool)
    | Start(testHash: Hash)

  const BOOT := Proxy(map[], map[])

  /** A reservation with a part missing is refused. */
  predicate Accepted(step: Step) {
    step.Reserve? && step.rid != "" && step.testHash != "" && step.paymentId != ""
  }

  function CountOf(st: Proxy, h: Hash): nat {
    if h in st.counts then st.counts[h] else 0
  }

  function Do(st: Proxy, step: Step): Proxy {
    match step
    case Reserve(rid, h, pid) => if Accepted(step) then st.(reserved := st.reserved[pid := Reservation(rid, h)]) else st
    case Inject(pid) => st.(reserved := st.reserved - {pid})
    case Save(h, hasBody) => if hasBody then st.(counts := st.counts[h := CountOf(st, h) + 1]) else st
    case Start(h) => st.(counts := st.counts - {h})
  }

  function Run(steps: seq<Step>): Proxy {
    if steps == [] then BOOT else Do(Run(steps[..|steps| - 1]), steps[|steps| - 1])
  }

  /** What the injection at position j finds. */
  function Injected(steps: seq<Step>, j: nat): Option<Reservation>
    requires j < |steps| && steps[j].Inject?
  {
    var st, pid := Run(steps[..j]), steps[j].paymentId;
    if pid in st.reserved then Some(st.reserved[pid]) else None
  }

  class RedirectProxy {
    var reserved: map<string, Reservation>
    var counts: map<Hash, nat>

    function Snapshot(): Proxy
      reads this
    {
      Proxy(reserved, counts)
    }

    constructor ()
      ensures Snapshot() == BOOT
    {
      reserved, counts := map[], map[];
    }

    method HandleReserve(rid: string, testHash: Hash, paymentId: string) returns (ok: bool)
      modifies this`reserved
      ensures Snapshot() == Do(old(Snapshot()), Reserve(rid, testHash, paymentId))
      ensures ok <==> rid != "" && testHash != "" && paymentId != ""
      ensures ok ==> Snapshot() == old(Snapshot()).(reserved := old(reserved)[paymentId := Reservation(rid, testHash)])
      ensures !ok ==> Snapshot() == old(Snapshot())
    {
      if rid != "" && testHash != "" && paymentId != "" {
        reserved := reserved[paymentId := Reservation(rid, testHash)];
        return true;
      }
      return false;
    }

    /** Pops the reservation of the payment. */
    method InjectRid(paymentId: string) returns (entry: Option<Reservation>)
      modifies this`reserved
      ensures Snapshot() == Do(old(Snapshot()), Inject(paymentId))
      ensures entry == if paymentId in old(reserved) then Some(old(reserved)[paymentId]) else None
    {
      entry := if paymentId in reserved then Some(reserved[paymentId]) else None;
      reserved := reserved - {paymentId};
    }

    /** Numbers a redirect body; a call without a body is not saved. */
    method SaveRedirect(testHash: Hash, hasBody: bool) returns (filename: Option<string>)
      modifies this`counts
      ensures Snapshot() == Do(old(Snapshot()), Save(testHash, hasBody))
      ensures filename == if hasBody then Some(BodyName(testHash, CountOf(old(Snapshot()), testHash) + 1)) else None
    {
      if !hasBody { return None; }
      counts := counts[testHash := (if testHash in counts then counts[testHash] else 0) + 1];
      return Some(BodyName(testHash, counts[testHash]));
    }

    method HandleTestStart(testHash: Hash)
      modifies this`counts
      ensures Snapshot() == Do(old(Snapshot()), Start(testHash))
    {
      counts := counts - {testHash};
    }
  }

  function BodyName(h: Hash, n: nat): string {
    h + "-" + Padded(n, 3) + "-redirect-body.json"
  }

  // ----- reservations -----

  /** Step i is the latest accepted reservation for the payment before j, not yet taken. */
  predicate Outstanding(steps: seq<Step>, i: nat, j: nat, pid: string) {
    && i < j <= |steps|
    && Accepted(steps[i]) && steps[i].paymentId == pid
    && forall k :: i < k < j ==> !(Accepted(steps[k]) && steps[k].paymentId == pid) && steps[k] != Inject(pid)
  }

  /** The table holds a reservation exactly when one is outstanding, and then that one. */
  lemma {:induction false} ReservedIsOutstanding(steps: seq<Step>, pid: string)
    ensures pid in Run(steps).reserved <==> exists i: nat :: Outstanding(steps, i, |steps|, pid)
    ensures forall i: nat :: Outstanding(steps, i, |steps|, pid) ==>
              pid in Run(steps).reserved && Run(steps).reserved[pid] == Reservation(steps[i].rid, steps[i].testHash)
  {
    if steps == [] {
    } else {
      var n := |steps| - 1;
      var before, last := steps[..n], steps[n];
      ReservedIsOutstanding(before, pid);
      if Accepted(last) && last.paymentId == pid {
        assert Outstanding(steps, n, |steps|, pid);
        assert forall i: nat :: Outstanding(steps, i, |steps|, pid) ==> i == n;
      } else if last == Inject(pid) {
        assert forall i: nat :: i < n ==> !Outstanding(steps, i, |steps|, pid);
      } else {
        assert forall i: nat :: Outstanding(steps, i, |steps|, pid) <==> Outstanding(before, i, |before|, pid);
      }
    }
  }

  /** In every interleaving, a redirect call receives a reservation exactly when one is outstanding for its
      payment, and it is the latest one made. */
  lemma InjectionIsLatest(steps: seq<Step>, j: nat)
    requires j < |steps| && steps[j].Inject?
    ensures var pid := steps[j].paymentId;
            && (Injected(steps, j).Some? <==> exists i: nat :: Outstanding(steps, i, j, pid))
            && forall i: nat :: Outstanding(steps, i, j, pid) ==> Injected(steps, j) == Some(Reservation(steps[i].rid, steps[i].testHash))
  {
    var pid := steps[j].paymentId;
    ReservedIsOutstanding(steps[..j], pid);
    assert forall i: nat :: Outstanding(steps, i, j, pid) <==> Outstanding(steps[..j], i, j, pid);
  }

  /** No reservation reaches two redirect calls: what a later call of a payment receives was reserved after the
      earlier one. */
  lemma InjectedOnce(steps: seq<Step>, j: nat, j': nat)
    requires j < j' < |steps| && steps[j].Inject? && steps[j'] == steps[j] && Injected(steps, j').Some?
    ensures exists i: nat :: j < i < j' && Accepted(steps[i]) && steps[i].paymentId == steps[j].paymentId
              && Injected(steps, j') == Some(Reservation(steps[i].rid, steps[i].testHash))
  {
    var pid := steps[j].paymentId;
    InjectionIsLatest(steps, j');
    var i: nat :| Outstanding(steps, i, j', pid);
    assert steps[j] == Inject(pid) && i >= j;
  }

  // ----- body numbers -----

  /** The numbers handed out for a test since its last start. */
  function NumbersSince(steps: seq<Step>, h: Hash): seq<nat> {
    if steps == [] then []
    else
      var before, last := steps[..|steps| - 1], steps[|steps| - 1];
      match last
      case Start(g) => if g == h then [] else NumbersSince(before, h)
      case Save(g, true) => if g == h then NumbersSince(before, h) + [CountOf(Do(Run(before), last), h)] else NumbersSince(before, h)
      case _ => NumbersSince(before, h)
  }

  /** In every interleaving the numbers since the last start are 1, 2, .. without a gap. */
  lemma {:induction false} NumbersWithoutGaps(steps: seq<Step>, h: Hash)
    ensures |NumbersSince(steps, h)| == CountOf(Run(steps), h)
    ensures forall k :: 0 <= k < |NumbersSince(steps, h)| ==> NumbersSince(steps, h)[k] == k + 1
  {
    if steps == [] {
    } else {
      NumbersWithoutGaps(steps[..|steps| - 1], h);
    }
  }

  /** Hash, dash and at least three digits, then the ending. */
  lemma BodyNameIs(h: Hash, n: nat)
    ensures BodyName(h, n) == h + ("-" + ((if n < 10 then "00" else if n < 100 then "0" else "") + NatText(n)) + "-redirect-body.json")
  {
    ThreeDigits(n);
    var body := "-" + Padded(n, 3);
    Assoc(h, "-", Padded(n, 3));
    Assoc(h, body, "-redirect-body.json");
  }

  lemma ThreeDigits(n: nat)
    ensures Padded(n, 3) == (if n < 10 then "00" else if n < 100 then "0" else "") + NatText(n)
  {
    NatTextRoundTrip(n);
    if n >= 10 {
      NatTextRoundTrip(n / 10);
    }
    if n >= 100 {
      NatTextRoundTrip(n / 100);
    }
    assert Zeros(1) == "0" && Zeros(2) == "0" + Zeros(1);
  }

  /** The last dash of a text is where it looks to be. */
  lemma LastDash(h: string, d: string, h': string, d': string)
    requires '-' !in d && '-' !in d' && h + "-" + d == h' + "-" + d'
    ensures h == h' && d == d'
  {
    var s := h + "-" + d;
    NoDashBehind(h, d);
    NoDashBehind(h', d');
    assert s[|h|] == '-' && s[|h'|] == '-';
    assert |h| == |h'|;
    assert h == s[..|h|] && h' == s[..|h|] && d == s[|h| + 1..] && d' == s[|h| + 1..];
  }

  lemma NoDashBehind(h: string, d: string)
    requires '-' !in d
    ensures forall k :: |h| < k < |h| + 1 + |d| ==> (h + "-" + d)[k] != '-'
  {
    forall k | |h| < k < |h| + 1 + |d|
      ensures (h + "-" + d)[k] != '-'
    {
      assert (h + "-" + d)[k] == d[k - |h| - 1];
    }
  }

  lemma DropEnd(a: string, b: string, end: string)
    requires a + end == b + end
    ensures a == b
  {
    assert |a| == |b|;
    assert a == (a + end)[..|a|] && b == (b + end)[..|a|];
  }

  /** A file name tells its test and its number, whatever the hashes are. */
  lemma BodyNamesDiffer(h: Hash, m: nat, h': Hash, n: nat)
    requires BodyName(h, m) == BodyName(h', n)
    ensures h == h' && m == n
  {
    PaddedRoundTrip(m, 3);
    PaddedRoundTrip(n, 3);
    DropEnd(h + "-" + Padded(m, 3), h' + "-" + Padded(n, 3), "-redirect-body.json");
    LastDash(h, Padded(m, 3), h', Padded(n, 3));
    PaddedInjective(m, n, 3);
  }

  // ----- saved files -----

  /** The name that the save at position i writes to. */
  function SavedName(steps: seq<Step>, i: nat): string
    requires i < |steps| && steps[i].Save?
  {
    BodyName(steps[i].testHash, CountOf(Run(steps[..i]), steps[i].testHash) + 1)
  }

  predicate Saves(steps: seq<Step>, i: nat) {
    i < |steps| && steps[i].Save? && steps[i].hasBody
  }

  /** The test starts strictly between the two positions. */
  predicate StartsBetween(steps: seq<Step>, i: nat, j: nat, h: Hash) {
    exists k :: i < k < j <= |steps| && steps[k] == Start(h)
  }

  /** Bodies of the test saved before j and since its last start before j. */
  function SavedSince(steps: seq<Step>, j: nat, h: Hash): nat
    requires j <= |steps|
  {
    if j == 0 then 0
    else if steps[j - 1] == Start(h) then 0
    else SavedSince(steps, j - 1, h) + (if steps[j - 1] == Save(h, true) then 1 else 0)
  }

  lemma {:induction false} CountIsSavedSince(steps: seq<Step>, j: nat, h: Hash)
    requires j <= |steps|
    ensures CountOf(Run(steps[..j]), h) == SavedSince(steps, j, h)
  {
    if j == 0 {
      assert steps[..0] == [];
    } else {
      CountIsSavedSince(steps, j - 1, h);
      assert steps[..j][..j - 1] == steps[..j - 1] && steps[..j][j - 1] == steps[j - 1];
    }
  }

  lemma {:induction false} SavedGrows(steps: seq<Step>, i: nat, j: nat, h: Hash)
    requires Saves(steps, i) && steps[i].testHash == h && i < j <= |steps| && !StartsBetween(steps, i, j, h)
    ensures SavedSince(steps, j, h) > SavedSince(steps, i, h)
  {
    if j == i + 1 {
      assert steps[i] == Save(h, true);
    } else {
      assert !StartsBetween(steps, i, j - 1, h);
      SavedGrows(steps, i, j - 1, h);
      assert steps[j - 1] != Start(h);
    }
  }

  /** In every run, two saved bodies go to one file exactly when they are of one test and as many bodies of it were
      saved before each since its last start; and then the test was started between them. */
  lemma SharedNameExact(steps: seq<Step>, i: nat, j: nat)
    requires i < j && Saves(steps, i) && Saves(steps, j)
    ensures var h := steps[i].testHash;
            SavedName(steps, i) == SavedName(steps, j)
            <==> steps[j].testHash == h && SavedSince(steps, i, h) == SavedSince(steps, j, h)
    ensures SavedName(steps, i) == SavedName(steps, j)
            ==> steps[j].testHash == steps[i].testHash && StartsBetween(steps, i, j, steps[i].testHash)
  {
    var h, g := steps[i].testHash, steps[j].testHash;
    CountIsSavedSince(steps, i, h);
    CountIsSavedSince(steps, j, g);
    if SavedName(steps, i) == SavedName(steps, j) {
      BodyNamesDiffer(h, SavedSince(steps, i, h) + 1, g, SavedSince(steps, j, g) + 1);
      if !StartsBetween(steps, i, j, h) {
        SavedGrows(steps, i, j, h);
      }
    }
  }
}
