/** What the versioned pool guarantees over whole runs of any number of threads. */
module AoaPoolTheorems {
  import opened Common
  import opened Runs
  import opened AoaPool
  import Inv = AoaPoolInvariant

  /** The object that this step returns from palloc, with the version the caller believes in. */
  function HandsOut(s: State, a: Action): Option<(nat, Slot)> {
    if a.tid < |s.thr| && KnowsEntries(s.mem, s.thr[a.tid]) && s.thr[a.tid].pc.Palloc? && s.thr[a.tid].cache.Some?
       && s.mem.items[s.thr[a.tid].cache.value] != [] then
      var items := s.mem.items[s.thr[a.tid].cache.value];
      Some((s.thr[a.tid].localVer, items[|items| - 1]))
    else None
  }

  ghost predicate IsOut(m: Shared, k: (nat, Slot)) {
    k in m.place && m.place[k] == HandedOut
  }

  /** What has been handed out is never handed out again at that version. */
  lemma HandedOutForGood(s: State, a: Action)
    requires Inv.Inv(s)
    ensures forall k :: IsOut(s.mem, k) ==> IsOut(Step(s, a).mem, k) && HandsOut(s, a) != Some(k)
    ensures HandsOut(s, a).Some? ==> IsOut(Step(s, a).mem, HandsOut(s, a).value)
  {
    if a.tid < |s.thr| {
      assert Inv.Fits(s.mem, a.tid, s.thr[a.tid]);
      Inv.ThreadKeeps(s.mem, a.tid, s.thr[a.tid], a.flag);
    }
  }

  lemma {:induction false} OutStaysOut(n: nat, chunks: nat, sched: seq<Action>, i: nat, j: nat, k: (nat, Slot))
    requires i <= j <= |sched| && IsOut(After(Step, Init(n, chunks), sched[..i]).mem, k)
    ensures IsOut(After(Step, Init(n, chunks), sched[..j]).mem, k)
    decreases j
  {
    if i < j {
      OutStaysOut(n, chunks, sched, i, j - 1, k);
      Inv.ReachableInv(n, chunks, sched[..j - 1]);
      AfterSnoc(Step, Init(n, chunks), sched, j - 1);
      HandedOutForGood(After(Step, Init(n, chunks), sched[..j - 1]), sched[j - 1]);
    }
  }

  /** Over any run, palloc never returns the same object twice at one version, to whichever threads. */
  lemma HandedOutOnce(n: nat, chunks: nat, sched: seq<Action>, i: nat, j: nat)
    requires i < j < |sched|
    requires HandsOut(After(Step, Init(n, chunks), sched[..i]), sched[i]).Some?
    ensures HandsOut(After(Step, Init(n, chunks), sched[..i]), sched[i]) !=
            HandsOut(After(Step, Init(n, chunks), sched[..j]), sched[j])
  {
    var s, r := After(Step, Init(n, chunks), sched[..i]), After(Step, Init(n, chunks), sched[..j]);
    var k := HandsOut(s, sched[i]).value;
    Inv.ReachableInv(n, chunks, sched[..i]);
    Inv.ReachableInv(n, chunks, sched[..j]);
    HandedOutForGood(s, sched[i]);
    AfterSnoc(Step, Init(n, chunks), sched, i);
    OutStaysOut(n, chunks, sched, i + 1, j, k);
    HandedOutForGood(r, sched[j]);
  }

  /** When the double-word CAS of pop succeeds, the successor it installs is the one that the popped entry has at that
      moment, whatever happened since the head was read; the pool then is the old pool without its top entry. */
  lemma PopInstallsTrueSuccessor(n: nat, chunks: nat, sched: seq<Action>, a: Action)
    requires var s := After(Step, Init(n, chunks), sched);
      a.tid < |s.thr| && s.thr[a.tid].pc.PopCas? && Step(s, a).thr[a.tid].cache.Some?
    ensures var s := After(Step, Init(n, chunks), sched);
      var e := s.thr[a.tid].pc.e;
      && s.mem.head == Some(e) && e < |s.mem.link| && Step(s, a).mem.head == s.mem.link[e]
      && s.mem.list != [] && s.mem.list[0] == e && Step(s, a).mem.list == s.mem.list[1..]
      && Inv.Chain(s.mem.link, Step(s, a).mem.head, s.mem.list[1..])
  {
    var s := After(Step, Init(n, chunks), sched);
    Inv.ReachableInv(n, chunks, sched);
    assert Inv.Fits(s.mem, a.tid, s.thr[a.tid]);
    if s.mem.list != [] {
      assert s.mem.list[0] in s.mem.list;
    }
  }

  // ---------------------------------------------------------------- pages and caches

  /** The page that this step claims, with its version. */
  function Claims(s: State, a: Action): Option<(nat, nat)> {
    if a.tid < |s.thr| && KnowsEntries(s.mem, s.thr[a.tid]) && s.thr[a.tid].pc.ClaimCas? && s.mem.sc == s.thr[a.tid].pc.oldSc then
      Some((s.thr[a.tid].localVer, s.mem.sc.counter))
    else None
  }

  /** The cache that this step pushes, with its version. */
  function Pushes(s: State, a: Action): Option<(nat, Entry)> {
    if a.tid < |s.thr| && KnowsEntries(s.mem, s.thr[a.tid]) && s.thr[a.tid].pc.PushCas? && s.thr[a.tid].cache.Some?
       && s.mem.head == s.thr[a.tid].pc.h && s.mem.ver == s.thr[a.tid].localVer then
      Some((s.mem.ver, s.thr[a.tid].cache.value))
    else None
  }

  /** The sweep counter and the push versions only move forward. */
  lemma {:induction false} DoneStaysDone(
    n: nat, chunks: nat, sched: seq<Action>, i: nat, j: nat, claim: (nat, nat), push: (nat, Entry))
    requires i <= j <= |sched|
    ensures var s, r := After(Step, Init(n, chunks), sched[..i]).mem, After(Step, Init(n, chunks), sched[..j]).mem;
      && (Inv.IsClaimed(s, claim.0, claim.1) ==> Inv.IsClaimed(r, claim.0, claim.1))
      && (push.1 < |s.pushVer| && push.0 <= s.pushVer[push.1] ==> push.1 < |r.pushVer| && push.0 <= r.pushVer[push.1])
    decreases j
  {
    if i < j {
      DoneStaysDone(n, chunks, sched, i, j - 1, claim, push);
      var s := After(Step, Init(n, chunks), sched[..j - 1]);
      Inv.ReachableInv(n, chunks, sched[..j - 1]);
      AfterSnoc(Step, Init(n, chunks), sched, j - 1);
      var a := sched[j - 1];
      if a.tid < |s.thr| { Inv.ThreadKeeps(s.mem, a.tid, s.thr[a.tid], a.flag); }
    }
  }

  /** A claim is of a page not yet claimed, and a push of an entry not yet pushed at that version. */
  lemma DoneByNow(s: State, a: Action)
    requires Inv.Inv(s)
    ensures Claims(s, a).Some? ==>
      var c := Claims(s, a).value; !Inv.IsClaimed(s.mem, c.0, c.1) && Inv.IsClaimed(Step(s, a).mem, c.0, c.1)
    ensures Pushes(s, a).Some? ==>
      var p := Pushes(s, a).value;
      && p.1 < |s.mem.pushVer| && s.mem.pushVer[p.1] < p.0
      && p.1 < |Step(s, a).mem.pushVer| && p.0 <= Step(s, a).mem.pushVer[p.1]
  {
    if a.tid < |s.thr| { assert Inv.Fits(s.mem, a.tid, s.thr[a.tid]); }
  }

  /** Over any run, each sweep page is claimed at most once per version. */
  lemma PageClaimedOnce(n: nat, chunks: nat, sched: seq<Action>, i: nat, j: nat)
    requires i < j < |sched|
    requires Claims(After(Step, Init(n, chunks), sched[..i]), sched[i]).Some?
    ensures Claims(After(Step, Init(n, chunks), sched[..i]), sched[i]) !=
            Claims(After(Step, Init(n, chunks), sched[..j]), sched[j])
  {
    var s, r := After(Step, Init(n, chunks), sched[..i]), After(Step, Init(n, chunks), sched[..j]);
    Inv.ReachableInv(n, chunks, sched[..i]);
    Inv.ReachableInv(n, chunks, sched[..j]);
    AfterSnoc(Step, Init(n, chunks), sched, i);
    DoneByNow(s, sched[i]);
    DoneStaysDone(n, chunks, sched, i + 1, j, Claims(s, sched[i]).value, (0, 0));
    DoneByNow(r, sched[j]);
  }

  /** Over any run, each cache entry is pushed at most once per version. */
  lemma CachePushedOnce(n: nat, chunks: nat, sched: seq<Action>, i: nat, j: nat)
    requires i < j < |sched|
    requires Pushes(After(Step, Init(n, chunks), sched[..i]), sched[i]).Some?
    ensures Pushes(After(Step, Init(n, chunks), sched[..i]), sched[i]) !=
            Pushes(After(Step, Init(n, chunks), sched[..j]), sched[j])
  {
    var s, r := After(Step, Init(n, chunks), sched[..i]), After(Step, Init(n, chunks), sched[..j]);
    Inv.ReachableInv(n, chunks, sched[..i]);
    Inv.ReachableInv(n, chunks, sched[..j]);
    AfterSnoc(Step, Init(n, chunks), sched, i);
    DoneByNow(s, sched[i]);
    DoneStaysDone(n, chunks, sched, i + 1, j, (0, 0), Pushes(s, sched[i]).value);
    DoneByNow(r, sched[j]);
  }
}
