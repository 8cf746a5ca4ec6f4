/** Linearizability of the list to a set, and the structure that every step keeps. */
module LockFreeListTheorems {
  import opened Common
  import opened Runs
  import opened LockFreeList
  import opened LockFreeListHeap
  import Inv = LockFreeListInvariant

  // ---------------------------------------------------------------- calls and their intervals

  /** Step i of the run is made by thread t and begins the call of op, which is still running after the run. */
  ghost predicate CallBegan(n: nat, sched: seq<Action>, t: nat, op: Op, i: nat) {
    && i < |sched| && sched[i].tid == t && sched[i].op == op
    && t < |After(Step, Init(n), sched[..i]).thr| && After(Step, Init(n), sched[..i]).thr[t].pc == Idle
    && forall j :: i < j <= |sched| ==> t < |After(Step, Init(n), sched[..j]).thr| && After(Step, Init(n), sched[..j]).thr[t].pc != Idle
  }

  /** The history has the heaps of the run. */
  lemma {:induction false} HistoryHasHeaps(n: nat, sched: seq<Action>)
    ensures var s := After(Step, Init(n), sched);
      && |s.past| == |sched|
      && forall m :: 0 <= m <= |sched| ==> Inv.History(s)[m] == After(Step, Init(n), sched[..m]).heap
  {
    assert sched[..|sched|] == sched;
    if sched != [] {
      var last := |sched| - 1;
      HistoryHasHeaps(n, sched[..last]);
      forall m | 0 <= m <= last ensures sched[..m] == sched[..last][..m] {}
      HistoryStep(After(Step, Init(n), sched[..last]), sched[last]);
    }
  }

  lemma HistoryStep(s: State, a: Action)
    ensures Inv.History(Step(s, a)) == Inv.History(s) + [Step(s, a).heap]
  {}

  /** The history variables say what they should. */
  lemma {:induction false} HistoryIsTheRun(n: nat, sched: seq<Action>)
    ensures var s := After(Step, Init(n), sched);
      && |s.past| == |sched|
      && (forall m :: 0 <= m <= |sched| ==> Inv.History(s)[m] == After(Step, Init(n), sched[..m]).heap)
      && (forall t :: 0 <= t < |s.thr| && s.thr[t].pc != Idle ==> CallBegan(n, sched, t, s.thr[t].op, s.thr[t].began))
      && (forall t :: 0 <= t < |s.thr| && s.thr[t].pc != Idle && s.thr[t].effect.Some? ==>
            s.thr[t].effect.value < |sched| && sched[s.thr[t].effect.value].tid == t)
  {
    var s := After(Step, Init(n), sched);
    HistoryHasHeaps(n, sched);
    if sched != [] {
      var before := sched[..|sched| - 1];
      HistoryIsTheRun(n, before);
      forall t | 0 <= t < |s.thr| && s.thr[t].pc != Idle
        ensures CallBegan(n, sched, t, s.thr[t].op, s.thr[t].began)
        ensures s.thr[t].effect.Some? ==> s.thr[t].effect.value < |sched| && sched[s.thr[t].effect.value].tid == t
      {
        CallContinues(n, sched, t);
      }
    }
  }

  lemma CallContinues(n: nat, sched: seq<Action>, t: nat)
    requires sched != []
    requires var before := sched[..|sched| - 1];
      var r := After(Step, Init(n), before);
      && |r.past| == |before|
      && (t < |r.thr| && r.thr[t].pc != Idle ==> CallBegan(n, before, t, r.thr[t].op, r.thr[t].began))
      && (t < |r.thr| && r.thr[t].pc != Idle && r.thr[t].effect.Some? ==>
            r.thr[t].effect.value < |before| && before[r.thr[t].effect.value].tid == t)
    requires var s := After(Step, Init(n), sched); t < |s.thr| && s.thr[t].pc != Idle
    ensures var s := After(Step, Init(n), sched);
      && CallBegan(n, sched, t, s.thr[t].op, s.thr[t].began)
      && (s.thr[t].effect.Some? ==> s.thr[t].effect.value < |sched| && sched[s.thr[t].effect.value].tid == t)
  {
    var last := |sched| - 1;
    var before, a := sched[..last], sched[last];
    var r, s := After(Step, Init(n), before), After(Step, Init(n), sched);
    assert sched[..|sched|] == sched;
    assert s == Step(r, a);
    forall m | 0 <= m <= last ensures sched[..m] == before[..m] {}
    assert before[..last] == before;
    var i := s.thr[t].began;
    OwnMove(r, a, t);
    forall j | i < j <= |sched|
      ensures t < |After(Step, Init(n), sched[..j]).thr| && After(Step, Init(n), sched[..j]).thr[t].pc != Idle
    {
      if j < |sched| {
        assert sched[..j] == before[..j];
      }
    }
  }

  /** What a step does to the bookkeeping of a call. */
  lemma OwnMove(r: State, a: Action, t: nat)
    requires t < |r.thr| && Step(r, a).thr[t].pc != Idle
    ensures var th, th' := r.thr[t], Step(r, a).thr[t];
      if th.pc == Idle then a.tid == t && th'.op == a.op && th'.began == |r.past| && th'.effect == None
      else th'.op == th.op && th'.began == th.began && (th'.effect == th.effect || (a.tid == t && th'.effect == Some(|r.past|)))
  {}

  // ---------------------------------------------------------------- linearizability

  /** The set in the m-th state of the run. */
  ghost function SetAt(n: nat, sched: seq<Action>, m: nat): set<int>
    requires m <= |sched|
  {
    Keys(After(Step, Init(n), sched[..m]).heap)
  }

  /** A call of op by thread t with result ok, running since step i, takes effect at moment m of the run: an update
      changes the set in the thread's own m-th step, and any other result is what op finds in the m-th state. */
  ghost predicate TakesEffectAt(n: nat, sched: seq<Action>, t: nat, op: Op, ok: bool, i: nat, m: nat) {
    && i <= m <= |sched|
    && match op
       case Search(k) => ok == (k in SetAt(n, sched, m))
       case Insert(k) =>
         if ok then m < |sched| && sched[m].tid == t && k !in SetAt(n, sched, m) && SetAt(n, sched, m + 1) == SetAt(n, sched, m) + {k}
         else k in SetAt(n, sched, m)
       case Delete(k) =>
         if ok then m < |sched| && sched[m].tid == t && k in SetAt(n, sched, m) && SetAt(n, sched, m + 1) == SetAt(n, sched, m) - {k}
         else k !in SetAt(n, sched, m)
  }

  /** Every call that returns has a moment between its beginning and its return at which it takes effect. */
  lemma Linearizable(n: nat, sched: seq<Action>, t: nat)
    requires var s := After(Step, Init(n), sched); t < |s.thr| && s.thr[t].pc.Returned?
    ensures var th := After(Step, Init(n), sched).thr[t];
      && CallBegan(n, sched, t, th.op, th.began)
      && exists m :: TakesEffectAt(n, sched, t, th.op, th.pc.ok, th.began, m)
  {
    var s := After(Step, Init(n), sched);
    var hist := Inv.History(s);
    Inv.ReachableInv(n, sched);
    HistoryIsTheRun(n, sched);
    var th := s.thr[t];
    assert Inv.ThreadOk(hist, th);
    if th.effect.Some? {
      assert TakesEffectAt(n, sched, t, th.op, th.pc.ok, th.began, th.effect.value);
    } else {
      var m :| th.began <= m < |hist| && (th.op.k in Keys(hist[m])) == (th.pc.ok != th.op.Insert?);
      assert TakesEffectAt(n, sched, t, th.op, th.pc.ok, th.began, m);
    }
  }

  /** The set changes only in the step of a successful insert CAS or mark CAS, by the key of that call; it never changes
      at an unlinking, an allocation or a read. */
  lemma SetChangesOnlyAtUpdates(n: nat, sched: seq<Action>, a: Action)
    ensures var s := After(Step, Init(n), sched);
      var s' := Step(s, a);
      Keys(s'.heap) != Keys(s.heap) ==>
        && a.tid < |s.thr| && s'.thr[a.tid].effect == Some(|sched|)
        && ((s.thr[a.tid].pc.InsertCas? && Keys(s'.heap) == Keys(s.heap) + {s.thr[a.tid].op.k})
            || (s.thr[a.tid].pc.DeleteCas? && Keys(s'.heap) == Keys(s.heap) - {s.thr[a.tid].op.k}))
  {
    var s := After(Step, Init(n), sched);
    Inv.ReachableInv(n, sched);
    HistoryHasHeaps(n, sched);
    KeysStep(s, a);
  }

  lemma KeysStep(s: State, a: Action)
    requires Inv.Inv(s)
    ensures var s' := Step(s, a);
      Keys(s'.heap) != Keys(s.heap) ==>
        && a.tid < |s.thr| && s'.thr[a.tid].effect == Some(|s.past|)
        && ((s.thr[a.tid].pc.InsertCas? && Keys(s'.heap) == Keys(s.heap) + {s.thr[a.tid].op.k})
            || (s.thr[a.tid].pc.DeleteCas? && Keys(s'.heap) == Keys(s.heap) - {s.thr[a.tid].op.k}))
  {
    if a.tid < |s.thr| { OnlyUpdatesChangeKeys(Inv.History(s), s.thr[a.tid], a); }
  }

  lemma OnlyUpdatesChangeKeys(hist: seq<Heap>, th: Thread, a: Action)
    requires Inv.Ready(hist, th)
    ensures var h := Inv.Now(hist);
      var (h', th') := ThreadStep(h, |hist| - 1, th, a);
      Keys(h') == Keys(h)
      || (th.pc.InsertCas? && th'.effect == Some(|hist| - 1) && Keys(h') == Keys(h) + {th.op.k})
      || (th.pc.DeleteCas? && th'.effect == Some(|hist| - 1) && Keys(h') == Keys(h) - {th.op.k})
  {
    var h := Inv.Now(hist);
    match th.pc
    case Unlink =>
      if Read(h, th.prev) == Link(th.cur, false) { UnlinkWrites(h, th.prev, th.cur.value, th.op.k); }
    case Found(yes) =>
      if th.op.Insert? && !yes && !th.cleanup { AllocateWrites(h, th.op.k, th.cur); }
    case InsertCas =>
      if Read(h, th.prev) == Link(th.cur, false) { InsertWrites(h, th.prev, th.cur, th.node, th.op.k); }
    case DeleteCas =>
      if h.next[th.cur.value] == th.next { MarkWrites(h, th.cur.value); }
    case _ =>
  }

  // ---------------------------------------------------------------- structure

  /** In every reachable state keys strictly increase along every pointer, what is reachable from head is what the chain
      lists, and every connected unmarked node is reachable. */
  lemma ListStructure(n: nat, sched: seq<Action>)
    ensures var h := After(Step, Init(n), sched).heap;
      && |h.key| == |h.next| && Chain(h.next, h.head, h.list)
      && (forall x :: 0 <= x < |h.next| && h.next[x].to.Some? ==> h.next[x].to.value < |h.key| && h.key[x] < h.key[h.next[x].to.value])
      && (forall x :: x in h.linked ==> x < |h.next| && (!h.next[x].marked ==> x in h.list))
      && (forall i, j :: 0 <= i < j < |h.list| ==> h.list[i] != h.list[j])
  {
    var s := After(Step, Init(n), sched);
    Inv.ReachableInv(n, sched);
    assert HeapOk(Inv.Now(Inv.History(s)));
    ListDistinct(s.heap);
  }

  /** A marked node never changes its successor again, and no node changes its key. */
  lemma MarkedNodesAreFrozen(n: nat, sched: seq<Action>, a: Action, x: Node)
    requires x < |After(Step, Init(n), sched).heap.next|
    ensures var s := After(Step, Init(n), sched);
      var h, h' := s.heap, Step(s, a).heap;
      && x < |h.key| && x < |h'.key| && x < |h'.next| && h'.key[x] == h.key[x]
      && (h.next[x].marked ==> h'.next[x] == h.next[x])
  {
    var s := After(Step, Init(n), sched);
    Inv.ReachableInv(n, sched);
    var hist := Inv.History(s);
    assert HeapOk(Inv.Now(hist));
    if a.tid < |s.thr| { Inv.ThreadKeeps(hist, s.thr[a.tid], a); }
  }

  /** The node that this step unlinks. */
  function Unlinks(s: State, a: Action): Option<Node> {
    if a.tid < |s.thr| && s.thr[a.tid].pc.Unlink? && Read(s.heap, s.thr[a.tid].prev) == Link(s.thr[a.tid].cur, false) then
      s.thr[a.tid].cur
    else None
  }

  ghost predicate IsGone(h: Heap, x: Node) {
    x in h.linked && x !in h.list
  }

  lemma GoneForGood(s: State, a: Action)
    requires Inv.Inv(s)
    ensures forall x: Node :: IsGone(s.heap, x) ==> IsGone(Step(s, a).heap, x) && Unlinks(s, a) != Some(x)
    ensures Unlinks(s, a).Some? ==> IsGone(Step(s, a).heap, Unlinks(s, a).value)
  {
    var h, hist := s.heap, Inv.History(s);
    assert Inv.Now(hist) == h && HeapOk(h);
    if a.tid < |s.thr| {
      var th := s.thr[a.tid];
      assert Inv.ThreadOk(hist, th);
      if Unlinks(s, a).Some? { UnlinkWrites(h, th.prev, th.cur.value, th.op.k); RemoveShrinks(h.list, th.cur.value); }
      if th.pc.InsertCas? { InsertGrows(h.list, th.prev, th.node); }
    }
  }

  lemma {:induction false} RemoveShrinks(list: seq<Node>, n: Node)
    ensures forall x :: x in Remove(list, n) ==> x in list
  {
    if list != [] { RemoveShrinks(list[1..], n); }
  }

  lemma {:induction false} InsertGrows(list: seq<Node>, p: Place, n: Node)
    ensures forall x :: x in InsertAfter(list, p, n) ==> x in list || x == n
    decreases |list|
  {
    if p.NextOf? && list != [] { InsertGrows(list[1..], p, n); }
  }

  lemma {:induction false} StaysGone(n: nat, sched: seq<Action>, i: nat, j: nat, x: Node)
    requires i <= j <= |sched| && IsGone(After(Step, Init(n), sched[..i]).heap, x)
    ensures IsGone(After(Step, Init(n), sched[..j]).heap, x)
    decreases j
  {
    if i < j {
      StaysGone(n, sched, i, j - 1, x);
      Inv.ReachableInv(n, sched[..j - 1]);
      AfterSnoc(Step, Init(n), sched, j - 1);
      GoneForGood(After(Step, Init(n), sched[..j - 1]), sched[j - 1]);
    }
  }

  /** Over any run each node is unlinked by at most one successful CAS. */
  lemma UnlinkedOnce(n: nat, sched: seq<Action>, i: nat, j: nat)
    requires i < j < |sched| && Unlinks(After(Step, Init(n), sched[..i]), sched[i]).Some?
    ensures Unlinks(After(Step, Init(n), sched[..i]), sched[i]) != Unlinks(After(Step, Init(n), sched[..j]), sched[j])
  {
    var x := Unlinks(After(Step, Init(n), sched[..i]), sched[i]).value;
    Inv.ReachableInv(n, sched[..i]);
    Inv.ReachableInv(n, sched[..j]);
    GoneForGood(After(Step, Init(n), sched[..i]), sched[i]);
    AfterSnoc(Step, Init(n), sched, i);
    StaysGone(n, sched, i + 1, j, x);
    GoneForGood(After(Step, Init(n), sched[..j]), sched[j]);
  }
}
