/** What every thread knows of the list at every point of find, ListInsert and ListDelete. */
module LockFreeListInvariant {
  import opened Common
  import opened Runs
  import opened LockFreeList
  import opened LockFreeListHeap

  /** The heaps of all states of the run up to now. */
  function History(s: State): (hist: seq<Heap>)
    ensures |hist| == |s.past| + 1
  {
    s.past + [s.heap]
  }

  function Now(hist: seq<Heap>): Heap
    requires hist != []
  {
    hist[|hist| - 1]
  }

  /** From the beginning of its call on, the thread has been in a state in which k was, or was not, in the set. */
  ghost predicate Saw(hist: seq<Heap>, began: nat, k: int, present: bool) {
    exists m :: began <= m < |hist| && (k in Keys(hist[m])) == present
  }

  /** Since its call began, connected node c has had link x. */
  ghost predicate SawLink(hist: seq<Heap>, began: nat, c: Node, x: Link) {
    exists m :: began <= m < |hist| && c in hist[m].linked && c < |hist[m].next| && hist[m].next[c] == x
  }

  /** The step from state m makes the update of op. */
  ghost predicate Updates(hist: seq<Heap>, m: nat, op: Op) {
    && m + 1 < |hist|
    && match op
       case Insert(k) => k !in Keys(hist[m]) && Keys(hist[m + 1]) == Keys(hist[m]) + {k}
       case Delete(k) => k in Keys(hist[m]) && Keys(hist[m + 1]) == Keys(hist[m]) - {k}
       case Search(_) => false
  }

  /** h is an earlier heap: nodes keep their keys and stay connected. */
  ghost predicate Earlier(h: Heap, h': Heap) {
    && |h.key| <= |h'.key| && h.linked <= h'.linked
    && forall n :: 0 <= n < |h.key| ==> h'.key[n] == h.key[n]
  }

  ghost predicate HistoryOk(hist: seq<Heap>) {
    && hist != []
    && forall m :: 0 <= m < |hist| ==> HeapOk(hist[m]) && Earlier(hist[m], Now(hist))
  }

  /** fres after find has stopped at a node that may hold the key. */
  ghost predicate AtNode(h: Heap, th: Thread) {
    PlaceOk(h, th.prev, th.op.k) && th.cur.Some? && th.cur.value in h.linked && th.cur.value < |h.key|
  }

  /** fres after find has failed: the key belongs between prev and cur. */
  ghost predicate AtGap(h: Heap, th: Thread) {
    && PlaceOk(h, th.prev, th.op.k)
    && (th.cur.Some? ==> th.cur.value in h.linked && th.cur.value < |h.key| && th.op.k < h.key[th.cur.value])
  }

  ghost predicate AtKey(h: Heap, th: Thread) {
    th.cur.Some? && th.cur.value in h.linked && th.cur.value < |h.key| && h.key[th.cur.value] == th.op.k && !th.next.marked
  }

  ghost predicate OwnsNode(h: Heap, th: Thread) {
    && th.node !in h.linked && th.node < |h.key| == |h.next|
    && h.key[th.node] == th.op.k && h.next[th.node] == Link(th.cur, false)
  }

  ghost predicate PcOk(hist: seq<Heap>, th: Thread)
    requires hist != []
  {
    var h := Now(hist);
    match th.pc
    case Idle => true
    case ReadHead => true
    case Loop =>
      && PlaceOk(h, th.prev, th.op.k) && (th.cur.Some? ==> AtNode(h, th))
      && (th.cur.None? ==> Saw(hist, th.began, th.op.k, false))
    case ReadNext => AtNode(h, th)
    case Unlink => AtNode(h, th) && th.next.marked && th.cur.value < |h.next| && h.next[th.cur.value] == th.next
    case Validate => AtNode(h, th) && !th.next.marked && SawLink(hist, th.began, th.cur.value, th.next)
    case Found(yes) =>
      Saw(hist, th.began, th.op.k, yes) && if yes then AtKey(h, th) else AtGap(h, th)
    case InsertCas => AtGap(h, th) && OwnsNode(h, th) && th.op.Insert? && !th.cleanup
    case DeleteCas => AtKey(h, th) && th.op.Delete? && !th.cleanup
    case Returned(ok) => !th.cleanup && th.effect.None? ==> Saw(hist, th.began, th.op.k, ok != th.op.Insert?) && (ok ==> th.op.Search?)
  }

  /** A call that has made its update has made it since it began, and says so. */
  ghost predicate EffectOk(hist: seq<Heap>, th: Thread) {
    && (th.effect.Some? ==>
          th.began <= th.effect.value && Updates(hist, th.effect.value, th.op) && (th.cleanup || th.pc == Returned(true)))
    && (th.cleanup ==> th.effect.Some? && th.op.Delete? && th.pc != Returned(false))
  }

  ghost predicate ThreadOk(hist: seq<Heap>, th: Thread)
    requires hist != []
  {
    th.pc != Idle ==> th.began < |hist| && PcOk(hist, th) && EffectOk(hist, th)
  }

  /** Two threads about to connect a node have different nodes. */
  ghost predicate Apart(a: Thread, b: Thread) {
    a.pc.InsertCas? && b.pc.InsertCas? ==> a.node != b.node
  }

  ghost predicate Inv(s: State) {
    && HistoryOk(History(s))
    && (forall t :: 0 <= t < |s.thr| ==> ThreadOk(History(s), s.thr[t]))
    && (forall t, u :: 0 <= t < u < |s.thr| ==> Apart(s.thr[t], s.thr[u]))
  }

  // ---------------------------------------------------------------- what a step may change

  /** What a step may do to the heap; n is the node it connects, if any. */
  ghost predicate Moves(h: Heap, h': Heap, th: Thread) {
    && Earlier(h, h') && |h.next| <= |h'.next|
    && (forall n :: 0 <= n < |h.next| && h.next[n].marked ==> h'.next[n] == h.next[n])
    && (forall n :: 0 <= n < |h.next| && n !in h.linked ==> h'.next[n] == h.next[n])
    && (forall n :: n in h'.linked && n !in h.linked ==> th.pc.InsertCas? && n == th.node)
  }

  lemma WitnessStays(hist: seq<Heap>, h': Heap, th: Thread)
    requires hist != []
    ensures forall present :: Saw(hist, th.began, th.op.k, present) ==> Saw(hist + [h'], th.began, th.op.k, present)
    ensures forall c, x :: SawLink(hist, th.began, c, x) ==> SawLink(hist + [h'], th.began, c, x)
    ensures EffectOk(hist, th) ==> EffectOk(hist + [h'], th)
  {
    var hist' := hist + [h'];
    assert forall m :: 0 <= m < |hist| ==> hist'[m] == hist[m];
  }

  lemma OthersStayOk(hist: seq<Heap>, h': Heap, th: Thread, other: Thread)
    requires HistoryOk(hist) && HeapOk(h') && Moves(Now(hist), h', th) && ThreadOk(hist, other) && Apart(th, other)
    ensures ThreadOk(hist + [h'], other)
  {
    WitnessStays(hist, h', other);
    assert Now(hist + [h']) == h';
  }

  ghost predicate Keeps(hist: seq<Heap>, th: Thread, r: (Heap, Thread))
    requires hist != []
  {
    HeapOk(r.0) && Moves(Now(hist), r.0, th) && ThreadOk(hist + [r.0], r.1)
  }

  ghost predicate Ready(hist: seq<Heap>, th: Thread) {
    HistoryOk(hist) && ThreadOk(hist, th)
  }

  lemma StartKeeps(hist: seq<Heap>, th: Thread, a: Action)
    requires Ready(hist, th) && (th.pc.Idle? || th.pc.Returned?)
    ensures Keeps(hist, th, ThreadStep(Now(hist), |hist| - 1, th, a))
  {
    WitnessStays(hist, Now(hist), th);
  }

  lemma WalkKeeps(hist: seq<Heap>, th: Thread, a: Action)
    requires Ready(hist, th) && (th.pc.ReadHead? || th.pc.Loop? || th.pc.ReadNext?)
    ensures Keeps(hist, th, ThreadStep(Now(hist), |hist| - 1, th, a))
  {
    var h := Now(hist);
    WitnessStays(hist, h, th);
    if th.pc.ReadHead? && h.head.None? {
      Absent(h, Head, None, th.op.k);
      assert (hist + [h])[|hist|] == h;
    }
    if th.pc.ReadNext? {
      assert (hist + [h])[|hist|] == h;
    }
  }

  lemma UnlinkMoves(hist: seq<Heap>, th: Thread, a: Action)
    requires Ready(hist, th) && th.pc.Unlink? && Read(Now(hist), th.prev) == Link(th.cur, false)
    ensures var h' := ThreadStep(Now(hist), |hist| - 1, th, a).0;
      HeapOk(h') && Moves(Now(hist), h', th) && (th.next.to.None? ==> th.op.k !in Keys(h'))
  {
    var h := Now(hist);
    UnlinkWrites(h, th.prev, th.cur.value, th.op.k);
    if th.next.to.None? { Absent(ThreadStep(h, |hist| - 1, th, a).0, th.prev, None, th.op.k); }
  }

  lemma UnlinkKeeps(hist: seq<Heap>, th: Thread, a: Action)
    requires Ready(hist, th) && th.pc.Unlink?
    ensures Keeps(hist, th, ThreadStep(Now(hist), |hist| - 1, th, a))
  {
    var h := Now(hist);
    var h' := ThreadStep(h, |hist| - 1, th, a).0;
    WitnessStays(hist, h', th);
    if Read(h, th.prev) == Link(th.cur, false) {
      UnlinkMoves(hist, th, a);
      assert (hist + [h'])[|hist|] == h';
    }
  }

  /** The node that find stopped at was in the set when its link was read. */
  lemma LinkSeenMeansPresent(hist: seq<Heap>, began: nat, c: Node, x: Link, k: int)
    requires HistoryOk(hist) && SawLink(hist, began, c, x) && !x.marked
    ensures c < |Now(hist).key| && Saw(hist, began, Now(hist).key[c], true)
    ensures x.to.Some? ==> x.to.value in Now(hist).linked && x.to.value < |Now(hist).key|
    ensures x.to.None? && Now(hist).key[c] < k ==> Saw(hist, began, k, false)
  {
    var m :| began <= m < |hist| && c in hist[m].linked && c < |hist[m].next| && hist[m].next[c] == x;
    Present(hist[m], c);
    if x.to.None? && Now(hist).key[c] < k { Absent(hist[m], NextOf(c), None, k); }
  }

  lemma AdvanceKeeps(hist: seq<Heap>, th: Thread)
    requires Ready(hist, th) && th.pc.Validate? && Now(hist).key[th.cur.value] < th.op.k
    ensures ThreadOk(hist, th.(prev := NextOf(th.cur.value), cur := th.next.to, pc := Loop))
  {
    LinkSeenMeansPresent(hist, th.began, th.cur.value, th.next, th.op.k);
  }

  lemma StopKeeps(hist: seq<Heap>, th: Thread)
    requires Ready(hist, th) && th.pc.Validate? && th.op.k <= Now(hist).key[th.cur.value]
    requires Read(Now(hist), th.prev) == Link(th.cur, false)
    ensures ThreadOk(hist, th.(pc := Found(Now(hist).key[th.cur.value] == th.op.k)))
  {
    LinkSeenMeansPresent(hist, th.began, th.cur.value, th.next, th.op.k);
    if th.op.k < Now(hist).key[th.cur.value] { Absent(Now(hist), th.prev, th.cur, th.op.k); }
  }

  /** A step that changes the moving thread only. */
  lemma LocalKeeps(hist: seq<Heap>, th: Thread, th': Thread)
    requires Ready(hist, th) && ThreadOk(hist, th')
    ensures Keeps(hist, th, (Now(hist), th'))
  {
    WitnessStays(hist, Now(hist), th');
  }

  lemma ValidateKeeps(hist: seq<Heap>, th: Thread, a: Action)
    requires Ready(hist, th) && th.pc.Validate?
    ensures Keeps(hist, th, ThreadStep(Now(hist), |hist| - 1, th, a))
  {
    var h := Now(hist);
    if Read(h, th.prev) != Link(th.cur, false) {
    } else if th.op.k <= h.key[th.cur.value] {
      StopKeeps(hist, th);
    } else {
      AdvanceKeeps(hist, th);
    }
    LocalKeeps(hist, th, ThreadStep(h, |hist| - 1, th, a).1);
  }

  lemma AllocateKeeps(hist: seq<Heap>, th: Thread, a: Action)
    requires Ready(hist, th) && th.pc.Found? && th.op.Insert? && !th.pc.yes && !th.cleanup
    ensures Keeps(hist, th, ThreadStep(Now(hist), |hist| - 1, th, a))
  {
    var h := Now(hist);
    WitnessStays(hist, ThreadStep(h, |hist| - 1, th, a).0, th);
    AllocateWrites(h, th.op.k, th.cur);
  }

  lemma FoundKeeps(hist: seq<Heap>, th: Thread, a: Action)
    requires Ready(hist, th) && th.pc.Found?
    ensures Keeps(hist, th, ThreadStep(Now(hist), |hist| - 1, th, a))
  {
    if th.op.Insert? && !th.pc.yes && !th.cleanup {
      AllocateKeeps(hist, th, a);
    } else {
      LocalKeeps(hist, th, ThreadStep(Now(hist), |hist| - 1, th, a).1);
    }
  }

  lemma InsertMoves(hist: seq<Heap>, th: Thread, a: Action)
    requires Ready(hist, th) && th.pc.InsertCas? && Read(Now(hist), th.prev) == Link(th.cur, false)
    ensures var h' := ThreadStep(Now(hist), |hist| - 1, th, a).0;
      HeapOk(h') && Moves(Now(hist), h', th) && Updates(hist + [h'], |hist| - 1, th.op)
  {
    var h := Now(hist);
    var h' := ThreadStep(h, |hist| - 1, th, a).0;
    InsertWrites(h, th.prev, th.cur, th.node, th.op.k);
    assert (hist + [h'])[|hist|] == h' && (hist + [h'])[|hist| - 1] == h;
  }

  lemma InsertCasKeeps(hist: seq<Heap>, th: Thread, a: Action)
    requires Ready(hist, th) && th.pc.InsertCas?
    ensures Keeps(hist, th, ThreadStep(Now(hist), |hist| - 1, th, a))
  {
    var h := Now(hist);
    var h' := ThreadStep(h, |hist| - 1, th, a).0;
    WitnessStays(hist, h', th);
    if Read(h, th.prev) == Link(th.cur, false) {
      InsertMoves(hist, th, a);
    }
  }

  lemma DeleteCasKeeps(hist: seq<Heap>, th: Thread, a: Action)
    requires Ready(hist, th) && th.pc.DeleteCas?
    ensures Keeps(hist, th, ThreadStep(Now(hist), |hist| - 1, th, a))
  {
    var h := Now(hist);
    var h' := ThreadStep(h, |hist| - 1, th, a).0;
    WitnessStays(hist, h', th);
    if h.next[th.cur.value] == th.next {
      MarkWrites(h, th.cur.value);
      assert (hist + [h'])[|hist|] == h' && (hist + [h'])[|hist| - 1] == h;
    }
  }

  lemma ThreadKeeps(hist: seq<Heap>, th: Thread, a: Action)
    requires Ready(hist, th)
    ensures Keeps(hist, th, ThreadStep(Now(hist), |hist| - 1, th, a))
  {
    match th.pc
    case Idle | Returned(_) => StartKeeps(hist, th, a);
    case ReadHead | Loop | ReadNext => WalkKeeps(hist, th, a);
    case Unlink => UnlinkKeeps(hist, th, a);
    case Validate => ValidateKeeps(hist, th, a);
    case Found(_) => FoundKeeps(hist, th, a);
    case InsertCas => InsertCasKeeps(hist, th, a);
    case DeleteCas => DeleteCasKeeps(hist, th, a);
  }

  lemma StaysApart(hist: seq<Heap>, th: Thread, a: Action, other: Thread)
    requires Ready(hist, th) && ThreadOk(hist, other) && Apart(th, other)
    ensures Apart(ThreadStep(Now(hist), |hist| - 1, th, a).1, other)
  {}

  lemma StepKeeps(s: State, a: Action)
    requires Inv(s)
    ensures Inv(Step(s, a))
  {
    var hist, s' := History(s), Step(s, a);
    assert Now(hist) == s.heap && History(s') == hist + [s'.heap];
    if a.tid < |s.thr| {
      var th := s.thr[a.tid];
      ThreadKeeps(hist, th, a);
      forall t | 0 <= t < |s.thr| ensures ThreadOk(History(s'), s'.thr[t]) {
        if t != a.tid { OthersStayOk(hist, s'.heap, th, s.thr[t]); }
      }
      forall t, u | 0 <= t < u < |s.thr| ensures Apart(s'.thr[t], s'.thr[u]) {
        if t == a.tid { StaysApart(hist, th, a, s.thr[u]); }
        if u == a.tid { StaysApart(hist, th, a, s.thr[t]); }
      }
    } else {
      forall t | 0 <= t < |s.thr| ensures ThreadOk(History(s'), s.thr[t]) {
        OthersStayOk(hist, s.heap, Thread(Search(0), Idle, Head, None, Link(None, false), 0, false, 0, None), s.thr[t]);
      }
    }
  }

  lemma ReachableInv(n: nat, sched: seq<Action>)
    ensures Inv(After(Step, Init(n), sched))
  {
    InitInv(n);
    forall r: State, a | Inv(r) ensures Inv(Step(r, a)) { StepKeeps(r, a); }
    InvariantHolds(Step, r => Inv(r), Init(n), sched);
  }

  lemma InitInv(n: nat)
    ensures Inv(Init(n))
  {}
}
