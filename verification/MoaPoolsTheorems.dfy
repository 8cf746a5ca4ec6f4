/** What the pools of the manual allocator guarantee, for any number of threads and every schedule of their steps. */
module MoaPoolsTheorems {
  import opened Common
  import opened Runs
  import opened MoaPools
  import opened MoaPoolsInvariant
  import opened MoaPoolsSteps
  import opened MoaPoolsReclaim
  import opened MoaPoolsRecycle

  // ---------------------------------------------------------------- the invariant is kept

  lemma LoopGood(m: Shared, t: nat, th: Thread)
    requires Pre(m, t, th) && th.pc.Loop?
    ensures Good(m, t, LoopStep(m, t, th, th.pc.l))
  {
    match th.pc.l
    case Collect(_) => CollectGood(m, t, th);
    case PopRead => PopReadGood(m, t, th);
    case PopNext(_) => PopNextGood(m, t, th);
    case PopCas(_, _) => PopGood(m, t, th);
    case PopClear(_, _) => ClearGood(m, t, th);
    case Enter(_) => EnterGood(m, t, th);
    case AssertionFailed =>
  }

  lemma StepGood(m: Shared, t: nat, th: Thread, a: Action)
    requires Pre(m, t, th) && Ticked(m)
    ensures Good(m, t, ThreadStep(m, t, th, a))
  {
    match th.pc
    case Idle => IdleGood(m, t, th, a);
    case Pool(pc) =>
      match pc {
        case AllocTest => AllocTestGood(m, t, th);
        case PopPool => PopPoolGood(m, t, th);
        case ReturnTest => ReturnTestGood(m, t, th);
      }
    case Free(pc) =>
      match pc {
        case FreeTest => FreeTestGood(m, t, th);
        case FreeRead => FreeReadGood(m, t, th);
        case FreeCas(_) => FreeCasGood(m, t, th);
      }
    case Reclaim(_) => ReclaimGood(m, t, th);
    case Loop(_) => LoopGood(m, t, th);
    case Work(pc) => if pc == Scan { ScanGood(m, t, th, a); } else { PushGood(m, t, th, a); }
  }

  lemma StepKeeps(s: State, a: Action)
    requires Inv(s)
    ensures Inv(Step(s, a))
    ensures a.tid < |s.thr| ==> Moves(Tick(s.mem), Step(s, a).mem, a.tid)
  {
    if a.tid < |s.thr| {
      var m := Tick(s.mem);
      TickMem(s.mem);
      TickKeeps(s.mem, a.tid, s.thr[a.tid]);
      StepGood(m, a.tid, s.thr[a.tid], a);
      var m' := Step(s, a).mem;
      forall u | 0 <= u < |s.thr| && u != a.tid ensures ThreadOk(m', u, s.thr[u]) {
        TickKeeps(s.mem, u, s.thr[u]);
        OtherKeeps(m, m', a.tid, u, s.thr[u]);
      }
      RangeKept(m, m', a.tid, |s.thr|);
    }
  }

  lemma RangeKept(m: Shared, m': Shared, t: nat, threads: nat)
    requires Moves(m, m', t) && InRange(m, threads) && t < threads
    ensures InRange(m', threads)
  {
    forall e | 0 <= e < |m'.owner| && OwnerThread(m'.owner[e]).Some? ensures OwnerThread(m'.owner[e]).value < threads {
      if OtherOwner(m'.owner[e], t) { assert m.owner[e] == m'.owner[e]; }
    }
    forall n | 0 <= n < |m'.place| && PlaceThread(m'.place[n]).Some? ensures PlaceThread(m'.place[n]).value < threads {
      if OtherPlace(m'.place[n], t) { assert m.place[n] == m'.place[n]; }
    }
  }

  lemma InitItems(caches: nat)
    ensures AllItems(Init(0, caches).mem.ent, Init(0, caches).mem.place)
  {
    var m := Init(0, caches).mem;
    forall e | 0 <= e < caches ensures ItemsOk(m.ent[e].items, m.place, e) {
      forall n: Node ensures n in m.ent[e].items <==> At(m.place, n, InEntry(e)) {
        if At(m.place, n, InEntry(e)) { assert m.ent[e].items[n % ENTRIES_PER_CACHE] == n; }
      }
    }
  }

  lemma InitMem(threads: nat, caches: nat)
    ensures MemOk(Init(threads, caches).mem)
  {
    var m := Init(threads, caches).mem;
    InitItems(caches);
    assert m.ent == Init(0, caches).mem.ent && m.place == Init(0, caches).mem.place;
    assert Chain(m.ent, m.pool, m.pooled);
    forall e: Id ensures e in m.pooled <==> Has(m.owner, e, Pooled) {
      if e < caches { assert m.pooled[e] == e; }
    }
  }

  lemma InitThread(threads: nat, caches: nat, t: nat)
    requires t < threads
    ensures ThreadOk(Init(threads, caches).mem, t, Init(threads, caches).thr[t])
  {
    var m, th := Init(threads, caches).mem, Init(threads, caches).thr[t];
    assert forall e: Id, o: Owner :: OwnerThread(o).Some? ==> !Has(m.owner, e, o);
    assert forall n: Node, p: Place :: PlaceThread(p).Some? ==> !At(m.place, n, p);
    assert StackOk(m.place, t, th.stack);
    assert RolesOk(m.owner, t, th);
  }

  lemma InitInv(threads: nat, caches: nat)
    ensures Inv(Init(threads, caches))
  {
    InitMem(threads, caches);
    forall t | 0 <= t < threads ensures ThreadOk(Init(threads, caches).mem, t, Init(threads, caches).thr[t]) {
      InitThread(threads, caches, t);
    }
  }

  ghost function Reached(threads: nat, caches: nat, sched: seq<Action>): State {
    After(Step, Init(threads, caches), sched)
  }

  lemma ReachableInv(threads: nat, caches: nat, sched: seq<Action>)
    ensures Inv(Reached(threads, caches, sched))
  {
    InitInv(threads, caches);
    forall s, a | Inv(s) ensures Inv(Step(s, a)) { StepKeeps(s, a); }
    InvariantHolds(Step, Inv, Init(threads, caches), sched);
  }

  lemma {:induction false} Counts(threads: nat, caches: nat, sched: seq<Action>)
    ensures var s := Reached(threads, caches, sched);
            |s.thr| == threads && |s.mem.place| == caches * ENTRIES_PER_CACHE && |s.mem.slots| == threads * HPS
  {
    if sched != [] {
      var before := sched[..|sched| - 1];
      Counts(threads, caches, before);
      ReachableInv(threads, caches, before);
      StepKeeps(Reached(threads, caches, before), sched[|sched| - 1]);
      SlotsKept(Reached(threads, caches, before), sched[|sched| - 1]);
    }
  }

  /** Only a client's Publish writes a hazard pointer, and it writes the time with it. */
  lemma SlotStep(m: Shared, t: nat, th: Thread, a: Action)
    requires Sizes(m)
    ensures var m' := ThreadStep(m, t, th, a).0; m'.clock == m.clock && (!th.pc.Idle? ==> m'.slots == m.slots)
  {
  }

  lemma SlotsKept(s: State, a: Action)
    ensures |Step(s, a).mem.slots| == |s.mem.slots| && |Step(s, a).thr| == |s.thr|
    ensures forall k :: 0 <= k < |s.mem.slots| ==>
              Step(s, a).mem.slots[k] == s.mem.slots[k] || Step(s, a).mem.slots[k].since == s.mem.clock + 1
    ensures Step(s, a).mem.clock == s.mem.clock || Step(s, a).mem.clock == s.mem.clock + 1
  {
    if a.tid < |s.thr| && Sizes(s.mem) {
      SlotStep(Tick(s.mem), a.tid, s.thr[a.tid], a);
      if s.thr[a.tid].pc.Idle? { IdleSlots(Tick(s.mem), a.tid, s.thr[a.tid], a); }
    }
  }

  lemma IdleSlots(m: Shared, t: nat, th: Thread, a: Action)
    requires Sizes(m)
    ensures var m' := IdleStep(m, t, th, a).0;
            |m'.slots| == |m.slots| && forall k :: 0 <= k < |m.slots| ==> m'.slots[k] == m.slots[k] || m'.slots[k].since == m.clock
  {
  }

  // ---------------------------------------------------------------- the versions

  /** Together the two versions move through (v, v), (v+1, v), (v+1, v+2), (v+2, v+2) only, v even; the head of reclaim
      does not change while its version is odd; toProcess is empty whenever it is replaced, and what replaces it is
      everything that was on reclaim. */
  lemma VersionsAdvance(threads: nat, caches: nat, sched: seq<Action>, a: Action)
    ensures var m := Reached(threads, caches, sched).mem;
            var m' := Step(Reached(threads, caches, sched), a).mem;
            var v := m.process.ver;
            && v % 2 == 0
            && (m.reclaim.ver == v || m.reclaim.ver == v + 1 || m.reclaim.ver == v - 1)
            && ((m'.reclaim.ver == m.reclaim.ver && m'.process.ver == v)
                || (m.reclaim.ver == v && m'.reclaim.ver == v + 1 && m'.process.ver == v)
                || (m.reclaim.ver == v + 1 && m'.reclaim.ver == v + 1 && m'.process.ver == v + 2)
                || (m.reclaim.ver == v - 1 && m'.reclaim.ver == v && m'.process.ver == v))
            && (m.reclaim.ver % 2 == 1 && m'.reclaim.ver == m.reclaim.ver ==> m'.reclaim.head == m.reclaim.head)
            && (m'.process.ver != v ==>
                  m.process.head == None && m'.process.head == m.reclaim.head
                  && m'.queued == m.reclaimed && m'.reclaimed == [])
  {
    var s := Reached(threads, caches, sched);
    ReachableInv(threads, caches, sched);
    StepKeeps(s, a);
    if a.tid < |s.thr| { VersionStep(Tick(s.mem), a.tid, s.thr[a.tid], a); }
  }

  lemma VersionStep(m: Shared, t: nat, th: Thread, a: Action)
    requires VersionsOk(m) && Sizes(m) && ThreadOk(m, t, th)
    ensures var m' := ThreadStep(m, t, th, a).0;
            && (m'.process.ver == m.process.ver || m'.reclaim.ver == m.reclaim.ver)
            && m'.reclaim.ver <= m.reclaim.ver + 1
            && (m.reclaim.ver > m.process.ver ==> m'.reclaim.ver == m.reclaim.ver)
            && (m'.process.ver != m.process.ver ==>
                  m.reclaim.ver == m.process.ver + 1 && m'.process == VerEntry(m.reclaim.head, m.process.ver + 2)
                  && m.process.head.None? && m'.queued == m.reclaimed && m'.reclaimed == [])
  {
    if th.pc.Reclaim? { ReclaimVersions(m, t, th); } else { OtherVersions(m, t, th, a); }
  }

  lemma ReclaimVersions(m: Shared, t: nat, th: Thread)
    requires VersionsOk(m) && Sizes(m) && ThreadOk(m, t, th) && th.pc.Reclaim?
    ensures var m' := ReclaimStep(m, th, th.pc.r).0;
            && (m'.process.ver == m.process.ver || m'.reclaim.ver == m.reclaim.ver)
            && m'.reclaim.ver <= m.reclaim.ver + 1
            && (m.reclaim.ver > m.process.ver ==> m'.reclaim.ver == m.reclaim.ver)
            && (m'.process.ver != m.process.ver ==>
                  m.reclaim.ver == m.process.ver + 1 && m'.process == VerEntry(m.reclaim.head, m.process.ver + 2)
                  && m.process.head.None? && m'.queued == m.reclaimed && m'.reclaimed == [])
  {
  }

  lemma OtherVersions(m: Shared, t: nat, th: Thread, a: Action)
    requires Sizes(m) && ThreadOk(m, t, th) && !th.pc.Reclaim?
    ensures ThreadStep(m, t, th, a).0.reclaim.ver == m.reclaim.ver && ThreadStep(m, t, th, a).0.process.ver == m.process.ver
  {
  }

  // ---------------------------------------------------------------- pop

  /** The returned cache still has the successor that pop has installed: the first branch clears it. */
  predicate ClearsFirst(m: Shared, th: Thread) {
    th.pc.Loop? && th.pc.l.PopClear? ==> th.pc.l.e < |m.ent| && m.ent[th.pc.l.e].next == th.pc.l.next
  }

  /** A pop takes the first cache of toProcess and leaves its true successor as the head, although the successor was read
      before the CAS; and the cache it returns is cleared in the first branch, so that no assertion fails. */
  lemma PopInstallsSuccessor(threads: nat, caches: nat, sched: seq<Action>, a: Action)
    ensures var s := Reached(threads, caches, sched);
            var s' := Step(s, a);
            && (forall t :: 0 <= t < |s.thr| ==> ClearsFirst(s.mem, s.thr[t]) && s.thr[t].pc != Loop(AssertionFailed))
            && (a.tid < |s.thr| && s.thr[a.tid].pc.Loop? && s.thr[a.tid].pc.l.PopCas? && s'.mem.process != s.mem.process ==>
                  && s.mem.queued != [] && s.mem.process.head == Some(s.mem.queued[0])
                  && s'.mem.queued == s.mem.queued[1..] && s'.mem.process.ver == s.mem.process.ver
                  && s'.mem.process.head == (if |s.mem.queued| > 1 then Some(s.mem.queued[1]) else None)
                  && s'.thr[a.tid].pc == Loop(PopClear(s.mem.queued[0], s'.mem.process.head)))
  {
    var s := Reached(threads, caches, sched);
    ReachableInv(threads, caches, sched);
    forall t | 0 <= t < |s.thr| ensures ClearsFirst(s.mem, s.thr[t]) && s.thr[t].pc != Loop(AssertionFailed) {
      assert ThreadOk(s.mem, t, s.thr[t]);
    }
    if a.tid < |s.thr| && s.thr[a.tid].pc.Loop? && s.thr[a.tid].pc.l.PopCas? {
      assert ThreadOk(s.mem, a.tid, s.thr[a.tid]);
      PopStep(Tick(s.mem), a.tid, s.thr[a.tid]);
    }
  }

  lemma PopStep(m: Shared, t: nat, th: Thread)
    requires StacksOk(m) && Sizes(m) && th.pc.Loop? && th.pc.l.PopCas? && LoopPcOk(m, th, th.pc.l)
    ensures var (m', th') := LoopStep(m, t, th, th.pc.l);
      m'.process != m.process ==>
        && m.queued != [] && m.process.head == Some(m.queued[0])
        && m'.queued == m.queued[1..] && m'.process.ver == m.process.ver
        && m'.process.head == Follows(m.queued, 0)
        && th'.pc == Loop(PopClear(m.queued[0], m'.process.head))
  {
    if m.queued != [] { assert m.ent[m.queued[0]].next == Follows(m.queued, 0); }
  }

  // ---------------------------------------------------------------- every node in one place

  /** Is n at this place, as the code's own variables have it?  A client's node is in no cache and in no call. */
  predicate IsAt(s: State, n: Node, p: Place) {
    match p
    case InEntry(e) => e < |s.mem.ent| && n in s.mem.ent[e].items
    case InFrame(t, d) => t < |s.thr| && InWork(s.thr[t].stack, d, n)
    case InHand(t, d) => t < |s.thr| && InHands(s.thr[t].stack, d, n)
    case Client => false
  }

  /** Every node is in one place only: one cache, the cache one Recycle works on, the hands of one call, or the client's.
      No step loses a node or has it twice. */
  lemma EveryNodeOnce(threads: nat, caches: nat, sched: seq<Action>, n: Node, p: Place)
    requires p != Client
    ensures var s := Reached(threads, caches, sched);
            && |s.mem.place| == caches * ENTRIES_PER_CACHE
            && (IsAt(s, n, p) <==> At(s.mem.place, n, p))
  {
    var s := Reached(threads, caches, sched);
    ReachableInv(threads, caches, sched);
    Counts(threads, caches, sched);
    match p
    case InEntry(e) => if e < |s.mem.ent| { assert ItemsOk(s.mem.ent[e].items, s.mem.place, e); }
    case InFrame(t, d) => if t < |s.thr| { assert StackOk(s.mem.place, t, s.thr[t].stack); }
    case InHand(t, d) => if t < |s.thr| { assert StackOk(s.mem.place, t, s.thr[t].stack); }
  }

  /** No cache has a node twice, and no Recycle. */
  lemma NoDuplicates(threads: nat, caches: nat, sched: seq<Action>, e: Id, t: nat, d: nat)
    ensures var s := Reached(threads, caches, sched);
            && (e < |s.mem.ent| ==> Distinct(s.mem.ent[e].items))
            && (t < |s.thr| && d < |s.thr[t].stack| && s.thr[t].stack[d].Recycle? ==>
                  Distinct(s.thr[t].stack[d].kept + s.thr[t].stack[d].rest))
  {
    var s := Reached(threads, caches, sched);
    ReachableInv(threads, caches, sched);
    if e < |s.mem.ent| { assert ItemsOk(s.mem.ent[e].items, s.mem.place, e); }
    if t < |s.thr| && d < |s.thr[t].stack| { assert CallOk(d, s.thr[t].stack[d]); }
  }

  /** Has this owner the cache, as the code's own variables have it? */
  predicate IsOwner(s: State, e: Id, o: Owner) {
    match o
    case Pooled => e in s.mem.pooled
    case Reclaimed => e in s.mem.reclaimed
    case Queued => e in s.mem.queued
    case AllocCache(t) => t < |s.thr| && s.thr[t].alloc == Some(e)
    case FreeCache(t) => t < |s.thr| && s.thr[t].free == Some(e)
    case Popped(t) => t < |s.thr| && PoppedOf(s.thr[t]) == Some(e)
    case Framed(t, d) => t < |s.thr| && FrameOf(s.thr[t].stack, d) == Some(e)
    case Gone => false
  }

  /** Every cache is on one stack or in one role of one thread; the stacks are the chains their heads lead to; and a
      cache that is dropped is empty. */
  lemma EveryCacheOnce(threads: nat, caches: nat, sched: seq<Action>, e: Id, o: Owner)
    requires o != Gone
    ensures var s := Reached(threads, caches, sched);
            && (IsOwner(s, e, o) <==> Has(s.mem.owner, e, o))
            && (Has(s.mem.owner, e, Gone) ==> e < |s.mem.ent| && s.mem.ent[e].items == [])
            && Chain(s.mem.ent, s.mem.pool, s.mem.pooled) && Chain(s.mem.ent, s.mem.process.head, s.mem.queued)
            && (s.mem.reclaim.ver >= s.mem.process.ver ==> Chain(s.mem.ent, s.mem.reclaim.head, s.mem.reclaimed))
  {
    var s := Reached(threads, caches, sched);
    ReachableInv(threads, caches, sched);
    if OwnerThread(o).Some? && OwnerThread(o).value < |s.thr| {
      var t := OwnerThread(o).value;
      assert ThreadOk(s.mem, t, s.thr[t]);
    }
  }

  /** A node becomes the client's only when palloc takes it out of the caller's own cache, and stops being the client's
      only when it is handed to pfree or pReturnAlloc: it is never handed out again in between. */
  lemma HandedOutOnce(threads: nat, caches: nat, sched: seq<Action>, a: Action, n: Node)
    ensures var s := Reached(threads, caches, sched);
            var s' := Step(s, a);
            && (At(s'.mem.place, n, Client) && !At(s.mem.place, n, Client) ==>
                  && a.tid < |s.thr| && s.thr[a.tid].pc == Pool(AllocTest) && s.thr[a.tid].alloc.Some?
                  && At(s.mem.place, n, InEntry(s.thr[a.tid].alloc.value)))
            && (At(s.mem.place, n, Client) && !At(s'.mem.place, n, Client) ==>
                  a.tid < |s.thr| && s.thr[a.tid].pc == Idle && (a.ask == DoPfree(n) || a.ask == DoReturn(n)))
  {
    var s := Reached(threads, caches, sched);
    ReachableInv(threads, caches, sched);
    if a.tid < |s.thr| {
      assert ThreadOk(s.mem, a.tid, s.thr[a.tid]);
      TickMem(s.mem);
      TickKeeps(s.mem, a.tid, s.thr[a.tid]);
      ClientStep(Tick(s.mem), a.tid, s.thr[a.tid], a, n);
    }
  }

  lemma ClientStep(m: Shared, t: nat, th: Thread, a: Action, n: Node)
    requires Pre(m, t, th)
    ensures var m' := ThreadStep(m, t, th, a).0;
            && (At(m'.place, n, Client) && !At(m.place, n, Client) ==>
                  th.pc == Pool(AllocTest) && th.alloc.Some? && At(m.place, n, InEntry(th.alloc.value)))
            && (At(m.place, n, Client) && !At(m'.place, n, Client) ==>
                  th.pc == Idle && (a.ask == DoPfree(n) || a.ask == DoReturn(n)))
  {
    if th.pc == Pool(AllocTest) {
      if th.alloc.Some? && th.alloc.value < |m.ent| { assert ItemsOk(m.ent[th.alloc.value].items, m.place, th.alloc.value); }
    } else if th.pc.Work? {
      WorkClient(m, t, th, a, n);
    } else if !th.pc.Idle? {
      CallClient(m, t, th, a, n);
    }
  }

  lemma CallClient(m: Shared, t: nat, th: Thread, a: Action, n: Node)
    requires Sizes(m) && StackOk(m.place, t, th.stack) && PcOk(m, th) && (th.pc.Pool? || th.pc.Free? || th.pc.Reclaim? || th.pc.Loop?)
    requires th.pc != Pool(AllocTest)
    ensures At(ThreadStep(m, t, th, a).0.place, n, Client) == At(m.place, n, Client)
  {
    if th.stack != [] {
      assert At(m.place, n, InHand(t, |th.stack| - 1)) <==> InHands(th.stack, |th.stack| - 1, n);
    }
  }

  lemma WorkClient(m: Shared, t: nat, th: Thread, a: Action, n: Node)
    requires Sizes(m) && StackOk(m.place, t, th.stack) && th.pc.Work?
    ensures At(ThreadStep(m, t, th, a).0.place, n, Client) == At(m.place, n, Client)
  {
    if th.stack != [] {
      assert At(m.place, n, InFrame(t, |th.stack| - 1)) <==> InWork(th.stack, |th.stack| - 1, n);
    }
  }

  /** The cache that palloc takes from the pool has a node for it. */
  lemma PoolIsNotHollow(threads: nat, caches: nat, sched: seq<Action>)
    ensures var m := Reached(threads, caches, sched).mem;
            m.pool.Some? ==> m.pool.value < |m.ent| && m.ent[m.pool.value].items != []
  {
    var m := Reached(threads, caches, sched).mem;
    ReachableInv(threads, caches, sched);
    if m.pool.Some? { assert Has(m.owner, m.pooled[0], Pooled); }
  }

  // ---------------------------------------------------------------- hazard pointers

  /** How many hazard pointers the thread has collected since it last raised its version. */
  function Collected(m: Shared, th: Thread): nat {
    if th.pc.Loop? && th.pc.l.Collect? then th.pc.l.k
    else if th.pc.Loop? || |th.stack| > 1 then |m.slots|
    else 0
  }

  /** The set has every pointer that has stood there since before the version was raised. */
  ghost predicate HpsOk(m: Shared, th: Thread) {
    forall k :: 0 <= k < |m.slots| && k < Collected(m, th) && m.slots[k].ptr.Some? && m.slots[k].since <= th.bump ==>
      m.slots[k].ptr.value in th.hps
  }

  ghost predicate InvHps(s: State) {
    Inv(s) && forall t :: 0 <= t < |s.thr| ==> HpsOk(s.mem, s.thr[t])
  }

  lemma OwnHps(m: Shared, t: nat, th: Thread, a: Action)
    requires Pre(m, t, th) && HpsOk(m, th) && !th.pc.Idle?
    ensures HpsOk(ThreadStep(m, t, th, a).0, ThreadStep(m, t, th, a).1)
  {
    SlotStep(m, t, th, a);
    CollectedStep(m, t, th, a);
  }

  /** What a step does to the collection. */
  ghost predicate GoesOn(m: Shared, th: Thread, m': Shared, th': Thread) {
    || (th'.bump == th.bump && th'.hps == th.hps && (Collected(m', th') <= Collected(m, th) || |m.slots| <= Collected(m, th)))
    || Collected(m', th') == 0
    || (th'.bump == th.bump && th.pc.Loop? && th.pc.l.Collect? && th.pc.l.k < |m.slots| && Collected(m', th') == Collected(m, th) + 1
        && th'.hps == (if m.slots[th.pc.l.k].ptr.Some? then th.hps + {m.slots[th.pc.l.k].ptr.value} else th.hps))
  }

  /** Only Reclamation's last step starts over, and only Collect goes on. */
  lemma CollectedStep(m: Shared, t: nat, th: Thread, a: Action)
    requires Pre(m, t, th) && !th.pc.Idle?
    ensures GoesOn(m, th, ThreadStep(m, t, th, a).0, ThreadStep(m, t, th, a).1)
  {
    match th.pc
    case Pool(pc) => PoolCollects(m, t, th, pc);
    case Free(pc) => FreeCollects(m, t, th, pc);
    case Reclaim(pc) => ReclaimCollects(m, t, th, pc);
    case Loop(pc) => LoopCollects(m, t, th, pc);
    case Work(pc) => WorkCollects(m, t, th, pc, a);
  }

  lemma PoolCollects(m: Shared, t: nat, th: Thread, pc: PoolPc)
    requires Pre(m, t, th) && th.pc == Pool(pc)
    ensures GoesOn(m, th, PoolStep(m, t, th, pc).0, PoolStep(m, t, th, pc).1)
  {
  }

  lemma ReclaimCollects(m: Shared, t: nat, th: Thread, pc: ReclaimPc)
    requires Pre(m, t, th) && th.pc == Reclaim(pc)
    ensures GoesOn(m, th, ReclaimStep(m, th, pc).0, ReclaimStep(m, th, pc).1)
  {
  }

  lemma WorkCollects(m: Shared, t: nat, th: Thread, pc: ScanPc, a: Action)
    requires Pre(m, t, th) && th.pc == Work(pc)
    ensures GoesOn(m, th, WorkStep(m, t, th, pc, a).0, WorkStep(m, t, th, pc, a).1)
  {
    assert CallOk(|th.stack| - 1, th.stack[|th.stack| - 1]);
  }

  lemma FreeCollects(m: Shared, t: nat, th: Thread, pc: FreePc)
    requires Pre(m, t, th) && th.pc == Free(pc)
    ensures GoesOn(m, th, FreeStep(m, t, th, pc).0, FreeStep(m, t, th, pc).1)
  {
  }

  lemma LoopCollects(m: Shared, t: nat, th: Thread, pc: LoopPc)
    requires Pre(m, t, th) && th.pc == Loop(pc)
    ensures GoesOn(m, th, LoopStep(m, t, th, pc).0, LoopStep(m, t, th, pc).1)
  {
  }

  /** Hazard pointers written later than the thread raised its version do not matter to it. */
  lemma LaterSlots(m: Shared, m': Shared, th: Thread)
    requires HpsOk(m, th) && |m'.slots| == |m.slots|
    requires forall k :: 0 <= k < |m.slots| ==> m'.slots[k] == m.slots[k] || th.bump < m'.slots[k].since
    ensures HpsOk(m', th)
  {
  }

  lemma MoverHps(s: State, a: Action)
    requires Inv(s) && a.tid < |s.thr| && HpsOk(s.mem, s.thr[a.tid])
    ensures HpsOk(Step(s, a).mem, Step(s, a).thr[a.tid])
  {
    var m := Tick(s.mem);
    TickMem(s.mem);
    TickKeeps(s.mem, a.tid, s.thr[a.tid]);
    assert HpsOk(m, s.thr[a.tid]);
    if s.thr[a.tid].pc.Idle? { IdleCollected(m, a.tid, s.thr[a.tid], a); } else { OwnHps(m, a.tid, s.thr[a.tid], a); }
  }

  lemma HpsKept(s: State, a: Action)
    requires InvHps(s)
    ensures InvHps(Step(s, a))
  {
    StepKeeps(s, a);
    SlotsKept(s, a);
    if a.tid < |s.thr| {
      MoverHps(s, a);
      forall u | 0 <= u < |s.thr| && u != a.tid ensures HpsOk(Step(s, a).mem, s.thr[u]) {
        assert ThreadOk(s.mem, u, s.thr[u]);
        LaterSlots(s.mem, Step(s, a).mem, s.thr[u]);
      }
    }
  }

  lemma IdleCollected(m: Shared, t: nat, th: Thread, a: Action)
    requires Sizes(m) && th.pc.Idle? && th.stack == []
    ensures Collected(IdleStep(m, t, th, a).0, IdleStep(m, t, th, a).1) == 0
  {
  }

  /** Every cache that Recycle works on was pushed on reclaim before the thread raised its version and began to collect
      hazard pointers. */
  lemma RecycledWasRetired(threads: nat, caches: nat, sched: seq<Action>, t: nat, d: nat)
    ensures var s := Reached(threads, caches, sched);
            t < |s.thr| && d < |s.thr[t].stack| && s.thr[t].stack[d].Recycle? ==>
              s.thr[t].stack[d].e < |s.mem.pushedAt| && s.mem.pushedAt[s.thr[t].stack[d].e] < s.thr[t].bump
  {
    var s := Reached(threads, caches, sched);
    ReachableInv(threads, caches, sched);
    if t < |s.thr| && d < |s.thr[t].stack| && s.thr[t].stack[d].Recycle? {
      assert ThreadOk(s.mem, t, s.thr[t]);
      assert Has(s.mem.owner, s.thr[t].stack[d].e, Framed(t, d)) <==> FrameOf(s.thr[t].stack, d) == Some(s.thr[t].stack[d].e);
    }
  }

  /** When Recycle keeps a node for the pool, every hazard pointer that points to it was written after the thread raised
      its version: none has stood there since before. */
  lemma KeptIsUnprotected(threads: nat, caches: nat, sched: seq<Action>, a: Action, k: nat)
    requires a.tid < threads && k < threads * HPS
    ensures var s := Reached(threads, caches, sched);
            && |s.thr| == threads && |s.mem.slots| == threads * HPS
            && (Keeps(s, a).Some? && s.mem.slots[k].ptr == Keeps(s, a) ==> s.thr[a.tid].bump < s.mem.slots[k].since)
  {
    var s := Reached(threads, caches, sched);
    Counts(threads, caches, sched);
    ReachableHps(threads, caches, sched);
    assert HpsOk(s.mem, s.thr[a.tid]);
    if Keeps(s, a).Some? {
      assert ThreadOk(s.mem, a.tid, s.thr[a.tid]);
      assert CallOk(|s.thr[a.tid].stack| - 1, s.thr[a.tid].stack[|s.thr[a.tid].stack| - 1]);
    }
  }

  /** The node that a step of Recycle moves from those not yet tested to those it keeps. */
  function Keeps(s: State, a: Action): Option<Node> {
    if a.tid < |s.thr| && s.thr[a.tid].pc == Work(Scan) && s.thr[a.tid].stack != [] then
      var c := s.thr[a.tid].stack[|s.thr[a.tid].stack| - 1];
      var stack' := Step(s, a).thr[a.tid].stack;
      if c.Recycle? && c.rest != [] && stack' != [] && stack'[|stack'| - 1].Recycle? && stack'[|stack'| - 1].kept != c.kept
      then Some(c.rest[0]) else None
    else None
  }

  lemma ReachableHps(threads: nat, caches: nat, sched: seq<Action>)
    ensures InvHps(Reached(threads, caches, sched))
  {
    InitInv(threads, caches);
    forall s, a | InvHps(s) ensures InvHps(Step(s, a)) { HpsKept(s, a); }
    InvariantHolds(Step, InvHps, Init(threads, caches), sched);
  }
}
