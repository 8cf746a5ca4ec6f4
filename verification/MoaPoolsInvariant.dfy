/** The invariant of the pools of the manual allocator. */
module MoaPoolsInvariant {
  import opened Common
  import opened Runs
  import opened MoaPools

  predicate Has(owner: seq<Owner>, e: Id, o: Owner) {
    e < |owner| && owner[e] == o
  }

  predicate At(place: seq<Place>, n: Node, p: Place) {
    n < |place| && place[n] == p
  }

  // ---------------------------------------------------------------- the three stacks

  ghost predicate Chain(ent: seq<Entry>, head: Option<Id>, list: seq<Id>) {
    && head == (if list == [] then None else Some(list[0]))
    && forall i :: 0 <= i < |list| ==> list[i] < |ent| && ent[list[i]].next == Follows(list, i)
  }

  /** list has exactly the caches owned by o, each once. */
  ghost predicate Lists(owner: seq<Owner>, list: seq<Id>, o: Owner) {
    Distinct(list) && forall e: Id :: e in list <==> Has(owner, e, o)
  }

  /** The versions of reclaim and toProcess, and what is empty or frozen meanwhile. */
  predicate VersionsOk(m: Shared) {
    && m.process.ver % 2 == 0
    && (m.reclaim.ver == m.process.ver || m.reclaim.ver == m.process.ver + 1 || m.reclaim.ver == m.process.ver - 1)
    && (m.reclaim.ver == m.process.ver + 1 ==> m.queued == [])
    && (m.reclaim.ver == m.process.ver - 1 ==> m.reclaimed == [])
  }

  ghost predicate StacksOk(m: Shared) {
    && Chain(m.ent, m.pool, m.pooled) && Lists(m.owner, m.pooled, Pooled)
    && Chain(m.ent, m.process.head, m.queued) && Lists(m.owner, m.queued, Queued)
    && (m.reclaim.ver >= m.process.ver ==> Chain(m.ent, m.reclaim.head, m.reclaimed))
    && Lists(m.owner, m.reclaimed, Reclaimed)
  }

  // ---------------------------------------------------------------- nodes

  /** The nodes of a cache are those whose place it is, each once. */
  ghost predicate ItemsOk(items: seq<Node>, place: seq<Place>, e: Id) {
    && Distinct(items) && |items| <= ENTRIES_PER_CACHE
    && forall n: Node :: n in items <==> At(place, n, InEntry(e))
  }

  predicate OwnedOk(o: Owner, items: seq<Node>, pushed: nat, clock: nat, started: nat) {
    && (o.Framed? || o.Gone? ==> items == [])
    && (o.Pooled? ==> items != [])
    && (o.Reclaimed? ==> pushed <= clock)
    && (o.Queued? ==> pushed < started)
  }

  ghost predicate AllItems(ent: seq<Entry>, place: seq<Place>) {
    && (forall e :: 0 <= e < |ent| ==> ItemsOk(ent[e].items, place, e))
    && forall n :: 0 <= n < |place| && place[n].InEntry? ==> place[n].e < |ent|
  }

  ghost predicate EntriesOk(m: Shared) {
    && Sizes(m) && m.startedAt <= m.clock
    && AllItems(m.ent, m.place)
    && forall e :: 0 <= e < |m.ent| ==> OwnedOk(m.owner[e], m.ent[e].items, m.pushedAt[e], m.clock, m.startedAt)
  }

  // ---------------------------------------------------------------- threads

  /** Nothing is left to process at version v. */
  predicate Drained(m: Shared, v: nat) {
    m.process.ver > v || m.process.head.None?
  }

  predicate InCall(stack: seq<Call>) {
    stack != [] && (stack[|stack| - 1].Palloc? || stack[|stack| - 1].Pfree?)
  }

  /** The cache has left the stacks for good: it is never on reclaim or toProcess again. */
  predicate Past(o: Owner) {
    !o.Reclaimed? && !o.Queued? && !o.FreeCache?
  }

  /** What is still true of a toProcess read earlier. */
  predicate Seen(m: Shared, o: VerEntry) {
    && o.head.Some? && o.head.value < |m.owner| && o.ver <= m.process.ver
    && (m.process == o || m.process.ver > o.ver || Past(m.owner[o.head.value]))
  }

  function PoppedOf(th: Thread): Option<Id> {
    match th.pc
    case Loop(PopClear(e, _)) => Some(e)
    case Loop(Enter(e)) => Some(e)
    case _ => None
  }

  ghost predicate TimesOk(m: Shared, th: Thread) {
    && th.localVer % 2 == 0 && th.localVer <= m.process.ver && th.localVer <= m.reclaim.ver
    && th.bump <= m.clock && (th.localVer == m.process.ver ==> m.startedAt <= th.bump)
  }

  ghost predicate RolesOk(owner: seq<Owner>, t: nat, th: Thread) {
    && (forall e: Id :: Has(owner, e, AllocCache(t)) <==> th.alloc == Some(e))
    && (forall e: Id :: Has(owner, e, FreeCache(t)) <==> th.free == Some(e))
    && (forall e: Id :: Has(owner, e, Popped(t)) <==> PoppedOf(th) == Some(e))
    && (forall e: Id, d: nat :: Has(owner, e, Framed(t, d)) <==> FrameOf(th.stack, d) == Some(e))
  }

  function FrameOf(stack: seq<Call>, d: nat): Option<Id> {
    if d < |stack| && stack[d].Recycle? then Some(stack[d].e) else None
  }

  /** The caches that t recycles were pushed on reclaim before t began to collect hazard pointers. */
  ghost predicate OldEnough(m: Shared, t: nat, th: Thread) {
    forall e :: 0 <= e < |m.owner| && e < |m.pushedAt| && (m.owner[e] == Popped(t) || (m.owner[e].Framed? && m.owner[e].t == t)) ==>
      m.pushedAt[e] < th.bump
  }

  predicate CallOk(d: nat, c: Call) {
    match c
    case Palloc => d == 0
    case PReturn(_) => d == 0
    case Pfree(_) => d % 2 == 0
    case Recycle(e, next, kept, rest) => d % 2 == 1 && next == None && Distinct(kept + rest) && |kept| + |rest| <= ENTRIES_PER_CACHE
  }

  predicate InHands(stack: seq<Call>, d: nat, n: Node) {
    d < |stack| && (stack[d] == Pfree(n) || stack[d] == PReturn(n))
  }

  predicate InWork(stack: seq<Call>, d: nat, n: Node) {
    d < |stack| && stack[d].Recycle? && (n in stack[d].kept || n in stack[d].rest)
  }

  ghost predicate StackOk(place: seq<Place>, t: nat, stack: seq<Call>) {
    && (forall d :: 0 <= d < |stack| ==> CallOk(d, stack[d])) && (|stack| > 1 ==> !stack[0].PReturn?)
    && (forall n: Node, d: nat :: At(place, n, InHand(t, d)) <==> InHands(stack, d, n))
    && (forall n: Node, d: nat :: At(place, n, InFrame(t, d)) <==> InWork(stack, d, n))
  }

  /** The thread's empty allocation cache, while palloc looks for another. */
  predicate AllocEmpty(m: Shared, th: Thread) {
    th.stack != [] && th.stack[0].Palloc? && th.alloc.Some? && th.pc != Pool(AllocTest) ==>
      th.alloc.value < |m.ent| && m.ent[th.alloc.value].items == []
  }

  predicate FreeFull(m: Shared, th: Thread) {
    th.free.Some? && th.free.value < |m.ent| && |m.ent[th.free.value].items| == ENTRIES_PER_CACHE
  }

  predicate FreePcOk(m: Shared, th: Thread, pc: FreePc) {
    && th.stack != [] && th.stack[|th.stack| - 1].Pfree?
    && match pc
       case FreeTest => true
       case FreeRead => FreeFull(m, th)
       case FreeCas(o) => FreeFull(m, th) && o.ver == th.localVer && m.ent[th.free.value].next == o.head
  }

  predicate ReclaimPcOk(m: Shared, th: Thread, pc: ReclaimPc) {
    var v := th.localVer;
    && InCall(th.stack) && Drained(m, v)
    && match pc
       case FreezeRead => true
       case FreezeCas(o) => o.ver == v
       case ProcRead(head) => v < m.reclaim.ver && (m.process.ver == v ==> head == m.reclaim.head)
       case ProcCas(head, o) => v < m.reclaim.ver && o.ver == v && (m.process.ver == v ==> head == m.reclaim.head)
       case ThawRead => v < m.reclaim.ver && v < m.process.ver
       case ThawCas(o) => o.ver == v + 1 && v < m.reclaim.ver && v < m.process.ver
       case Bump => v + 2 <= m.reclaim.ver && v + 2 <= m.process.ver
  }

  predicate LoopPcOk(m: Shared, th: Thread, pc: LoopPc) {
    && InCall(th.stack)
    && match pc
       case Collect(_) => true
       case PopRead => true
       case PopNext(o) => o.ver == th.localVer && Seen(m, o)
       case PopCas(o, next) =>
         o.ver == th.localVer && Seen(m, o) && (m.process == o ==> o.head.value < |m.ent| && m.ent[o.head.value].next == next)
       case PopClear(e, next) => e < |m.ent| && m.ent[e].next == next
       case Enter(e) => e < |m.ent| && m.ent[e].next == None
       case AssertionFailed => false
  }

  ghost predicate PcOk(m: Shared, th: Thread) {
    match th.pc
    case Idle => th.stack == []
    case Pool(pc) => |th.stack| == 1 && (if pc == ReturnTest then th.stack[0].PReturn? else th.stack[0].Palloc?)
    case Free(pc) => FreePcOk(m, th, pc)
    case Reclaim(pc) => ReclaimPcOk(m, th, pc)
    case Loop(pc) => LoopPcOk(m, th, pc)
    case Work(pc) => th.stack != [] && th.stack[|th.stack| - 1].Recycle? && (pc == PushEntry ==> th.stack[|th.stack| - 1].rest == [])
  }

  ghost predicate ThreadOk(m: Shared, t: nat, th: Thread) {
    && TimesOk(m, th) && RolesOk(m.owner, t, th) && OldEnough(m, t, th) && StackOk(m.place, t, th.stack)
    && AllocEmpty(m, th) && PcOk(m, th)
    && (|th.stack| <= 1 && !th.pc.Loop? ==> Drained(m, th.localVer))
  }

  /** No cache and no node is with a thread that does not exist. */
  ghost predicate InRange(m: Shared, threads: nat) {
    && (forall e :: 0 <= e < |m.owner| && OwnerThread(m.owner[e]).Some? ==> OwnerThread(m.owner[e]).value < threads)
    && (forall n :: 0 <= n < |m.place| && PlaceThread(m.place[n]).Some? ==> PlaceThread(m.place[n]).value < threads)
  }

  function OwnerThread(o: Owner): Option<nat> {
    match o
    case AllocCache(t) => Some(t)
    case FreeCache(t) => Some(t)
    case Popped(t) => Some(t)
    case Framed(t, _) => Some(t)
    case _ => None
  }

  function PlaceThread(p: Place): Option<nat> {
    match p
    case InHand(t, _) => Some(t)
    case InFrame(t, _) => Some(t)
    case _ => None
  }

  ghost predicate MemOk(m: Shared) {
    VersionsOk(m) && StacksOk(m) && EntriesOk(m)
  }

  ghost predicate Inv(s: State) {
    && MemOk(s.mem) && InRange(s.mem, |s.thr|)
    && forall t :: 0 <= t < |s.thr| ==> ThreadOk(s.mem, t, s.thr[t])
  }

  // ---------------------------------------------------------------- what a step of t leaves alone

  predicate OtherOwner(o: Owner, t: nat) {
    OwnerThread(o).Some? && OwnerThread(o).value != t
  }

  predicate OtherPlace(p: Place, t: nat) {
    PlaceThread(p).Some? && PlaceThread(p).value != t
  }

  ghost predicate Moves(m: Shared, m': Shared, t: nat) {
    && Sizes(m) && Sizes(m') && |m.ent| <= |m'.ent| && |m'.place| == |m.place|
    && m'.clock == m.clock
    && m.process.ver <= m'.process.ver && m.reclaim.ver <= m'.reclaim.ver
    && (m'.process.ver == m.process.ver ==> m'.startedAt == m.startedAt)
    && (m'.process.ver > m.process.ver ==> m'.startedAt == m.clock)
    && (m.reclaim.ver % 2 == 1 && m'.reclaim.ver == m.reclaim.ver ==> m'.reclaim.head == m.reclaim.head)
    && (m'.process != m.process && m'.process.ver == m.process.ver ==>
          && m.process.head.Some? && m.process.head.value < |m.owner| && Past(m'.owner[m.process.head.value])
          && (m'.process.head.Some? ==> Has(m'.owner, m'.process.head.value, Queued)))
    && (forall e :: 0 <= e < |m.owner| ==>
          && (Past(m.owner[e]) ==> Past(m'.owner[e]))
          && (m.owner[e].Queued? ==> m'.ent[e] == m.ent[e])
          && (OtherOwner(m.owner[e], t) ==>
                m'.owner[e] == m.owner[e] && m'.ent[e] == m.ent[e] && m'.pushedAt[e] == m.pushedAt[e]))
    && (forall e :: 0 <= e < |m'.owner| && OtherOwner(m'.owner[e], t) ==> e < |m.owner| && m.owner[e] == m'.owner[e])
    && (forall n :: 0 <= n < |m.place| && (OtherPlace(m.place[n], t) || OtherPlace(m'.place[n], t)) ==> m'.place[n] == m.place[n])
  }

  lemma OtherTimes(m: Shared, m': Shared, t: nat, u: nat, th: Thread)
    requires Moves(m, m', t) && u != t && ThreadOk(m, u, th) && m.startedAt <= m.clock
    ensures TimesOk(m', th)
  {
  }

  lemma OtherHas(m: Shared, m': Shared, t: nat, e: Id, o: Owner)
    requires Moves(m, m', t) && OtherOwner(o, t)
    ensures Has(m'.owner, e, o) <==> Has(m.owner, e, o)
    ensures Has(m.owner, e, o) ==> m'.ent[e] == m.ent[e] && m'.pushedAt[e] == m.pushedAt[e]
  {
  }

  lemma OtherRoles(m: Shared, m': Shared, t: nat, u: nat, th: Thread)
    requires Moves(m, m', t) && u != t && RolesOk(m.owner, u, th) && OldEnough(m, u, th)
    ensures RolesOk(m'.owner, u, th) && OldEnough(m', u, th)
  {
    forall e: Id, o: Owner | OtherOwner(o, t) ensures Has(m'.owner, e, o) <==> Has(m.owner, e, o) { OtherHas(m, m', t, e, o); }
  }

  lemma OtherStack(m: Shared, m': Shared, t: nat, u: nat, stack: seq<Call>)
    requires Moves(m, m', t) && u != t && StackOk(m.place, u, stack)
    ensures StackOk(m'.place, u, stack)
  {
    assert forall n: Node, p: Place :: OtherPlace(p, t) ==> At(m'.place, n, p) == At(m.place, n, p);
  }

  lemma OtherSeen(m: Shared, m': Shared, t: nat, o: VerEntry)
    requires Moves(m, m', t) && Seen(m, o) && MemOk(m)
    ensures Seen(m', o)
    ensures m'.process == o ==> m.process == o && m'.ent[o.head.value] == m.ent[o.head.value]
  {
    if m.process == o { assert Has(m.owner, m.queued[0], Queued); }
  }

  lemma OtherLoop(m: Shared, m': Shared, t: nat, u: nat, th: Thread)
    requires Moves(m, m', t) && u != t && ThreadOk(m, u, th) && MemOk(m) && th.pc.Loop?
    ensures PcOk(m', th)
  {
    match th.pc.l
    case PopNext(o) => OtherSeen(m, m', t, o);
    case PopCas(o, _) => OtherSeen(m, m', t, o);
    case PopClear(e, _) => OtherHas(m, m', t, e, Popped(u));
    case Enter(e) => OtherHas(m, m', t, e, Popped(u));
    case _ =>
  }

  lemma OtherPc(m: Shared, m': Shared, t: nat, u: nat, th: Thread)
    requires Moves(m, m', t) && u != t && ThreadOk(m, u, th) && MemOk(m) && VersionsOk(m')
    ensures PcOk(m', th)
  {
    if th.pc.Loop? {
      OtherLoop(m, m', t, u, th);
    } else if th.pc.Free? && th.free.Some? {
      OtherHas(m, m', t, th.free.value, FreeCache(u));
    }
  }

  lemma OtherKeeps(m: Shared, m': Shared, t: nat, u: nat, th: Thread)
    requires Moves(m, m', t) && u != t && ThreadOk(m, u, th) && MemOk(m) && VersionsOk(m')
    ensures ThreadOk(m', u, th)
  {
    OtherTimes(m, m', t, u, th);
    OtherRoles(m, m', t, u, th);
    OtherStack(m, m', t, u, th.stack);
    OtherPc(m, m', t, u, th);
    if th.alloc.Some? { OtherHas(m, m', t, th.alloc.value, AllocCache(u)); }
  }

  lemma TickKeeps(m: Shared, t: nat, th: Thread)
    requires ThreadOk(m, t, th)
    ensures ThreadOk(Tick(m), t, th)
  {
  }

  lemma TickMem(m: Shared)
    requires MemOk(m)
    ensures MemOk(Tick(m)) && Ticked(Tick(m))
  {
  }

  /** The clock is past everything pushed. */
  predicate Ticked(m: Shared) {
    forall e :: 0 <= e < |m.owner| && e < |m.pushedAt| && m.owner[e].Reclaimed? ==> m.pushedAt[e] < m.clock
  }
}
