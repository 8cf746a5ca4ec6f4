/** The pools of the manual allocator, allocatorOA.c: the free pool, the versioned stacks reclaim and toProcess, and
    the caches and recursive calls of every thread.  One step is one access to shared memory; a verEntry is read at
    once, and a push on or a pop from the untagged free pool is one step. */
module MoaPools {
  import opened Common
  import opened Runs

  type Node = nat
  type Id = nat  // a cache (struct allocEntry)


  datatype VerEntry = VerEntry(head: Option<Id>, ver: nat)
  datatype Entry = Entry(next: Option<Id>, items: seq<Node>)

  /** Who has a cache: one of the three stacks, or a thread in one of its roles; Gone when it is dropped empty. */
  datatype Owner =
    | Pooled | Reclaimed | Queued | Gone
    | AllocCache(t: nat) | FreeCache(t: nat) | Popped(t: nat) | Framed(t: nat, d: nat)
  /** Where a node is: in a cache, in the cache that a running Recycle works on, in the hands of a call, or the client's. */
  datatype Place = InEntry(e: Id) | InFrame(t: nat, d: nat) | InHand(t: nat, d: nat) | Client
  /** A hazard pointer and the time it was written. */
  datatype Slot = Slot(ptr: Option<Node>, since: nat)

  /** The second line is what the code has; the others are history variables: the owner of each cache, the place of each
      node, the three stacks as lists, when a cache was pushed on reclaim, and when toProcess was last replaced. */
  datatype Shared = Shared(
    reclaim: VerEntry, process: VerEntry, pool: Option<Id>, ent: seq<Entry>, slots: seq<Slot>,
    clock: nat, owner: seq<Owner>, place: seq<Place>, pushedAt: seq<nat>, startedAt: nat,
    pooled: seq<Id>, reclaimed: seq<Id>, queued: seq<Id>)

  /** The calls a thread is in: pfree calls triggerCollection, its Recycle calls pfree, and so on. */
  datatype Call = Palloc | Pfree(n: Node) | PReturn(n: Node) | Recycle(e: Id, next: Option<Id>, kept: seq<Node>, rest: seq<Node>)

  datatype PoolPc = AllocTest | PopPool | ReturnTest
  datatype FreePc = FreeTest | FreeRead | FreeCas(old0: VerEntry)
  datatype ReclaimPc =
    | FreezeRead | FreezeCas(old1: VerEntry) | ProcRead(head: Option<Id>) | ProcCas(head: Option<Id>, old2: VerEntry)
    | ThawRead | ThawCas(old3: VerEntry) | Bump
  datatype LoopPc =
    | Collect(k: nat) | PopRead | PopNext(old4: VerEntry) | PopCas(old4: VerEntry, next: Option<Id>)
    | PopClear(e: Id, next: Option<Id>) | Enter(e: Id) | AssertionFailed
  datatype ScanPc = Scan | PushEntry
  datatype PC = Idle | Pool(p: PoolPc) | Free(f: FreePc) | Reclaim(r: ReclaimPc) | Loop(l: LoopPc) | Work(w: ScanPc)

  /** hps is the set the thread has collected; bump the time at which localVer was last raised (a history variable). */
  datatype Thread = Thread(localVer: nat, alloc: Option<Id>, free: Option<Id>, hps: set<Node>, bump: nat,
                           stack: seq<Call>, pc: PC)

  datatype State = State(mem: Shared, thr: seq<Thread>)

  datatype Request = DoPalloc | DoPfree(n: Node) | DoReturn(n: Node) | Publish(j: nat, ptr: Option<Node>)
  /** tid moves; ask is its next call when idle; collides tells that a hazard pointer agrees with the tested node in the
      low 32 bits that the hash table keeps. */
  datatype Action = Action(tid: nat, ask: Request, collides: bool)

  /** caches full caches in the pool; no thread has a cache. */
  ghost function Init(threads: nat, caches: nat): State {
    State(
      Shared(VerEntry(None, 2), VerEntry(None, 2), if caches == 0 then None else Some(0),
        seq(caches, e requires e >= 0 => InitialEntry(caches, e)), seq(threads * HPS, _ => Slot(None, 0)),
        0, seq(caches, _ => Pooled), seq(caches * ENTRIES_PER_CACHE, n requires n >= 0 => InEntry(n / ENTRIES_PER_CACHE)),
        seq(caches, _ => 0), 0,
        seq(caches, e requires e >= 0 => e), [], []),
      seq(threads, _ => Thread(0, None, None, {}, 0, [], Idle)))
  }

  function InitialEntry(caches: nat, e: nat): Entry {
    Entry(if e + 1 < caches then Some(e + 1) else None, seq(ENTRIES_PER_CACHE, j requires j >= 0 => e * ENTRIES_PER_CACHE + j))
  }

  predicate Sizes(m: Shared) {
    |m.owner| == |m.pushedAt| == |m.ent|
  }

  function Step(s: State, a: Action): State {
    if a.tid < |s.thr| && Sizes(s.mem) then
      var (m, th) := ThreadStep(Tick(s.mem), a.tid, s.thr[a.tid], a);
      State(m, s.thr[a.tid := th])
    else s
  }

  function Tick(m: Shared): Shared {
    m.(clock := m.clock + 1)
  }

  function ThreadStep(m: Shared, t: nat, th: Thread, a: Action): (r: (Shared, Thread))
    requires Sizes(m)
    ensures Sizes(r.0)
  {
    match th.pc
    case Idle => IdleStep(m, t, th, a)
    case Pool(pc) => PoolStep(m, t, th, pc)
    case Free(pc) => FreeStep(m, t, th, pc)
    case Reclaim(pc) => ReclaimStep(m, th, pc)
    case Loop(pc) => LoopStep(m, t, th, pc)
    case Work(pc) => WorkStep(m, t, th, pc, a)
  }

  // ---------------------------------------------------------------- writes

  function SetItems(m: Shared, e: Id, items: seq<Node>): (r: Shared)
    requires Sizes(m)
    ensures Sizes(r)
  {
    if e < |m.ent| then m.(ent := m.ent[e := m.ent[e].(items := items)]) else m
  }

  function SetNext(m: Shared, e: Id, next: Option<Id>): (r: Shared)
    requires Sizes(m)
    ensures Sizes(r)
  {
    if e < |m.ent| then m.(ent := m.ent[e := m.ent[e].(next := next)]) else m
  }

  function Give(m: Shared, e: Id, o: Owner): (r: Shared)
    requires Sizes(m)
    ensures Sizes(r)
  {
    if e < |m.owner| then m.(owner := m.owner[e := o]) else m
  }

  function Put(m: Shared, n: Node, p: Place): (r: Shared)
    requires Sizes(m)
    ensures Sizes(r)
  {
    if n < |m.place| then m.(place := m.place[n := p]) else m
  }

  /** Everything that is at place p goes to place q. */
  function PutAll(m: Shared, p: Place, q: Place): (r: Shared)
    requires Sizes(m)
    ensures Sizes(r)
  {
    m.(place := seq(|m.place|, n requires 0 <= n < |m.place| => if m.place[n] == p then q else m.place[n]))
  }

  /** A new cache that holds n. */
  function NewEntry(m: Shared, n: Node, o: Owner): (r: Shared)
    requires Sizes(m)
    ensures Sizes(r)
  {
    Put(m.(ent := m.ent + [Entry(None, [n])], owner := m.owner + [o], pushedAt := m.pushedAt + [0]), n, InEntry(|m.ent|))
  }

  function AddItem(m: Shared, e: Id, n: Node): (r: Shared)
    requires Sizes(m) && e < |m.ent|
    ensures Sizes(r)
  {
    Put(SetItems(m, e, m.ent[e].items + [n]), n, InEntry(e))
  }

  function PushPool(m: Shared, e: Id): (r: Shared)
    requires Sizes(m)
    ensures Sizes(r)
  {
    Give(SetNext(m, e, m.pool), e, Pooled).(pool := Some(e), pooled := [e] + m.pooled)
  }

  function Tail(xs: seq<Id>): seq<Id> {
    if xs == [] then [] else xs[1..]
  }

  // ---------------------------------------------------------------- the client, palloc and pReturnAlloc

  function IdleStep(m: Shared, t: nat, th: Thread, a: Action): (r: (Shared, Thread))
    requires Sizes(m)
    ensures Sizes(r.0)
  {
    match a.ask
    case DoPalloc => (m, th.(stack := [Palloc], pc := Pool(AllocTest)))
    case DoPfree(n) =>
      if n < |m.place| && m.place[n] == Client then (Put(m, n, InHand(t, 0)), th.(stack := [Pfree(n)], pc := Free(FreeTest)))
      else (m, th)
    case DoReturn(n) =>
      if n < |m.place| && m.place[n] == Client then (Put(m, n, InHand(t, 0)), th.(stack := [PReturn(n)], pc := Pool(ReturnTest)))
      else (m, th)
    case Publish(j, ptr) =>
      if j < HPS && HPS * t + j < |m.slots| then (m.(slots := m.slots[HPS * t + j := Slot(ptr, m.clock)]), th)
      else (m, th)
  }

  function PoolStep(m: Shared, t: nat, th: Thread, pc: PoolPc): (r: (Shared, Thread))
    requires Sizes(m)
    ensures Sizes(r.0)
  {
    match pc
    case AllocTest =>
      if th.alloc.Some? && th.alloc.value < |m.ent| && m.ent[th.alloc.value].items != [] then
        var e := th.alloc.value;
        var k := |m.ent[e].items| - 1;
        (Put(SetItems(m, e, m.ent[e].items[..k]), m.ent[e].items[k], Client), th.(stack := [], pc := Idle))
      else (m, th.(pc := Pool(PopPool)))
    case PopPool =>
      if m.pool.None? || m.pool.value >= |m.ent| then (m, th.(pc := Reclaim(FreezeRead)))
      else
        var e := m.pool.value;
        var m1 := if th.alloc.Some? then Give(m, th.alloc.value, Gone) else m;
        (Give(SetNext(m1, e, None), e, AllocCache(t)).(pool := m.ent[e].next, pooled := Tail(m.pooled)),
         th.(alloc := Some(e), pc := Pool(AllocTest)))
    case ReturnTest =>
      if th.stack == [] || !th.stack[0].PReturn? then (m, th)
      else if th.alloc.None? || th.alloc.value >= |m.ent| then
        (NewEntry(m, th.stack[0].n, AllocCache(t)), th.(alloc := Some(|m.ent|), stack := [], pc := Idle))
      else if |m.ent[th.alloc.value].items| < ENTRIES_PER_CACHE then
        (AddItem(m, th.alloc.value, th.stack[0].n), th.(stack := [], pc := Idle))
      else (PushPool(m, th.alloc.value), th.(alloc := None))
  }

  // ---------------------------------------------------------------- pfree

  /** pfree returns to Recycle or to the client. */
  function Returned(th: Thread): Thread {
    if th.stack == [] then th
    else
      var rest := th.stack[..|th.stack| - 1];
      th.(stack := rest, pc := if rest == [] then Idle else Work(Scan))
  }

  function FreeStep(m: Shared, t: nat, th: Thread, pc: FreePc): (r: (Shared, Thread))
    requires Sizes(m)
    ensures Sizes(r.0)
  {
    match pc
    case FreeTest =>
      if th.stack == [] || !th.stack[|th.stack| - 1].Pfree? then (m, th)
      else
        var n := th.stack[|th.stack| - 1].n;
        if th.free.None? || th.free.value >= |m.ent| then
          (NewEntry(m, n, FreeCache(t)), Returned(th.(free := Some(|m.ent|))))
        else if |m.ent[th.free.value].items| < ENTRIES_PER_CACHE then (AddItem(m, th.free.value, n), Returned(th))
        else (m, th.(pc := Free(FreeRead)))
    case FreeRead =>
      if m.reclaim.ver != th.localVer then (m, th.(pc := Reclaim(FreezeRead)))
      else (if th.free.Some? then SetNext(m, th.free.value, m.reclaim.head) else m, th.(pc := Free(FreeCas(m.reclaim))))
    case FreeCas(o) =>
      if m.reclaim == o && th.free.Some? && th.free.value < |m.ent| then
        var e := th.free.value;
        (Give(m, e, Reclaimed).(reclaim := VerEntry(th.free, th.localVer), reclaimed := [e] + m.reclaimed,
                                pushedAt := m.pushedAt[e := m.clock]),
         th.(free := None, pc := Free(FreeTest)))
      else (m, th.(pc := Free(FreeRead)))
  }

  // ---------------------------------------------------------------- Reclamation

  function ReclaimStep(m: Shared, th: Thread, pc: ReclaimPc): (r: (Shared, Thread))
    requires Sizes(m)
    ensures Sizes(r.0)
  {
    match pc
    case FreezeRead =>
      (m, th.(pc := Reclaim(
        if m.reclaim.ver == th.localVer then FreezeCas(m.reclaim)
        else if m.reclaim.ver == th.localVer + 1 then ProcRead(m.reclaim.head)
        else Bump)))
    case FreezeCas(o) =>
      if m.reclaim == o then
        (m.(reclaim := VerEntry(o.head, th.localVer + 1)), th.(pc := Reclaim(ProcRead(o.head))))
      else (m, th.(pc := Reclaim(FreezeRead)))
    case ProcRead(head) =>
      (m, th.(pc := Reclaim(if m.process.ver == th.localVer then ProcCas(head, m.process) else ThawRead)))
    case ProcCas(head, o) =>
      if m.process == o then
        (m.(process := VerEntry(head, th.localVer + 2), startedAt := m.clock, queued := m.reclaimed, reclaimed := [],
            owner := Requeued(m.owner)),
         th.(pc := Reclaim(ThawRead)))
      else (m, th.(pc := Reclaim(ProcRead(head))))
    case ThawRead =>
      (m, th.(pc := Reclaim(if m.reclaim.ver == th.localVer + 1 then ThawCas(m.reclaim) else Bump)))
    case ThawCas(o) =>
      if m.reclaim == o then (m.(reclaim := VerEntry(None, th.localVer + 2)), th.(pc := Reclaim(Bump)))
      else (m, th.(pc := Reclaim(ThawRead)))
    case Bump => (m, th.(localVer := th.localVer + 2, bump := m.clock, hps := {}, pc := Loop(Collect(0))))
  }

  /** What was queued before is dropped: replacing toProcess loses it. */
  function Requeued(owner: seq<Owner>): (r: seq<Owner>)
    ensures |r| == |owner|
  {
    seq(|owner|, e requires 0 <= e < |owner| =>
      if owner[e] == Reclaimed then Queued else if owner[e] == Queued then Gone else owner[e])
  }

  // ---------------------------------------------------------------- Recycle

  /** triggerCollection returns to palloc or to pfree. */
  function Resumed(th: Thread): Thread {
    th.(pc := if th.stack != [] && th.stack[|th.stack| - 1].Palloc? then Pool(PopPool) else Free(FreeTest))
  }

  function LoopStep(m: Shared, t: nat, th: Thread, pc: LoopPc): (r: (Shared, Thread))
    requires Sizes(m)
    ensures Sizes(r.0)
  {
    match pc
    case Collect(k) =>
      if k < |m.slots| then
        (m, th.(hps := if m.slots[k].ptr.Some? then th.hps + {m.slots[k].ptr.value} else th.hps, pc := Loop(Collect(k + 1))))
      else (m, th.(pc := Loop(PopRead)))
    case PopRead =>
      if m.process.ver != th.localVer || m.process.head.None? then (m, Resumed(th))
      else (m, th.(pc := Loop(PopNext(m.process))))
    case PopNext(o) =>
      if o.head.Some? && o.head.value < |m.ent| then (m, th.(pc := Loop(PopCas(o, m.ent[o.head.value].next)))) else (m, th)
    case PopCas(o, next) =>
      if m.process == o && o.head.Some? then
        (Give(m, o.head.value, Popped(t)).(process := VerEntry(next, o.ver), queued := Tail(m.queued)),
         th.(pc := Loop(PopClear(o.head.value, next))))
      else (m, th.(pc := Loop(PopRead)))
    case PopClear(e, next) =>
      if e < |m.ent| && m.ent[e].next == next then (SetNext(m, e, None), th.(pc := Loop(Enter(e))))
      else if e < |m.ent| && m.ent[e].next.Some? && m.ent[e].next.value < |m.ent| && m.ent[m.ent[e].next.value].next == next then
        (SetNext(m, m.ent[e].next.value, None), th.(pc := Loop(Enter(e))))
      else (m, th.(pc := Loop(AssertionFailed)))
    case Enter(e) =>
      if e < |m.ent| then
        var d := |th.stack|;
        (Give(PutAll(SetItems(m, e, []), InEntry(e), InFrame(t, d)), e, Framed(t, d)),
         th.(stack := th.stack + [Recycle(e, m.ent[e].next, [], m.ent[e].items)], pc := Work(Scan)))
      else (m, th)
    case AssertionFailed => (m, th)
  }

  /** The nodes kept go back into their cache. */
  function Refill(m: Shared, t: nat, d: nat, c: Call): (r: Shared)
    requires Sizes(m) && c.Recycle?
    ensures Sizes(r)
  {
    PutAll(SetItems(m, c.e, c.kept), InFrame(t, d), InEntry(c.e))
  }

  function PutBack(m: Shared, t: nat, d: nat, c: Call): (r: Shared)
    requires Sizes(m) && c.Recycle?
    ensures Sizes(r)
  {
    if c.kept != [] then PushPool(Refill(m, t, d, c), c.e) else Give(Refill(m, t, d, c), c.e, Gone)
  }

  function WorkStep(m: Shared, t: nat, th: Thread, pc: ScanPc, a: Action): (r: (Shared, Thread))
    requires Sizes(m)
    ensures Sizes(r.0)
  {
    if th.stack == [] || !th.stack[|th.stack| - 1].Recycle? then (m, th)
    else
      var d := |th.stack| - 1;
      var c := th.stack[d];
      match pc
      case Scan =>
        if c.rest == [] then (m, th.(pc := Work(PushEntry)))
        else
          var n := c.rest[0];
          var c1 := c.(rest := c.rest[1..]);
          if n in th.hps || a.collides then
            (Put(m, n, InHand(t, d + 1)), th.(stack := th.stack[..d] + [c1, Pfree(n)], pc := Free(FreeTest)))
          else (m, th.(stack := th.stack[..d] + [c1.(kept := c.kept + [n])]))
      case PushEntry =>
        (PutBack(m, t, d, c),
         th.(stack := th.stack[..d], pc := Loop(if c.next.Some? then Enter(c.next.value) else PopRead)))
  }
}
