/** The phase protocol of the automatic collector: allocator.c, trace.c and the checks of lfl-RoF.c.
    One step is one access to shared memory (or a purely local move).  Words that the source packs into one
    machine word are records here; PackedWords relates the two. */
module AoaPhases {
  import opened Common
  import opened Runs

  type Ptr = nat  // an address; 0 is NULL
  /** A pointer read from the list, with the tag of the last flag that its reader had cleared by then. */
  datatype Held = Held(ptr: Ptr, stamp: nat)
  /** A published pointer: one read from the list, or NULL or the new node. */
  datatype Pub = Pub(ptr: Ptr, stamp: Option<nat>)

  /** An object found free by a sweeper, with the mark word it was read from. */
  datatype FreeSlot = FreeSlot(word: nat, bit: nat, read: MarkWord)
  /** localAlloc.alloc_cache: none, one popped from the pool at a version, or one being filled by a sweep. */
  datatype Cache = Empty | Popped(ver: nat) | Filling(items: seq<FreeSlot>)
  /** What palloc handed to the running operation. */
  datatype Node = NoNode | NullNode | Fresh(ver: nat)
  datatype Cursor = Cursor(page: nat, k: nat, bit: nat, read: MarkWord)
  datatype Ret = ToPalloc | ToHelp

  const WORDS_PER_PAGE := 64
  const PAGES_PER_CHUNK := 8
  const HEADER_WORDS := 4

  /** Program points of a list operation and of palloc. */
  datatype OpPc =
    | Start | SawFlag | Help | ClearFlag
    | Palloc | PopRead | PopCas(was: nat) | AfterGc
    | Publish(j: nat) | Fence | Unpublish(j: nat) | Guarded | Retract(j: nat)
  /** triggerCollection and Reclamation. */
  datatype ReclaimPc =
    | Trigger | PhaseCas | HeadRead | HeadCas | Bump | PhaseTest
    | Flag1(i: nat) | Flag1Cas(i: nat, before: DirtyWord)
    | Flag2(i: nat) | Flag2Cas(i: nat, before: DirtyWord)
    | ReadHp(i: nat, j: nat)
  /** clearMarks, trace and resetSweepCounter. */
  datatype MarkPc =
    | Clear(done: set<nat>) | ClearCas(done: set<nat>, w: nat, oldWord: MarkWord)
    | Trace | MarkCas(w: nat, bit: nat, oldWord: MarkWord)
    | ResetRead | ResetCas(oldSc: SweepWord) | SweepAssert | AssertionFailed
  /** sweep, process_sweep_page, setAsFree and pReturnCache. */
  datatype SweepPc =
    | Claim | ClaimCas(oldSc: SweepWord) | ReadWord(page: nat, k: nat) | Bit(at: Cursor)
    | PushRead(next: Option<Cursor>) | PushCas(next: Option<Cursor>)
  datatype PC = Operating(op: OpPc) | Reclaiming(rp: ReclaimPc) | Marking(mp: MarkPc) | Sweeping(sp: SweepPc)

  /** held: the pointers that find has in fres and its local variables; hpLocal: the hazard pointers collected.  History
      variables, which no branch reads: seen, the tag of the record when its owner last cleared the flag; pub, the
      pointers published last; the stamps. */
  datatype Thread = Thread(localVer: nat, cache: Cache, node: Node, held: seq<Held>, hpLocal: seq<Ptr>, ret: Ret,
                           seen: nat, pub: seq<Pub>, pc: PC)

  /** pushed: the objects pushed on the pool since head.ver took its value (a history variable). */
  datatype Shared = Shared(
    phase: nat, headVer: nat, pushed: set<FreeSlot>, sc: SweepWord, pages: nat,
    words: seq<MarkWord>, rec: seq<DirtyWord>, hps: seq<seq<Ptr>>)

  datatype State = State(mem: Shared, thr: seq<Thread>)

  /** tid moves; pick, bit, ptr and flag resolve what the machine leaves open: what an operation does next, which word or
      bit comes next, which pointer is read or published, whether the head pointer is unchanged, whether a list is
      empty. */
  datatype Action = Action(tid: nat, pick: nat, bit: nat, ptr: Ptr, flag: bool)

  ghost function Init(n: nat, pages: nat): State {
    State(
      Shared(0, 0, {}, SweepWord(0, 0), pages,
        seq(pages * WORDS_PER_PAGE, _ => MarkWord(0, {})),
        seq(n, _ => DirtyWord(0, false)), seq(n, _ => seq(HPS, _ => 0))),
      seq(n, _ => Thread(0, Empty, NoNode, [], [], ToHelp, 0, [], Operating(Start))))
  }

  /** A page that begins a chunk begins with the chunk's header, which is not swept. */
  function FirstWord(page: nat): nat {
    if page % PAGES_PER_CHUNK == 0 then HEADER_WORDS else 0
  }

  predicate Shape(m: Shared) {
    && |m.rec| == |m.hps|
    && |m.words| == m.pages * WORDS_PER_PAGE
    && forall i :: 0 <= i < |m.hps| ==> |m.hps[i]| == HPS
  }

  function Step(s: State, a: Action): State {
    if a.tid < |s.thr| == |s.mem.rec| && Shape(s.mem) then
      var (m, th) := ThreadStep(s.mem, a.tid, s.thr[a.tid], a);
      State(m, s.thr[a.tid := th])
    else s
  }

  function ThreadStep(m: Shared, t: nat, th: Thread, a: Action): (Shared, Thread)
    requires t < |m.rec| && Shape(m)
  {
    match th.pc
    case Operating(pc) => OperationStep(m, t, th, pc, a)
    case Reclaiming(pc) => ReclaimStep(m, t, th, pc, a)
    case Marking(pc) => MarkStep(m, th, pc, a)
    case Sweeping(pc) => SweepStep(m, th, pc, a)
  }

  /** Clearing the flag writes the low byte only. */
  function ClearedFlag(m: Shared, t: nat): Shared
    requires t < |m.rec|
  {
    m.(rec := m.rec[t := m.rec[t].(dirty := false)])
  }

  function SetHp(m: Shared, t: nat, j: nat, p: Ptr): Shared
    requires t < |m.hps| && j < |m.hps[t]|
  {
    var row: seq<Ptr> := m.hps[t][j := p];
    m.(hps := m.hps[t := row])
  }

  /** ListInsert, ListDelete, find and palloc, as far as they touch the record, the hazard pointers and the pool. */
  function OperationStep(m: Shared, t: nat, th: Thread, pc: OpPc, a: Action): (Shared, Thread)
    requires t < |m.rec| && Shape(m)
  {
    match pc
    case Start =>
      // a CHECK; an insertion that needs a node; a read from the list; a fresh start at its head; or a deletion or an
      // unlinking
      if a.pick == 0 then (m, th.(pc := Operating(if m.rec[t].dirty then SawFlag else Start)))
      else if a.pick == 1 then (m, th.(pc := Operating(Palloc)))
      else if a.pick == 2 then (m, th.(held := th.held + [Held(a.ptr, th.seen)]))
      else if a.pick == 3 then (m, th.(held := []))
      else (m, th.(pc := Operating(Publish(0))))
    case SawFlag => (ClearedFlag(m, t), th.(held := [], seen := m.rec[t].tag, pc := Operating(Help)))
    case Help =>
      if th.localVer < m.phase then (m, th.(ret := ToHelp, pc := Reclaiming(Trigger)))
      else (m, th.(pc := Operating(ClearFlag)))
    case ClearFlag => (ClearedFlag(m, t), th.(seen := m.rec[t].tag, pc := Operating(Start)))
    case Palloc =>
      if th.cache.Popped? && a.flag then (m, th.(node := Fresh(th.cache.ver), pc := Operating(Publish(0))))
      else (m, th.(cache := Empty, pc := Operating(PopRead)))
    case PopRead =>
      if m.headVer != th.localVer || a.flag then (m, th.(ret := ToPalloc, pc := Reclaiming(Trigger)))
      else (m, th.(pc := Operating(PopCas(m.headVer))))
    case PopCas(was) =>
      if m.headVer == was && a.flag then (m, th.(cache := Popped(was), pc := Operating(Palloc)))
      else (m, th.(pc := Operating(PopRead)))
    case AfterGc =>
      if m.rec[t].dirty then (m, th.(node := NullNode, pc := Operating(Publish(0))))
      else (m, th.(pc := Operating(PopRead)))
    case Publish(j) =>
      if j < HPS then
        var p := Published(th, a);
        (SetHp(m, t, j, p.ptr), th.(pub := (if j == 0 then [] else th.pub) + [p], pc := Operating(Publish(j + 1))))
      else (m, th.(pc := Operating(Fence)))
    case Fence =>
      if m.rec[t].dirty then
        (ClearedFlag(m, t), th.(held := [], seen := m.rec[t].tag, node := NoNode, pc := Operating(Unpublish(HPS))))
      else (m, th.(seen := m.rec[t].tag, pc := Operating(Guarded)))
    case Unpublish(j) =>
      if 0 < j <= HPS then (SetHp(m, t, j - 1, 0), th.(pc := Operating(Unpublish(j - 1))))
      else (m, th.(pc := Operating(Help)))
    case Guarded => (m, th.(pc := Operating(Retract(HPS))))  // the CAS on the list
    case Retract(j) =>
      if 0 < j <= HPS then (SetHp(m, t, j - 1, 0), th.(pc := Operating(Retract(j - 1))))
      else (m, th.(node := NoNode, pc := Operating(Start)))
  }

  /** One of the pointers read, the new node, or NULL. */
  function Published(th: Thread, a: Action): Pub {
    if a.pick < |th.held| then Pub(th.held[a.pick].ptr, Some(th.held[a.pick].stamp))
    else if th.node.Fresh? && a.flag then Pub(a.ptr, None)
    else Pub(0, None)
  }

  function Return(th: Thread): Thread {
    th.(cache := Empty, pc := Operating(if th.ret == ToPalloc then AfterGc else ClearFlag))
  }

  /** CAS(&dirties[i].dirtyNphase, before, ver<<8 | 1). */
  function FlagCas(m: Shared, i: nat, before: DirtyWord, ver: nat): Shared {
    if i < |m.rec| && m.rec[i] == before then m.(rec := m.rec[i := DirtyWord(ver, true)]) else m
  }

  /** triggerCollection up to the collection of the hazard pointers. */
  function ReclaimStep(m: Shared, t: nat, th: Thread, pc: ReclaimPc, a: Action): (Shared, Thread)
    requires Shape(m)
  {
    var v := th.localVer;
    match pc
    case Trigger => (m, th.(cache := Empty, pc := Reclaiming(PhaseCas)))
    case PhaseCas => (if m.phase == v then m.(phase := v + 2) else m, th.(pc := Reclaiming(HeadRead)))
    case HeadRead => (m, th.(pc := Reclaiming(if m.headVer == v then HeadCas else Bump)))
    case HeadCas =>
      (if m.headVer == v && a.flag then m.(headVer := v + 2, pushed := {}) else m, th.(pc := Reclaiming(HeadRead)))
    case Bump => (m, th.(localVer := v + 2, hpLocal := [], pc := Reclaiming(PhaseTest)))
    case PhaseTest => (m, if m.phase != v then Return(th) else th.(pc := Reclaiming(Flag1(0))))
    case Flag1(i) =>
      if i >= |m.rec| then (m, th.(pc := Reclaiming(ReadHp(0, 0))))
      else (m, th.(pc := Reclaiming(if m.rec[i].tag >= v then Flag1(i + 1) else Flag1Cas(i, m.rec[i]))))
    case Flag1Cas(i, before) => (FlagCas(m, i, before, v), th.(pc := Reclaiming(Flag2(i))))
    case Flag2(i) =>
      if i >= |m.rec| then (m, th)
      else (m, th.(pc := Reclaiming(if m.rec[i].tag >= v then Flag1(i + 1) else Flag2Cas(i, m.rec[i]))))
    case Flag2Cas(i, before) => (FlagCas(m, i, before, v), th.(pc := Reclaiming(Flag1(i + 1))))
    case ReadHp(i, j) =>
      if i >= |m.rec| then (m, th.(pc := Marking(Clear({}))))
      else if j >= HPS then (m, th.(pc := Reclaiming(ReadHp(i + 1, 0))))
      else
        var found := if m.hps[i][j] != 0 then [m.hps[i][j]] else [];
        (m, th.(hpLocal := th.hpLocal + found, pc := Reclaiming(ReadHp(i, j + 1))))
  }

  /** CAS on a mark word. */
  function WordCas(m: Shared, w: nat, before: MarkWord, after: MarkWord): Shared {
    if w < |m.words| && m.words[w] == before then m.(words := m.words[w := after]) else m
  }

  /** clearMarks (in any order of the words), the marking CASes of trace, and resetSweepCounter. */
  function MarkStep(m: Shared, th: Thread, pc: MarkPc, a: Action): (Shared, Thread)
    requires Shape(m)
  {
    var v := th.localVer;
    match pc
    case Clear(done) =>
      if forall w :: 0 <= w < |m.words| ==> w in done then (m, th.(pc := Marking(Trace)))
      else if a.pick >= |m.words| then (m, th)
      else if m.words[a.pick].tag >= v then (m, th.(pc := Marking(Clear(done + {a.pick}))))
      else (m, th.(pc := Marking(ClearCas(done, a.pick, m.words[a.pick]))))
    case ClearCas(done, w, before) => (WordCas(m, w, before, MarkWord(v, {})), th.(pc := Marking(Clear(done))))
    case Trace =>
      if a.flag then (m, th.(pc := Marking(ResetRead)))
      else if a.pick >= |m.words| || a.bit >= BITS then (m, th)
      else if a.bit in m.words[a.pick].bits || m.words[a.pick].tag != v then (m, th)
      else (m, th.(pc := Marking(MarkCas(a.pick, a.bit, m.words[a.pick]))))
    case MarkCas(w, bit, before) =>
      (WordCas(m, w, before, before.(bits := before.bits + {bit})), th.(pc := Marking(Trace)))
    case ResetRead =>
      (m, th.(pc := Marking(if m.sc.phase >= v then SweepAssert
                            else if m.sc.phase != v - 2 then AssertionFailed
                            else ResetCas(m.sc))))
    case ResetCas(before) =>
      if m.sc == before then (m.(sc := SweepWord(v, 0)), th.(pc := Marking(SweepAssert)))
      else (m, th.(pc := Marking(ResetRead)))
    case SweepAssert =>
      (m, if m.sc.phase < v then th.(pc := Marking(AssertionFailed)) else th.(cache := Empty, pc := Sweeping(Claim)))
    case AssertionFailed => (m, th)
  }

  /** sweep, process_sweep_page, setAsFree and pReturnCache. */
  function SweepStep(m: Shared, th: Thread, pc: SweepPc, a: Action): (Shared, Thread)
    requires Shape(m)
  {
    match pc
    case Claim =>
      if m.sc.phase == th.localVer && m.sc.counter < m.pages then (m, th.(pc := Sweeping(ClaimCas(m.sc))))
      else (m, if th.cache.Filling? then th.(pc := Sweeping(PushRead(None))) else Return(th))
    case ClaimCas(before) =>
      if m.sc == before then
        (m.(sc := before.(counter := before.counter + 1)),
         th.(pc := Sweeping(ReadWord(before.counter, FirstWord(before.counter)))))
      else (m, th.(pc := Sweeping(Claim)))
    case ReadWord(page, k) =>
      if k >= WORDS_PER_PAGE || page * WORDS_PER_PAGE + k >= |m.words| then (m, th.(pc := Sweeping(Claim)))
      else (m, th.(pc := Sweeping(Bit(Cursor(page, k, 0, m.words[page * WORDS_PER_PAGE + k])))))
    case Bit(at) => (m, BitStep(th, at))
    case PushRead(next) =>
      (m, if m.headVer != th.localVer then Resume(th, next) else th.(pc := Sweeping(PushCas(next))))
    case PushCas(next) =>
      if m.headVer == th.localVer && a.flag && th.cache.Filling? then
        (m.(pushed := m.pushed + set x | x in th.cache.items), Resume(th, next))
      else (m, th.(pc := Sweeping(PushRead(next))))
  }

  /** One turn of the bit loop: a free object joins the cache, after a full cache has been pushed. */
  function BitStep(th: Thread, at: Cursor): Thread {
    if at.bit >= BITS then th.(pc := Sweeping(ReadWord(at.page, at.k + 1)))
    else if at.bit in at.read.bits then th.(pc := Sweeping(Bit(at.(bit := at.bit + 1))))
    else if th.cache.Filling? && |th.cache.items| >= ENTRIES_PER_CACHE then th.(pc := Sweeping(PushRead(Some(at))))
    else
      var slot := FreeSlot(at.page * WORDS_PER_PAGE + at.k, at.bit, at.read);
      var items := if th.cache.Filling? then th.cache.items + [slot] else [slot];
      th.(cache := Filling(items), pc := Sweeping(Bit(at.(bit := at.bit + 1))))
  }

  /** After pReturnCache, whether it pushed the cache or gave it up. */
  function Resume(th: Thread, next: Option<Cursor>): Thread {
    match next
    case Some(at) => th.(cache := Empty, pc := Sweeping(Bit(at)))
    case None => Return(th)
  }
}
