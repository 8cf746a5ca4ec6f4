/** The inductive invariant of the phase protocol, and its preservation. */
module AoaPhaseInvariant {
  import opened Common
  import opened Runs
  import opened AoaPhases

  // ---------------------------------------------------------------- the invariant

  ghost predicate Lags(tag: nat, m: Shared) {
    tag % 2 == 0 && tag <= m.headVer && m.phase <= tag + 2
  }

  /** Every tag is the current phase or the one before. */
  ghost predicate Bounds(m: Shared) {
    && Shape(m)
    && m.phase % 2 == 0 && m.headVer % 2 == 0 && m.headVer <= m.phase <= m.headVer + 2
    && Lags(m.sc.phase, m)
    && (forall w :: 0 <= w < |m.words| ==> Lags(m.words[w].tag, m))
    && (forall i :: 0 <= i < |m.rec| ==> Lags(m.rec[i].tag, m))
  }

  ghost predicate RecsKnown(m: Shared, v: nat, k: nat) {
    k <= |m.rec| && forall i :: 0 <= i < k ==> v <= m.rec[i].tag
  }

  ghost predicate WordsKnown(m: Shared, v: nat) {
    forall w :: 0 <= w < |m.words| ==> v <= m.words[w].tag
  }

  /** The collection of phase v is over as far as the tags are concerned. */
  ghost predicate Settled(m: Shared, v: nat) {
    RecsKnown(m, v, |m.rec|) && WordsKnown(m, v) && v <= m.sc.phase
  }

  /** A collector between reading a record and its CAS: the record may have lost its flag, once, or moved on. */
  ghost predicate ReclaimOk(m: Shared, v: nat, pc: ReclaimPc) {
    match pc
    case Trigger => Settled(m, v)
    case PhaseCas => Settled(m, v)
    case HeadRead => Settled(m, v) && v + 2 <= m.phase
    case HeadCas => Settled(m, v) && v + 2 <= m.phase
    case Bump => Settled(m, v) && v + 2 <= m.headVer
    case PhaseTest => true
    case Flag1(i) => RecsKnown(m, v, i)
    case Flag1Cas(i, before) =>
      && RecsKnown(m, v, i) && i < |m.rec| && before.tag < v
      && (m.rec[i].tag >= v || m.rec[i] == before || m.rec[i] == DirtyWord(before.tag, false))
    case Flag2(i) =>
      RecsKnown(m, v, i) && i < |m.rec| && (m.rec[i].tag >= v || !m.rec[i].dirty)
    case Flag2Cas(i, before) =>
      && RecsKnown(m, v, i) && i < |m.rec| && before.tag < v && !before.dirty
      && (m.rec[i].tag >= v || m.rec[i] == before)
    case ReadHp(_, _) => RecsKnown(m, v, |m.rec|)
  }

  ghost predicate DoneKnown(m: Shared, v: nat, done: set<nat>) {
    forall w :: w in done && w < |m.words| ==> v <= m.words[w].tag
  }

  ghost predicate MarkOk(m: Shared, v: nat, pc: MarkPc) {
    match pc
    case Clear(done) => DoneKnown(m, v, done)
    case ClearCas(done, _, before) => DoneKnown(m, v, done) && before.tag < v
    case Trace => WordsKnown(m, v)
    case MarkCas(_, _, before) => WordsKnown(m, v) && before.tag == v
    case ResetRead => WordsKnown(m, v)
    case ResetCas(before) => WordsKnown(m, v) && before.phase < v
    case SweepAssert => WordsKnown(m, v) && v <= m.sc.phase
    case AssertionFailed => false
  }

  /** A word read by a sweeper of version v carries v, unless the pool has moved on. */
  ghost predicate FreeRead(m: Shared, v: nat, read: MarkWord) {
    read.tag == v || v < m.headVer
  }

  ghost predicate SweepOk(m: Shared, th: Thread, pc: SweepPc) {
    && (th.cache.Filling? ==>
        forall x :: x in th.cache.items ==> FreeRead(m, th.localVer, x.read) && x.bit !in x.read.bits)
    && match pc
       case ClaimCas(before) => before.phase == th.localVer
       case Bit(at) => FreeRead(m, th.localVer, at.read)
       case PushRead(next) => next.Some? ==> FreeRead(m, th.localVer, next.value.read)
       case PushCas(next) => next.Some? ==> FreeRead(m, th.localVer, next.value.read)
       case _ => true
  }

  /** What a thread's progress through a collection has established about the shared tags. */
  ghost predicate Progress(m: Shared, th: Thread) {
    && th.localVer % 2 == 0 && th.localVer <= m.headVer
    && match th.pc
       case Operating(_) => Settled(m, th.localVer)
       case Reclaiming(pc) => ReclaimOk(m, th.localVer, pc)
       case Marking(pc) => RecsKnown(m, th.localVer, |m.rec|) && MarkOk(m, th.localVer, pc)
       case Sweeping(pc) => Settled(m, th.localVer) && SweepOk(m, th, pc)
  }

  /** The flag has been seen, and the collection it asks for has not begun. */
  predicate Warned(pc: OpPc) {
    pc.SawFlag? || pc.Help? || pc.Unpublish?
  }

  predicate Idle(pc: OpPc) {
    pc.ClearFlag? || pc.AfterGc?
  }

  predicate HoldsNode(pc: OpPc) {
    pc.Publish? || pc.Fence? || pc.Guarded? || pc.Retract?
  }

  /** An operation that has seen no flag: its cache and its node are of its own phase, and a record that has moved on
      still carries the flag. */
  ghost predicate CalmOk(th: Thread, r: DirtyWord, pc: OpPc) {
    && (th.cache == Empty || th.cache == Popped(th.localVer))
    && (th.node != NoNode ==> HoldsNode(pc))
    && (if th.node.NullNode? then (pc.Publish? || pc.Fence?) && r.dirty && th.cache == Empty
        else
          && (th.node.Fresh? ==> th.node.ver == th.localVer)
          && (r.dirty ==> r.tag > th.localVer)
          && (th.cache.Popped? || th.node.Fresh? ==> r.tag == th.localVer || r.dirty))
    && (pc.PopCas? ==> pc.was == th.localVer)
  }

  ghost predicate OperationOk(th: Thread, r: DirtyWord, pc: OpPc) {
    if Warned(pc) then
      th.node == NoNode && (th.cache == Empty || (th.cache == Popped(th.localVer) && r.tag > th.localVer))
    else if Idle(pc) then th.node == NoNode && th.cache == Empty
    else CalmOk(th, r, pc)
  }

  /** The owner's record, its cache and its new node. */
  ghost predicate OwnerOk(th: Thread, r: DirtyWord) {
    && (r.tag == th.seen || (r.tag > th.seen && r.dirty))
    && match th.pc
       case Operating(pc) => OperationOk(th, r, pc)
       case Reclaiming(pc) => th.node == NoNode && (if pc.Trigger? then !th.cache.Filling? else th.cache == Empty)
       case Marking(pc) => th.node == NoNode && th.cache == Empty
       case Sweeping(pc) => th.node == NoNode && !th.cache.Popped?
  }

  ghost predicate Fits(m: Shared, th: Thread, r: DirtyWord) {
    Progress(m, th) && OwnerOk(th, r)
  }

  /** Has a collector at pc read slot j of thread t's hazard pointers? */
  predicate HasRead(pc: PC, t: nat, j: nat) {
    match pc
    case Operating(_) => false
    case Reclaiming(r) => r.ReadHp? && (t < r.i || (t == r.i && j < r.j))
    case Marking(_) => true
    case Sweeping(_) => true
  }

  /** Does every hazard pointer of t that c has read stand in c's list? */
  ghost predicate Collected(th: Thread, hps: seq<Ptr>, t: nat) {
    forall j :: 0 <= j < |hps| && HasRead(th.pc, t, j) ==> hps[j] == 0 || hps[j] in th.hpLocal
  }

  /** A thread between a passed FENCE_CHECK and its CAS is covered by every collector it has not yet heard of. */
  ghost predicate Covered(s: State, c: nat, t: nat)
    requires c < |s.thr| && t < |s.thr| == |s.mem.hps|
  {
    s.thr[t].pc == Operating(Guarded) && s.thr[t].seen < s.thr[c].localVer ==> Collected(s.thr[c], s.mem.hps[t], t)
  }

  ghost predicate PushedOk(m: Shared) {
    forall x :: x in m.pushed ==> x.read.tag == m.headVer && x.bit !in x.read.bits
  }

  ghost predicate Inv(s: State) {
    && Bounds(s.mem) && PushedOk(s.mem) && |s.thr| == |s.mem.rec|
    && (forall u :: 0 <= u < |s.thr| ==> Fits(s.mem, s.thr[u], s.mem.rec[u]))
    && (forall c, t :: 0 <= c < |s.thr| && 0 <= t < |s.thr| ==> Covered(s, c, t))
  }

  // ---------------------------------------------------------------- what a step may change

  ghost predicate RecMoves(r: DirtyWord, r': DirtyWord, own: bool) {
    r' == r || (r'.tag >= r.tag + 2 && r'.dirty) || (own && r' == r.(dirty := false))
  }

  /** A mark word keeps its tag and only gains bits, or gets a larger tag. */
  ghost predicate WordGrows(w: MarkWord, w': MarkWord) {
    w.tag < w'.tag || (w.tag == w'.tag && w.bits <= w'.bits)
  }

  /** What a step of thread t may do to shared memory. */
  ghost predicate Moves(m: Shared, m': Shared, t: nat) {
    && Shape(m) && Shape(m') && |m'.rec| == |m.rec| && |m'.words| == |m.words|
    && m.phase <= m'.phase && m.headVer <= m'.headVer && m.sc.phase <= m'.sc.phase
    && (forall w :: 0 <= w < |m.words| ==> WordGrows(m.words[w], m'.words[w]))
    && (forall i :: 0 <= i < |m.rec| ==> RecMoves(m.rec[i], m'.rec[i], i == t))
    && (forall u :: 0 <= u < |m.rec| && u != t ==> m'.hps[u] == m.hps[u])
  }

  lemma OthersStayOk(m: Shared, m': Shared, t: nat, u: nat, th: Thread)
    requires Bounds(m) && Bounds(m') && Moves(m, m', t)
    requires u < |m.rec| && u != t && Fits(m, th, m.rec[u])
    ensures Fits(m', th, m'.rec[u])
  {
    assert RecMoves(m.rec[u], m'.rec[u], false);
    assert forall w :: 0 <= w < |m.words| ==> WordGrows(m.words[w], m'.words[w]) && m.words[w].tag <= m'.words[w].tag;
  }

  ghost predicate Keeps(m: Shared, t: nat, r: (Shared, Thread))
    requires t < |m.rec|
  {
    Moves(m, r.0, t) && Bounds(r.0) && PushedOk(r.0) && Fits(r.0, r.1, r.0.rec[t])
  }

  ghost predicate Ready(m: Shared, t: nat, th: Thread) {
    Bounds(m) && PushedOk(m) && t < |m.rec| && Fits(m, th, m.rec[t])
  }

  lemma CheckKeeps(m: Shared, t: nat, th: Thread, pc: OpPc, a: Action)
    requires Ready(m, t, th) && th.pc == Operating(pc) && (pc.Start? || pc.Help?)
    ensures Keeps(m, t, OperationStep(m, t, th, pc, a))
  {}

  lemma ClearFlagKeeps(m: Shared, t: nat, th: Thread, pc: OpPc, a: Action)
    requires Ready(m, t, th) && th.pc == Operating(pc) && (pc.SawFlag? || pc.ClearFlag?)
    ensures Keeps(m, t, OperationStep(m, t, th, pc, a))
  {}

  lemma PallocKeeps(m: Shared, t: nat, th: Thread, pc: OpPc, a: Action)
    requires Ready(m, t, th) && th.pc == Operating(pc) && (pc.Palloc? || pc.PopRead? || pc.PopCas? || pc.AfterGc?)
    ensures Keeps(m, t, OperationStep(m, t, th, pc, a))
  {}

  lemma FenceKeeps(m: Shared, t: nat, th: Thread, pc: OpPc, a: Action)
    requires Ready(m, t, th) && th.pc == Operating(pc) && (pc.Fence? || pc.Guarded?)
    ensures Keeps(m, t, OperationStep(m, t, th, pc, a))
  {}

  lemma PublishKeeps(m: Shared, t: nat, th: Thread, pc: OpPc, a: Action)
    requires Ready(m, t, th) && th.pc == Operating(pc) && pc.Publish?
    ensures Keeps(m, t, OperationStep(m, t, th, pc, a))
  {}

  lemma RetractKeeps(m: Shared, t: nat, th: Thread, pc: OpPc, a: Action)
    requires Ready(m, t, th) && th.pc == Operating(pc) && (pc.Unpublish? || pc.Retract?)
    ensures Keeps(m, t, OperationStep(m, t, th, pc, a))
  {}

  predicate InHead(pc: ReclaimPc) {
    pc.Trigger? || pc.PhaseCas? || pc.HeadRead? || pc.HeadCas? || pc.Bump? || pc.PhaseTest?
  }

  lemma HeadKeeps(m: Shared, t: nat, th: Thread, pc: ReclaimPc, a: Action)
    requires Ready(m, t, th) && th.pc == Reclaiming(pc) && InHead(pc)
    ensures Keeps(m, t, ReclaimStep(m, t, th, pc, a))
  {}

  lemma FlagReadKeeps(m: Shared, t: nat, th: Thread, pc: ReclaimPc, a: Action)
    requires Ready(m, t, th) && th.pc == Reclaiming(pc) && pc.Flag1?
    ensures Keeps(m, t, ReclaimStep(m, t, th, pc, a))
  {}

  lemma FlagRereadKeeps(m: Shared, t: nat, th: Thread, pc: ReclaimPc, a: Action)
    requires Ready(m, t, th) && th.pc == Reclaiming(pc) && pc.Flag2?
    ensures Keeps(m, t, ReclaimStep(m, t, th, pc, a))
  {}

  lemma ReadHpKeeps(m: Shared, t: nat, th: Thread, pc: ReclaimPc, a: Action)
    requires Ready(m, t, th) && th.pc == Reclaiming(pc) && pc.ReadHp?
    ensures Keeps(m, t, ReclaimStep(m, t, th, pc, a))
  {}

  lemma Flag1CasKeeps(m: Shared, t: nat, th: Thread, pc: ReclaimPc, a: Action)
    requires Ready(m, t, th) && th.pc == Reclaiming(pc) && pc.Flag1Cas?
    ensures Keeps(m, t, ReclaimStep(m, t, th, pc, a))
  {}

  lemma Flag2CasKeeps(m: Shared, t: nat, th: Thread, pc: ReclaimPc, a: Action)
    requires Ready(m, t, th) && th.pc == Reclaiming(pc) && pc.Flag2Cas?
    ensures Keeps(m, t, ReclaimStep(m, t, th, pc, a))
  {}

  lemma ClearKeeps(m: Shared, t: nat, th: Thread, pc: MarkPc, a: Action)
    requires Ready(m, t, th) && th.pc == Marking(pc) && (pc.Clear? || pc.ClearCas?)
    ensures Keeps(m, t, MarkStep(m, th, pc, a))
  {}

  lemma TraceKeeps(m: Shared, t: nat, th: Thread, pc: MarkPc, a: Action)
    requires Ready(m, t, th) && th.pc == Marking(pc) && (pc.Trace? || pc.MarkCas?)
    ensures Keeps(m, t, MarkStep(m, th, pc, a))
  {}

  lemma ResetKeeps(m: Shared, t: nat, th: Thread, pc: MarkPc, a: Action)
    requires Ready(m, t, th) && th.pc == Marking(pc) && (pc.ResetRead? || pc.ResetCas? || pc.SweepAssert? || pc.AssertionFailed?)
    ensures Keeps(m, t, MarkStep(m, th, pc, a))
  {}

  lemma ClaimKeeps(m: Shared, t: nat, th: Thread, pc: SweepPc, a: Action)
    requires Ready(m, t, th) && th.pc == Sweeping(pc) && (pc.Claim? || pc.ReadWord?)
    ensures Keeps(m, t, SweepStep(m, th, pc, a))
  {}

  lemma ClaimCasKeeps(m: Shared, t: nat, th: Thread, pc: SweepPc, a: Action)
    requires Ready(m, t, th) && th.pc == Sweeping(pc) && pc.ClaimCas?
    ensures Keeps(m, t, SweepStep(m, th, pc, a))
  {}

  lemma BitKeeps(m: Shared, t: nat, th: Thread, pc: SweepPc, a: Action)
    requires Ready(m, t, th) && th.pc == Sweeping(pc) && pc.Bit?
    ensures Keeps(m, t, SweepStep(m, th, pc, a))
  {}

  lemma PushKeeps(m: Shared, t: nat, th: Thread, pc: SweepPc, a: Action)
    requires Ready(m, t, th) && th.pc == Sweeping(pc) && (pc.PushRead? || pc.PushCas?)
    ensures Keeps(m, t, SweepStep(m, th, pc, a))
  {}

  lemma OperationKeeps(m: Shared, t: nat, th: Thread, pc: OpPc, a: Action)
    requires Ready(m, t, th) && th.pc == Operating(pc)
    ensures Keeps(m, t, OperationStep(m, t, th, pc, a))
  {
    match pc
    case Fence | Guarded => FenceKeeps(m, t, th, pc, a);
    case Publish(_) => PublishKeeps(m, t, th, pc, a);
    case Unpublish(_) | Retract(_) => RetractKeeps(m, t, th, pc, a);
    case Start | Help => CheckKeeps(m, t, th, pc, a);
    case SawFlag | ClearFlag => ClearFlagKeeps(m, t, th, pc, a);
    case _ => PallocKeeps(m, t, th, pc, a);
  }

  lemma ReclaimKeeps(m: Shared, t: nat, th: Thread, pc: ReclaimPc, a: Action)
    requires Ready(m, t, th) && th.pc == Reclaiming(pc)
    ensures Keeps(m, t, ReclaimStep(m, t, th, pc, a))
  {
    match pc
    case Flag1(_) => FlagReadKeeps(m, t, th, pc, a);
    case Flag2(_) => FlagRereadKeeps(m, t, th, pc, a);
    case Flag1Cas(_, _) => Flag1CasKeeps(m, t, th, pc, a);
    case Flag2Cas(_, _) => Flag2CasKeeps(m, t, th, pc, a);
    case ReadHp(_, _) => ReadHpKeeps(m, t, th, pc, a);
    case _ => HeadKeeps(m, t, th, pc, a);
  }

  lemma MarkKeeps(m: Shared, t: nat, th: Thread, pc: MarkPc, a: Action)
    requires Ready(m, t, th) && th.pc == Marking(pc)
    ensures Keeps(m, t, MarkStep(m, th, pc, a))
  {
    match pc
    case Clear(_) | ClearCas(_, _, _) => ClearKeeps(m, t, th, pc, a);
    case Trace | MarkCas(_, _, _) => TraceKeeps(m, t, th, pc, a);
    case _ => ResetKeeps(m, t, th, pc, a);
  }

  lemma SweepKeeps(m: Shared, t: nat, th: Thread, pc: SweepPc, a: Action)
    requires Ready(m, t, th) && th.pc == Sweeping(pc)
    ensures Keeps(m, t, SweepStep(m, th, pc, a))
  {
    match pc
    case PushRead(_) | PushCas(_) => PushKeeps(m, t, th, pc, a);
    case Bit(_) => BitKeeps(m, t, th, pc, a);
    case ClaimCas(_) => ClaimCasKeeps(m, t, th, pc, a);
    case _ => ClaimKeeps(m, t, th, pc, a);
  }

  lemma ThreadKeeps(m: Shared, t: nat, th: Thread, a: Action)
    requires Ready(m, t, th)
    ensures Keeps(m, t, ThreadStep(m, t, th, a))
  {
    match th.pc
    case Operating(pc) => OperationKeeps(m, t, th, pc, a);
    case Reclaiming(pc) => ReclaimKeeps(m, t, th, pc, a);
    case Marking(pc) => MarkKeeps(m, t, th, pc, a);
    case Sweeping(pc) => SweepKeeps(m, t, th, pc, a);
  }

  /** A collector's own step keeps its list complete. */
  lemma CollectorKeepsList(m: Shared, c: nat, th: Thread, a: Action, t: nat)
    requires Shape(m) && c < |m.rec| && t < |m.rec|
    ensures var th' := ThreadStep(m, c, th, a).1;
      (if th.localVer == th'.localVer then Collected(th, m.hps[t], t) else true) ==> Collected(th', m.hps[t], t)
  {
    match th.pc
    case Operating(_) =>
    case Reclaiming(_) =>
    case Marking(_) =>
    case Sweeping(_) =>
  }

  /** A passed FENCE_CHECK has heard of every collector that has begun to read hazard pointers. */
  lemma FencePassedIsHeard(m: Shared, t: nat, collector: Thread)
    requires Shape(m) && t < |m.rec| && Progress(m, collector) && m.rec[t].tag < collector.localVer
    ensures forall hps :: Collected(collector, hps, t)
  {}

  lemma OnlyFenceGuards(m: Shared, t: nat, th: Thread, a: Action)
    requires Shape(m) && t < |m.rec| && ThreadStep(m, t, th, a).1.pc == Operating(Guarded)
    ensures th.pc == Operating(Fence) && ThreadStep(m, t, th, a).1.seen == m.rec[t].tag
  {}

  lemma StepKeeps(s: State, a: Action)
    requires Inv(s)
    ensures Inv(Step(s, a))
  {
    if a.tid < |s.thr| {
      var t, th := a.tid, s.thr[a.tid];
      var m' := ThreadStep(s.mem, t, th, a).0;
      var s' := Step(s, a);
      ThreadKeeps(s.mem, t, th, a);
      forall u | 0 <= u < |s.thr|
        ensures Fits(s'.mem, s'.thr[u], s'.mem.rec[u])
      {
        if u != t { OthersStayOk(s.mem, m', t, u, s.thr[u]); }
      }
      forall c, u | 0 <= c < |s.thr| && 0 <= u < |s.thr|
        ensures Covered(s', c, u)
      {
        assert Covered(s, c, u);
        if u == t {
          if c != t && s'.thr[t].pc == Operating(Guarded) { 
            OnlyFenceGuards(s.mem, t, th, a);
            if s'.thr[t].seen < s.thr[c].localVer { FencePassedIsHeard(s.mem, t, s.thr[c]); }
          }
        } else if c == t {
          CollectorKeepsList(s.mem, c, th, a, u);
        }
      }
    }
  }

  lemma InitInv(n: nat, pages: nat)
    ensures Inv(Init(n, pages))
  {}

  lemma ReachableInv(n: nat, pages: nat, sched: seq<Action>)
    ensures Inv(After(Step, Init(n, pages), sched))
  {
    InitInv(n, pages);
    forall r: State, a | Inv(r) ensures Inv(Step(r, a)) { StepKeeps(r, a); }
    InvariantHolds(Step, r => Inv(r), Init(n, pages), sched);
  }
}
