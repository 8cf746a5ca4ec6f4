/** What the phase protocol guarantees after every schedule of any number of threads. */
module AoaPhaseTheorems {
  import opened Common
  import opened Runs
  import opened AoaPhases
  import Inv = AoaPhaseInvariant

  ghost predicate OnePhaseBehind(tag: nat, phase: nat) {
    tag == phase || tag + 2 == phase
  }

  /** The pool version, the sweep counter, every dirty record and every mark word carry the current phase or the one
      before; no thread is ahead of the phase; neither assertion of the collector fails. */
  lemma OnePhaseLag(n: nat, pages: nat, sched: seq<Action>)
    ensures var s := After(Step, Init(n, pages), sched);
      && OnePhaseBehind(s.mem.headVer, s.mem.phase)
      && OnePhaseBehind(s.mem.sc.phase, s.mem.phase)
      && (forall w :: 0 <= w < |s.mem.words| ==> OnePhaseBehind(s.mem.words[w].tag, s.mem.phase))
      && (forall i :: 0 <= i < |s.mem.rec| ==> OnePhaseBehind(s.mem.rec[i].tag, s.mem.phase))
      && (forall t :: 0 <= t < |s.thr| ==> s.thr[t].localVer <= s.mem.phase && s.thr[t].pc != Marking(AssertionFailed))
  {
    Inv.ReachableInv(n, pages, sched);
    var s := After(Step, Init(n, pages), sched);
    TagsAreRecent(s.mem);
    assert forall t :: 0 <= t < |s.thr| ==> Inv.Fits(s.mem, s.thr[t], s.mem.rec[t]);
  }

  lemma TagsAreRecent(m: Shared)
    requires Inv.Bounds(m)
    ensures OnePhaseBehind(m.headVer, m.phase) && OnePhaseBehind(m.sc.phase, m.phase)
    ensures forall w :: 0 <= w < |m.words| ==> OnePhaseBehind(m.words[w].tag, m.phase)
    ensures forall i :: 0 <= i < |m.rec| ==> OnePhaseBehind(m.rec[i].tag, m.phase)
  {
    forall w | 0 <= w < |m.words| ensures OnePhaseBehind(m.words[w].tag, m.phase) {
      assert Inv.Lags(m.words[w].tag, m);
    }
    forall i | 0 <= i < |m.rec| ensures OnePhaseBehind(m.rec[i].tag, m.phase) {
      assert Inv.Lags(m.rec[i].tag, m);
    }
  }

  /** Past its flagging loop: collecting hazard pointers, clearing, tracing or sweeping. */
  predicate Flagged(pc: PC) {
    pc.Marking? || pc.Sweeping? || (pc.Reclaiming? && pc.rp.ReadHp?)
  }

  /** Step k of the schedule raises record i to at least p, with its flag, while the phase is at least p. */
  ghost predicate RaisesFlag(init: State, sched: seq<Action>, k: nat, i: nat, p: nat)
    requires k < |sched|
  {
    var s, s' := After(Step, init, sched[..k]), After(Step, init, sched[..k + 1]);
    && i < |s.mem.rec| && i < |s'.mem.rec|
    && s.mem.rec[i].tag < p <= s'.mem.rec[i].tag && s'.mem.rec[i].dirty && p <= s.mem.phase
  }

  /** A record reaches a tag only by a step that raises its flag too. */
  lemma {:induction false} TagsComeWithFlags(n: nat, pages: nat, sched: seq<Action>, i: nat, p: nat)
    requires i < n && 0 < p && i < |After(Step, Init(n, pages), sched).mem.rec|
    requires p <= After(Step, Init(n, pages), sched).mem.rec[i].tag
    ensures exists k :: 0 <= k < |sched| && RaisesFlag(Init(n, pages), sched, k, i, p)
  {
    var init := Init(n, pages);
    if sched != [] {
      var last := |sched| - 1;
      var before, a := sched[..last], sched[last];
      var s := After(Step, init, before);
      Inv.ReachableInv(n, pages, before);
      Inv.ReachableInv(n, pages, sched);
      AfterSnoc(Step, init, sched, last);
      assert sched[..last + 1] == sched;
      StepMoves(s, a);
      if p <= s.mem.rec[i].tag {
        TagsComeWithFlags(n, pages, before, i, p);
        RaisedBefore(init, before, sched, i, p);
      } else {
        RaiserIsCurrent(s, a, i);
        assert RaisesFlag(init, sched, last, i, p);
      }
    }
  }

  lemma RaisedBefore(init: State, before: seq<Action>, sched: seq<Action>, i: nat, p: nat)
    requires before <= sched && exists k :: 0 <= k < |before| && RaisesFlag(init, before, k, i, p)
    ensures exists k :: 0 <= k < |sched| && RaisesFlag(init, sched, k, i, p)
  {
    var k :| 0 <= k < |before| && RaisesFlag(init, before, k, i, p);
    assert before[..k] == sched[..k] && before[..k + 1] == sched[..k + 1];
    assert RaisesFlag(init, sched, k, i, p);
  }

  lemma StepMoves(s: State, a: Action)
    requires Inv.Inv(s)
    ensures Inv.Moves(s.mem, Step(s, a).mem, a.tid)
  {
    if a.tid < |s.thr| {
      Inv.ThreadKeeps(s.mem, a.tid, s.thr[a.tid], a);
    }
  }

  lemma RaiserIsCurrent(s: State, a: Action, i: nat)
    requires Inv.Inv(s) && i < |s.mem.rec|
    requires i < |Step(s, a).mem.rec| && s.mem.rec[i].tag < Step(s, a).mem.rec[i].tag
    ensures Step(s, a).mem.rec[i].tag <= s.mem.phase && Step(s, a).mem.rec[i].dirty
  {
    Inv.StepKeeps(s, a);
    StepMoves(s, a);
    assert Inv.RecMoves(s.mem.rec[i], Step(s, a).mem.rec[i], i == a.tid);
    assert Inv.Fits(s.mem, s.thr[a.tid], s.mem.rec[a.tid]);
  }

  /** When a collector's flagging loop is over, every record has reached its phase p, and did so by a step that raised
      the flag during phase p or later: two CAS attempts per record are enough. */
  lemma TwoAttemptsSuffice(n: nat, pages: nat, sched: seq<Action>, c: nat, i: nat)
    requires c < n && i < n
    requires var s := After(Step, Init(n, pages), sched);
      c < |s.thr| && Flagged(s.thr[c].pc) && 0 < s.thr[c].localVer
    ensures var s := After(Step, Init(n, pages), sched);
      && |s.mem.rec| == n && s.thr[c].localVer <= s.mem.rec[i].tag
      && exists k :: 0 <= k < |sched| && RaisesFlag(Init(n, pages), sched, k, i, s.thr[c].localVer)
  {
    var s := After(Step, Init(n, pages), sched);
    Inv.ReachableInv(n, pages, sched);
    ThreadCount(n, pages, sched);
    AllFlagged(s, c, i);
    TagsComeWithFlags(n, pages, sched, i, s.thr[c].localVer);
  }

  lemma AllFlagged(s: State, c: nat, i: nat)
    requires Inv.Inv(s) && c < |s.thr| && i < |s.mem.rec| && Flagged(s.thr[c].pc) && 0 < s.thr[c].localVer
    ensures s.thr[c].localVer <= s.mem.rec[i].tag
  {
    assert Inv.Fits(s.mem, s.thr[c], s.mem.rec[c]);
  }

  lemma {:induction false} ThreadCount(n: nat, pages: nat, sched: seq<Action>)
    ensures var s := After(Step, Init(n, pages), sched); |s.thr| == n && |s.mem.rec| == n
  {
    Inv.ReachableInv(n, pages, sched);
    if sched != [] {
      ThreadCount(n, pages, sched[..|sched| - 1]);
    }
  }

  /** A FENCE_CHECK that passes after palloc finds a node, popped at the version that the thread's record carries;
      a NULL never gets past it. */
  lemma NoStaleAllocation(n: nat, pages: nat, sched: seq<Action>, a: Action)
    requires var s := After(Step, Init(n, pages), sched);
      && a.tid < |s.thr| && s.thr[a.tid].pc == Operating(Fence)
      && Step(s, a).thr[a.tid].pc == Operating(Guarded)
    ensures var s := After(Step, Init(n, pages), sched);
      var th := s.thr[a.tid];
      && th.node != NullNode
      && (th.node.Fresh? ==> a.tid < |s.mem.rec| && s.mem.rec[a.tid].tag == th.localVer == th.node.ver)
  {
    var s := After(Step, Init(n, pages), sched);
    Inv.ReachableInv(n, pages, sched);
    assert Inv.Fits(s.mem, s.thr[a.tid], s.mem.rec[a.tid]);
  }

  /** The guarded CAS is never reached with a NULL node. */
  lemma NullIsDiscarded(n: nat, pages: nat, sched: seq<Action>, t: nat)
    requires var s := After(Step, Init(n, pages), sched); t < |s.thr| && s.thr[t].node == NullNode
    ensures var s := After(Step, Init(n, pages), sched);
      t < |s.mem.rec| && s.mem.rec[t].dirty && s.thr[t].pc != Operating(Guarded)
  {
    var s := After(Step, Init(n, pages), sched);
    Inv.ReachableInv(n, pages, sched);
    assert Inv.Fits(s.mem, s.thr[t], s.mem.rec[t]);
  }

  /** Thread t passes its FENCE_CHECK at step j and has not made its guarded CAS since. */
  ghost predicate PassedAt(init: State, sched: seq<Action>, t: nat, j: nat) {
    && j < |sched|
    && (forall i :: j <= i <= |sched| ==> t < |After(Step, init, sched[..i]).thr| == |After(Step, init, sched[..i]).mem.rec|)
    && After(Step, init, sched[..j]).thr[t].pc == Operating(Fence)
    && forall i :: j < i <= |sched| ==> After(Step, init, sched[..i]).thr[t].pc == Operating(Guarded)
  }

  /** Thread t is at its FENCE_CHECK with this tag in its record, or past it and remembers the tag. */
  predicate FencedWith(s: State, t: nat, tag: nat) {
    && t < |s.thr| == |s.mem.rec|
    && (if s.thr[t].pc == Operating(Fence) then s.mem.rec[t].tag == tag
        else s.thr[t].pc == Operating(Guarded) && s.thr[t].seen == tag)
  }

  predicate IsGuarded(s: State, t: nat) {
    t < |s.thr| == |s.mem.rec| && s.thr[t].pc == Operating(Guarded)
  }

  lemma GuardStep(s: State, a: Action, t: nat, tag: nat)
    requires FencedWith(s, t, tag) && IsGuarded(Step(s, a), t)
    ensures FencedWith(Step(s, a), t, tag)
  {}

  /** Until the guarded CAS, seen remembers the tag of the record at the passed FENCE_CHECK. */
  lemma GuardRemembersFence(n: nat, pages: nat, sched: seq<Action>, t: nat, j: nat)
    requires PassedAt(Init(n, pages), sched, t, j)
    ensures var s := After(Step, Init(n, pages), sched);
      && t < |s.thr| && s.thr[t].pc == Operating(Guarded)
      && s.thr[t].seen == After(Step, Init(n, pages), sched[..j]).mem.rec[t].tag
  {
    var tag := After(Step, Init(n, pages), sched[..j]).mem.rec[t].tag;
    forall s, a | FencedWith(s, t, tag) && IsGuarded(Step(s, a), t) ensures FencedWith(Step(s, a), t, tag) { GuardStep(s, a, t, tag); }
    HoldsSince(Step, s => true, s => FencedWith(s, t, tag), s => IsGuarded(s, t), Init(n, pages), sched, j);
    assert sched[..|sched|] == sched;
  }

  // ---------------------------------------------------------------- what an attempt has read and published

  /** On the way back to the start of the operation, after seeing the flag. */
  predicate Restarting(th: Thread) {
    match th.pc
    case Operating(pc) => Inv.Warned(pc) || pc.ClearFlag?
    case _ => th.ret == ToHelp
  }

  predicate Publishing(pc: PC) {
    pc.Operating? && ((pc.op.Publish? && 0 < pc.op.j) || pc.op.Fence? || pc.op.Guarded?)
  }

  /** A pointer that may be published was read with the tag that the thread has seen last; it is lost in a restart.  The
      new node of a guarded thread is of the version it has seen last. */
  ghost predicate HeldOk(th: Thread) {
    && (forall x :: x in th.held ==> x.stamp == th.seen)
    && (Restarting(th) && th.pc != Operating(SawFlag) ==> th.held == [])
    && (Publishing(th.pc) ==> forall k :: 0 <= k < |th.pub| ==> PubOk(th, th.pub[k]))
    && (th.pc == Operating(Guarded) && th.node.Fresh? ==> th.seen == th.localVer)
  }

  /** A published pointer was read from the list, or is the new node, or NULL. */
  ghost predicate PubOk(th: Thread, p: Pub) {
    if p.stamp.Some? then Held(p.ptr, p.stamp.value) in th.held else p.ptr == 0 || th.node.Fresh?
  }

  /** From the first hazard pointer to the guarded CAS, what the attempt has published stands in the thread's slots. */
  ghost predicate Stands(m: Shared, t: nat, th: Thread) {
    && t < |m.hps| && |m.hps[t]| == HPS && HeldOk(th)
    && (Publishing(th.pc) ==>
        && |th.pub| == (if th.pc.op.Publish? then th.pc.op.j else HPS) && |th.pub| <= HPS
        && forall k :: 0 <= k < |th.pub| ==> th.pub[k].ptr == m.hps[t][k])
  }

  lemma OperationStands(m: Shared, t: nat, th: Thread, pc: OpPc, a: Action)
    requires Inv.Ready(m, t, th) && th.pc == Operating(pc) && Stands(m, t, th)
    ensures var (m', th') := OperationStep(m, t, th, pc, a); Stands(m', t, th')
  {
    if pc.Publish? { PublishStands(m, t, th, pc, a); }
  }

  lemma PublishStands(m: Shared, t: nat, th: Thread, pc: OpPc, a: Action)
    requires Shape(m) && t < |m.rec| && th.pc == Operating(pc) && pc.Publish? && Stands(m, t, th)
    ensures var (m', th') := OperationStep(m, t, th, pc, a); Stands(m', t, th')
  {}

  lemma CollectorStands(m: Shared, t: nat, th: Thread, a: Action)
    requires Shape(m) && t < |m.rec| && !th.pc.Operating? && Stands(m, t, th)
    ensures var (m', th') := ThreadStep(m, t, th, a);
      && m'.hps == m.hps && th'.held == th.held && th'.seen == th.seen && !Publishing(th'.pc) && th'.pc != Operating(Guarded)
      && (Restarting(th') ==> Restarting(th))
  {
    match th.pc
    case Reclaiming(_) =>
    case Marking(_) =>
    case Sweeping(_) =>
  }

  lemma OwnStands(m: Shared, t: nat, th: Thread, a: Action)
    requires Inv.Ready(m, t, th) && Stands(m, t, th)
    ensures Stands(ThreadStep(m, t, th, a).0, t, ThreadStep(m, t, th, a).1)
  {
    if th.pc.Operating? {
      OperationStands(m, t, th, th.pc.op, a);
    } else {
      CollectorStands(m, t, th, a);
    }
  }

  ghost predicate AllStand(s: State) {
    Inv.Inv(s) && forall t :: 0 <= t < |s.thr| ==> Stands(s.mem, t, s.thr[t])
  }

  lemma AllStandKept(s: State, a: Action)
    requires AllStand(s)
    ensures AllStand(Step(s, a))
  {
    Inv.StepKeeps(s, a);
    StepMoves(s, a);
    if a.tid < |s.thr| {
      assert Inv.Fits(s.mem, s.thr[a.tid], s.mem.rec[a.tid]);
      OwnStands(s.mem, a.tid, s.thr[a.tid], a);
    }
  }

  /** At the FENCE_CHECK and at the guarded CAS the thread's hazard pointers are the pointers it has published, and those
      of them that it read from the list it read with the tag that it has seen last. */
  lemma PublishedStands(n: nat, pages: nat, sched: seq<Action>, t: nat)
    requires t < |After(Step, Init(n, pages), sched).thr|
    ensures Stands(After(Step, Init(n, pages), sched).mem, t, After(Step, Init(n, pages), sched).thr[t])
  {
    Inv.InitInv(n, pages);
    forall s, a | AllStand(s) ensures AllStand(Step(s, a)) { AllStandKept(s, a); }
    InvariantHolds(Step, AllStand, Init(n, pages), sched);
  }

  /** A thread that passed its FENCE_CHECK before its flag was raised for phase p and has not yet made its guarded CAS,
      and a collector of phase p that has read all hazard pointers: the collector holds every pointer the thread
      published. */
  lemma HandshakeSound(n: nat, pages: nat, sched: seq<Action>, c: nat, t: nat, j: nat)
    requires PassedAt(Init(n, pages), sched, t, j)
    requires var s := After(Step, Init(n, pages), sched);
      && c < |s.thr| && (s.thr[c].pc.Marking? || s.thr[c].pc.Sweeping?)
      && After(Step, Init(n, pages), sched[..j]).mem.rec[t].tag < s.thr[c].localVer
    ensures var s := After(Step, Init(n, pages), sched);
      && t < |s.thr| && |s.thr[t].pub| == HPS
      && forall k :: 0 <= k < HPS && s.thr[t].pub[k].ptr != 0 ==> s.thr[t].pub[k].ptr in s.thr[c].hpLocal
  {
    var s := After(Step, Init(n, pages), sched);
    Inv.ReachableInv(n, pages, sched);
    GuardRemembersFence(n, pages, sched, t, j);
    PublishedStands(n, pages, sched, t);
    assert Inv.Covered(s, c, t);
  }

  // ---------------------------------------------------------------- the other half of the handshake

  predicate HasSeen(s: State, t: nat, tag: nat) {
    t < |s.thr| && s.thr[t].seen == tag
  }

  predicate InAttempt(s: State, t: nat) {
    t < |s.thr| && !Restarting(s.thr[t])
  }

  lemma OwnAttempt(m: Shared, t: nat, th: Thread, a: Action)
    requires Inv.Ready(m, t, th) && !Restarting(th) && !Restarting(ThreadStep(m, t, th, a).1)
    ensures ThreadStep(m, t, th, a).1.seen == th.seen
  {
    match th.pc
    case Operating(_) =>
    case Reclaiming(_) =>
    case Marking(_) =>
    case Sweeping(_) =>
  }

  lemma AttemptStep(s: State, a: Action, t: nat, tag: nat)
    requires Inv.Inv(s) && InAttempt(s, t) && HasSeen(s, t, tag) && InAttempt(Step(s, a), t)
    ensures HasSeen(Step(s, a), t, tag)
  {
    if a.tid == t {
      assert Inv.Fits(s.mem, s.thr[t], s.mem.rec[t]);
      OwnAttempt(s.mem, t, s.thr[t], a);
    }
  }

  /** From one restart to the next, through any number of CHECKs, allocations, passed FENCE_CHECKs and CASes, a thread
      clears no flag. */
  lemma AttemptKeepsSeen(n: nat, pages: nat, sched: seq<Action>, k: nat, t: nat)
    requires k <= |sched| && forall i :: k <= i <= |sched| ==> InAttempt(After(Step, Init(n, pages), sched[..i]), t)
    ensures var s := After(Step, Init(n, pages), sched[..k]);
      t < |s.thr| && HasSeen(After(Step, Init(n, pages), sched), t, s.thr[t].seen)
  {
    var tag := After(Step, Init(n, pages), sched[..k]).thr[t].seen;
    Inv.InitInv(n, pages);
    forall s, a | Inv.Inv(s) ensures Inv.Inv(Step(s, a)) { Inv.StepKeeps(s, a); }
    forall s: State, a | Inv.Inv(s) && (InAttempt(s, t) && HasSeen(s, t, tag)) && InAttempt(Step(s, a), t)
      ensures HasSeen(Step(s, a), t, tag) {
      AttemptStep(s, a, t, tag);
    }
    HoldsSince(Step, Inv.Inv, (s: State) => InAttempt(s, t) && HasSeen(s, t, tag), (s: State) => InAttempt(s, t), Init(n, pages), sched, k);
  }

  /** Thread t clears its flag while its record carries this tag. */
  ghost function Clears(t: nat, tag: nat): (State, Action) -> bool {
    (s: State, a: Action) =>
      a.tid == t && t < |s.mem.rec| && s.mem.rec[t].tag == tag && t < |Step(s, a).mem.rec| && Step(s, a).mem.rec[t] == DirtyWord(tag, false)
      && HasSeen(Step(s, a), t, tag) && !HasSeen(s, t, tag)
  }

  lemma OwnSeen(m: Shared, t: nat, th: Thread, a: Action)
    requires Inv.Ready(m, t, th)
    ensures var (m', th') := ThreadStep(m, t, th, a);
      th'.seen == th.seen || (th'.seen == m.rec[t].tag && t < |m'.rec| && m'.rec[t] == DirtyWord(m.rec[t].tag, false))
  {
    match th.pc
    case Operating(_) =>
    case Reclaiming(_) =>
    case Marking(_) =>
    case Sweeping(_) =>
  }

  lemma SeenByClearing(s: State, a: Action, t: nat, tag: nat)
    requires Inv.Inv(s) && HasSeen(Step(s, a), t, tag)
    ensures HasSeen(s, t, tag) || Clears(t, tag)(s, a)
  {
    if a.tid == t {
      assert Inv.Fits(s.mem, s.thr[t], s.mem.rec[t]);
      OwnSeen(s.mem, t, s.thr[t], a);
    }
  }

  /** What a thread has seen of the phase it has seen by clearing its flag. */
  lemma SeenIsCleared(n: nat, pages: nat, sched: seq<Action>, t: nat, tag: nat)
    requires 0 < tag && HasSeen(After(Step, Init(n, pages), sched), t, tag)
    ensures Happens(Step, Clears(t, tag), Init(n, pages), sched, 0)
  {
    Inv.InitInv(n, pages);
    forall s, a | Inv.Inv(s) ensures Inv.Inv(Step(s, a)) { Inv.StepKeeps(s, a); }
    forall s: State, a | Inv.Inv(s) && HasSeen(Step(s, a), t, tag) ensures HasSeen(s, t, tag) || Clears(t, tag)(s, a) {
      SeenByClearing(s, a, t, tag);
    }
    HasCause(Step, Inv.Inv, (s: State) => HasSeen(s, t, tag), Clears(t, tag), Init(n, pages), sched);
  }

  /** When a FENCE_CHECK passes although the record has been raised to a new tag, the owner had cleared that flag before
      any moment of the attempt. */
  lemma LateCheckHasRestarted(n: nat, pages: nat, sched: seq<Action>, k: nat, t: nat, j: nat)
    requires k <= j && PassedAt(Init(n, pages), sched, t, j)
    requires forall i :: k <= i <= |sched| ==> InAttempt(After(Step, Init(n, pages), sched[..i]), t)
    ensures var tag := After(Step, Init(n, pages), sched[..j]).mem.rec[t].tag;
      && HasSeen(After(Step, Init(n, pages), sched[..k]), t, tag)
      && (0 < tag ==> Happens(Step, Clears(t, tag), Init(n, pages), sched[..k], 0))
  {
    var tag := After(Step, Init(n, pages), sched[..j]).mem.rec[t].tag;
    AttemptKeepsSeen(n, pages, sched, k, t);
    GuardRemembersFence(n, pages, sched, t, j);
    assert sched[..|sched|] == sched;
    if 0 < tag { SeenIsCleared(n, pages, sched[..k], t, tag); }
  }

  ghost predicate Holding(s: State, t: nat, x: Held) {
    t < |s.thr| && x in s.thr[t].held
  }

  /** Thread t reads this pointer from the list, having seen this tag last. */
  ghost function Reads(t: nat, x: Held): (State, Action) -> bool {
    (s: State, a: Action) =>
      a.tid == t && t < |s.thr| && s.thr[t].pc == Operating(Start) && a.pick == 2 && x == Held(a.ptr, s.thr[t].seen)
  }

  lemma HeldByReading(s: State, a: Action, t: nat, x: Held)
    requires Holding(Step(s, a), t, x)
    ensures Holding(s, t, x) || Reads(t, x)(s, a)
  {
    if a.tid == t && t < |s.thr| {
      match s.thr[t].pc
      case Operating(_) =>
      case Reclaiming(_) =>
      case Marking(_) =>
      case Sweeping(_) =>
    }
  }

  /** What a thread holds it has read from the list. */
  lemma HeldIsRead(n: nat, pages: nat, sched: seq<Action>, t: nat, x: Held)
    requires Holding(After(Step, Init(n, pages), sched), t, x)
    ensures Happens(Step, Reads(t, x), Init(n, pages), sched, 0)
  {
    forall s: State, a | Holding(Step(s, a), t, x) ensures Holding(s, t, x) || Reads(t, x)(s, a) { HeldByReading(s, a, t, x); }
    HasCause(Step, (s: State) => true, (s: State) => Holding(s, t, x), Reads(t, x), Init(n, pages), sched);
  }

  /** Thread t has read pointer p from the list by step l, having cleared a flag of tag v or more before. */
  ghost predicate ReadSince(init: State, sched: seq<Action>, t: nat, p: Ptr, v: nat, l: nat, tag: nat) {
    && l < |sched| && v <= tag
    && Reads(t, Held(p, tag))(After(Step, init, sched[..l]), sched[l])
    && Happens(Step, Clears(t, tag), init, sched[..l], 0)
  }

  /** The handshake.  A thread that has passed its FENCE_CHECK and has its guarded CAS still to make, and a collector of
      phase p that has collected the hazard pointers: every pointer that the thread published is NULL, or among those
      collected, or the new node, which then comes from a pool of version p or later and is of the thread's own version, or
      it was read from the list after the thread had cleared a flag of phase p or later. */
  lemma Handshake(n: nat, pages: nat, sched: seq<Action>, c: nat, t: nat, j: nat, k: nat)
    requires PassedAt(Init(n, pages), sched, t, j) && k < HPS
    requires var s := After(Step, Init(n, pages), sched);
      c < |s.thr| && (s.thr[c].pc.Marking? || s.thr[c].pc.Sweeping?) && 0 < s.thr[c].localVer
    ensures var s := After(Step, Init(n, pages), sched);
      && t < |s.thr| && |s.thr[t].pub| == HPS
      && var p := s.thr[t].pub[k];
         || p.ptr == 0 || p.ptr in s.thr[c].hpLocal
         || (p.stamp.None? && s.thr[t].node.Fresh? && s.thr[c].localVer <= s.thr[t].node.ver == s.thr[t].localVer)
         || exists l: nat, tag: nat :: ReadSince(Init(n, pages), sched, t, p.ptr, s.thr[c].localVer, l, tag)
  {
    var s := After(Step, Init(n, pages), sched);
    var tag := After(Step, Init(n, pages), sched[..j]).mem.rec[t].tag;
    GuardRemembersFence(n, pages, sched, t, j);
    PublishedStands(n, pages, sched, t);
    if tag < s.thr[c].localVer {
      HandshakeSound(n, pages, sched, c, t, j);
    } else if s.thr[t].pub[k].stamp.None? {
      Inv.ReachableInv(n, pages, sched);
      assert PubOk(s.thr[t], s.thr[t].pub[k]) && Inv.Fits(s.mem, s.thr[t], s.mem.rec[t]);
    } else {
      ReadAfterClearing(n, pages, sched, t, s.thr[t].pub[k].ptr, tag);
      var l: nat :| ReadSince(Init(n, pages), sched, t, s.thr[t].pub[k].ptr, tag, l, tag);
      assert ReadSince(Init(n, pages), sched, t, s.thr[t].pub[k].ptr, s.thr[c].localVer, l, tag);
    }
  }

  lemma ReadAfterClearing(n: nat, pages: nat, sched: seq<Action>, t: nat, p: Ptr, tag: nat)
    requires 0 < tag && Holding(After(Step, Init(n, pages), sched), t, Held(p, tag))
    ensures exists l: nat :: ReadSince(Init(n, pages), sched, t, p, tag, l, tag)
  {
    HeldIsRead(n, pages, sched, t, Held(p, tag));
    var l :| 0 <= l < |sched| && Reads(t, Held(p, tag))(After(Step, Init(n, pages), sched[..l]), sched[l]);
    SeenIsCleared(n, pages, sched[..l], t, tag);
    assert ReadSince(Init(n, pages), sched, t, p, tag, l, tag);
  }

  /** Every object pushed on the pool at its current version was read as unmarked from a word of that version. */
  lemma PooledWereUnmarked(n: nat, pages: nat, sched: seq<Action>, x: FreeSlot)
    requires x in After(Step, Init(n, pages), sched).mem.pushed
    ensures x.read.tag == After(Step, Init(n, pages), sched).mem.headVer && x.bit !in x.read.bits
  {
    Inv.ReachableInv(n, pages, sched);
  }

  /** A word that a later phase has cleared means that the pool has moved on, so that a sweeper still at the earlier
      version pushes nothing more. */
  lemma NewerWordClosesPool(n: nat, pages: nat, sched: seq<Action>, a: Action, w: nat)
    requires var s := After(Step, Init(n, pages), sched);
      && a.tid < |s.thr| && w < |s.mem.words| && s.thr[a.tid].localVer < s.mem.words[w].tag
      && s.thr[a.tid].pc.Sweeping?
    ensures var s := After(Step, Init(n, pages), sched);
      s.thr[a.tid].localVer < s.mem.headVer && Step(s, a).mem.pushed == s.mem.pushed
  {
    Inv.ReachableInv(n, pages, sched);
    var s := After(Step, Init(n, pages), sched);
    assert Inv.Lags(s.mem.words[w].tag, s.mem);
  }

  /** Mark words only grow: a step leaves a word alone, or replaces it by an empty word with a larger tag, or adds one
      bit and keeps the tag; the new word always carries the phase of the thread that moves. */
  lemma WordsOnlyGrow(n: nat, pages: nat, sched: seq<Action>, a: Action, w: nat)
    requires w < |After(Step, Init(n, pages), sched).mem.words|
    ensures var s := After(Step, Init(n, pages), sched);
      var s' := Step(s, a);
      && |s'.mem.words| == |s.mem.words|
      && var x, y := s.mem.words[w], s'.mem.words[w];
         x == y ||
         (a.tid < |s.thr| && y.tag == s.thr[a.tid].localVer
          && if x.tag == y.tag then exists b :: b !in x.bits && y.bits == x.bits + {b} else x.tag < y.tag && y.bits == {})
  {
    Inv.ReachableInv(n, pages, sched);
    var s := After(Step, Init(n, pages), sched);
    if a.tid < |s.thr| {
      var th := s.thr[a.tid];
      assert Inv.Fits(s.mem, th, s.mem.rec[a.tid]);
      if th.pc.Marking? { MarkerGrows(s.mem, th, th.pc.mp, a, w); } else { OthersMarkNothing(s.mem, a.tid, th, a); }
    }
  }

  lemma OthersMarkNothing(m: Shared, t: nat, th: Thread, a: Action)
    requires Shape(m) && t < |m.rec| && !th.pc.Marking?
    ensures ThreadStep(m, t, th, a).0.words == m.words
  {}

  lemma MarkerGrows(m: Shared, th: Thread, pc: MarkPc, a: Action, w: nat)
    requires Shape(m) && Inv.MarkOk(m, th.localVer, pc) && w < |m.words|
    ensures var words' := MarkStep(m, th, pc, a).0.words;
      && |words'| == |m.words|
      && var x, y := m.words[w], words'[w];
         x == y ||
         (y.tag == th.localVer
          && if x.tag == y.tag then exists b :: b !in x.bits && y.bits == x.bits + {b} else x.tag < y.tag && y.bits == {})
  {
    if pc.MarkCas? && m.words[w] == pc.oldWord {
      var words' := MarkStep(m, th, pc, a).0.words;
      assert words'[w] != m.words[w] ==> pc.bit !in m.words[w].bits && words'[w].bits == m.words[w].bits + {pc.bit};
    }
  }
}
