/** The grey invariant of concurrent tracing, and what the termination test of CheckFinish may conclude from it. */
module ConcurrentMarkProofs {
  import opened Common
  import opened ObjectHeap
  import opened Runs
  import opened ConcurrentMark

  // ---------------------------------------------------------------- the invariant

  /** The object a thread has popped and not yet marked or given up. */
  function InHand(pc: PC): Option<Obj> {
    match pc
    case ReadWord(cur) => Some(cur)
    case Publish(cur, _) => Some(cur)
    case ReadChild(cur, _) => Some(cur)
    case WriteChild(cur, _, _) => Some(cur)
    case FirstMark(cur, _, _) => Some(cur)
    case Reread(cur, _) => Some(cur)
    case MarkAgain(cur, _, _) => Some(cur)
    case Commit(nxt) => nxt
    case _ => None
  }

  /** The objects a thread still has to process: its stack up to counter, and the one in hand. */
  ghost predicate Holds(th: Thread, o: Obj) {
    InHand(th.pc) == Some(o) || exists j :: 0 <= j < th.counter && At(th.stack, j) == Some(o)
  }

  ghost predicate HoldsBusy(th: Thread, o: Obj) {
    th.top.Busy? && Holds(th, o)
  }

  /** The word was read before its object was marked. */
  predicate Lacks(before: MarkWord, cur: Obj) {
    cur % BITS !in before.bits
  }

  /** What the memory of a thread must show at each point for its objects to be visible to the others. */
  ghost predicate PcOk(child: seq<Option<Obj>>, words: seq<MarkWord>, phase: nat, th: Thread) {
    match th.pc
    case ReadWord(cur) => At(th.stack, th.counter) == Some(cur) && cur < |child|
    case Publish(cur, before) =>
      && At(th.stack, th.counter) == Some(cur) && cur < |child| && before.tag == phase && Lacks(before, cur)
      && (th.published ==> Pointer(th.top) != Some(cur))
    case ReadChild(cur, before) => th.top == Busy(cur) && Lacks(before, cur) && cur < |child| && before.tag == phase
    case WriteChild(cur, before, c) => th.top == Busy(cur) && Lacks(before, cur) && cur < |child| && before.tag == phase && child[cur] == Some(c)
    case FirstMark(cur, before, nxt) =>
      th.top == Busy(cur) && Lacks(before, cur) && cur < |child| && child[cur] == nxt && before.tag == phase && (nxt.Some? ==> At(th.stack, th.counter) == nxt)
    case Reread(cur, nxt) =>
      th.top == Busy(cur) && cur < |child| && child[cur] == nxt && (nxt.Some? ==> At(th.stack, th.counter) == nxt)
    case MarkAgain(cur, before, nxt) =>
      th.top == Busy(cur) && Lacks(before, cur) && cur < |child| && child[cur] == nxt && before.tag == phase && (nxt.Some? ==> At(th.stack, th.counter) == nxt)
    case Commit(nxt) => nxt.Some? ==> At(th.stack, th.counter) == nxt
    case PushRoot(i) => i <= |th.roots| && th.counter == i && forall j :: 0 <= j < i ==> At(th.stack, j) == Some(th.roots[j])
    case Finish => th.counter == 0
    case TestSlot(_, _, ptr) => ptr < |child|
    case TakeSlot(_, _, ptr) => ptr < |child|
    case RecheckTop(_) => th.counter == 0
    case RecheckVer(_) => th.counter == 0
    case Done => th.counter == 0
    case _ => true
  }

  /** Between two objects, the published one is a marked one. */
  predicate Between(pc: PC) {
    pc.Loop? || pc.ReadWord? || pc.Publish? || pc.Commit? || pc.Abort? || pc.Finish?
  }

  predicate Tracing(pc: PC) {
    match pc
    case Loop | ReadWord(_) | Publish(_, _) | ReadChild(_, _) | WriteChild(_, _, _) | FirstMark(_, _, _) | Reread(_, _)
       | MarkAgain(_, _, _) | Commit(_) | Abort(_) | Finish => true
    case _ => false
  }

  predicate TopInHeap(child: seq<Option<Obj>>, top: Published) {
    top.Busy? ==> top.o < |child|
  }

  ghost predicate TopsOk(child: seq<Option<Obj>>, th: Thread) {
    forall i :: 0 <= i < |th.tops| ==> TopInHeap(child, th.tops[i])
  }

  predicate HasPushed(pc: PC) {
    !pc.Outside? && !pc.PushRoot? && !pc.ClearSlot? && !pc.Abandoned? && !pc.Sweep? && !pc.Left?
  }

  ghost predicate ThreadOk(child: seq<Option<Obj>>, words: seq<MarkWord>, phase: nat, th: Thread) {
    && HeapPointers(child, th) && TopsOk(child, th) && PcOk(child, words, phase, th)
    && (!th.pc.Outside? && !th.pc.ClearSlot? ==> forall j :: 0 <= j < th.counter ==> At(th.stack, j).Some?)
    && TopInHeap(child, th.top) && (th.top.Busy? ==> th.published && Tracing(th.pc))
    && (th.published && (Between(th.pc) || th.top.Finished?) && Pointer(th.top).Some? ==> Marked(words, Pointer(th.top).value))
    && (if th.pc.Outside? then th.ver < phase && !th.published else if th.pc.Left? then phase < th.ver else th.ver == phase)
    && (HasPushed(th.pc) ==> forall i :: 0 <= i < |th.roots| ==> Marked(words, th.roots[i]) || Holds(th, th.roots[i]))
  }

  /** Every child of a marked object is marked or held by a busy thread. */
  ghost predicate Accounted(s: State, c: Obj) {
    Marked(s.words, c) || exists t :: 0 <= t < |s.thr| && HoldsBusy(s.thr[t], c)
  }

  ghost predicate Grey(s: State) {
    forall o :: 0 <= o < |s.child| && Marked(s.words, o) && s.child[o].Some? ==> Accounted(s, s.child[o].value)
  }

  ghost predicate Inv(s: State) {
    && WellFormed(s.child, s.words)
    && (Overtaken(s) ||
        (Grey(s) && forall t :: 0 <= t < |s.thr| ==> ThreadOk(s.child, s.words, s.phase, s.thr[t])))
  }

  // ---------------------------------------------------------------- preservation

  /** Words only gain bits while the phase lasts. */
  ghost predicate Grows(words: seq<MarkWord>, words': seq<MarkWord>) {
    && |words'| == |words|
    && forall w :: 0 <= w < |words| ==> words[w].tag == words'[w].tag && words[w].bits <= words'[w].bits
  }

  lemma OthersStayOk(s: State, words': seq<MarkWord>, th: Thread)
    requires ThreadOk(s.child, s.words, s.phase, th) && Grows(s.words, words')
    ensures ThreadOk(s.child, words', s.phase, th)
  {}

  /** What a busy thread held it still holds, or it is marked now. */
  ghost predicate HoldsOn(th: Thread, words': seq<MarkWord>, th': Thread) {
    forall o :: HoldsBusy(th, o) ==> Marked(words', o) || HoldsBusy(th', o)
  }

  /** The only object this step can have marked has its child accounted for by this very thread. */
  ghost predicate MarksSafely(s: State, words': seq<MarkWord>, th': Thread) {
    forall o :: 0 <= o < |s.child| && Marked(words', o) && !Marked(s.words, o) && s.child[o].Some? ==>
      HoldsBusy(th', s.child[o].value)
  }

  ghost predicate Keeps(s: State, th: Thread, r: (seq<MarkWord>, Thread)) {
    Grows(s.words, r.0) && ThreadOk(s.child, r.0, s.phase, r.1) && HoldsOn(th, r.0, r.1) && MarksSafely(s, r.0, r.1)
  }

  ghost predicate Able(s: State, th: Thread) {
    WellFormed(s.child, s.words) && !Overtaken(s) && ThreadOk(s.child, s.words, s.phase, th)
  }

  /** CheckFinish reads what other threads have in their stacks. */
  ghost predicate Ready(s: State, th: Thread) {
    Able(s, th) && forall t :: 0 <= t < |s.thr| ==> HeapPointers(s.child, s.thr[t]) && TopInHeap(s.child, s.thr[t].top)
  }

  lemma PushRootKeeps(s: State, th: Thread)
    requires Able(s, th) && (th.pc.Outside? || th.pc.PushRoot?)
    ensures Keeps(s, th, ThreadStep(s, th))
  {}

  lemma LoopKeeps(s: State, th: Thread)
    requires Able(s, th) && th.pc.Loop?
    ensures Keeps(s, th, ThreadStep(s, th))
  {
    var th' := ThreadStep(s, th).1;
    assert th'.stack == th.stack && th'.top == th.top;
  }

  lemma FinishKeeps(s: State, th: Thread)
    requires Able(s, th) && th.pc.Finish?
    ensures Keeps(s, th, ThreadStep(s, th))
  {}

  /** A step of CheckFinish that reads only. */
  lemma ReadKeeps(s: State, th: Thread, th': Thread)
    requires Able(s, th) && !Tracing(th.pc) && HasPushed(th.pc) && !Tracing(th'.pc)
    requires th' == th.(vers := th'.vers, tops := th'.tops, since := th'.since, clean := th'.clean, pc := th'.pc)
    requires TopsOk(s.child, th') && PcOk(s.child, s.words, s.phase, th') && HasPushed(th'.pc)
    ensures Keeps(s, th, (s.words, th'))
  {}

  lemma FirstPassKeeps(s: State, th: Thread)
    requires Ready(s, th) && (th.pc.CheckVer? || th.pc.ReadSlot?)
    ensures Keeps(s, th, ThreadStep(s, th))
  {
    ReadKeeps(s, th, ThreadStep(s, th).1);
  }

  lemma CheckTopKeeps(s: State, th: Thread)
    requires Ready(s, th) && th.pc.CheckTop?
    ensures Keeps(s, th, ThreadStep(s, th))
  {
    ReadKeeps(s, th, ThreadStep(s, th).1);
  }

  lemma TestKeeps(s: State, th: Thread)
    requires Able(s, th) && (th.pc.TestSlot? || th.pc.TestTop? || th.pc.CheckPhase?)
    ensures Keeps(s, th, ThreadStep(s, th))
  {}

  lemma TakeKeeps(s: State, th: Thread)
    requires Able(s, th) && (th.pc.TakeSlot? || th.pc.TakeTop?)
    ensures Keeps(s, th, ThreadStep(s, th))
  {}

  lemma ClearSlotKeeps(s: State, th: Thread)
    requires Able(s, th) && th.pc.ClearSlot?
    ensures Keeps(s, th, ThreadStep(s, th))
  {}

  lemma SecondPassKeeps(s: State, th: Thread)
    requires Able(s, th) && (th.pc.RecheckTop? || th.pc.RecheckVer?)
    ensures Keeps(s, th, ThreadStep(s, th))
  {
    ReadKeeps(s, th, ThreadStep(s, th).1);
  }

  lemma ReadWordKeeps(s: State, th: Thread)
    requires Able(s, th) && th.pc.ReadWord?
    ensures Keeps(s, th, ThreadStep(s, th))
  {}

  lemma PublishKeeps(s: State, th: Thread)
    requires Able(s, th) && th.pc.Publish?
    ensures Keeps(s, th, ThreadStep(s, th))
  {}

  lemma ChildKeeps(s: State, th: Thread)
    requires Able(s, th) && (th.pc.ReadChild? || th.pc.WriteChild?)
    ensures Keeps(s, th, ThreadStep(s, th))
  {}

  /** The marking CAS, with the child already in the stack. */
  lemma MarkingKeeps(s: State, th: Thread)
    requires Able(s, th) && (th.pc.FirstMark? || th.pc.MarkAgain?)
    ensures Keeps(s, th, MarkWith(s, th, th.pc.cur, th.pc.before, th.pc.nxt))
  {
    if th.pc.cur / BITS < |s.words| && s.words[th.pc.cur / BITS] == th.pc.before { MarkedKeeps(s, th); }
  }

  lemma MarkedKeeps(s: State, th: Thread)
    requires Able(s, th) && (th.pc.FirstMark? || th.pc.MarkAgain?)
    requires th.pc.cur / BITS < |s.words| && s.words[th.pc.cur / BITS] == th.pc.before
    ensures Keeps(s, th, (WordCas(s.words, th.pc.cur, th.pc.before), th.(pc := Commit(th.pc.nxt))))
  {}

  lemma FirstMarkKeeps(s: State, th: Thread)
    requires Able(s, th) && th.pc.FirstMark?
    ensures Keeps(s, th, ThreadStep(s, th))
  {
    MarkingKeeps(s, th);
  }

  lemma RereadKeeps(s: State, th: Thread)
    requires Able(s, th) && th.pc.Reread?
    ensures Keeps(s, th, ThreadStep(s, th))
  {}

  lemma MarkAgainKeeps(s: State, th: Thread)
    requires Able(s, th) && th.pc.MarkAgain?
    ensures Keeps(s, th, ThreadStep(s, th))
  {
    MarkingKeeps(s, th);
  }

  lemma CommitKeeps(s: State, th: Thread)
    requires Able(s, th) && (th.pc.Commit? || th.pc.Abort?)
    ensures Keeps(s, th, ThreadStep(s, th))
  {}

  /** Done, abandoned and later threads are moved by SweepStep. */
  predicate Sweeping(pc: PC) {
    pc.Done? || pc.Abandoned? || pc.Sweep?
  }

  lemma ThreadKeeps(s: State, th: Thread)
    requires Ready(s, th) && !Sweeping(th.pc)
    ensures Keeps(s, th, ThreadStep(s, th))
  {
    match th.pc
    case Outside | PushRoot(_) => PushRootKeeps(s, th);
    case Loop => LoopKeeps(s, th);
    case Finish => FinishKeeps(s, th);
    case ReadWord(_) => ReadWordKeeps(s, th);
    case Publish(_, _) => PublishKeeps(s, th);
    case ReadChild(_, _) | WriteChild(_, _, _) => ChildKeeps(s, th);
    case FirstMark(_, _, _) => FirstMarkKeeps(s, th);
    case Reread(_, _) => RereadKeeps(s, th);
    case MarkAgain(_, _, _) => MarkAgainKeeps(s, th);
    case Commit(_) | Abort(_) => CommitKeeps(s, th);
    case CheckVer(_) | ReadSlot(_, _) => FirstPassKeeps(s, th);
    case CheckTop(_) => CheckTopKeeps(s, th);
    case TestSlot(_, _, _) | TestTop(_) | CheckPhase => TestKeeps(s, th);
    case TakeSlot(_, _, _) | TakeTop(_) => TakeKeeps(s, th);
    case ClearSlot(_) => ClearSlotKeeps(s, th);
    case RecheckTop(_) | RecheckVer(_) => SecondPassKeeps(s, th);
    case Left =>
  }

  lemma SweepingKeeps(s: State, th: Thread, th': Thread)
    requires Able(s, th) && Sweeping(th.pc) && th' == th.(ver := th'.ver, pc := th'.pc)
    requires th' == th || (th'.pc.Sweep? && th'.ver == th.ver) || (th'.pc.Left? && s.phase < th'.ver)
    ensures Keeps(s, th, (s.words, th'))
  {}

  /** A sweeping thread holds nothing and marks nothing. */
  lemma SweepKeeps(s: State, t: nat, choice: Choice)
    requires t < |s.thr| && Ready(s, s.thr[t]) && Sweeping(s.thr[t].pc)
    ensures var s' := SweepStep(s, t, s.thr[t], choice);
      && s'.words == s.words && |s'.thr| == |s.thr| && s'.thr == s.thr[t := s'.thr[t]]
      && Keeps(s, s.thr[t], (s.words, s'.thr[t]))
  {
    SweepingKeeps(s, s.thr[t], SweepStep(s, t, s.thr[t], choice).thr[t]);
  }

  lemma MoveKeeps(s: State, a: Action)
    requires Inv(s) && !Overtaken(s) && a.tid < |s.thr|
    ensures var s' := Step(s, a);
      && s'.child == s.child && s'.phase == s.phase && s'.moves == Counted(s.moves, a.tid) && |s'.thr| == |s.thr| && s'.thr == s.thr[a.tid := s'.thr[a.tid]]
      && Keeps(s, s.thr[a.tid], (s'.words, s'.thr[a.tid]))
  {
    if Sweeping(s.thr[a.tid].pc) {
      SweepKeeps(s, a.tid, a.choice);
    } else {
      ThreadKeeps(s, s.thr[a.tid]);
    }
  }

  lemma AccountedStays(s: State, s': State, t: nat, c: Obj)
    requires t < |s.thr| == |s'.thr| && Accounted(s, c) && s'.thr == s.thr[t := s'.thr[t]]
    requires Keeps(s, s.thr[t], (s'.words, s'.thr[t]))
    ensures Accounted(s', c)
  {
    if !Marked(s.words, c) {
      var u :| 0 <= u < |s.thr| && HoldsBusy(s.thr[u], c);
      assert Marked(s'.words, c) || HoldsBusy(s'.thr[u], c);
    }
  }

  /** A collector of a later phase ends the phase for good; everybody else's words keep their tag. */
  lemma StepKeeps(s: State, a: Action)
    requires Inv(s)
    ensures Inv(Step(s, a))
  {
    var s' := Step(s, a);
    if Overtaken(s) {
      StaysOvertaken(s, a);
    } else if a.tid < |s.thr| {
      MoveKeeps(s, a);
      forall t | 0 <= t < |s.thr| ensures ThreadOk(s.child, s'.words, s.phase, s'.thr[t]) {
        OthersStayOk(s, s'.words, s.thr[t]);
      }
      forall o | 0 <= o < |s.child| && Marked(s'.words, o) && s.child[o].Some?
        ensures Accounted(s', s.child[o].value)
      {
        if Marked(s.words, o) {
          AccountedStays(s, s', a.tid, s.child[o].value);
        } else {
          assert HoldsBusy(s'.thr[a.tid], s.child[o].value);
        }
      }
    } else {
      LaterKeeps(s, a.choice);
    }
  }

  lemma LaterKeeps(s: State, choice: Choice)
    requires Inv(s)
    ensures Inv(LaterStep(s, choice))
  {
    var s' := LaterStep(s, choice);
    if s'.words != s.words { assert s'.words[choice.w].tag != s'.phase; }
  }

  lemma StaysOvertaken(s: State, a: Action)
    requires Overtaken(s)
    ensures Overtaken(Step(s, a))
  {
    var w :| 0 <= w < |s.words| && s.words[w].tag != s.phase;
    var s' := Step(s, a);
    assert |s'.words| == |s.words| && s'.words[w].tag != s'.phase;
  }

  lemma ReachableInv(init: State, sched: seq<Action>)
    requires Initial(init)
    ensures Inv(After(Step, init, sched))
  {
    assert Grey(init);
    forall r: State, a | Inv(r) ensures Inv(Step(r, a)) { StepKeeps(r, a); }
    InvariantHolds(Step, r => Inv(r), init, sched);
  }

  // ---------------------------------------------------------------- termination detection

  /** What a busy thread holds, the others can see. */
  lemma HeldIsVisible(child: seq<Option<Obj>>, words: seq<MarkWord>, phase: nat, th: Thread, o: Obj)
    requires ThreadOk(child, words, phase, th) && HoldsBusy(th, o)
    ensures Visible(th, o)
  {
    if InHand(th.pc) == Some(o) {
      if !(th.top == Busy(o)) {
        forall i | 0 <= i <= th.counter ensures i < |th.stack| && th.stack[i].Some? {
          assert At(th.stack, i).Some?;
        }
      }
    } else {
      var j :| 0 <= j < th.counter && At(th.stack, j) == Some(o);
      forall i | 0 <= i <= j ensures i < |th.stack| && th.stack[i].Some? {
        assert At(th.stack, i).Some?;
      }
    }
  }

  /** The grey invariant: as long as the phase lasts, the child of every marked object is null, marked, or visible in
      the stack of a busy thread, wherever the threads have stopped. */
  lemma GreyInvariant(init: State, sched: seq<Action>, o: Obj)
    requires Initial(init) && !Overtaken(After(Step, init, sched))
    ensures var s := After(Step, init, sched);
      o < |s.child| && Marked(s.words, o) && s.child[o].Some? ==>
        Marked(s.words, s.child[o].value) || exists t :: 0 <= t < |s.thr| && Visible(s.thr[t], s.child[o].value)
  {
    var s := After(Step, init, sched);
    ReachableInv(init, sched);
    if o < |s.child| && Marked(s.words, o) && s.child[o].Some? && !Marked(s.words, s.child[o].value) {
      var t :| 0 <= t < |s.thr| && HoldsBusy(s.thr[t], s.child[o].value);
      HeldIsVisible(s.child, s.words, s.phase, s.thr[t], s.child[o].value);
    }
  }

  ghost predicate AllVisibleMarked(s: State) {
    forall t, o :: 0 <= t < |s.thr| && Visible(s.thr[t], o) ==> Marked(s.words, o)
  }

  lemma {:induction false} ClosedBelow(child: Heap, words: seq<MarkWord>, o: Obj, k: nat)
    requires forall p :: 0 <= p < |child| && Marked(words, p) && child[p].Some? ==> Marked(words, child[p].value)
    requires Marked(words, o) && Descend(child, o, k).Some?
    ensures Marked(words, Descend(child, o, k).value)
    decreases k
  {
    if k != 0 { ClosedBelow(child, words, child[o].value, k - 1); }
  }

  lemma MarkedIsClosed(init: State, sched: seq<Action>, o: Obj, k: nat)
    requires Initial(init)
    requires var s := After(Step, init, sched);
      !Overtaken(s) && AllVisibleMarked(s) && o < |s.child| && Marked(s.words, o) && Descend(s.child, o, k).Some?
    ensures var s := After(Step, init, sched); Marked(s.words, Descend(s.child, o, k).value)
  {
    var s := After(Step, init, sched);
    forall p | 0 <= p < |s.child| && Marked(s.words, p) && s.child[p].Some? ensures Marked(s.words, s.child[p].value) {
      GreyInvariant(init, sched, p);
    }
    ClosedBelow(s.child, s.words, o, k);
  }

  /** When a thread is done with its own stack, and every entry that it can see in the stacks of busy threads is marked,
      then every object reachable from its roots and hazard pointers is marked. */
  lemma TerminationIsSound(init: State, sched: seq<Action>, t: nat, i: nat, k: nat)
    requires Initial(init)
    requires var s := After(Step, init, sched);
      && !Overtaken(s) && AllVisibleMarked(s)
      && t < |s.thr| && s.thr[t].pc.Done?
      && i < |s.thr[t].roots| && Descend(s.child, s.thr[t].roots[i], k).Some?
    ensures var s := After(Step, init, sched); Marked(s.words, Descend(s.child, s.thr[t].roots[i], k).value)
  {
    var s := After(Step, init, sched);
    ReachableInv(init, sched);
    assert ThreadOk(s.child, s.words, s.phase, s.thr[t]);
    MarkedIsClosed(init, sched, s.thr[t].roots[i], k);
  }
}
