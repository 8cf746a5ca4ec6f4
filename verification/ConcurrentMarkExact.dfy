/** When concurrent marking marks nothing but what the threads' roots and hazard pointers reach. */
module ConcurrentMarkExact {
  import opened Common
  import opened ObjectHeap
  import opened Runs
  import opened ConcurrentMark
  import opened ConcurrentMarkProofs
  import opened ConcurrentMarkFinish

  // ---------------------------------------------------------------- staying within a set of objects

  ghost predicate Closed(child: Heap, within: iset<Obj>) {
    forall o: Obj :: o in within && o < |child| && child[o].Some? ==> child[o].value in within
  }

  ghost predicate EntryIn(within: iset<Obj>, x: Option<Obj>) {
    x.Some? ==> x.value in within
  }

  ghost predicate TopIn(within: iset<Obj>, top: Published) {
    top.Busy? ==> top.o in within
  }

  ghost predicate NextIn(within: iset<Obj>, th: Thread, nxt: Option<Obj>) {
    nxt.Some? ==> nxt.value in within && At(th.stack, th.counter) == nxt
  }

  /** The objects that the next steps of a thread work with. */
  ghost predicate PcIn(within: iset<Obj>, th: Thread) {
    match th.pc
    case PushRoot(i) => i <= |th.roots| && th.counter == i
    case ReadWord(cur) => cur in within
    case Publish(cur, _) => cur in within
    case ReadChild(cur, _) => cur in within
    case WriteChild(cur, _, c) => cur in within && c in within
    case FirstMark(cur, _, nxt) => cur in within && NextIn(within, th, nxt)
    case Reread(cur, nxt) => cur in within && NextIn(within, th, nxt)
    case MarkAgain(cur, _, nxt) => cur in within && NextIn(within, th, nxt)
    case Commit(nxt) => NextIn(within, th, nxt)
    case TestSlot(_, _, ptr) => ptr in within
    case TakeSlot(_, _, ptr) => ptr in within
    case _ => true
  }

  /** What a thread uses itself: its stack only up to counter. */
  ghost predicate Own(within: iset<Obj>, th: Thread) {
    && (forall i :: 0 <= i < |th.roots| ==> th.roots[i] in within)
    && (!th.pc.Outside? ==> forall j: nat :: j < th.counter ==> EntryIn(within, At(th.stack, j)))
    && PcIn(within, th) && TopIn(within, th.top)
    && (forall i :: 0 <= i < |th.tops| ==> TopIn(within, th.tops[i]))
  }

  /** What another thread may see in its stack. */
  ghost predicate Slots(within: iset<Obj>, th: Thread) {
    forall j: nat :: EntryIn(within, At(th.stack, j))
  }

  ghost predicate MarksIn(within: iset<Obj>, words: seq<MarkWord>) {
    forall o: Obj :: Marked(words, o) ==> o in within
  }

  ghost predicate StaysIn(within: iset<Obj>, th: Thread, r: (seq<MarkWord>, Thread)) {
    MarksIn(within, r.0) && Own(within, r.1) && (Slots(within, th) ==> Slots(within, r.1))
  }

  ghost predicate Inside(s: State, th: Thread, within: iset<Obj>) {
    Closed(s.child, within) && MarksIn(within, s.words) && Own(within, th)
  }

  lemma MarkingStaysIn(s: State, th: Thread, cur: Obj, before: MarkWord, nxt: Option<Obj>, within: iset<Obj>)
    requires Inside(s, th, within) && !th.pc.Outside? && cur in within && NextIn(within, th, nxt)
    ensures StaysIn(within, th, MarkWith(s, th, cur, before, nxt))
  {
    var words := MarkWith(s, th, cur, before, nxt).0;
    forall o: Obj | Marked(words, o) ensures o in within {
      if !Marked(s.words, o) { assert o / BITS == cur / BITS && o % BITS == cur % BITS; }
    }
  }

  lemma StartStaysIn(s: State, th: Thread, within: iset<Obj>)
    requires Inside(s, th, within)
    requires th.pc.ReadWord? || th.pc.Publish? || th.pc.ReadChild? || th.pc.WriteChild?
    ensures StaysIn(within, th, TraceStep(s, th))
  {}

  lemma EndStaysIn(s: State, th: Thread, within: iset<Obj>)
    requires Inside(s, th, within) && (th.pc.Reread? || th.pc.Commit? || th.pc.Abort?)
    ensures StaysIn(within, th, TraceStep(s, th))
  {}

  lemma TraceStaysIn(s: State, th: Thread, within: iset<Obj>)
    requires Inside(s, th, within)
    ensures StaysIn(within, th, TraceStep(s, th))
  {
    match th.pc
    case FirstMark(cur, before, nxt) => MarkingStaysIn(s, th, cur, before, nxt, within);
    case MarkAgain(cur, before, nxt) => MarkingStaysIn(s, th, cur, before, nxt, within);
    case ReadWord(_) | Publish(_, _) | ReadChild(_, _) | WriteChild(_, _, _) => StartStaysIn(s, th, within);
    case Reread(_, _) | Commit(_) | Abort(_) => EndStaysIn(s, th, within);
    case _ =>
  }

  /** A step that leaves stack and published object alone. */
  lemma RestStaysIn(within: iset<Obj>, th: Thread, th': Thread)
    requires Own(within, th) && !th.pc.Outside? && PcIn(within, th')
    requires th'.roots == th.roots && th'.stack == th.stack && th'.counter == th.counter && th'.top == th.top
    requires forall i :: 0 <= i < |th'.tops| ==> TopIn(within, th'.tops[i])
    ensures Own(within, th') && (Slots(within, th) ==> Slots(within, th'))
  {}

  lemma PassStaysIn(s: State, th: Thread, within: iset<Obj>)
    requires Inside(s, th, within) && forall u :: 0 <= u < |s.thr| ==> TopIn(within, s.thr[u].top)
    requires th.pc.ReadSlot? ==> forall u :: 0 <= u < |s.thr| ==> Slots(within, s.thr[u])
    ensures StaysIn(within, th, (s.words, ReadStep(s, th)))
  {
    if !th.pc.Outside? { RestStaysIn(within, th, ReadStep(s, th)); }
  }

  lemma TakeStaysIn(s: State, th: Thread, within: iset<Obj>)
    requires Inside(s, th, within) && Passing(th.pc)
    ensures StaysIn(within, th, (s.words, TakeStep(s, th)))
  {
    if th.pc.TestSlot? || th.pc.TestTop? { RestStaysIn(within, th, TakeStep(s, th)); }
  }

  lemma RecheckStaysIn(s: State, th: Thread, within: iset<Obj>)
    requires Inside(s, th, within) && Passed(th.pc)
    ensures StaysIn(within, th, (s.words, RecheckStep(s, th)))
  {
    RestStaysIn(within, th, RecheckStep(s, th));
  }

  lemma ClearStaysIn(s: State, th: Thread, within: iset<Obj>)
    requires Inside(s, th, within) && (th.pc.CheckPhase? || th.pc.ClearSlot?)
    ensures StaysIn(within, th, (s.words, CheckStep(s, th)))
  {}

  lemma CheckStaysIn(s: State, th: Thread, within: iset<Obj>)
    requires Inside(s, th, within) && forall u :: 0 <= u < |s.thr| ==> TopIn(within, s.thr[u].top)
    requires th.pc.ReadSlot? ==> forall u :: 0 <= u < |s.thr| ==> Slots(within, s.thr[u])
    ensures StaysIn(within, th, (s.words, CheckStep(s, th)))
  {
    if th.pc.CheckVer? || th.pc.CheckTop? || th.pc.ReadSlot? {
      PassStaysIn(s, th, within);
    } else if Passing(th.pc) {
      TakeStaysIn(s, th, within);
    } else if Passed(th.pc) {
      RecheckStaysIn(s, th, within);
    } else if th.pc.CheckPhase? || th.pc.ClearSlot? {
      ClearStaysIn(s, th, within);
    }
  }

  lemma ThreadStaysIn(s: State, th: Thread, within: iset<Obj>)
    requires Inside(s, th, within) && forall u :: 0 <= u < |s.thr| ==> TopIn(within, s.thr[u].top)
    requires th.pc.ReadSlot? ==> forall u :: 0 <= u < |s.thr| ==> Slots(within, s.thr[u])
    ensures StaysIn(within, th, ThreadStep(s, th))
  {
    if th.pc.Outside? || th.pc.PushRoot? {
      EntryStaysIn(s, th, within);
    } else if Tracing(th.pc) {
      TraceStaysIn(s, th, within);
    } else {
      CheckStaysIn(s, th, within);
    }
  }

  lemma EntryStaysIn(s: State, th: Thread, within: iset<Obj>)
    requires Inside(s, th, within) && (th.pc.Outside? || th.pc.PushRoot?)
    ensures StaysIn(within, th, ThreadStep(s, th))
  {}

  // ---------------------------------------------------------------- threads that see no stack but their own

  predicate BlindThread(th: Thread) {
    && !th.pc.ReadSlot? && !th.pc.TestSlot? && !th.pc.TakeSlot? && !th.pc.TakeTop?
    && (forall i :: 0 <= i < |th.tops| ==> th.tops[i].Finished?)
    && (th.top.Busy? ==> Tracing(th.pc))
  }

  /** Nobody ever finds another thread busy: there is one thread only, or nobody has anything to publish. */
  ghost predicate Blind(s: State, within: iset<Obj>) {
    && (forall t :: 0 <= t < |s.thr| ==> BlindThread(s.thr[t]))
    && (|s.thr| > 1 ==> forall t :: 0 <= t < |s.thr| ==> s.thr[t].top.Finished? && forall o: Obj :: o !in within)
  }

  lemma PassStaysBlind(s: State, t: nat, within: iset<Obj>)
    requires t < |s.thr| && Blind(s, within)
    ensures var th' := ReadStep(s, s.thr[t]); BlindThread(th') && th'.top == s.thr[t].top
  {
    var th := s.thr[t];
    if th.pc.CheckTop? && th.pc.i < |s.thr| { assert |s.thr| == 1 ==> th.pc.i == t; }
  }

  lemma CheckStaysBlind(s: State, t: nat, within: iset<Obj>)
    requires t < |s.thr| && Blind(s, within)
    ensures var th' := CheckStep(s, s.thr[t]); BlindThread(th') && th'.top == s.thr[t].top
  {
    PassStaysBlind(s, t, within);
  }

  lemma TraceStepStaysBlind(s: State, th: Thread, within: iset<Obj>)
    requires BlindThread(th) && Own(within, th) && Tracing(th.pc) && !th.pc.Loop? && !th.pc.Finish?
    ensures var th' := TraceStep(s, th).1; BlindThread(th') && (th'.top == th.top || exists o :: o in within)
  {}

  lemma TraceStaysBlind(s: State, t: nat, within: iset<Obj>)
    requires t < |s.thr| && Blind(s, within) && Own(within, s.thr[t]) && Tracing(s.thr[t].pc)
    ensures var th' := ThreadStep(s, s.thr[t]).1; BlindThread(th') && (|s.thr| > 1 ==> th'.top.Finished?)
  {
    if !s.thr[t].pc.Loop? && !s.thr[t].pc.Finish? { TraceStepStaysBlind(s, s.thr[t], within); }
  }

  lemma StaysBlind(s: State, t: nat, within: iset<Obj>)
    requires t < |s.thr| && Blind(s, within) && Own(within, s.thr[t])
    ensures var th' := ThreadStep(s, s.thr[t]).1; BlindThread(th') && (|s.thr| > 1 ==> th'.top.Finished?)
  {
    if Tracing(s.thr[t].pc) { TraceStaysBlind(s, t, within); } else { CheckStaysBlind(s, t, within); }
  }

  /** No thread has anything outside the set, but for slots of its stack that nobody will read. */
  ghost predicate Confined(s: State, within: iset<Obj>) {
    && Closed(s.child, within) && MarksIn(within, s.words)
    && (forall t :: 0 <= t < |s.thr| ==> Own(within, s.thr[t]))
    && (Blind(s, within) || forall t :: 0 <= t < |s.thr| ==> Slots(within, s.thr[t]))
  }

  lemma MoveConfined(s: State, a: Action, within: iset<Obj>)
    requires Confined(s, within) && a.tid < |s.thr| && !Sweeping(s.thr[a.tid].pc)
    ensures Confined(Step(s, a), within)
  {
    var s' := Step(s, a);
    ThreadStaysIn(s, s.thr[a.tid], within);
    if Blind(s, within) {
      StaysBlind(s, a.tid, within);
      assert Blind(s', within);
    }
  }

  lemma SweepConfined(s: State, a: Action, within: iset<Obj>)
    requires Confined(s, within) && a.tid < |s.thr| && Sweeping(s.thr[a.tid].pc)
    ensures Confined(Step(s, a), within)
  {
    var s' := Step(s, a);
    SweeperOnlySweeps(s, a);
    RestStaysIn(within, s.thr[a.tid], s'.thr[a.tid]);
    if Blind(s, within) { assert Blind(s', within); }
  }

  lemma SweeperOnlySweeps(s: State, a: Action)
    requires a.tid < |s.thr| && Sweeping(s.thr[a.tid].pc)
    ensures var s' := Step(s, a);
      && s'.child == s.child && s'.words == s.words && |s'.thr| == |s.thr| && s'.thr == s.thr[a.tid := s'.thr[a.tid]]
      && OnlySweeps(s.thr[a.tid], s'.thr[a.tid])
  {}

  predicate OnlySweeps(th: Thread, th': Thread) {
    th' == th.(ver := th'.ver, pc := th'.pc) && (th'.pc == th.pc || th'.pc.Sweep? || th'.pc.Left?)
  }

  lemma LaterConfined(s: State, choice: Choice, within: iset<Obj>)
    requires Confined(s, within)
    ensures Confined(LaterStep(s, choice), within)
  {
    var s' := LaterStep(s, choice);
    forall o: Obj | Marked(s'.words, o) ensures Marked(s.words, o) {}
  }

  lemma StepConfined(s: State, a: Action, within: iset<Obj>)
    requires Confined(s, within)
    ensures Confined(Step(s, a), within)
  {
    if a.tid >= |s.thr| {
      LaterConfined(s, a.choice, within);
    } else if Sweeping(s.thr[a.tid].pc) {
      SweepConfined(s, a, within);
    } else {
      MoveConfined(s, a, within);
    }
  }

  lemma RunConfined(init: State, sched: seq<Action>, within: iset<Obj>)
    requires Confined(init, within)
    ensures Confined(After(Step, init, sched), within)
  {
    forall s: State, a | Confined(s, within) ensures Confined(Step(s, a), within) { StepConfined(s, a, within); }
    InvariantHolds(Step, s => Confined(s, within), init, sched);
  }

  /** A set of objects that is closed under children and holds all roots and everything left over in the stacks holds
      everything that is ever marked. */
  lemma MarkedStaysWithin(init: State, sched: seq<Action>, within: iset<Obj>, o: Obj)
    requires Initial(init) && Closed(init.child, within)
    requires forall t :: 0 <= t < |init.thr| ==> forall i :: 0 <= i < |init.thr[t].roots| ==> init.thr[t].roots[i] in within
    requires forall t :: 0 <= t < |init.thr| ==> Slots(within, init.thr[t])
    ensures Marked(After(Step, init, sched).words, o) ==> o in within
  {
    RunConfined(init, sched, within);
  }

  // ---------------------------------------------------------------- what the roots of all threads reach

  function RootsOf(thr: seq<Thread>): seq<seq<Obj>> {
    seq(|thr|, t requires 0 <= t < |thr| => thr[t].roots)
  }

  ghost predicate FromAny(child: Heap, roots: seq<seq<Obj>>, o: Obj) {
    exists t :: 0 <= t < |roots| && FromRoots(child, roots[t], o)
  }

  ghost function Reach(child: Heap, roots: seq<seq<Obj>>): iset<Obj> {
    iset o: Obj | FromAny(child, roots, o)
  }

  lemma {:induction false} DescendFurther(child: Heap, o: Obj, k: nat, p: Obj)
    requires Descend(child, o, k) == Some(p) && p < |child|
    ensures Descend(child, o, k + 1) == child[p]
    decreases k
  {
    if k > 0 {
      DescendFurther(child, child[o].value, k - 1, p);
    } else if child[o].Some? {
      assert Descend(child, child[o].value, 0) == child[o];
    }
  }

  lemma RootsAreClosed(child: Heap, roots: seq<Obj>)
    ensures Closed(child, iset o: Obj | FromRoots(child, roots, o))
  {
    forall o: Obj | FromRoots(child, roots, o) && o < |child| && child[o].Some? ensures FromRoots(child, roots, child[o].value) {
      var i, k: nat :| 0 <= i < |roots| && Descend(child, roots[i], k) == Some(o);
      DescendFurther(child, roots[i], k, o);
    }
  }

  lemma ReachIsClosed(child: Heap, roots: seq<seq<Obj>>)
    ensures Closed(child, Reach(child, roots))
  {
    forall o: Obj | FromAny(child, roots, o) && o < |child| && child[o].Some? ensures FromAny(child, roots, child[o].value) {
      var t :| 0 <= t < |roots| && FromRoots(child, roots[t], o);
      RootsAreClosed(child, roots[t]);
    }
  }

  lemma ReachHoldsRoots(child: Heap, roots: seq<seq<Obj>>, t: nat, i: nat)
    requires t < |roots| && i < |roots[t]|
    ensures roots[t][i] in Reach(child, roots)
  {
    assert Descend(child, roots[t][i], 0) == Some(roots[t][i]);
    assert FromRoots(child, roots[t], roots[t][i]);
  }

  lemma InitIsOwn(init: State)
    requires Initial(init)
    ensures var within := Reach(init.child, RootsOf(init.thr));
      && Closed(init.child, within) && MarksIn(within, init.words)
      && forall t :: 0 <= t < |init.thr| ==> Own(within, init.thr[t])
  {
    var within := Reach(init.child, RootsOf(init.thr));
    ReachIsClosed(init.child, RootsOf(init.thr));
    forall t, i | 0 <= t < |init.thr| && 0 <= i < |init.thr[t].roots| ensures init.thr[t].roots[i] in within {
      ReachHoldsRoots(init.child, RootsOf(init.thr), t, i);
    }
  }

  /** Every object that earlier phases left in a stack is reachable from the roots or hazard pointers of some thread. */
  ghost predicate LeftoversReached(s: State) {
    forall t :: 0 <= t < |s.thr| ==> Slots(Reach(s.child, RootsOf(s.thr)), s.thr[t])
  }

  /** If everything left over in the stacks is reachable from some thread's roots or hazard pointers, then so is everything
      that is ever marked, whatever the threads do. */
  lemma MarksReachableOnly(init: State, sched: seq<Action>, o: Obj)
    requires Initial(init) && LeftoversReached(init)
    ensures Marked(After(Step, init, sched).words, o) ==> FromAny(init.child, RootsOf(init.thr), o)
  {
    InitIsOwn(init);
    RunConfined(init, sched, Reach(init.child, RootsOf(init.thr)));
  }

  lemma RootsStay(init: State, sched: seq<Action>)
    ensures var s := After(Step, init, sched); s.child == init.child && RootsOf(s.thr) == RootsOf(init.thr)
  {
    forall s: State, a | s.child == init.child && RootsOf(s.thr) == RootsOf(init.thr)
      ensures var s' := Step(s, a); s'.child == init.child && RootsOf(s'.thr) == RootsOf(init.thr) {
      StepKeepsRoots(s, a);
    }
    InvariantHolds(Step, (s: State) => s.child == init.child && RootsOf(s.thr) == RootsOf(init.thr), init, sched);
  }

  lemma CheckKeepsRoots(s: State, th: Thread)
    ensures CheckStep(s, th).roots == th.roots
  {}

  lemma TraceKeepsRoots(s: State, th: Thread)
    ensures TraceStep(s, th).1.roots == th.roots
  {}

  lemma StepKeepsRoots(s: State, a: Action)
    ensures Step(s, a).child == s.child && RootsOf(Step(s, a).thr) == RootsOf(s.thr)
  {
    if a.tid < |s.thr| {
      CheckKeepsRoots(s, s.thr[a.tid]);
      TraceKeepsRoots(s, s.thr[a.tid]);
      assert |Step(s, a).thr| == |s.thr| && Step(s, a).thr[a.tid].roots == s.thr[a.tid].roots;
    }
  }

  lemma {:induction false} DescendWithin(child: Heap, within: iset<Obj>, o: Obj, k: nat)
    requires Closed(child, within) && o in within && Descend(child, o, k).Some?
    ensures Descend(child, o, k).value in within
    decreases k
  {
    if k > 0 { DescendWithin(child, within, child[o].value, k - 1); }
  }

  lemma AnyIsWithin(child: Heap, roots: seq<seq<Obj>>, within: iset<Obj>, o: Obj)
    requires Closed(child, within) && FromAny(child, roots, o)
    requires forall t, i :: 0 <= t < |roots| && 0 <= i < |roots[t]| ==> roots[t][i] in within
    ensures o in within
  {
    var t :| 0 <= t < |roots| && FromRoots(child, roots[t], o);
    var i, k: nat :| 0 <= i < |roots[t]| && Descend(child, roots[t][i], k) == Some(o);
    DescendWithin(child, within, roots[t][i], k);
  }

  ghost predicate OnlyReached(s: State) {
    forall o: Obj :: Marked(s.words, o) ==> FromAny(s.child, RootsOf(s.thr), o)
  }

  lemma RunOnlyReached(init: State, sched: seq<Action>)
    requires Initial(init) && LeftoversReached(init)
    ensures OnlyReached(After(Step, init, sched))
  {
    var s := After(Step, init, sched);
    RootsStay(init, sched);
    forall o: Obj | Marked(s.words, o) ensures FromAny(s.child, RootsOf(s.thr), o) { MarksReachableOnly(init, sched, o); }
  }

  /** The roots of thread t reach those of all others. */
  ghost predicate ReachesOthers(child: Heap, roots: seq<seq<Obj>>, t: nat)
    requires t < |roots|
  {
    forall u, i :: 0 <= u < |roots| && 0 <= i < |roots[u]| ==> FromRoots(child, roots[t], roots[u][i])
  }

  ghost predicate ExactFor(s: State, t: nat)
    requires t < |s.thr|
  {
    && AllMarked(s.child, s.words, s.thr[t].roots) && OnlyReached(s)
    && (ReachesOthers(s.child, RootsOf(s.thr), t) ==>
          forall o: Obj :: Marked(s.words, o) <==> FromRoots(s.child, s.thr[t].roots, o))
  }

  lemma BothGiveExact(s: State, t: nat)
    requires t < |s.thr| && AllMarked(s.child, s.words, s.thr[t].roots) && OnlyReached(s)
    ensures ExactFor(s, t)
  {
    if ReachesOthers(s.child, RootsOf(s.thr), t) {
      forall o: Obj | Marked(s.words, o) ensures FromRoots(s.child, s.thr[t].roots, o) {
        OneReachesAll(s.child, RootsOf(s.thr), t, o);
      }
    }
  }

  /** Then marking is exact when CheckFinish has found each other thread Fresh or standing still: all that the thread's own
      roots reach is marked, and all that is marked some thread's roots reach; so the two agree if the thread's own roots
      reach everybody's. */
  lemma ReturnIsExact(init: State, sched: seq<Action>, t: nat)
    requires Initial(init) && LeftoversReached(init)
    requires var s := After(Step, init, sched); !Overtaken(s) && t < |s.thr| && s.thr[t].pc.Done? && s.thr[t].clean
    ensures ExactFor(After(Step, init, sched), t)
  {
    FreshOrStillIsRight(init, sched, t);
    RunOnlyReached(init, sched);
    BothGiveExact(After(Step, init, sched), t);
  }

  lemma OneReachesAll(child: Heap, roots: seq<seq<Obj>>, t: nat, o: Obj)
    requires t < |roots| && FromAny(child, roots, o) && ReachesOthers(child, roots, t)
    ensures FromRoots(child, roots[t], o)
  {
    RootsAreClosed(child, roots[t]);
    var within := iset p: Obj | FromRoots(child, roots[t], p);
    AnyIsWithin(child, roots, within, o);
  }

  // ---------------------------------------------------------------- threads that cannot see the leftovers

  predicate NoRoots(roots: seq<seq<Obj>>) {
    forall t :: 0 <= t < |roots| ==> roots[t] == []
  }

  /** A single thread, or threads without any root, mark nothing unreachable, whatever is left over. */
  lemma BlindMarksReachableOnly(init: State, sched: seq<Action>, o: Obj)
    requires Initial(init) && (|init.thr| < 2 || NoRoots(RootsOf(init.thr)))
    ensures Marked(After(Step, init, sched).words, o) ==> FromAny(init.child, RootsOf(init.thr), o)
  {
    InitIsOwn(init);
    RunConfined(init, sched, Reach(init.child, RootsOf(init.thr)));
  }
}
