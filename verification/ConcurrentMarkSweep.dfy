/** The objects that the sweep of a phase frees and palloc hands out, when CheckFinish was right. */
module ConcurrentMarkSweep {
  import opened Common
  import opened ObjectHeap
  import opened Runs
  import opened ConcurrentMark
  import opened ConcurrentMarkProofs
  import opened ConcurrentMarkFinish

  /** The thread that began the sweep had found each other thread Fresh or standing still. */
  predicate OpenedWell(s: State) {
    s.opener.Some? && s.opener.value < |s.thr| && s.thr[s.opener.value].clean
  }

  /** Not reachable from the roots and hazard pointers of the thread that began the sweep. */
  ghost predicate Garbage(s: State, o: Obj) {
    s.opener.Some? && s.opener.value < |s.thr| && !FromRoots(s.child, s.thr[s.opener.value].roots, o)
  }

  ghost predicate OnlyGarbage(s: State) {
    && (forall o :: o in s.pool + s.handed ==> Garbage(s, o))
    && (!s.closed ==> forall t, o :: 0 <= t < |s.thr| && s.thr[t].pc.Sweep? && o in s.thr[t].pc.cache ==> Garbage(s, o))
  }

  ghost predicate OpenerOk(s: State) {
    && (s.opener.None? <==> s.sc < s.phase)
    && (s.opener.None? ==> s.pool == {} && s.handed == {})
    && (s.opener.Some? ==>
          s.opener.value < |s.thr| && (s.thr[s.opener.value].pc.Sweep? || s.thr[s.opener.value].pc.Left?))
    && (forall t :: 0 <= t < |s.thr| ==>
          (s.thr[t].pc.Sweep? ==> s.opener.Some?) && (s.thr[t].pc.Abandoned? ==> !s.thr[t].clean))
  }

  ghost predicate Freed(s: State) {
    OpenerOk(s) && (OpenedWell(s) ==> OnlyGarbage(s))
  }

  ghost predicate SweepInv(s: State) {
    && FinishInv(s) && (Overtaken(s) ==> s.closed) && (s.closed ==> s.over)
    && Freed(s)
  }

  lemma TestedIsGarbage(s: State, o: Obj)
    requires SweepInv(s) && OpenedWell(s) && !s.closed && !Marked(s.words, o)
    ensures Garbage(s, o)
  {
    assert CleanOk(s, s.opener.value);
  }

  /** The first thread that is through with CheckFinish begins the sweep. */
  lemma BeginKept(s: State, a: Action)
    requires SweepInv(s) && a.tid < |s.thr| && (s.thr[a.tid].pc.Done? || s.thr[a.tid].pc.Abandoned?)
    ensures Freed(Step(s, a))
  {
    var s' := Step(s, a);
    forall o | Garbage(s, o) ensures Garbage(s', o) {}
  }

  lemma TesterKept(s: State, a: Action)
    requires SweepInv(s) && a.tid < |s.thr| && s.thr[a.tid].pc.Sweep? && a.choice.Test?
    ensures Freed(Step(s, a))
  {
    var s' := Step(s, a);
    forall o | Garbage(s, o) ensures Garbage(s', o) {}
    if OpenedWell(s) && !s.closed && !Marked(s.words, a.choice.o) { TestedIsGarbage(s, a.choice.o); }
  }

  lemma PusherKept(s: State, a: Action)
    requires SweepInv(s) && a.tid < |s.thr| && s.thr[a.tid].pc.Sweep? && a.choice.PushCache?
    ensures Freed(Step(s, a))
  {
    forall o | Garbage(s, o) ensures Garbage(Step(s, a), o) {}
  }

  lemma SweeperKept(s: State, a: Action)
    requires SweepInv(s) && a.tid < |s.thr| && s.thr[a.tid].pc.Sweep?
    ensures Freed(Step(s, a))
  {
    match a.choice
    case Test(_) => TesterKept(s, a);
    case PushCache => PusherKept(s, a);
    case _ => forall o | Garbage(s, o) ensures Garbage(Step(s, a), o) {}
  }

  predicate NotSweeping(th: Thread, th': Thread) {
    !th'.pc.Sweep? && th'.roots == th.roots && (th'.pc.Abandoned? ==> !th'.clean)
  }

  lemma ReadersDoNotSweep(s: State, th: Thread)
    requires !Sweeping(th.pc)
    ensures NotSweeping(th, ReadStep(s, th)) && NotSweeping(th, RecheckStep(s, th))
  {}

  lemma CheckersDoNotSweep(s: State, th: Thread)
    requires !Sweeping(th.pc)
    ensures NotSweeping(th, CheckStep(s, th))
  {
    ReadersDoNotSweep(s, th);
    assert NotSweeping(th, TakeStep(s, th));
  }

  lemma NobodyBegins(s: State, th: Thread)
    requires !Sweeping(th.pc)
    ensures NotSweeping(th, ThreadStep(s, th).1) && (th.pc.Left? ==> ThreadStep(s, th).1 == th)
  {
    CheckersDoNotSweep(s, th);
  }

  lemma TracerKept(s: State, a: Action)
    requires SweepInv(s) && a.tid < |s.thr| && !Sweeping(s.thr[a.tid].pc)
    ensures Freed(Step(s, a))
  {
    var s' := Step(s, a);
    NobodyBegins(s, s.thr[a.tid]);
    forall o | Garbage(s, o) ensures Garbage(s', o) {}
  }

  lemma SweepKept(s: State, a: Action)
    requires SweepInv(s)
    ensures SweepInv(Step(s, a))
  {
    var s' := Step(s, a);
    FinishKept(s, a);
    if a.tid >= |s.thr| {
      forall o | Garbage(s, o) ensures Garbage(s', o) {}
    } else {
      StaysCurrent(s, a);
      if s.thr[a.tid].pc.Sweep? {
        SweeperKept(s, a);
      } else if Sweeping(s.thr[a.tid].pc) {
        BeginKept(s, a);
      } else {
        TracerKept(s, a);
      }
    }
  }

  lemma StaysCurrent(s: State, a: Action)
    requires Inv(s) && a.tid < |s.thr|
    ensures var s' := Step(s, a); s'.closed == s.closed && s'.over == s.over && (Overtaken(s') ==> Overtaken(s))
  {
    if !Overtaken(s) {
      MoveKeeps(s, a);
    }
  }

  lemma RootsAreReached(child: Heap, roots: seq<Obj>)
    ensures forall o :: o in roots ==> FromRoots(child, roots, o)
  {
    forall i | 0 <= i < |roots| ensures FromRoots(child, roots, roots[i]) {
      assert Descend(child, roots[i], 0) == Some(roots[i]);
    }
  }

  /** What the phase puts into its pool and hands out was not reachable from the roots and the hazard pointers that the
      thread which began the sweep had collected, if that thread's CheckFinish had found each other thread Fresh or standing
      still. */
  lemma FreedWasUnreachable(init: State, sched: seq<Action>, o: Obj)
    requires Initial(init)
    requires var s := After(Step, init, sched); OpenedWell(s) && o in s.pool + s.handed
    ensures var s := After(Step, init, sched); Garbage(s, o) && o !in s.thr[s.opener.value].roots
  {
    var s := After(Step, init, sched);
    ReachableFinish(init, []);
    forall r, a | SweepInv(r) ensures SweepInv(Step(r, a)) { SweepKept(r, a); }
    InvariantHolds(Step, SweepInv, init, sched);
    RootsAreReached(s.child, s.thr[s.opener.value].roots);
  }
}
