/** When CheckFinish is right to end the phase. */
module ConcurrentMarkFinish {
  import opened Common
  import opened ObjectHeap
  import opened Runs
  import opened ConcurrentMark
  import opened ConcurrentMarkProofs

  /** Reachable from the roots and hazard pointers that a thread collected. */
  ghost predicate FromRoots(child: Heap, roots: seq<Obj>, o: Obj) {
    exists i, k: nat :: 0 <= i < |roots| && Descend(child, roots[i], k) == Some(o)
  }

  ghost predicate AllMarked(child: Heap, words: seq<MarkWord>, roots: seq<Obj>) {
    forall o: Obj :: FromRoots(child, roots, o) ==> Marked(words, o)
  }

  // ---------------------------------------------------------------- the exact condition

  /** No busy thread holds an unmarked object that these roots reach. */
  ghost predicate NothingHeld(s: State, roots: seq<Obj>) {
    forall u, o :: 0 <= u < |s.thr| && HoldsBusy(s.thr[u], o) && FromRoots(s.child, roots, o) ==> Marked(s.words, o)
  }

  lemma {:induction false} DescendSplits(child: Heap, o: Obj, k: nat)
    requires k > 0 && Descend(child, o, k).Some?
    ensures Descend(child, o, k - 1).Some?
    ensures var p := Descend(child, o, k - 1).value; p < |child| && child[p] == Descend(child, o, k)
    decreases k
  {
    if k > 1 {
      DescendSplits(child, child[o].value, k - 1);
    } else {
      assert Descend(child, child[o].value, 0) == child[o];
    }
  }

  lemma {:induction false} MarkedBelow(s: State, roots: seq<Obj>, i: nat, k: nat)
    requires Inv(s) && !Overtaken(s) && NothingHeld(s, roots)
    requires i < |roots| && Marked(s.words, roots[i]) && Descend(s.child, roots[i], k).Some?
    ensures Marked(s.words, Descend(s.child, roots[i], k).value)
    decreases k
  {
    if k > 0 {
      DescendSplits(s.child, roots[i], k);
      MarkedBelow(s, roots, i, k - 1);
      var p, o := Descend(s.child, roots[i], k - 1).value, Descend(s.child, roots[i], k).value;
      assert Accounted(s, o);
      assert FromRoots(s.child, roots, o);
    }
  }

  lemma MarkedExactly(s: State, t: nat)
    requires Inv(s) && !Overtaken(s) && t < |s.thr| && HasPushed(s.thr[t].pc) && !Tracing(s.thr[t].pc) && s.thr[t].counter == 0
    ensures AllMarked(s.child, s.words, s.thr[t].roots) <==> NothingHeld(s, s.thr[t].roots)
  {
    var roots := s.thr[t].roots;
    assert ThreadOk(s.child, s.words, s.phase, s.thr[t]);
    if NothingHeld(s, roots) {
      forall o: Obj | FromRoots(s.child, roots, o) ensures Marked(s.words, o) {
        var i, k: nat :| 0 <= i < |roots| && Descend(s.child, roots[i], k) == Some(o);
        MarkedBelow(s, roots, i, k);
      }
    }
  }

  /** CheckFinish is right exactly if no busy thread then holds an unmarked object that is reachable from the roots. */
  lemma ReturnIsRightIff(init: State, sched: seq<Action>, t: nat)
    requires Initial(init)
    requires var s := After(Step, init, sched); !Overtaken(s) && t < |s.thr| && s.thr[t].pc.Done?
    ensures var s := After(Step, init, sched);
      AllMarked(s.child, s.words, s.thr[t].roots) <==> NothingHeld(s, s.thr[t].roots)
  {
    ReachableInv(init, sched);
    MarkedExactly(After(Step, init, sched), t);
  }

  // ---------------------------------------------------------------- a condition on what was seen

  /** Everything that the thread still has to process is marked. */
  ghost predicate HoldsMarked(words: seq<MarkWord>, th: Thread) {
    forall o :: Holds(th, o) ==> Marked(words, o)
  }

  /** What has been read of a thread, and what follows for it if it was Fresh, or busy with all its entries marked: unless
      its version or its published object has changed since, and then for good, it holds nothing unmarked. */
  ghost predicate Known(phase: nat, words: seq<MarkWord>, ver: nat, top: Published, th: Thread) {
    && ver <= th.ver
    && if ver != phase then th.ver == ver ==> th.top.Finished?
       else
         && (Pointer(top).Some? ==> Marked(words, Pointer(top).value))
         && (th.pc.Publish? ==> Some(th.pc.cur) != Pointer(top))
         && (if top.Finished? then th.top == top || Pointer(th.top) != Pointer(top)
             else th.top == top ==> HoldsMarked(words, th))
  }

  predicate Moved(phase: nat, ver: nat, top: Published, th: Thread) {
    th.ver != ver || (ver == phase && if top.Finished? then Pointer(th.top) != Pointer(top) else th.top != top)
  }

  /** In the first pass of CheckFinish, with threads 0 to n - 1 read completely. */
  predicate Passing(pc: PC) {
    pc.CheckVer? || pc.CheckTop? || pc.ReadSlot? || pc.TestSlot? || pc.TakeSlot? || pc.TestTop? || pc.TakeTop?
  }

  predicate Passed(pc: PC) {
    pc.RecheckTop? || pc.RecheckVer?
  }

  predicate Returned(pc: PC) {
    pc.Done? || pc.Sweep? || pc.Left?
  }

  predicate PassPosition(th: Thread, n: nat) {
    match th.pc
    case CheckVer(i) => |th.vers| == |th.tops| == i <= n
    case CheckTop(i) => |th.vers| == i + 1 && |th.tops| == i < n
    case ReadSlot(i, _) => |th.vers| == |th.tops| == i + 1 <= n
    case TestSlot(i, _, _) => |th.vers| == |th.tops| == i + 1 <= n
    case TakeSlot(i, _, _) => |th.vers| == |th.tops| == i + 1 <= n
    case TestTop(i) => |th.vers| == |th.tops| == i + 1 <= n
    case TakeTop(i) => |th.vers| == |th.tops| == i + 1 <= n
    case RecheckTop(i) => |th.vers| == |th.tops| == n && i <= n
    case RecheckVer(i) => |th.vers| == |th.tops| == n && i < n
    case _ => true
  }

  /** The thread whose stack is being read, if any. */
  function Reading(pc: PC): Option<nat> {
    match pc
    case ReadSlot(i, _) => Some(i)
    case TestSlot(i, _, _) => Some(i)
    case TestTop(i) => Some(i)
    case _ => None
  }

  /** The first n slots hold marked objects. */
  ghost predicate SlotsMarked(words: seq<MarkWord>, stack: seq<Option<Obj>>, n: nat) {
    forall k: nat :: k < n ==> At(stack, k).Some? && Marked(words, At(stack, k).value)
  }

  /** A thread whose stack is being read, if it stands still meanwhile: the slots passed are marked. */
  ghost predicate ReadSoFar(words: seq<MarkWord>, th: Thread, u: Thread) {
    match th.pc
    case ReadSlot(_, j) => SlotsMarked(words, u.stack, j)
    case TestSlot(_, j, ptr) => SlotsMarked(words, u.stack, j) && At(u.stack, j) == Some(ptr)
    case TestTop(_) => exists j: nat :: SlotsMarked(words, u.stack, j) && At(u.stack, j).None?
    case _ => true
  }

  ghost predicate ReadOk(s: State, th: Thread, i: nat)
    requires i < |s.thr| && i < |th.tops| <= |th.vers| && |s.moves| == |s.thr|
  {
    && th.since <= s.moves[i]
    && (s.moves[i] == th.since ==>
          th.vers[i] == s.phase && s.thr[i].top == th.tops[i] && th.tops[i].Busy?
          && ReadSoFar(s.words, th, s.thr[i]))
  }

  /** The first pass has taken nothing over so far. */
  predicate NothingTaken(th: Thread) {
    th.counter == 0 && !th.pc.TakeSlot? && !th.pc.TakeTop?
  }

  ghost predicate SeenOk(s: State, th: Thread) {
    && |th.tops| <= |th.vers| <= |s.thr| && |s.moves| == |s.thr| && th.tid < |s.thr|
    && (forall i :: 0 <= i < |th.vers| ==> th.vers[i] <= s.thr[i].ver)
    && (forall i :: 0 <= i < |th.tops| && i != th.tid && Reading(th.pc) != Some(i) ==>
          Known(s.phase, s.words, th.vers[i], th.tops[i], s.thr[i]))
    && (Reading(th.pc).Some? ==>
          var i := Reading(th.pc).value;
          i < |th.tops| && i != th.tid && ReadOk(s, th, i))
  }

  /** Thread m has moved, and the second pass is yet to look at what has changed. */
  predicate NotYetSeen(s: State, th: Thread, m: nat)
    requires m < |th.vers| == |th.tops| == |s.thr|
  {
    m != th.tid && match th.pc
    case RecheckTop(i) => i <= m && Moved(s.phase, th.vers[m], th.tops[m], s.thr[m])
    case RecheckVer(i) =>
      (i == m && s.thr[m].ver != th.vers[m]) || (i < m && Moved(s.phase, th.vers[m], th.tops[m], s.thr[m]))
    case _ => false
  }

  ghost predicate WillBeNoticed(s: State, th: Thread)
    requires |th.vers| == |th.tops| == |s.thr|
  {
    exists m :: 0 <= m < |s.thr| && NotYetSeen(s, th, m)
  }

  /** Thread t is in CheckFinish, or has returned from it, having found each other thread Fresh or standing still. */
  ghost predicate CleanOk(s: State, t: nat)
    requires t < |s.thr|
  {
    var th := s.thr[t];
    && PassPosition(th, |s.thr|)
    && (th.clean ==>
        && ((Passing(th.pc) || Passed(th.pc)) && NothingTaken(th) ==> SeenOk(s, th))
        && (Passed(th.pc) ==> WillBeNoticed(s, th) || AllMarked(s.child, s.words, th.roots))
        && (Returned(th.pc) ==> AllMarked(s.child, s.words, th.roots))
        && !th.pc.Abandoned?)
  }

  ghost predicate FinishInv(s: State) {
    && Inv(s) && |s.moves| == |s.thr| && (forall t :: 0 <= t < |s.thr| ==> s.thr[t].tid == t)
    && (Overtaken(s) || forall t :: 0 <= t < |s.thr| ==> CleanOk(s, t))
  }

  /** How a step may change what others see of a thread. */
  ghost predicate Advances(words: seq<MarkWord>, th: Thread, th': Thread) {
    && th.ver <= th'.ver
    && (th'.top == th.top || th'.top == Finished(Pointer(th.top)) || (th.pc.Publish? && th'.top == Busy(th.pc.cur)))
    && (th'.pc.Publish? ==> th' == th || !Marked(words, th'.pc.cur))
  }

  lemma TraceAdvances(s: State, th: Thread)
    ensures Advances(s.words, th, TraceStep(s, th).1)
  {}

  /** CheckFinish changes nothing that others look at in it. */
  predicate SameFace(th: Thread, th': Thread) {
    th'.ver == th.ver && th'.top == th.top && (th'.pc.Publish? ==> th' == th)
  }

  lemma ReadFace(s: State, th: Thread)
    ensures SameFace(th, ReadStep(s, th)) && SameFace(th, RecheckStep(s, th))
  {}

  lemma CheckAdvances(s: State, th: Thread)
    ensures Advances(s.words, th, CheckStep(s, th))
  {
    ReadFace(s, th);
    assert SameFace(th, CheckStep(s, th));
  }

  lemma ThreadAdvances(s: State, th: Thread)
    requires th.pc.Outside? ==> th.ver <= s.phase
    ensures Advances(s.words, th, ThreadStep(s, th).1)
  {
    TraceAdvances(s, th);
    CheckAdvances(s, th);
  }

  lemma SweepAdvances(s: State, t: nat, choice: Choice)
    requires t < |s.thr| && Sweeping(s.thr[t].pc) && s.thr[t].ver <= s.phase
    ensures Advances(s.words, s.thr[t], SweepStep(s, t, s.thr[t], choice).thr[t])
  {}

  lemma StepAdvances(s: State, a: Action, u: nat)
    requires Inv(s) && !Overtaken(s) && u < |s.thr| && a.tid < |s.thr|
    ensures u < |Step(s, a).thr| && Advances(s.words, s.thr[u], Step(s, a).thr[u])
  {
    assert ThreadOk(s.child, s.words, s.phase, s.thr[u]);
    MoveKeeps(s, a);
    if u == a.tid {
      if Sweeping(s.thr[u].pc) { SweepAdvances(s, u, a.choice); } else { ThreadAdvances(s, s.thr[u]); }
    }
  }

  /** As long as it publishes nothing new, a thread that holds marked objects only gets no others. */
  ghost predicate StaysMarked(words: seq<MarkWord>, words': seq<MarkWord>, th: Thread, th': Thread) {
    th.top.Busy? && th'.top == th.top && Marked(words, th.top.o) && HoldsMarked(words, th) ==> HoldsMarked(words', th')
  }

  lemma TraceStaysMarked(s: State, th: Thread)
    requires Able(s, th) && Tracing(th.pc) && !th.pc.Finish?
    ensures var (words', th') := ThreadStep(s, th); Grows(s.words, words') ==> StaysMarked(s.words, words', th, th')
  {
    if th.pc.Loop? {
      assert th.counter > 0 ==> At(th.stack, th.counter - 1).Some?;
    } else {
      TracerStaysMarked(s, th);
    }
  }

  lemma TracerStaysMarked(s: State, th: Thread)
    requires Able(s, th) && Tracing(th.pc) && !th.pc.Finish? && !th.pc.Loop?
    ensures var (words', th') := TraceStep(s, th); Grows(s.words, words') ==> StaysMarked(s.words, words', th, th')
  {}

  lemma StepStaysMarked(s: State, a: Action, u: nat)
    requires Inv(s) && !Overtaken(s) && u < |s.thr| && a.tid < |s.thr|
    ensures u < |Step(s, a).thr| && StaysMarked(s.words, Step(s, a).words, s.thr[u], Step(s, a).thr[u])
  {
    assert ThreadOk(s.child, s.words, s.phase, s.thr[u]);
    MoveKeeps(s, a);
    if u == a.tid && s.thr[u].top.Busy? {
      if !s.thr[u].pc.Finish? { TraceStaysMarked(s, s.thr[u]); }
    }
  }

  /** Nothing takes back what is known of a thread, or that it has moved. */
  lemma KnownStays(s: State, words': seq<MarkWord>, th: Thread, th': Thread, ver: nat, top: Published)
    requires ThreadOk(s.child, s.words, s.phase, th) && ThreadOk(s.child, words', s.phase, th')
    requires Grows(s.words, words') && Advances(s.words, th, th') && StaysMarked(s.words, words', th, th') && Known(s.phase, s.words, ver, top, th)
    ensures Known(s.phase, words', ver, top, th')
    ensures Moved(s.phase, ver, top, th) ==> Moved(s.phase, ver, top, th')
    ensures th.ver != ver ==> th'.ver != ver
  {}

  // ---------------------------------------------------------------- preservation

  /** What a step of the whole machine does to the threads, as far as CheckFinish can see. */
  ghost predicate Follows(s: State, s': State) {
    && s'.phase == s.phase && s'.child == s.child && |s'.thr| == |s.thr| && Grows(s.words, s'.words)
    && forall u :: 0 <= u < |s.thr| ==>
         && ThreadOk(s.child, s.words, s.phase, s.thr[u]) && ThreadOk(s.child, s'.words, s.phase, s'.thr[u])
         && Advances(s.words, s.thr[u], s'.thr[u]) && StaysMarked(s.words, s'.words, s.thr[u], s'.thr[u])
  }

  /** Whoever moves is counted. */
  ghost predicate Counts(s: State, s': State) {
    && |s.moves| == |s.thr| == |s'.thr| == |s'.moves|
    && forall u :: 0 <= u < |s.thr| ==> s.moves[u] <= s'.moves[u] && (s'.moves[u] == s.moves[u] ==> s'.thr[u] == s.thr[u])
  }

  lemma SeenStays(s: State, s': State, th: Thread)
    requires Follows(s, s') && Counts(s, s') && SeenOk(s, th)
    ensures SeenOk(s', th)
  {
    forall i | 0 <= i < |th.tops| && i != th.tid && Reading(th.pc) != Some(i)
      ensures Known(s.phase, s'.words, th.vers[i], th.tops[i], s'.thr[i]) {
      KnownStays(s, s'.words, s.thr[i], s'.thr[i], th.vers[i], th.tops[i]);
    }
    assert forall i :: 0 <= i < |th.vers| ==> Advances(s.words, s.thr[i], s'.thr[i]);
    if Reading(th.pc).Some? { ReadStays(s, s', th, Reading(th.pc).value); }
  }

  lemma ReadStays(s: State, s': State, th: Thread, i: nat)
    requires Counts(s, s') && i < |s.thr| && i < |th.tops| <= |th.vers| && ReadOk(s, th, i)
    requires Grows(s.words, s'.words) && s'.phase == s.phase
    ensures ReadOk(s', th, i)
  {
    if s'.moves[i] == th.since && th.pc.TestTop? {
      var j: nat :| SlotsMarked(s.words, s.thr[i].stack, j) && At(s.thr[i].stack, j).None?;
      assert SlotsMarked(s'.words, s'.thr[i].stack, j);
    }
  }

  lemma NoticeStays(s: State, s': State, th: Thread)
    requires Follows(s, s') && Counts(s, s') && SeenOk(s, th) && Reading(th.pc).None? && |th.vers| == |th.tops| == |s.thr| && WillBeNoticed(s, th)
    ensures WillBeNoticed(s', th)
  {
    var m :| 0 <= m < |s.thr| && NotYetSeen(s, th, m);
    KnownStays(s, s'.words, s.thr[m], s'.thr[m], th.vers[m], th.tops[m]);
    assert NotYetSeen(s', th, m);
  }

  /** The knowledge of th, read in the state s', if th is what thread t was before the step. */
  ghost predicate StillOk(s': State, th: Thread) {
    && PassPosition(th, |s'.thr|)
    && (th.clean ==>
        && ((Passing(th.pc) || Passed(th.pc)) && NothingTaken(th) ==> SeenOk(s', th))
        && (Passed(th.pc) ==> WillBeNoticed(s', th) || AllMarked(s'.child, s'.words, th.roots))
        && (Returned(th.pc) ==> AllMarked(s'.child, s'.words, th.roots))
        && !th.pc.Abandoned?)
  }

  lemma CleanStays(s: State, s': State, t: nat)
    requires Follows(s, s') && Counts(s, s') && t < |s.thr| && CleanOk(s, t) && ThreadOk(s.child, s.words, s.phase, s.thr[t])
    ensures StillOk(s', s.thr[t])
  {
    var th := s.thr[t];
    if th.clean && (Passing(th.pc) || Passed(th.pc)) && NothingTaken(th) { SeenStays(s, s', th); }
    if th.clean && Passed(th.pc) && WillBeNoticed(s, th) { NoticeStays(s, s', th); }
  }

  /** Once nobody else has moved since the first pass read him, nobody holds anything unmarked. */
  lemma QuietIsMarked(s: State, t: nat, th: Thread)
    requires Inv(s) && !Overtaken(s) && SeenOk(s, th) && |th.tops| == |s.thr| && Reading(th.pc).None? && th.tid == t
    requires forall m :: 0 <= m < |s.thr| && m != t ==> !Moved(s.phase, th.vers[m], th.tops[m], s.thr[m])
    requires t < |s.thr| && HasPushed(s.thr[t].pc) && !Tracing(s.thr[t].pc) && s.thr[t].counter == 0
    ensures AllMarked(s.child, s.words, s.thr[t].roots)
  {
    forall u, o | 0 <= u < |s.thr| && HoldsBusy(s.thr[u], o) ensures Marked(s.words, o) {
      assert ThreadOk(s.child, s.words, s.phase, s.thr[u]);
      assert u != t ==> Known(s.phase, s.words, th.vers[u], th.tops[u], s.thr[u]);
    }
    MarkedExactly(s, t);
  }

  /** Thread t has moved from s to s', where its earlier knowledge still stands. */
  ghost predicate OwnReady(s: State, s': State, t: nat) {
    && t < |s.thr| == |s'.thr| && s'.thr == s.thr[t := s'.thr[t]] && s'.phase == s.phase
    && |s.moves| == |s.thr| && s'.moves == Counted(s.moves, t) && s.thr[t].tid == t
    && StillOk(s', s.thr[t])
  }

  lemma VerRead(s: State, s': State, t: nat)
    requires OwnReady(s, s', t) && s.thr[t].pc.CheckVer? && s.thr[t].pc.i < |s.thr| && s'.thr[t] == ReadStep(s, s.thr[t])
    ensures CleanOk(s', t)
  {}

  lemma PassEnds(s: State, s': State, t: nat)
    requires Inv(s') && !Overtaken(s')
    requires OwnReady(s, s', t) && s.thr[t].pc == CheckVer(|s.thr|) && s'.thr[t] == ReadStep(s, s.thr[t])
    ensures CleanOk(s', t)
  {
    var th := s'.thr[t];
    if th.pc.RecheckTop? && th.clean { QuietOrNoticed(s', t, th); }
  }

  lemma QuietOrNoticed(s: State, t: nat, th: Thread)
    requires Inv(s) && !Overtaken(s) && SeenOk(s, th) && |th.vers| == |th.tops| == |s.thr| && th.pc == RecheckTop(0) && th.tid == t
    requires t < |s.thr| && HasPushed(s.thr[t].pc) && !Tracing(s.thr[t].pc) && s.thr[t].counter == 0
    ensures WillBeNoticed(s, th) || AllMarked(s.child, s.words, s.thr[t].roots)
  {
    if forall m :: 0 <= m < |s.thr| && m != t ==> !Moved(s.phase, th.vers[m], th.tops[m], s.thr[m]) {
      QuietIsMarked(s, t, th);
    } else {
      var m :| 0 <= m < |s.thr| && m != t && Moved(s.phase, th.vers[m], th.tops[m], s.thr[m]);
      assert NotYetSeen(s, th, m);
    }
  }

  /** A Fresh thread is known from now on. */
  lemma FreshIsKnown(s: State, words: seq<MarkWord>, ver: nat, th: Thread)
    requires Fresh(s, th, ver) && ver <= th.ver && ThreadOk(s.child, words, s.phase, th)
    ensures Known(s.phase, words, ver, th.top, th)
  {}

  lemma TopRead(s: State, s': State, t: nat)
    requires OwnReady(s, s', t) && s.thr[t].pc.CheckTop? && s'.thr[t] == ReadStep(s, s.thr[t])
    requires forall u :: 0 <= u < |s'.thr| ==> ThreadOk(s.child, s'.words, s.phase, s'.thr[u])
    ensures CleanOk(s', t)
  {
    var i, before, th := s.thr[t].pc.i, s.thr[t], s'.thr[t];
    assert s'.thr[i].top == s.thr[i].top && s'.thr[i].ver == s.thr[i].ver && s'.thr[i].published == s.thr[i].published;
    if th.clean && NothingTaken(before) {
      if i != t && Fresh(s, s.thr[i], th.vers[i]) { FreshIsKnown(s, s'.words, th.vers[i], s'.thr[i]); }
      TopAdded(s', before, th, i);
    }
  }

  lemma TopAdded(s: State, before: Thread, th: Thread, i: nat)
    requires SeenOk(s, before) && before.pc == CheckTop(i) && |before.tops| == i < |before.vers|
    requires th == before.(tops := before.tops + [s.thr[i].top], since := th.since, clean := th.clean, pc := th.pc)
    requires if th.pc == ReadSlot(i, 0) then i != th.tid && s.thr[i].top.Busy? && th.vers[i] == s.phase && th.since == s.moves[i]
             else th.pc == CheckVer(i + 1) && (i == th.tid || Known(s.phase, s.words, th.vers[i], th.tops[i], s.thr[i]))
    ensures SeenOk(s, th)
  {}

  lemma SlotRead(s: State, s': State, t: nat)
    requires OwnReady(s, s', t) && s.thr[t].pc.ReadSlot? && s'.thr[t] == ReadStep(s, s.thr[t])
    ensures CleanOk(s', t)
  {
    var i, j, th := s.thr[t].pc.i, s.thr[t].pc.j, s'.thr[t];
    if th.clean && NothingTaken(s.thr[t]) {
      assert ReadOk(s', s.thr[t], i) && s'.thr[i] == s.thr[i];
      if th.pc.TestTop? && s'.moves[i] == th.since { assert SlotsMarked(s'.words, s'.thr[i].stack, j); }
    }
  }

  lemma SlotTested(s: State, s': State, t: nat)
    requires OwnReady(s, s', t) && s'.words == s.words && s'.thr[t] == TakeStep(s, s.thr[t]) && s.thr[t].pc.TestSlot?
    ensures CleanOk(s', t)
  {}

  lemma EntryTaken(s: State, s': State, t: nat)
    requires OwnReady(s, s', t) && s'.thr[t] == TakeStep(s, s.thr[t]) && (s.thr[t].pc.TakeSlot? || s.thr[t].pc.TakeTop?)
    ensures CleanOk(s', t)
  {}

  /** A busy thread that stands still while all of its stack is read and found marked holds nothing unmarked. */
  lemma StillIsKnown(s: State, th: Thread, i: nat)
    requires th.pc == TestTop(i) && i < |s.thr| && i < |th.tops| <= |th.vers| && |s.moves| == |s.thr|
    requires ReadOk(s, th, i) && s.moves[i] == th.since && Marked(s.words, s.thr[i].top.o)
    requires ThreadOk(s.child, s.words, s.phase, s.thr[i])
    ensures Known(s.phase, s.words, th.vers[i], th.tops[i], s.thr[i])
  {
    var u := s.thr[i];
    var j: nat :| SlotsMarked(s.words, u.stack, j) && At(u.stack, j).None?;
    forall o | Holds(u, o) ensures Marked(s.words, o) {
      HeldIsVisible(s.child, s.words, s.phase, u, o);
      if o != u.top.o {
        var k :| 0 <= k < |u.stack| && u.stack[k] == Some(o) && forall l :: 0 <= l <= k ==> u.stack[l].Some?;
        assert k < j && At(u.stack, k) == Some(o);
      }
    }
  }

  lemma TopTested(s: State, s': State, t: nat)
    requires OwnReady(s, s', t) && s'.words == s.words && s.thr[t].pc.TestTop? && s'.thr[t] == TakeStep(s, s.thr[t])
    requires forall u :: 0 <= u < |s'.thr| ==> ThreadOk(s'.child, s'.words, s'.phase, s'.thr[u])
    ensures CleanOk(s', t)
  {
    var i, before, th := s.thr[t].pc.i, s.thr[t], s'.thr[t];
    if th.clean && NothingTaken(before) && th.pc.CheckVer? {
      assert s'.moves[i] == s.moves[i] == before.since;
      StillIsKnown(s', before, i);
    }
  }

  lemma TopReread(s: State, s': State, t: nat)
    requires OwnReady(s, s', t) && s.thr[t].pc.RecheckTop? && s'.thr[t] == RecheckStep(s, s.thr[t])
    ensures CleanOk(s', t)
  {
    var before, th := s.thr[t], s'.thr[t];
    if before.clean && th.pc.RecheckVer? && WillBeNoticed(s', before) {
      var m :| 0 <= m < |s'.thr| && NotYetSeen(s', before, m);
      assert s'.thr[before.pc.i].top == s.thr[before.pc.i].top;
      assert NotYetSeen(s', th, m);
    }
  }

  lemma VerReread(s: State, s': State, t: nat)
    requires OwnReady(s, s', t) && s.thr[t].pc.RecheckVer? && s'.thr[t] == RecheckStep(s, s.thr[t])
    ensures CleanOk(s', t)
  {
    var before, th := s.thr[t], s'.thr[t];
    if before.clean && th.pc.RecheckTop? && WillBeNoticed(s', before) {
      var m :| 0 <= m < |s'.thr| && NotYetSeen(s', before, m);
      assert s'.thr[before.pc.i].ver == s.thr[before.pc.i].ver;
      assert NotYetSeen(s', th, m);
    }
  }

  lemma ReadsClean(s: State, s': State, t: nat)
    requires Inv(s') && !Overtaken(s') && s'.child == s.child
    requires OwnReady(s, s', t) && s'.thr[t] == ReadStep(s, s.thr[t])
    requires var pc := s.thr[t].pc; pc.CheckVer? || pc.CheckTop? || pc.ReadSlot?
    ensures CleanOk(s', t)
  {
    match s.thr[t].pc
    case CheckVer(i) => if i < |s.thr| { VerRead(s, s', t); } else { PassEnds(s, s', t); }
    case CheckTop(_) => TopRead(s, s', t);
    case ReadSlot(_, _) => SlotRead(s, s', t);
  }

  lemma RereadsClean(s: State, s': State, t: nat)
    requires OwnReady(s, s', t) && Passed(s.thr[t].pc) && s'.thr[t] == RecheckStep(s, s.thr[t])
    ensures CleanOk(s', t)
  {
    if s.thr[t].pc.RecheckTop? { TopReread(s, s', t); } else { VerReread(s, s', t); }
  }

  lemma SweeperStep(s: State, s': State, t: nat, choice: Choice)
    requires OwnReady(s, s', t) && Sweeping(s.thr[t].pc) && s'.thr[t] == SweepStep(s, t, s.thr[t], choice).thr[t]
    requires s'.child == s.child
    ensures CleanOk(s', t)
  {}

  /** Where a thread is in CheckFinish only if it has just begun it, there is nothing to know. */
  predicate Unaware(th: Thread) {
    !Passing(th.pc) && !Passed(th.pc) && !Returned(th.pc) && !(th.clean && th.pc.Abandoned?)
  }

  lemma TraceUnaware(s: State, th: Thread)
    requires Tracing(th.pc) && !th.pc.Finish? && !th.pc.Loop?
    ensures Unaware(TraceStep(s, th).1)
  {}

  lemma OtherUnaware(s: State, th: Thread)
    requires var pc := th.pc; pc.Outside? || pc.PushRoot? || pc.Loop? || pc.CheckPhase? || pc.ClearSlot?
    ensures Unaware(ThreadStep(s, th).1)
  {}

  lemma CheckClean(s: State, s': State, t: nat)
    requires Inv(s') && !Overtaken(s') && s'.child == s.child && s'.words == s.words
    requires OwnReady(s, s', t) && (Passing(s.thr[t].pc) || Passed(s.thr[t].pc)) && s'.thr[t] == CheckStep(s, s.thr[t])
    ensures CleanOk(s', t)
  {
    var pc := s.thr[t].pc;
    if pc.CheckVer? || pc.CheckTop? || pc.ReadSlot? {
      ReadsClean(s, s', t);
    } else if Passed(pc) {
      RereadsClean(s, s', t);
    } else if pc.TestTop? {
      TopTested(s, s', t);
    } else if pc.TestSlot? {
      SlotTested(s, s', t);
    } else {
      EntryTaken(s, s', t);
    }
  }

  lemma ThreadClean(s: State, s': State, t: nat)
    requires Inv(s') && !Overtaken(s') && s'.child == s.child
    requires OwnReady(s, s', t) && !Sweeping(s.thr[t].pc) && (s'.words, s'.thr[t]) == ThreadStep(s, s.thr[t])
    ensures CleanOk(s', t)
  {
    var th := s.thr[t];
    if Passing(th.pc) || Passed(th.pc) {
      CheckClean(s, s', t);
    } else if Tracing(th.pc) && !th.pc.Finish? && !th.pc.Loop? {
      TraceUnaware(s, th);
    } else if !th.pc.Finish? && !th.pc.Left? {
      OtherUnaware(s, th);
    }
  }

  lemma LaterClean(s: State, choice: Choice)
    requires FinishInv(s) && !Overtaken(s)
    ensures FinishInv(LaterStep(s, choice))
  {
    var s' := LaterStep(s, choice);
    LaterKeeps(s, choice);
    if s'.words != s.words {
      assert s'.words[choice.w].tag != s'.phase;
    } else {
      forall u | 0 <= u < |s.thr| ensures CleanOk(s', u) { CleanStays(s, s', u); }
    }
  }

  lemma StepFollows(s: State, a: Action)
    requires Inv(s) && !Overtaken(s) && a.tid < |s.thr| && |s.moves| == |s.thr|
    ensures Follows(s, Step(s, a)) && Counts(s, Step(s, a))
  {
    var s' := Step(s, a);
    StepKeeps(s, a);
    MoveKeeps(s, a);
    forall u | 0 <= u < |s.thr|
      ensures Advances(s.words, s.thr[u], s'.thr[u]) && StaysMarked(s.words, s'.words, s.thr[u], s'.thr[u])
      ensures ThreadOk(s.child, s'.words, s.phase, s'.thr[u]) {
      StepAdvances(s, a, u);
      StepStaysMarked(s, a, u);
      if u != a.tid { OthersStayOk(s, s'.words, s.thr[u]); }
    }
  }

  /** The threads remain who they are. */
  lemma TidsStay(s: State, a: Action)
    ensures var s' := Step(s, a);
      |s'.thr| == |s.thr| && |s'.moves| == |s.moves| && forall t :: 0 <= t < |s.thr| ==> s'.thr[t].tid == s.thr[t].tid
  {
    if a.tid < |s.thr| && !Sweeping(s.thr[a.tid].pc) { CheckTid(s, s.thr[a.tid]); }
  }

  lemma CheckTid(s: State, th: Thread)
    ensures CheckStep(s, th).tid == th.tid && TraceStep(s, th).1.tid == th.tid
  {}

  lemma MoverClean(s: State, a: Action)
    requires FinishInv(s) && !Overtaken(s) && a.tid < |s.thr|
    requires var s' := Step(s, a); Inv(s') && !Overtaken(s') && |s'.thr| == |s.thr| && OwnReady(s, s', a.tid) && s'.child == s.child
    ensures CleanOk(Step(s, a), a.tid)
  {
    if Sweeping(s.thr[a.tid].pc) { SweeperStep(s, Step(s, a), a.tid, a.choice); } else { ThreadClean(s, Step(s, a), a.tid); }
  }

  lemma FinishKept(s: State, a: Action)
    requires FinishInv(s)
    ensures FinishInv(Step(s, a))
  {
    var s' := Step(s, a);
    StepKeeps(s, a);
    TidsStay(s, a);
    if Overtaken(s) {
      StaysOvertaken(s, a);
    } else if a.tid >= |s.thr| {
      LaterClean(s, a.choice);
    } else if !Overtaken(s') {
      MoveKeeps(s, a);
      StepFollows(s, a);
      forall u | 0 <= u < |s.thr| ensures CleanOk(s', u) {
        assert ThreadOk(s.child, s.words, s.phase, s.thr[u]);
        CleanStays(s, s', u);
        if u == a.tid { MoverClean(s, a); }
      }
    }
  }

  lemma ReachableFinish(init: State, sched: seq<Action>)
    requires Initial(init)
    ensures FinishInv(After(Step, init, sched))
  {
    ReachableInv(init, []);
    forall s, a | FinishInv(s) ensures FinishInv(Step(s, a)) { FinishKept(s, a); }
    InvariantHolds(Step, FinishInv, init, sched);
  }

  /** When CheckFinish returns 1, and each other thread, in its first pass, was outside the phase, or finished with an object
      it had published in the phase (or with none at all), or busy and standing still while it was read, as a thread does
      that has stopped for good, then everything the thread's roots reach is marked. */
  lemma FreshOrStillIsRight(init: State, sched: seq<Action>, t: nat)
    requires Initial(init)
    requires var s := After(Step, init, sched); !Overtaken(s) && t < |s.thr| && s.thr[t].pc.Done? && s.thr[t].clean
    ensures var s := After(Step, init, sched); AllMarked(s.child, s.words, s.thr[t].roots)
  {
    ReachableFinish(init, sched);
    assert CleanOk(After(Step, init, sched), t);
  }

  // ---------------------------------------------------------------- what CheckFinish has tested

  predicate InCheck(s: State, t: nat) {
    t < |s.thr| && (Passing(s.thr[t].pc) || Passed(s.thr[t].pc) || s.thr[t].pc.Done?)
  }

  /** An entry that thread t has tested is marked, or the thread has work to do, or the phase is over. */
  ghost predicate Tested(s: State, t: nat, ptr: Obj) {
    && InCheck(s, t)
    && (Overtaken(s) || Marked(s.words, ptr) || 0 < s.thr[t].counter || s.thr[t].pc.TakeSlot?)
  }

  lemma OwnTested(s: State, th: Thread)
    requires Passing(th.pc) || Passed(th.pc)
    requires 0 < th.counter || th.pc.TakeSlot?
    ensures var th' := CheckStep(s, th); 0 < th'.counter || th'.pc.Abandoned?
  {}

  lemma TestedStep(s: State, a: Action, t: nat, ptr: Obj)
    requires Inv(s) && Tested(s, t, ptr) && InCheck(Step(s, a), t)
    ensures Tested(Step(s, a), t, ptr)
  {
    if Overtaken(s) {
      StaysOvertaken(s, a);
    } else if a.tid < |s.thr| {
      MoveTested(s, a, t, ptr);
    } else if Step(s, a).words != s.words {
      assert Step(s, a).words[a.choice.w].tag != s.phase;
    }
  }

  lemma MoveTested(s: State, a: Action, t: nat, ptr: Obj)
    requires Inv(s) && Tested(s, t, ptr) && InCheck(Step(s, a), t) && !Overtaken(s) && a.tid < |s.thr|
    ensures Tested(Step(s, a), t, ptr)
  {
    MoveKeeps(s, a);
    if a.tid == t && !s.thr[t].pc.Done? && !Marked(s.words, ptr) { OwnMoveTested(s, a); }
  }

  lemma OwnMoveTested(s: State, a: Action)
    requires a.tid < |s.thr| && (Passing(s.thr[a.tid].pc) || Passed(s.thr[a.tid].pc))
    requires 0 < s.thr[a.tid].counter || s.thr[a.tid].pc.TakeSlot?
    ensures var th' := Step(s, a).thr[a.tid]; 0 < th'.counter || th'.pc.Abandoned?
  {
    OwnTested(s, s.thr[a.tid]);
  }

  lemma TestedDone(s: State, t: nat, ptr: Obj)
    requires Inv(s) && Tested(s, t, ptr) && s.thr[t].pc.Done?
    ensures Overtaken(s) || Marked(s.words, ptr)
  {
    if !Overtaken(s) { assert ThreadOk(s.child, s.words, s.phase, s.thr[t]); }
  }

  lemma TestStep(s: State, a: Action, i: nat, j: nat, ptr: Obj)
    requires a.tid < |s.thr| && s.thr[a.tid].pc == TestSlot(i, j, ptr)
    ensures Tested(Step(s, a), a.tid, ptr)
  {}

  /** CheckFinish returns 1 only if every entry that it has tested is marked: an unmarked one it takes over. */
  lemma DoneHasTested(init: State, sched: seq<Action>, k: nat, i: nat, j: nat, ptr: Obj)
    requires Initial(init) && k < |sched| && sched[k].tid < |After(Step, init, sched[..k]).thr|
    requires After(Step, init, sched[..k]).thr[sched[k].tid].pc == TestSlot(i, j, ptr)
    requires forall m :: k < m <= |sched| ==> InCheck(After(Step, init, sched[..m]), sched[k].tid)
    requires var s := After(Step, init, sched); InCheck(s, sched[k].tid) && s.thr[sched[k].tid].pc.Done?
    ensures var s := After(Step, init, sched); Overtaken(s) || Marked(s.words, ptr)
  {
    var t := sched[k].tid;
    ReachableInv(init, []);
    ReachableInv(init, sched);
    AfterSnoc(Step, init, sched, k);
    TestStep(After(Step, init, sched[..k]), sched[k], i, j, ptr);
    forall s, a | Inv(s) ensures Inv(Step(s, a)) { StepKeeps(s, a); }
    forall s: State, a | Inv(s) && Tested(s, t, ptr) && InCheck(Step(s, a), t) ensures Tested(Step(s, a), t, ptr) {
      TestedStep(s, a, t, ptr);
    }
    HoldsSince(Step, Inv, (s: State) => Tested(s, t, ptr), (s: State) => InCheck(s, t), init, sched, k + 1);
    TestedDone(After(Step, init, sched), t, ptr);
  }
}
