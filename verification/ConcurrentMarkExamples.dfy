/** Where CheckFinish goes wrong: concrete runs. */
module ConcurrentMarkExamples {
  import opened Common
  import opened ObjectHeap
  import opened Runs
  import opened ConcurrentMark
  import opened ConcurrentMarkProofs
  import opened ConcurrentMarkFinish
  import opened ConcurrentMarkRuns

  // ---------------------------------------------------------------- describing a state

  function Entering(tid: nat, roots: seq<Obj>, last: Option<Obj>, stack: seq<Option<Obj>>): Thread {
    Thread(tid, roots, 0, Finished(last), stack, 0, [], [], false, 0, false, Outside)
  }

  function Start(child: Heap, thr: seq<Thread>): State {
    State(2, false, false, 0, None, {}, {}, child, [MarkWord(2, {})], thr, seq(|thr|, _ => 0))
  }

  /** The phase is on, with these objects marked. */
  predicate Marks(s: State, child: Heap, n: nat, marks: set<nat>) {
    && s.phase == 2 && !s.over && s.child == child && |s.thr| == n
    && |s.words| == 1 && s.words[0].tag == 2 && s.words[0].bits == marks
  }

  predicate Is(th: Thread, roots: seq<Obj>, top: Published, stack: seq<Option<Obj>>, counter: nat, published: bool, pc: PC) {
    && th.roots == roots && th.ver == 2 && th.top == top && th.stack == stack && th.counter == counter
    && th.published == published && th.pc == pc
  }

  /** What a first pass has read, all of it of threads in the phase. */
  predicate Saw(th: Thread, tops: seq<Published>) {
    |th.vers| == |tops| && (forall i :: 0 <= i < |th.vers| ==> th.vers[i] == 2) && th.tops == tops
  }

  predicate AsBefore(th: Thread, th': Thread, pc: PC) {
    && th'.roots == th.roots && th'.ver == th.ver && th'.top == th.top && th'.stack == th.stack && th'.counter == th.counter
    && th'.published == th.published && th'.pc == pc
  }

  /** It reads version and markstack[0] of thread i, which is in the phase. */
  lemma Sees(init: State, s: State, t: nat, i: nat, tops: seq<Published>) returns (s': State)
    requires Reached(init, s) && Scanning(s, t, i) && Saw(s.thr[t], tops) && s.phase == s.thr[i].ver == 2
    ensures Reached(init, s') && Alone(s, t, s') && s'.words == s.words && Saw(s'.thr[t], tops + [s.thr[i].top])
    ensures AsBefore(s.thr[t], s'.thr[t], if s.thr[i].top.Finished? then CheckVer(i + 1) else ReadSlot(i, 0))
  {
    s' := Scan(init, s, t, i);
  }

  // ---------------------------------------------------------------- a slot overwritten between read and test

  /** 0 -> 1 -> 2, and two threads that have 0 as their root. */
  function Chain3(): Heap {
    [Some(1), Some(2), None]
  }

  function Start2(): State {
    Start(Chain3(), [Entering(0, [0], None, []), Entering(1, [0], None, [])])
  }

  /** Thread 1 marks 0 and publishes 1; 1 is still in its first slot. */
  lemma OneIsPublished() returns (s: State)
    ensures Reached(Start2(), s) && Marks(s, Chain3(), 2, {0}) && s.thr[0] == Entering(0, [0], None, [])
    ensures Is(s.thr[1], [0], Busy(1), [Some(1)], 0, true, ReadChild(1, s.words[0]))
  {
    Begin(Start2());
    s := Enter(Start2(), Start2(), 1);
    assert Is(s.thr[1], [0], Finished(None), [Some(0)], 1, false, Loop);
    s := Process(Start2(), s, 1, 0);
    assert Is(s.thr[1], [0], Busy(0), [Some(1)], 1, true, Loop);
    s := TakeUp(Start2(), s, 1, 1);
  }

  /** Thread 0 finds 0 marked and enters CheckFinish. */
  lemma ZeroIsIdle(init: State, s0: State) returns (s: State)
    requires Reached(init, s0) && Marks(s0, Chain3(), 2, {0}) && s0.thr[0] == Entering(0, [0], None, [])
    ensures Reached(init, s) && Marks(s, Chain3(), 2, {0}) && s.thr[1] == s0.thr[1] && s.words == s0.words
    ensures Is(s.thr[0], [0], Finished(None), [Some(0)], 0, false, CheckVer(0)) && Saw(s.thr[0], [])
  {
    s := Enter(init, s0, 0);
    assert Is(s.thr[0], [0], Finished(None), [Some(0)], 1, false, Loop);
    s := Skip(init, s, 0, 0);
    s := Stop(init, s, 0);
  }

  lemma ZeroReadsItself(init: State, s0: State) returns (s: State)
    requires Reached(init, s0) && |s0.thr| == 2 && s0.phase == 2
    requires Is(s0.thr[0], [0], Finished(None), [Some(0)], 0, false, CheckVer(0)) && Saw(s0.thr[0], [])
    ensures Reached(init, s) && Alone(s0, 0, s) && s.words == s0.words
    ensures Is(s.thr[0], [0], Finished(None), [Some(0)], 0, false, CheckVer(1)) && Saw(s.thr[0], [Finished(None)])
  {
    s := Sees(init, s0, 0, 0, []);
  }

  /** It reads that it is itself finished. */
  lemma ZeroIsRead() returns (s: State)
    ensures Reached(Start2(), s) && Marks(s, Chain3(), 2, {0})
    ensures Is(s.thr[0], [0], Finished(None), [Some(0)], 0, false, CheckVer(1)) && Saw(s.thr[0], [Finished(None)])
    ensures Is(s.thr[1], [0], Busy(1), [Some(1)], 0, true, ReadChild(1, s.words[0]))
  {
    s := OneIsPublished();
    s := ZeroIsIdle(Start2(), s);
    s := ZeroReadsItself(Start2(), s);
  }

  /** It reads that thread 1 is busy with 1, and the first slot of thread 1, which holds 1. */
  lemma SlotIsRead() returns (s: State)
    ensures Reached(Start2(), s) && Marks(s, Chain3(), 2, {0})
    ensures Is(s.thr[0], [0], Finished(None), [Some(0)], 0, false, TestSlot(1, 0, 1)) && Saw(s.thr[0], [Finished(None), Busy(1)])
    ensures Is(s.thr[1], [0], Busy(1), [Some(1)], 0, true, ReadChild(1, s.words[0]))
  {
    s := ZeroIsRead();
    s := Sees(Start2(), s, 0, 1, [Finished(None)]);
    s := See(Start2(), s, 0, 1, 0, 1);
  }

  /** Thread 1 overwrites the slot with 2 and marks 1. */
  lemma SlotIsOverwritten() returns (s: State)
    ensures Reached(Start2(), s) && Marks(s, Chain3(), 2, {0, 1})
    ensures Is(s.thr[0], [0], Finished(None), [Some(0)], 0, false, TestSlot(1, 0, 1)) && Saw(s.thr[0], [Finished(None), Busy(1)])
    ensures Is(s.thr[1], [0], Busy(1), [Some(2)], 0, true, Commit(Some(2)))
  {
    s := SlotIsRead();
    s := MarkIt(Start2(), s, 1, 1);
  }

  /** Thread 0 tests 1 and finds it marked. */
  lemma SlotIsStale() returns (s: State)
    ensures Reached(Start2(), s) && Marks(s, Chain3(), 2, {0, 1})
    ensures Is(s.thr[0], [0], Finished(None), [Some(0)], 0, false, CheckVer(2)) && Saw(s.thr[0], [Finished(None), Busy(1)])
    ensures Is(s.thr[1], [0], Busy(1), [Some(2)], 0, true, Commit(Some(2)))
  {
    s := SlotIsOverwritten();
    s := PassBy(Start2(), s, 0, 1, 0, 1);
    s := EndSlots(Start2(), s, 0, 1, 1);
  }

  lemma ZeroReturns() returns (s: State)
    ensures Reached(Start2(), s) && Marks(s, Chain3(), 2, {0, 1})
    ensures s.thr[0].pc == Done && s.thr[0].roots == [0]
  {
    s := SlotIsStale();
    s := EndPass(Start2(), s, 0);
    s := Return(Start2(), s, 0, 0);
  }

  lemma Reaches(s: State, t: nat, i: nat, k: nat, o: Obj)
    requires t < |s.thr| && i < |s.thr[t].roots| && Descend(s.child, s.thr[t].roots[i], k) == Some(o)
    ensures FromRoots(s.child, s.thr[t].roots, o)
  {}

  lemma NotOvertaken(s: State, child: Heap, n: nat, marks: set<nat>)
    requires Marks(s, child, n, marks)
    ensures !Overtaken(s)
    ensures forall o :: 0 <= o < BITS ==> (Marked(s.words, o) <==> o in marks)
  {}

  lemma Start2IsInitial()
    ensures Initial(Start2())
  {}

  /** Thread 0 sees the published object of thread 1 unchanged and returns 1, although the reachable object 2 is not
      marked: CheckFinish loses it. */
  lemma MissesOverwrittenSlot() returns (s: State)
    ensures Initial(Start2()) && Reached(Start2(), s) && !Overtaken(s)
    ensures 0 < |s.thr| && s.thr[0].pc.Done? && FromRoots(s.child, s.thr[0].roots, 2) && !Marked(s.words, 2)
  {
    s := ZeroReturns();
    Start2IsInitial();
    NotOvertaken(s, Chain3(), 2, {0, 1});
    assert Descend(Chain3(), 1, 1) == Some(2);
    Reaches(s, 0, 0, 2, 2);
  }

  // ---------------------------------------------------------------- every thread seen finished

  /** 0 -> 1 -> 2 -> 4, and 3, to which nothing points. */
  function Chain4(): Heap {
    [Some(1), Some(2), Some(4), None, None]
  }

  /** Thread 1 has hazard pointers to 3 and 1, and 3 was the last object it published in an earlier phase. */
  function Start4(): State {
    Start(Chain4(), [Entering(0, [0], None, []), Entering(1, [3, 1], Some(3), []), Entering(2, [0], None, []), Entering(3, [0], None, [])])
  }

  /** A thread that finds its root 0 marked is in CheckFinish at once. */
  lemma IdlesAtOnce(s0: State, u: nat, marks: set<nat>) returns (s: State)
    requires Reached(Start4(), s0) && Marks(s0, Chain4(), 4, marks) && 0 in marks
    requires u < 4 && s0.thr[u] == Entering(u, [0], None, [])
    ensures Reached(Start4(), s) && Marks(s, Chain4(), 4, marks)
    ensures Is(s.thr[u], [0], Finished(None), [Some(0)], 0, false, CheckVer(0)) && Saw(s.thr[u], [])
    ensures forall v :: 0 <= v < 4 && v != u ==> s.thr[v] == s0.thr[v]
  {
    s := Enter(Start4(), s0, u);
    assert Is(s.thr[u], [0], Finished(None), [Some(0)], 1, false, Loop);
    s := Skip(Start4(), s, u, 0);
    s := Stop(Start4(), s, u);
  }

  /** Thread 2 marks 0 and holds 1. */
  lemma TwoHoldsOne() returns (s: State)
    ensures Reached(Start4(), s) && Marks(s, Chain4(), 4, {0}) && Is(s.thr[2], [0], Busy(0), [Some(1)], 1, true, Loop)
    ensures s.thr[0] == Entering(0, [0], None, []) && s.thr[3] == Entering(3, [0], None, []) && s.thr[1] == Entering(1, [3, 1], Some(3), [])
  {
    Begin(Start4());
    s := Enter(Start4(), Start4(), 2);
    assert Is(s.thr[2], [0], Finished(None), [Some(0)], 1, false, Loop);
    s := Process(Start4(), s, 2, 0);
  }

  /** Threads 0 and 3 have nothing to do; thread 1 has its two hazard pointers before it. */
  lemma AllHaveEntered() returns (s: State)
    ensures Reached(Start4(), s) && Marks(s, Chain4(), 4, {0})
    ensures Is(s.thr[0], [0], Finished(None), [Some(0)], 0, false, CheckVer(0)) && Saw(s.thr[0], [])
    ensures Is(s.thr[1], [3, 1], Finished(Some(3)), [Some(3), Some(1)], 2, false, Loop)
    ensures Is(s.thr[2], [0], Busy(0), [Some(1)], 1, true, Loop)
    ensures Is(s.thr[3], [0], Finished(None), [Some(0)], 0, false, CheckVer(0)) && Saw(s.thr[3], [])
  {
    s := TwoHoldsOne();
    s := IdlesAtOnce(s, 0, {0});
    s := IdlesAtOnce(s, 3, {0});
    s := Enter(Start4(), s, 1);
  }

  lemma ThreeReads(init: State, s0: State) returns (s: State)
    requires Reached(init, s0) && Marks(s0, Chain4(), 4, {0})
    requires Is(s0.thr[3], [0], Finished(None), [Some(0)], 0, false, CheckVer(0)) && Saw(s0.thr[3], [])
    requires s0.thr[0].ver == s0.thr[1].ver == 2 && s0.thr[0].top == Finished(None) && s0.thr[1].top == Finished(Some(3))
    ensures Reached(init, s) && Alone(s0, 3, s) && s.words == s0.words
    ensures Is(s.thr[3], [0], Finished(None), [Some(0)], 0, false, CheckVer(2))
    ensures Saw(s.thr[3], [Finished(None), Finished(Some(3))])
  {
    var r := Sees(init, s0, 3, 0, []);
    s := Sees(init, r, 3, 1, [Finished(None)]);
    Twice(s0, r, s, 3);
  }

  /** Thread 3 reads threads 0 and 1, both finished. */
  lemma TwoAreRead() returns (s: State)
    ensures Reached(Start4(), s) && Marks(s, Chain4(), 4, {0})
    ensures Is(s.thr[0], [0], Finished(None), [Some(0)], 0, false, CheckVer(0)) && Saw(s.thr[0], [])
    ensures Is(s.thr[1], [3, 1], Finished(Some(3)), [Some(3), Some(1)], 2, false, Loop)
    ensures Is(s.thr[2], [0], Busy(0), [Some(1)], 1, true, Loop)
    ensures Is(s.thr[3], [0], Finished(None), [Some(0)], 0, false, CheckVer(2))
    ensures Saw(s.thr[3], [Finished(None), Finished(Some(3))])
  {
    s := AllHaveEntered();
    s := ThreeReads(Start4(), s);
  }

  /** Thread 1 marks 1 and holds 2. */
  lemma OneMarksOne(init: State, s0: State) returns (s: State)
    requires Reached(init, s0) && Marks(s0, Chain4(), 4, {0})
    requires Is(s0.thr[1], [3, 1], Finished(Some(3)), [Some(3), Some(1)], 2, false, Loop)
    ensures Reached(init, s) && Alone(s0, 1, s) && Marks(s, Chain4(), 4, {0, 1})
    ensures Is(s.thr[1], [3, 1], Busy(1), [Some(3), Some(2)], 2, true, Loop)
  {
    s := Process(init, s0, 1, 1);
  }

  /** Thread 2 finds 1 marked and finishes. */
  lemma TwoFinishes(init: State, s0: State) returns (s: State)
    requires Reached(init, s0) && Marks(s0, Chain4(), 4, {0, 1}) && Is(s0.thr[2], [0], Busy(0), [Some(1)], 1, true, Loop)
    ensures Reached(init, s) && Alone(s0, 2, s) && s.words == s0.words
    ensures s.thr[2].ver == 2 && s.thr[2].top == Finished(Some(0))
  {
    var r := Skip(init, s0, 2, 1);
    s := Stop(init, r, 2);
    Twice(s0, r, s, 2);
  }

  lemma OneTakesOver() returns (s: State)
    ensures Reached(Start4(), s) && Marks(s, Chain4(), 4, {0, 1})
    ensures Is(s.thr[0], [0], Finished(None), [Some(0)], 0, false, CheckVer(0)) && Saw(s.thr[0], [])
    ensures Is(s.thr[1], [3, 1], Busy(1), [Some(3), Some(2)], 2, true, Loop)
    ensures s.thr[2].ver == 2 && s.thr[2].top == Finished(Some(0))
    ensures Is(s.thr[3], [0], Finished(None), [Some(0)], 0, false, CheckVer(2))
    ensures Saw(s.thr[3], [Finished(None), Finished(Some(3))])
  {
    s := TwoAreRead();
    s := OneMarksOne(Start4(), s);
    s := TwoFinishes(Start4(), s);
  }

  /** What thread 3 reads. */
  function SeenByThree(): seq<Published> {
    [Finished(None), Finished(Some(3)), Finished(Some(0)), Finished(None)]
  }

  /** Thread 3 reads threads 2 and 3, both finished. */
  lemma ThreeReadsOn(init: State, s0: State) returns (s: State)
    requires Reached(init, s0) && Marks(s0, Chain4(), 4, {0, 1}) && s0.thr[2].ver == 2 && s0.thr[2].top == Finished(Some(0))
    requires Is(s0.thr[3], [0], Finished(None), [Some(0)], 0, false, CheckVer(2)) && Saw(s0.thr[3], [Finished(None), Finished(Some(3))])
    ensures Reached(init, s) && Alone(s0, 3, s) && s.words == s0.words
    ensures Is(s.thr[3], [0], Finished(None), [Some(0)], 0, false, CheckVer(4)) && Saw(s.thr[3], SeenByThree())
  {
    var r := Sees(init, s0, 3, 2, [Finished(None), Finished(Some(3))]);
    s := Sees(init, r, 3, 3, [Finished(None), Finished(Some(3)), Finished(Some(0))]);
    Twice(s0, r, s, 3);
  }

  lemma FourAreRead() returns (s: State)
    ensures Reached(Start4(), s) && Marks(s, Chain4(), 4, {0, 1})
    ensures Is(s.thr[0], [0], Finished(None), [Some(0)], 0, false, CheckVer(0)) && Saw(s.thr[0], [])
    ensures Is(s.thr[1], [3, 1], Busy(1), [Some(3), Some(2)], 2, true, Loop)
    ensures s.thr[2].ver == 2 && s.thr[2].top == Finished(Some(0))
    ensures Is(s.thr[3], [0], Finished(None), [Some(0)], 0, false, RecheckTop(0)) && Saw(s.thr[3], SeenByThree())
  {
    s := OneTakesOver();
    s := ThreeReadsOn(Start4(), s);
    s := EndPass(Start4(), s, 3);
  }

  lemma ThreeRereads(init: State, s0: State) returns (s: State)
    requires Reached(init, s0) && |s0.thr| == 4 && s0.thr[0].ver == 2 && s0.thr[0].top == Finished(None)
    requires s0.thr[3].pc == RecheckTop(0) && Saw(s0.thr[3], SeenByThree())
    ensures Reached(init, s) && Becomes(s0, 3, s, s0.thr[3].(pc := RecheckTop(1)))
  {
    s := Rescan(init, s0, 3, 0);
  }

  /** It reads thread 0 a second time. */
  lemma FirstPassIsOver() returns (s: State)
    ensures Reached(Start4(), s) && Marks(s, Chain4(), 4, {0, 1})
    ensures Is(s.thr[0], [0], Finished(None), [Some(0)], 0, false, CheckVer(0)) && Saw(s.thr[0], [])
    ensures Is(s.thr[1], [3, 1], Busy(1), [Some(3), Some(2)], 2, true, Loop)
    ensures s.thr[2].ver == 2 && s.thr[2].top == Finished(Some(0))
    ensures Is(s.thr[3], [0], Finished(None), [Some(0)], 0, false, RecheckTop(1)) && Saw(s.thr[3], SeenByThree())
  {
    s := FourAreRead();
    s := ThreeRereads(Start4(), s);
  }

  /** Thread 0 now finds thread 1 busy. */
  lemma ZeroNotices(init: State, s0: State) returns (s: State)
    requires Reached(init, s0) && Marks(s0, Chain4(), 4, {0, 1}) && s0.thr[1].ver == 2 && s0.thr[1].top == Busy(1)
    requires Is(s0.thr[0], [0], Finished(None), [Some(0)], 0, false, CheckVer(0)) && Saw(s0.thr[0], [])
    ensures Reached(init, s) && Alone(s0, 0, s) && s.words == s0.words
    ensures Is(s.thr[0], [0], Finished(None), [Some(0)], 0, false, ReadSlot(1, 0)) && Saw(s.thr[0], [Finished(None), Busy(1)])
  {
    var r := Sees(init, s0, 0, 0, []);
    s := Sees(init, r, 0, 1, [Finished(None)]);
    Twice(s0, r, s, 0);
  }

  lemma ZeroTakesThree(init: State, s0: State) returns (s: State)
    requires Reached(init, s0) && |s0.thr| == 4 && !Marked(s0.words, 3) && At(s0.thr[1].stack, 0) == Some(3)
    requires s0.thr[0].stack == [Some(0)] && s0.thr[0].counter == 0 && s0.thr[0].pc == ReadSlot(1, 0)
    ensures Reached(init, s) && Becomes(s0, 0, s, s0.thr[0].(stack := [Some(3)], counter := 1, pc := ReadSlot(1, 1)))
  {
    assert Put([Some(0)], 0, Some(3)) == [Some(3)];
    s := TakeOver(init, s0, 0, 1, 0, 3);
  }

  /** It takes 3 and 2 over. */
  lemma ZeroTakes(init: State, s0: State) returns (s: State)
    requires Reached(init, s0) && Marks(s0, Chain4(), 4, {0, 1}) && s0.thr[1].stack == [Some(3), Some(2)]
    requires Is(s0.thr[0], [0], Finished(None), [Some(0)], 0, false, ReadSlot(1, 0)) && Saw(s0.thr[0], [Finished(None), Busy(1)])
    ensures Reached(init, s) && Alone(s0, 0, s) && s.words == s0.words
    ensures Is(s.thr[0], [0], Finished(None), [Some(3), Some(2)], 2, false, ReadSlot(1, 2)) && Saw(s.thr[0], [Finished(None), Busy(1)])
  {
    var r := ZeroTakesThree(init, s0);
    s := TakeOver(init, r, 0, 1, 1, 2);
    Twice(s0, r, s, 0);
  }

  lemma ZeroEndsSlots(init: State, s0: State) returns (s: State)
    requires Reached(init, s0) && Marks(s0, Chain4(), 4, {0, 1}) && s0.thr[1].stack == [Some(3), Some(2)]
    requires Is(s0.thr[0], [0], Finished(None), [Some(3), Some(2)], 2, false, ReadSlot(1, 2)) && Saw(s0.thr[0], [Finished(None), Busy(1)])
    ensures Reached(init, s) && Alone(s0, 0, s) && s.words == s0.words
    ensures Is(s.thr[0], [0], Finished(None), [Some(3), Some(2)], 2, false, CheckVer(2)) && Saw(s.thr[0], [Finished(None), Busy(1)])
  {
    s := EndSlots(init, s0, 0, 1, 2);
  }

  /** Threads 2 and 3 are finished: it goes on tracing. */
  lemma ZeroHelps(init: State, s0: State) returns (s: State)
    requires Reached(init, s0) && Marks(s0, Chain4(), 4, {0, 1})
    requires s0.thr[2].ver == s0.thr[3].ver == 2 && s0.thr[2].top.Finished? && s0.thr[3].top.Finished?
    requires Is(s0.thr[0], [0], Finished(None), [Some(3), Some(2)], 2, false, CheckVer(2)) && Saw(s0.thr[0], [Finished(None), Busy(1)])
    ensures Reached(init, s) && Alone(s0, 0, s) && s.words == s0.words
    ensures Is(s.thr[0], [0], Finished(None), [Some(3), Some(2)], 2, false, Loop)
  {
    var r := Sees(init, s0, 0, 2, [Finished(None), Busy(1)]);
    var u := Sees(init, r, 0, 3, [Finished(None), Busy(1), r.thr[2].top]);
    Twice(s0, r, u, 0);
    s := Help(init, u, 0);
    Twice(s0, u, s, 0);
  }

  lemma ZeroGoesOn(init: State, s0: State) returns (s: State)
    requires Reached(init, s0) && Marks(s0, Chain4(), 4, {0, 1}) && s0.thr[1].stack == [Some(3), Some(2)]
    requires Is(s0.thr[0], [0], Finished(None), [Some(0)], 0, false, CheckVer(0)) && Saw(s0.thr[0], [])
    requires s0.thr[1].ver == 2 && s0.thr[1].top == Busy(1)
    requires s0.thr[2].ver == s0.thr[3].ver == 2 && s0.thr[2].top.Finished? && s0.thr[3].top.Finished?
    ensures Reached(init, s) && Alone(s0, 0, s) && s.words == s0.words
    ensures Is(s.thr[0], [0], Finished(None), [Some(3), Some(2)], 2, false, Loop)
  {
    var q := ZeroNotices(init, s0);
    var r := ZeroTakes(init, q);
    Twice(s0, q, r, 0);
    var u := ZeroEndsSlots(init, r);
    Twice(s0, r, u, 0);
    s := ZeroHelps(init, u);
    Twice(s0, u, s, 0);
  }

  /** It marks 2 and holds 4. */
  lemma ZeroIsBusy(init: State, s0: State) returns (s: State)
    requires Reached(init, s0) && Marks(s0, Chain4(), 4, {0, 1}) && s0.thr[1].stack == [Some(3), Some(2)]
    requires Is(s0.thr[0], [0], Finished(None), [Some(0)], 0, false, CheckVer(0)) && Saw(s0.thr[0], [])
    requires s0.thr[1].ver == 2 && s0.thr[1].top == Busy(1)
    requires s0.thr[2].ver == s0.thr[3].ver == 2 && s0.thr[2].top.Finished? && s0.thr[3].top.Finished?
    ensures Reached(init, s) && Alone(s0, 0, s) && Marks(s, Chain4(), 4, {0, 1, 2})
  {
    var r := ZeroGoesOn(init, s0);
    s := Process(init, r, 0, 2);
    Twice(s0, r, s, 0);
  }

  /** Thread 1 finds 2 marked and processes 3. */
  lemma OneGoesOn(init: State, s0: State) returns (s: State)
    requires Reached(init, s0) && Marks(s0, Chain4(), 4, {0, 1, 2})
    requires Is(s0.thr[1], [3, 1], Busy(1), [Some(3), Some(2)], 2, true, Loop)
    ensures Reached(init, s) && Alone(s0, 1, s) && Marks(s, Chain4(), 4, {0, 1, 2, 3})
    ensures s.thr[1].ver == 2 && s.thr[1].top == Busy(3) && s.thr[1].counter == 0 && s.thr[1].pc == Loop
  {
    var r := Skip(init, s0, 1, 2);
    s := Process(init, r, 1, 3);
    Twice(s0, r, s, 1);
  }

  /** It finishes as thread 3 has first seen it. */
  lemma OneFinishes(init: State, s0: State) returns (s: State)
    requires Reached(init, s0) && Marks(s0, Chain4(), 4, {0, 1, 2})
    requires Is(s0.thr[1], [3, 1], Busy(1), [Some(3), Some(2)], 2, true, Loop)
    ensures Reached(init, s) && Alone(s0, 1, s) && Marks(s, Chain4(), 4, {0, 1, 2, 3})
    ensures s.thr[1].ver == 2 && s.thr[1].top == Finished(Some(3))
  {
    var r := OneGoesOn(init, s0);
    s := Stop(init, r, 1);
    Twice(s0, r, s, 1);
  }

  lemma AllAreAsSeen() returns (s: State)
    ensures Reached(Start4(), s) && Marks(s, Chain4(), 4, {0, 1, 2, 3})
    ensures s.thr[1].ver == 2 && s.thr[1].top == Finished(Some(3))
    ensures s.thr[2].ver == 2 && s.thr[2].top == Finished(Some(0))
    ensures Is(s.thr[3], [0], Finished(None), [Some(0)], 0, false, RecheckTop(1)) && Saw(s.thr[3], SeenByThree())
  {
    s := FirstPassIsOver();
    s := ZeroIsBusy(Start4(), s);
    s := OneFinishes(Start4(), s);
  }

  lemma ThreeReturns() returns (s: State)
    ensures Reached(Start4(), s) && Marks(s, Chain4(), 4, {0, 1, 2, 3})
    ensures Is(s.thr[3], [0], Finished(None), [Some(0)], 0, false, Done) && Saw(s.thr[3], SeenByThree())
  {
    s := AllAreAsSeen();
    s := Return(Start4(), s, 3, 1);
  }

  lemma Start4IsInitial()
    ensures Initial(Start4())
  {}

  /** Thread 3 returns 1 having seen all threads of the phase finished, twice and unchanged, although the reachable object
      4 is not marked: thread 1 had published nothing yet when it was first seen. */
  lemma FinishedIsNotEnough() returns (s: State)
    ensures Initial(Start4()) && Reached(Start4(), s) && !Overtaken(s)
    ensures |s.thr| == 4 && s.thr[3].pc.Done? && FromRoots(s.child, s.thr[3].roots, 4) && !Marked(s.words, 4)
    ensures |s.thr[3].vers| == |s.thr[3].tops| == 4
    ensures forall m :: 0 <= m < 4 ==> s.thr[3].vers[m] == s.phase && s.thr[3].tops[m].Finished?
  {
    Start4IsInitial();
    s := ThreeReturns();
    NotOvertaken(s, Chain4(), 4, {0, 1, 2, 3});
    assert Descend(Chain4(), 2, 1) == Some(4) && Descend(Chain4(), 1, 2) == Some(4);
    Reaches(s, 3, 0, 3, 4);
  }

  // ---------------------------------------------------------------- leftover slots

  /** 0 -> 1, and 2, to which nothing points; an earlier phase has left 2 in thread 1's stack. */
  function Pair(): Heap {
    [Some(1), None, None]
  }

  function StartStale(): State {
    Start(Pair(), [Entering(0, [0], None, []), Entering(1, [0], None, [Some(2), Some(2)])])
  }

  /** Thread 1 publishes 0, with its stack above the counter as it was. */
  lemma LeftoverIsAbove() returns (s: State)
    ensures Reached(StartStale(), s) && Marks(s, Pair(), 2, {}) && s.thr[0] == Entering(0, [0], None, [])
    ensures s.thr[1].ver == 2 && s.thr[1].roots == [0] && s.thr[1].top == Busy(0) && s.thr[1].stack == [Some(0), Some(2)]
  {
    Begin(StartStale());
    s := Enter(StartStale(), StartStale(), 1);
    assert Is(s.thr[1], [0], Finished(None), [Some(0), Some(2)], 1, false, Loop);
    s := TakeUp(StartStale(), s, 1, 0);
  }

  /** Thread 0 marks 0. */
  lemma LeftoverStays() returns (s: State)
    ensures Reached(StartStale(), s) && Marks(s, Pair(), 2, {0})
    ensures Is(s.thr[0], [0], Busy(0), [Some(1)], 1, true, Loop)
    ensures s.thr[1].ver == 2 && s.thr[1].roots == [0] && s.thr[1].top == Busy(0) && s.thr[1].stack == [Some(0), Some(2)]
  {
    s := LeftoverIsAbove();
    s := Enter(StartStale(), s, 0);
    assert Is(s.thr[0], [0], Finished(None), [Some(0)], 1, false, Loop);
    s := Process(StartStale(), s, 0, 0);
  }

  /** It marks 1. */
  lemma LeftoverIsVisible() returns (s: State)
    ensures Reached(StartStale(), s) && Marks(s, Pair(), 2, {0, 1})
    ensures Is(s.thr[0], [0], Finished(Some(1)), [Some(1)], 0, true, CheckVer(0)) && Saw(s.thr[0], [])
    ensures s.thr[1].ver == 2 && s.thr[1].roots == [0] && s.thr[1].top == Busy(0) && s.thr[1].stack == [Some(0), Some(2)]
  {
    s := LeftoverStays();
    s := Process(StartStale(), s, 0, 1);
    s := Stop(StartStale(), s, 0);
  }

  lemma LeftoverIsScanned(init: State, s0: State) returns (s: State)
    requires Reached(init, s0) && Marks(s0, Pair(), 2, {0, 1}) && s0.thr[1].ver == 2 && s0.thr[1].top == Busy(0)
    requires Is(s0.thr[0], [0], Finished(Some(1)), [Some(1)], 0, true, CheckVer(0)) && Saw(s0.thr[0], [])
    ensures Reached(init, s) && Alone(s0, 0, s) && s.words == s0.words
    ensures Is(s.thr[0], [0], Finished(Some(1)), [Some(1)], 0, true, ReadSlot(1, 0))
    ensures Saw(s.thr[0], [Finished(Some(1)), Busy(0)])
  {
    var r := Sees(init, s0, 0, 0, []);
    s := Sees(init, r, 0, 1, [Finished(Some(1))]);
    Twice(s0, r, s, 0);
  }

  lemma LeftoverIsPassed(init: State, s0: State) returns (s: State)
    requires Reached(init, s0) && |s0.thr| == 2 && At(s0.thr[1].stack, 0) == Some(0) && Marked(s0.words, 0)
    requires s0.thr[0].pc == ReadSlot(1, 0)
    ensures Reached(init, s) && Becomes(s0, 0, s, s0.thr[0].(pc := ReadSlot(1, 1)))
  {
    var r := See(init, s0, 0, 1, 0, 0);
    s := PassBy(init, r, 0, 1, 0, 0);
    Twice(s0, r, s, 0);
  }

  /** Thread 0 passes the marked 0. */
  lemma LeftoverIsNext() returns (s: State)
    ensures Reached(StartStale(), s) && Marks(s, Pair(), 2, {0, 1}) && s.thr[1].roots == [0] && s.thr[1].stack == [Some(0), Some(2)]
    ensures Is(s.thr[0], [0], Finished(Some(1)), [Some(1)], 0, true, ReadSlot(1, 1))
    ensures Saw(s.thr[0], [Finished(Some(1)), Busy(0)])
  {
    s := LeftoverIsVisible();
    s := LeftoverIsScanned(StartStale(), s);
    s := LeftoverIsPassed(StartStale(), s);
  }

  lemma LeftoverIsTaken(init: State, s0: State) returns (s: State)
    requires Reached(init, s0) && Marks(s0, Pair(), 2, {0, 1}) && s0.thr[1].stack == [Some(0), Some(2)]
    requires Is(s0.thr[0], [0], Finished(Some(1)), [Some(1)], 0, true, ReadSlot(1, 1))
    ensures Reached(init, s) && Becomes(s0, 0, s, s0.thr[0].(stack := [Some(2)], counter := 1, pc := ReadSlot(1, 2)))
  {
    assert Put([Some(1)], 0, Some(2)) == [Some(2)];
    s := TakeOver(init, s0, 0, 1, 1, 2);
  }

  lemma LeftoverIsLast(init: State, s0: State) returns (s: State)
    requires Reached(init, s0) && Marks(s0, Pair(), 2, {0, 1}) && s0.thr[1].stack == [Some(0), Some(2)]
    requires s0.thr[0].pc == ReadSlot(1, 2) && s0.thr[0].tops == [Finished(Some(1)), Busy(0)]
    ensures Reached(init, s) && Alone(s0, 0, s) && s.words == s0.words
    ensures s.thr[0].roots == s0.thr[0].roots && s.thr[0].pc == CheckVer(2)
    ensures s.thr[0].counter == s0.thr[0].counter && s.thr[0].stack == s0.thr[0].stack
  {
    s := EndSlots(init, s0, 0, 1, 2);
  }

  /** It takes over 2. */
  lemma LeftoverIsHeld() returns (s: State)
    ensures Reached(StartStale(), s) && Marks(s, Pair(), 2, {0, 1}) && s.thr[0].roots == s.thr[1].roots == [0]
    ensures s.thr[0].pc == CheckVer(2) && s.thr[0].counter == 1 && s.thr[0].stack == [Some(2)]
  {
    s := LeftoverIsNext();
    s := LeftoverIsTaken(StartStale(), s);
    s := LeftoverIsLast(StartStale(), s);
  }

  lemma LeftoverIsMarked() returns (s: State)
    ensures Reached(StartStale(), s) && Marks(s, Pair(), 2, {0, 1, 2}) && s.thr[0].roots == s.thr[1].roots == [0]
  {
    s := LeftoverIsHeld();
    s := Help(StartStale(), s, 0);
    s := Process(StartStale(), s, 0, 2);
  }

  lemma TwoIsGarbage(roots: seq<Obj>)
    requires roots == [0]
    ensures !FromRoots(Pair(), roots, 2)
  {
    forall k: nat ensures Descend(Pair(), 0, k) != Some(2) {
      if k > 1 { assert Descend(Pair(), 1, k - 1) == None; }
    }
  }

  lemma StaleIsInitial()
    ensures Initial(StartStale())
  {}

  /** It marks 2, which no thread's roots reach: concurrent marking keeps garbage. */
  lemma KeepsGarbage() returns (s: State)
    ensures Initial(StartStale()) && Reached(StartStale(), s) && !Overtaken(s)
    ensures |s.thr| == 2 && Marked(s.words, 2)
    ensures forall t :: 0 <= t < 2 ==> !FromRoots(s.child, s.thr[t].roots, 2)
  {
    s := LeftoverIsMarked();
    NotOvertaken(s, Pair(), 2, {0, 1, 2});
    StaleIsInitial();
    forall t | 0 <= t < 2 ensures !FromRoots(s.child, s.thr[t].roots, 2) { TwoIsGarbage(s.thr[t].roots); }
  }
}
