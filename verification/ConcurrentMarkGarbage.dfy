/** Concurrent marking can keep any unreachable object that an earlier phase left in a stack, unless no thread ever sees
    another one busy: the exact condition for marking only what is reachable. */
module ConcurrentMarkGarbage {
  import opened Common
  import opened ObjectHeap
  import opened Runs
  import opened ConcurrentMark
  import opened ConcurrentMarkFinish
  import opened ConcurrentMarkRuns
  import opened ConcurrentMarkExact

  // ---------------------------------------------------------------- a thread that is left alone traces to the end

  /** The phase is on, and nothing outside the set is marked. */
  ghost predicate Going(s: State, within: iset<Obj>) {
    && WellFormed(s.child, s.words) && Closed(s.child, within) && MarksIn(within, s.words) && !s.over
    && forall w :: 0 <= w < |s.words| ==> s.words[w].tag == s.phase
  }

  /** Slot j holds an object of the heap within the set. */
  ghost predicate SlotIn(s: State, th: Thread, within: iset<Obj>, j: nat) {
    At(th.stack, j).Some? && At(th.stack, j).value < |s.child| && At(th.stack, j).value in within
  }

  ghost predicate Ready(s: State, t: nat, within: iset<Obj>) {
    && Going(s, within) && t < |s.thr| && s.thr[t].pc.Loop?
    && forall j: nat :: j < s.thr[t].counter ==> SlotIn(s, s.thr[t], within, j)
  }

  function Unmarked(child: Heap, words: seq<MarkWord>): set<Obj> {
    set o | 0 <= o < |child| && !Marked(words, o)
  }

  ghost predicate MarksKept(words: seq<MarkWord>, words': seq<MarkWord>) {
    forall o: Obj :: Marked(words, o) ==> Marked(words', o)
  }

  /** What is left in the stack of thread t after tracing it from s to s'. */
  ghost predicate Drained(s: State, t: nat, s': State) {
    && Alone(s, t, s') && MarksKept(s.words, s'.words)
    && var th, th' := s.thr[t], s'.thr[t];
    && th'.ver == th.ver && th'.counter == 0 && th'.pc.Loop? && |th'.stack| == |th.stack|
    && (forall j: nat :: j < th.counter ==> At(th'.stack, j).Some? && Marked(s'.words, At(th'.stack, j).value))
    && (forall j: nat :: j >= th.counter ==> At(th'.stack, j) == At(th.stack, j))
    && (th.top.Busy? && Marked(s.words, th.top.o) ==> th'.top.Busy? && Marked(s'.words, th'.top.o))
  }

  lemma WithMarkMarks(words: seq<MarkWord>, o: Obj)
    requires o / BITS < |words|
    ensures forall p: Obj :: Marked(WithMark(words, o), p) <==> Marked(words, p) || p == o
  {
    forall p: Obj | p / BITS == o / BITS && p % BITS == o % BITS ensures p == o {}
  }

  /** Thread t takes an object off its stack: what the step leaves, up to the objects further down. */
  ghost predicate OneLess(s: State, t: nat, s': State) {
    && Alone(s, t, s') && MarksKept(s.words, s'.words) && 0 < s.thr[t].counter
    && var th, th' := s.thr[t], s'.thr[t];
    var n := th.counter - 1;
    && th'.ver == th.ver && n <= th'.counter <= th.counter && |th'.stack| == |th.stack|
    && (th'.counter == n ==> At(th'.stack, n).Some? && Marked(s'.words, At(th'.stack, n).value))
    && (forall j: nat :: j != n ==> At(th'.stack, j) == At(th.stack, j))
    && (th.top.Busy? && Marked(s.words, th.top.o) ==> th'.top.Busy? && Marked(s'.words, th'.top.o))
  }

  lemma SkipOne(init: State, s: State, t: nat, within: iset<Obj>, o: Obj) returns (s': State)
    requires Reached(init, s) && Ready(s, t, within) && OnTop(s, t, o) && Marked(s.words, o)
    ensures Reached(init, s') && OneLess(s, t, s') && Ready(s', t, within)
    ensures s'.words == s.words && s'.thr[t].counter < s.thr[t].counter
  {
    s' := Skip(init, s, t, o);
    forall j: nat | j < s'.thr[t].counter ensures SlotIn(s', s'.thr[t], within, j) { assert SlotIn(s, s.thr[t], within, j); }
  }

  lemma ProcessOne(init: State, s: State, t: nat, within: iset<Obj>, o: Obj) returns (s': State)
    requires Reached(init, s) && Ready(s, t, within) && OnTop(s, t, o) && !Marked(s.words, o) && s.thr[t].counter <= |s.thr[t].stack|
    requires o < |s.child| && o in within
    ensures Reached(init, s') && OneLess(s, t, s') && Ready(s', t, within)
    ensures Unmarked(s'.child, s'.words) == Unmarked(s.child, s.words) - {o}
    ensures s'.thr[t].top == Busy(o) && Marked(s'.words, o)
  {
    var n := s.thr[t].counter - 1;
    s' := Process(init, s, t, o);
    WithMarkMarks(s.words, o);
    forall j: nat | j < s'.thr[t].counter ensures SlotIn(s', s'.thr[t], within, j) {
      if j < n { assert SlotIn(s, s.thr[t], within, j); }
    }
  }

  lemma DrainedOn(s: State, t: nat, r: State, s': State)
    requires OneLess(s, t, r) && Drained(r, t, s')
    ensures Drained(s, t, s')
  {
    Twice(s, r, s', t);
  }

  /** Thread t goes on until its stack is empty. */
  lemma {:induction false} Drain(init: State, s: State, t: nat, within: iset<Obj>) returns (s': State)
    requires Reached(init, s) && Ready(s, t, within) && s.thr[t].counter <= |s.thr[t].stack|
    ensures Reached(init, s') && Going(s', within) && Drained(s, t, s')
    decreases |Unmarked(s.child, s.words)|, s.thr[t].counter
  {
    if s.thr[t].counter == 0 {
      s' := s;
      assert s.thr[t := s.thr[t]] == s.thr;
    } else {
      assert SlotIn(s, s.thr[t], within, s.thr[t].counter - 1);
      var o, r := At(s.thr[t].stack, s.thr[t].counter - 1).value, s;
      if Marked(s.words, o) {
        r := SkipOne(init, s, t, within, o);
      } else {
        r := ProcessOne(init, s, t, within, o);
        assert o in Unmarked(s.child, s.words);
      }
      s' := Drain(init, r, t, within);
      DrainedOn(s, t, r, s');
    }
  }

  // ---------------------------------------------------------------- a first pass over finished and absent threads

  predicate SameStack(th: Thread, th': Thread) {
    th'.stack == th.stack && th'.counter == th.counter && th'.top == th.top && th'.ver == th.ver
  }

  predicate ScannedTo(th: Thread, i: nat) {
    th.pc == CheckVer(i) && |th.vers| == |th.tops| == i
  }

  /** Thread t reads threads i to n - 1, all of them finished or not in the phase. */
  lemma {:induction false} ScanTo(init: State, s: State, t: nat, i: nat, n: nat) returns (s': State)
    requires Reached(init, s) && t < |s.thr| && i <= n <= |s.thr| && ScannedTo(s.thr[t], i)
    requires forall m :: i <= m < n ==> s.thr[m].top.Finished? || s.thr[m].ver != s.phase
    ensures Reached(init, s') && Alone(s, t, s') && s'.words == s.words
    ensures SameStack(s.thr[t], s'.thr[t]) && ScannedTo(s'.thr[t], n)
    decreases n - i
  {
    if i == n {
      s' := s;
      assert s.thr[t := s.thr[t]] == s.thr;
    } else {
      var r := ScanOne(init, s, t, i);
      s' := ScanTo(init, r, t, i + 1, n);
      Twice(s, r, s', t);
    }
  }

  lemma ScanOne(init: State, s: State, t: nat, i: nat) returns (s': State)
    requires Reached(init, s) && t < |s.thr| && i < |s.thr| && ScannedTo(s.thr[t], i)
    requires s.thr[i].top.Finished? || s.thr[i].ver != s.phase
    ensures Reached(init, s') && Alone(s, t, s') && s'.words == s.words
    ensures SameStack(s.thr[t], s'.thr[t]) && ScannedTo(s'.thr[t], i + 1)
  {
    s' := Scan(init, s, t, i);
  }

  /** What thread t sees in the stack of a busy thread u: n marked objects, and g. */
  ghost predicate Shows(s: State, u: nat, n: nat, g: Obj) {
    && u < |s.thr| && s.thr[u].ver == s.phase && s.thr[u].top.Busy? && Marked(s.words, s.thr[u].top.o)
    && |s.thr[u].stack| == n + 1 && s.thr[u].stack[n] == Some(g)
    && forall j :: 0 <= j < n ==> s.thr[u].stack[j].Some? && Marked(s.words, s.thr[u].stack[j].value)
  }

  lemma PassOne(init: State, s: State, t: nat, u: nat, j: nat, o: Obj) returns (s': State)
    requires Reached(init, s) && t < |s.thr| && u < |s.thr| && s.thr[t].pc == ReadSlot(u, j)
    requires At(s.thr[u].stack, j) == Some(o) && Marked(s.words, o)
    ensures Reached(init, s') && Becomes(s, t, s', s.thr[t].(pc := ReadSlot(u, j + 1)))
  {
    var q := See(init, s, t, u, j, o);
    s' := PassBy(init, q, t, u, j, o);
    Twice(s, q, s', t);
  }

  lemma {:induction false} PassSlots(init: State, s: State, t: nat, u: nat, j: nat, n: nat, g: Obj) returns (s': State)
    requires Reached(init, s) && t < |s.thr| && u != t && Shows(s, u, n, g) && j <= n && s.thr[t].pc == ReadSlot(u, j)
    ensures Reached(init, s') && Becomes(s, t, s', s.thr[t].(pc := ReadSlot(u, n)))
    decreases n - j
  {
    if j == n {
      s' := s;
      assert s.thr[t := s.thr[t]] == s.thr;
    } else {
      var r := PassOne(init, s, t, u, j, s.thr[u].stack[j].value);
      s' := PassSlots(init, r, t, u, j + 1, n, g);
      Twice(s, r, s', t);
    }
  }

  /** Thread t passes them and takes g over. */
  lemma TakeGarbage(init: State, s: State, t: nat, u: nat, n: nat, g: Obj) returns (s': State)
    requires Reached(init, s) && t < |s.thr| && u != t && Shows(s, u, n, g) && !Marked(s.words, g)
    requires ScannedTo(s.thr[t], u) && s.thr[t].counter == 0
    ensures Reached(init, s') && Alone(s, t, s') && s'.words == s.words
    ensures ScannedTo(s'.thr[t], u + 1) && s'.thr[t].top == s.thr[t].top && s'.thr[t].counter == 1 && At(s'.thr[t].stack, 0) == Some(g)
  {
    var q := ComesToGarbage(init, s, t, u, n, g);
    var w := TakeOver(init, q, t, u, n, g);
    Twice(s, q, w, t);
    s' := EndSlots(init, w, t, u, n + 1);
    Twice(s, w, s', t);
  }

  lemma ComesToGarbage(init: State, s: State, t: nat, u: nat, n: nat, g: Obj) returns (s': State)
    requires Reached(init, s) && t < |s.thr| && u != t && Shows(s, u, n, g) && ScannedTo(s.thr[t], u)
    ensures Reached(init, s') && Alone(s, t, s') && s'.words == s.words && SameStack(s.thr[t], s'.thr[t])
    ensures var th' := s'.thr[t]; th'.pc == ReadSlot(u, n) && |th'.tops| == |th'.vers| == u + 1 && th'.tops[u] == s.thr[u].top
  {
    var q := Scan(init, s, t, u);
    s' := PassSlots(init, q, t, u, 0, n, g);
    Twice(s, q, s', t);
  }

  // ---------------------------------------------------------------- the run

  /** All stacks are empty but that of thread u, where an earlier phase has left g above the place of its roots. */
  function Leaving(child: Heap, roots: seq<seq<Obj>>, u: nat, g: Obj): State {
    State(2, false, false, 0, None, {}, {}, child, seq(|child|, _ => MarkWord(2, {})),
      seq(|roots|, t requires 0 <= t < |roots| =>
        Thread(t, roots[t], 0, Finished(None), if t == u then seq(|roots[t]| + 1, _ => Some(g)) else [], 0, [], [], false, 0, false, Outside)),
      seq(|roots|, _ => 0))
  }

  predicate InHeap(child: Heap, roots: seq<seq<Obj>>) {
    && (forall o :: 0 <= o < |child| && child[o].Some? ==> child[o].value < |child|)
    && (forall t, i :: 0 <= t < |roots| && 0 <= i < |roots[t]| ==> roots[t][i] < |child|)
  }

  ghost predicate RootsIn(child: Heap, th: Thread, within: iset<Obj>) {
    forall i :: 0 <= i < |th.roots| ==> th.roots[i] < |child| && th.roots[i] in within
  }

  /** Nothing is marked, the roots are within the set, and g, which is not, is left over above the roots of thread u. */
  ghost predicate Poised(init: State, u: nat, within: iset<Obj>, g: Obj) {
    && Going(init, within) && (forall o: Obj :: !Marked(init.words, o)) && g < |init.child| && g !in within
    && (forall v :: 0 <= v < |init.thr| ==>
          init.thr[v].pc.Outside? && init.thr[v].top.Finished? && RootsIn(init.child, init.thr[v], within))
    && u < |init.thr| && init.thr[u].roots != [] && init.thr[u].stack == seq(|init.thr[u].roots| + 1, _ => Some(g))
  }

  /** A thread that has entered has its roots before it. */
  lemma EntersReady(init: State, s: State, t: nat, within: iset<Obj>) returns (s': State)
    requires Reached(init, s) && Going(s, within) && t < |s.thr| && s.thr[t].pc.Outside?
    requires RootsIn(s.child, s.thr[t], within)
    ensures Reached(init, s') && Alone(s, t, s') && s'.words == s.words && Ready(s', t, within)
    ensures var th, th' := s.thr[t], s'.thr[t];
      && th'.ver == s.phase && th'.counter == |th.roots| && th'.stack == Over(th.stack, th.roots, |th.roots|)
  {
    s' := Enter(init, s, t);
    forall j: nat | j < s'.thr[t].counter ensures SlotIn(s', s'.thr[t], within, j) {
      assert At(s'.thr[t].stack, j) == Some(s.thr[t].roots[j]);
    }
  }

  /** Thread u traces all that its roots reach, and stops where it could finish. */
  lemma OwnerStops(init: State, u: nat, within: iset<Obj>, g: Obj) returns (s: State)
    requires Poised(init, u, within, g)
    ensures Reached(init, s) && Alone(init, u, s) && Going(s, within) && Shows(s, u, |init.thr[u].roots|, g)
  {
    var roots := init.thr[u].roots;
    Begin(init);
    var q := EntersReady(init, init, u, within);
    assert SlotIn(q, q.thr[u], within, |roots| - 1);
    var r := ProcessOne(init, q, u, within, At(q.thr[u].stack, |roots| - 1).value);
    s := Drain(init, r, u, within);
    DrainedOn(q, u, r, s);
    Twice(init, q, s, u);
    assert At(s.thr[u].stack, |roots|) == At(q.thr[u].stack, |roots|) == Some(g);
    forall j | 0 <= j < |roots| ensures s.thr[u].stack[j].Some? && Marked(s.words, s.thr[u].stack[j].value) {
      assert At(s.thr[u].stack, j) == s.thr[u].stack[j];
    }
  }

  /** Thread t enters, traces all that its roots reach, and goes into CheckFinish. */
  lemma HelperIsIdle(init: State, s: State, t: nat, within: iset<Obj>) returns (s': State)
    requires Reached(init, s) && Going(s, within) && t < |s.thr| && s.thr[t].pc.Outside?
    requires RootsIn(s.child, s.thr[t], within)
    ensures Reached(init, s') && Alone(s, t, s') && Going(s', within) && MarksKept(s.words, s'.words)
    ensures ScannedTo(s'.thr[t], 0) && s'.thr[t].counter == 0 && s'.thr[t].top.Finished?
  {
    var q := EntersReady(init, s, t, within);
    var r := Drain(init, q, t, within);
    Twice(s, q, r, t);
    s' := Stop(init, r, t);
    Twice(s, r, s', t);
  }

  /** Thread t reads the threads before u, takes g over from u, reads the others, and marks g. */
  lemma HelperMarks(init: State, s: State, t: nat, u: nat, n: nat, g: Obj, within: iset<Obj>) returns (s': State)
    requires Reached(init, s) && Going(s, within) && t < |s.thr| && u != t && Shows(s, u, n, g)
    requires !Marked(s.words, g) && g < |s.child| && ScannedTo(s.thr[t], 0) && s.thr[t].counter == 0
    requires forall m :: 0 <= m < |s.thr| && m != u ==> s.thr[m].top.Finished?
    ensures Reached(init, s') && Marked(s'.words, g)
  {
    var q := ScanTo(init, s, t, 0, u);
    var r := TakeGarbage(init, q, t, u, n, g);
    Twice(s, q, r, t);
    var w := ScanTo(init, r, t, u + 1, |s.thr|);
    Twice(s, r, w, t);
    s' := MarkGarbage(init, w, t, g, within);
  }

  lemma MarkGarbage(init: State, s: State, t: nat, g: Obj, within: iset<Obj>) returns (s': State)
    requires Reached(init, s) && Going(s, within) && t < |s.thr| && !Marked(s.words, g) && g < |s.child|
    requires s.thr[t].pc == CheckVer(|s.thr|) && s.thr[t].counter == 1 && At(s.thr[t].stack, 0) == Some(g)
    ensures Reached(init, s') && Marked(s'.words, g)
  {
    var q := Help(init, s, t);
    s' := Process(init, q, t, g);
    WithMarkMarks(q.words, g);
  }

  /** Whoever the other thread t is: it marks g. */
  lemma GarbageIsMarked(init: State, u: nat, t: nat, within: iset<Obj>, g: Obj) returns (s: State)
    requires Poised(init, u, within, g) && t < |init.thr| && t != u
    ensures Reached(init, s) && Marked(s.words, g)
  {
    var n := |init.thr[u].roots|;
    var q := OwnerStops(init, u, within, g);
    var r := HelperIsIdle(init, q, t, within);
    assert Shows(r, u, n, g);
    s := HelperMarks(init, r, t, u, n, g, within);
  }

  lemma LeavingIsInitial(child: Heap, roots: seq<seq<Obj>>, u: nat, g: Obj)
    requires InHeap(child, roots) && u < |roots| && g < |child|
    ensures var init := Leaving(child, roots, u, g); Initial(init) && RootsOf(init.thr) == roots
    ensures var init := Leaving(child, roots, u, g); forall o: Obj :: !Marked(init.words, o)
  {}

  lemma LeavingIsMarked(child: Heap, roots: seq<seq<Obj>>, u: nat, t: nat, g: Obj) returns (s: State)
    requires InHeap(child, roots) && u < |roots| && t < |roots| && t != u && roots[u] != []
    requires g < |child| && !FromAny(child, roots, g)
    ensures Reached(Leaving(child, roots, u, g), s) && Marked(s.words, g)
  {
    LeavingIsPoised(child, roots, u, g);
    s := GarbageIsMarked(Leaving(child, roots, u, g), u, t, Reach(child, roots), g);
  }

  lemma LeavingIsPoised(child: Heap, roots: seq<seq<Obj>>, u: nat, g: Obj)
    requires InHeap(child, roots) && u < |roots| && roots[u] != [] && g < |child| && !FromAny(child, roots, g)
    ensures Poised(Leaving(child, roots, u, g), u, Reach(child, roots), g)
  {
    var init, within := Leaving(child, roots, u, g), Reach(child, roots);
    LeavingIsInitial(child, roots, u, g);
    ReachIsClosed(child, roots);
    forall v | 0 <= v < |roots| ensures RootsIn(child, init.thr[v], within) {
      forall i | 0 <= i < |roots[v]| ensures roots[v][i] in within { ReachHoldsRoots(child, roots, v, i); }
    }
  }

  // ---------------------------------------------------------------- the exact condition

  /** The phase starts on this heap, with these roots for each thread, and earlier phases have left in the stacks only
      objects of this set. */
  ghost predicate StartsWith(init: State, child: Heap, roots: seq<seq<Obj>>, left: set<Obj>) {
    && Initial(init) && init.child == child && RootsOf(init.thr) == roots
    && forall t, j :: 0 <= t < |init.thr| && 0 <= j < |init.thr[t].stack| && init.thr[t].stack[j].Some? ==>
         init.thr[t].stack[j].value in left
  }

  ghost predicate AlwaysExact(child: Heap, roots: seq<seq<Obj>>, left: set<Obj>) {
    forall init, sched, o: Obj :: StartsWith(init, child, roots, left) && Marked(After(Step, init, sched).words, o) ==>
      FromAny(child, roots, o)
  }

  lemma SometimesKept(child: Heap, roots: seq<seq<Obj>>, left: set<Obj>, u: nat, g: Obj)
    requires InHeap(child, roots) && |roots| >= 2 && u < |roots| && roots[u] != []
    requires g in left && g < |child| && !FromAny(child, roots, g)
    ensures !AlwaysExact(child, roots, left)
  {
    var t := if u == 0 then 1 else 0;
    var init := Leaving(child, roots, u, g);
    var s := LeavingIsMarked(child, roots, u, t, g);
    var sched :| After(Step, init, sched) == s;
    LeavingIsInitial(child, roots, u, g);
    assert StartsWith(init, child, roots, left) && Marked(After(Step, init, sched).words, g);
  }

  /** Whatever the threads do, and wherever in the stacks the leftovers are, nothing unreachable is marked: exactly if there
      is one thread at most, or no thread has a root, or every object left over is reachable from some thread's roots. */
  lemma ExactIff(child: Heap, roots: seq<seq<Obj>>, left: set<Obj>)
    requires InHeap(child, roots) && forall g :: g in left ==> g < |child|
    ensures AlwaysExact(child, roots, left) <==>
      |roots| < 2 || NoRoots(roots) || forall g :: g in left ==> FromAny(child, roots, g)
  {
    if |roots| < 2 || NoRoots(roots) || forall g :: g in left ==> FromAny(child, roots, g) {
      forall init, sched, o: Obj | StartsWith(init, child, roots, left) && Marked(After(Step, init, sched).words, o)
        ensures FromAny(child, roots, o) {
        if |roots| < 2 || NoRoots(roots) { BlindMarksReachableOnly(init, sched, o); } else { MarksReachableOnly(init, sched, o); }
      }
    } else {
      var g :| g in left && !FromAny(child, roots, g);
      var u :| 0 <= u < |roots| && roots[u] != [];
      SometimesKept(child, roots, left, u, g);
    }
  }
}
