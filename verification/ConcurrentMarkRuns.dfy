/** Runs in which CheckFinish ends a phase too early, or keeps garbage. */
module ConcurrentMarkRuns {
  import opened Common
  import opened ObjectHeap
  import opened Runs
  import opened ConcurrentMark

  // ---------------------------------------------------------------- moving one thread

  ghost predicate Reached(init: State, s: State) {
    exists sched :: After(Step, init, sched) == s
  }

  /** Only thread t and the words have changed. */
  predicate Alone(s: State, t: nat, s': State) {
    t < |s.thr| == |s'.thr| && s' == s.(words := s'.words, thr := s.thr[t := s'.thr[t]], moves := s'.moves)
  }

  lemma Twice(s: State, r: State, s': State, t: nat)
    requires Alone(s, t, r) && Alone(r, t, s')
    ensures Alone(s, t, s')
  {
    assert s.thr[t := r.thr[t]][t := s'.thr[t]] == s.thr[t := s'.thr[t]];
  }

  /** Only thread t has changed. */
  predicate Becomes(s: State, t: nat, s': State, th: Thread) {
    Alone(s, t, s') && s'.words == s.words && s'.thr[t] == th
  }

  lemma Begin(init: State)
    ensures Reached(init, init)
  {
    assert After(Step, init, []) == init;
  }

  lemma Once(init: State, s: State, t: nat) returns (s': State)
    requires Reached(init, s)
    ensures Reached(init, s') && s' == Step(s, Action(t, Move))
  {
    var sched :| After(Step, init, sched) == s;
    s' := Step(s, Action(t, Move));
    assert (sched + [Action(t, Move)])[..|sched|] == sched;
    assert After(Step, init, sched + [Action(t, Move)]) == s';
  }

  /** One step that only changes the thread itself. */
  lemma Own(init: State, s: State, t: nat, th: Thread) returns (s': State)
    requires Reached(init, s) && t < |s.thr| && var pc := s.thr[t].pc; !pc.Done? && !pc.Abandoned? && !pc.Sweep?
    requires ThreadStep(s, s.thr[t]) == (s.words, th)
    ensures Reached(init, s') && Becomes(s, t, s', th)
  {
    s' := Once(init, s, t);
  }

  /** The stack after the roots have been pushed over what was in it. */
  function Over(stack: seq<Option<Obj>>, roots: seq<Obj>, n: nat): seq<Option<Obj>>
    requires n <= |roots|
  {
    seq(n, i requires 0 <= i < n => Some(roots[i])) + if n < |stack| then stack[n..] else []
  }

  lemma {:induction false} Push(init: State, s: State, t: nat, stack: seq<Option<Obj>>) returns (s': State)
    requires Reached(init, s) && t < |s.thr| && s.thr[t].pc.PushRoot? && s.thr[t].pc.i <= |s.thr[t].roots|
    requires s.thr[t].counter == s.thr[t].pc.i && s.thr[t].stack == Over(stack, s.thr[t].roots, s.thr[t].pc.i)
    ensures Reached(init, s') && var th := s.thr[t];
      Becomes(s, t, s', th.(stack := Over(stack, th.roots, |th.roots|), counter := |th.roots|, pc := Loop))
    decreases |s.thr[t].roots| - s.thr[t].pc.i
  {
    var th := s.thr[t];
    var r := Once(init, s, t);
    if th.pc.i < |th.roots| {
      assert Put(th.stack, th.pc.i, Some(th.roots[th.pc.i])) == Over(stack, th.roots, th.pc.i + 1);
      s' := Push(init, r, t, stack);
      Twice(s, r, s', t);
    } else {
      s' := r;
    }
  }

  /** Thread t enters the phase and pushes its roots. */
  lemma Enter(init: State, s: State, t: nat) returns (s': State)
    requires Reached(init, s) && t < |s.thr| && s.thr[t].pc.Outside?
    ensures Reached(init, s') && var th := s.thr[t];
      Becomes(s, t, s', th.(ver := s.phase, stack := Over(th.stack, th.roots, |th.roots|), counter := |th.roots|,
                           published := false, clean := false, pc := Loop))
  {
    var th := s.thr[t];
    var r := Once(init, s, t);
    assert Over(th.stack, th.roots, 0) == th.stack;
    s' := Push(init, r, t, th.stack);
    Twice(s, r, s', t);
  }

  predicate OnTop(s: State, t: nat, o: Obj) {
    && t < |s.thr| && s.thr[t].pc.Loop? && s.thr[t].counter > 0
    && At(s.thr[t].stack, s.thr[t].counter - 1) == Some(o)
  }

  lemma Pop(init: State, s: State, t: nat, o: Obj) returns (s': State)
    requires Reached(init, s) && OnTop(s, t, o)
    ensures Reached(init, s') && Becomes(s, t, s', s.thr[t].(counter := s.thr[t].counter - 1, pc := ReadWord(o)))
  {
    s' := Own(init, s, t, s.thr[t].(counter := s.thr[t].counter - 1, pc := ReadWord(o)));
  }

  /** It takes a marked object off its stack. */
  lemma Skip(init: State, s: State, t: nat, o: Obj) returns (s': State)
    requires Reached(init, s) && OnTop(s, t, o) && Marked(s.words, o)
    ensures Reached(init, s') && Becomes(s, t, s', s.thr[t].(counter := s.thr[t].counter - 1))
  {
    var r := Pop(init, s, t, o);
    s' := Own(init, r, t, s.thr[t].(counter := s.thr[t].counter - 1));
    Twice(s, r, s', t);
  }

  lemma PublishIt(init: State, s: State, t: nat, o: Obj) returns (s': State)
    requires Reached(init, s) && t < |s.thr| && s.thr[t].pc == ReadWord(o) && !Marked(s.words, o) && o / BITS < |s.words|
    ensures Reached(init, s')
    ensures Becomes(s, t, s', s.thr[t].(top := Busy(o), published := true, pc := ReadChild(o, s.words[o / BITS])))
  {
    var th, word := s.thr[t], s.words[o / BITS];
    var r := Own(init, s, t, th.(pc := Publish(o, word)));
    s' := Own(init, r, t, th.(top := Busy(o), published := true, pc := ReadChild(o, word)));
    Twice(s, r, s', t);
  }

  /** It takes an unmarked object off its stack and publishes it. */
  lemma TakeUp(init: State, s: State, t: nat, o: Obj) returns (s': State)
    requires Reached(init, s) && OnTop(s, t, o) && !Marked(s.words, o) && o / BITS < |s.words|
    ensures Reached(init, s') && var th := s.thr[t];
      Becomes(s, t, s', th.(top := Busy(o), counter := th.counter - 1, published := true, pc := ReadChild(o, s.words[o / BITS])))
  {
    var r := Pop(init, s, t, o);
    s' := PublishIt(init, r, t, o);
    Twice(s, r, s', t);
  }

  predicate Reading(s: State, t: nat, o: Obj) {
    && t < |s.thr| && o < |s.child| && o / BITS < |s.words| && s.words[o / BITS].tag == s.phase
    && s.thr[t].pc == ReadChild(o, s.words[o / BITS])
  }

  function WithMark(words: seq<MarkWord>, o: Obj): seq<MarkWord>
    requires o / BITS < |words|
  {
    words[o / BITS := words[o / BITS].(bits := words[o / BITS].bits + {o % BITS})]
  }

  lemma ReadIt(init: State, s: State, t: nat, o: Obj) returns (s': State)
    requires Reached(init, s) && Reading(s, t, o)
    ensures Reached(init, s') && var word := s.words[o / BITS];
      Becomes(s, t, s', s.thr[t].(pc := if s.child[o].Some? then WriteChild(o, word, s.child[o].value) else FirstMark(o, word, None)))
  {
    s' := Once(init, s, t);
  }

  lemma Write(init: State, s: State, t: nat) returns (s': State)
    requires Reached(init, s) && t < |s.thr| && s.thr[t].pc.WriteChild?
    ensures Reached(init, s') && var th, c := s.thr[t], Some(s.thr[t].pc.c);
      Becomes(s, t, s', th.(stack := Put(th.stack, th.counter, c), pc := FirstMark(th.pc.cur, th.pc.before, c)))
  {
    s' := Once(init, s, t);
  }

  lemma Marks(init: State, s: State, t: nat, o: Obj) returns (s': State)
    requires Reached(init, s) && t < |s.thr| && o < |s.child| && o / BITS < |s.words| && s.words[o / BITS].tag == s.phase
    requires s.thr[t].pc == FirstMark(o, s.words[o / BITS], s.child[o])
    ensures Reached(init, s') && Alone(s, t, s') && s'.words == WithMark(s.words, o) && s'.thr[t] == s.thr[t].(pc := Commit(s.child[o]))
  {
    s' := Once(init, s, t);
  }

  /** It writes the child to its stack and marks the object, up to the commit. */
  lemma MarkIt(init: State, s: State, t: nat, o: Obj) returns (s': State)
    requires Reached(init, s) && Reading(s, t, o)
    ensures Reached(init, s') && var th := s.thr[t];
      && Alone(s, t, s') && s'.words == WithMark(s.words, o)
      && s'.thr[t] == th.(stack := if s.child[o].Some? then Put(th.stack, th.counter, s.child[o]) else th.stack, pc := Commit(s.child[o]))
  {
    var r := ReadIt(init, s, t, o);
    if s.child[o].Some? {
      var w := Write(init, r, t);
      Twice(s, r, w, t);
      r := w;
    }
    s' := Marks(init, r, t, o);
    Twice(s, r, s', t);
  }

  lemma CommitIt(init: State, s: State, t: nat) returns (s': State)
    requires Reached(init, s) && t < |s.thr| && s.thr[t].pc.Commit?
    ensures Reached(init, s') && var th := s.thr[t];
      Becomes(s, t, s', th.(counter := if th.pc.nxt.Some? then th.counter + 1 else th.counter, pc := Loop))
  {
    var th := s.thr[t];
    s' := Own(init, s, t, th.(counter := if th.pc.nxt.Some? then th.counter + 1 else th.counter, pc := Loop));
  }

  /** TakeUp, MarkIt, and the commit. */
  lemma Process(init: State, s: State, t: nat, o: Obj) returns (s': State)
    requires Reached(init, s) && OnTop(s, t, o) && !Marked(s.words, o) && o < |s.child| && o / BITS < |s.words|
    requires s.words[o / BITS].tag == s.phase
    ensures Reached(init, s') && var th, n := s.thr[t], s.thr[t].counter - 1;
      && Alone(s, t, s') && s'.words == WithMark(s.words, o)
      && s'.thr[t] == th.(top := Busy(o), published := true,
                          stack := if s.child[o].Some? then Put(th.stack, n, s.child[o]) else th.stack,
                          counter := if s.child[o].Some? then n + 1 else n)
  {
    var r := TakeUp(init, s, t, o);
    var m := MarkIt(init, r, t, o);
    Twice(s, r, m, t);
    s' := CommitIt(init, m, t);
    Twice(s, m, s', t);
  }

  /** Its stack is empty: it has finished, and enters CheckFinish. */
  lemma Stop(init: State, s: State, t: nat) returns (s': State)
    requires Reached(init, s) && t < |s.thr| && s.thr[t].pc.Loop? && s.thr[t].counter == 0
    ensures Reached(init, s') && Becomes(s, t, s', Restarted(s.thr[t].(top := Finished(Pointer(s.thr[t].top)))))
  {
    var r := Own(init, s, t, s.thr[t].(pc := Finish));
    s' := Own(init, r, t, Restarted(s.thr[t].(top := Finished(Pointer(s.thr[t].top)))));
    Twice(s, r, s', t);
  }

  predicate Scanning(s: State, t: nat, i: nat) {
    t < |s.thr| && i < |s.thr| && s.thr[t].pc == CheckVer(i) && |s.thr[t].vers| == |s.thr[t].tops| == i
  }

  lemma ScanTop(init: State, s: State, t: nat, i: nat) returns (s': State)
    requires Reached(init, s) && t < |s.thr| && i < |s.thr| && s.thr[t].pc == CheckTop(i) && i < |s.thr[t].vers|
    ensures Reached(init, s') && var th, u := s.thr[t], s.thr[i];
      Alone(s, t, s') &&
      Becomes(s, t, s', th.(tops := th.tops + [u.top], since := s'.thr[t].since, clean := s'.thr[t].clean,
                            pc := if u.top.Finished? || th.vers[i] != s.phase then CheckVer(i + 1) else ReadSlot(i, 0)))
  {
    s' := Once(init, s, t);
  }

  /** It reads version and markstack[0] of thread i. */
  lemma Scan(init: State, s: State, t: nat, i: nat) returns (s': State)
    requires Reached(init, s) && Scanning(s, t, i)
    ensures Reached(init, s') && var th, u := s.thr[t], s.thr[i];
      Alone(s, t, s') &&
      Becomes(s, t, s', th.(vers := th.vers + [u.ver], tops := th.tops + [u.top], since := s'.thr[t].since, clean := s'.thr[t].clean,
                            pc := if u.top.Finished? || u.ver != s.phase then CheckVer(i + 1) else ReadSlot(i, 0)))
  {
    var th, u := s.thr[t].(vers := s.thr[t].vers + [s.thr[i].ver], pc := CheckTop(i)), s.thr[i];
    var r := Own(init, s, t, th);
    assert th.vers[i] == u.ver && r.thr[i].top == u.top && r.thr[i].published == u.published;
    s' := ScanTop(init, r, t, i);
    Twice(s, r, s', t);
  }

  /** It reads a slot of thread i. */
  lemma See(init: State, s: State, t: nat, i: nat, j: nat, o: Obj) returns (s': State)
    requires Reached(init, s) && t < |s.thr| && i < |s.thr| && s.thr[t].pc == ReadSlot(i, j) && At(s.thr[i].stack, j) == Some(o)
    ensures Reached(init, s') && Becomes(s, t, s', s.thr[t].(pc := TestSlot(i, j, o)))
  {
    s' := Own(init, s, t, s.thr[t].(pc := TestSlot(i, j, o)));
  }

  lemma PushIt(init: State, s: State, t: nat, i: nat, j: nat, o: Obj) returns (s': State)
    requires Reached(init, s) && t < |s.thr| && s.thr[t].pc == TakeSlot(i, j, o)
    ensures Reached(init, s') && Becomes(s, t, s', Pushed(s.thr[t], o, ReadSlot(i, j + 1)))
  {
    s' := Once(init, s, t);
  }

  lemma Take(init: State, s: State, t: nat, i: nat, j: nat, o: Obj) returns (s': State)
    requires Reached(init, s) && t < |s.thr| && s.thr[t].pc == TestSlot(i, j, o)
    requires !Marked(s.words, o) && s.thr[t].counter < ENOUGH
    ensures Reached(init, s') && Becomes(s, t, s', Pushed(s.thr[t], o, ReadSlot(i, j + 1)))
  {
    var r := Own(init, s, t, s.thr[t].(pc := TakeSlot(i, j, o)));
    s' := PushIt(init, r, t, i, j, o);
    Twice(s, r, s', t);
  }

  /** It reads a slot of thread i, finds it unmarked, and takes it over. */
  lemma TakeOver(init: State, s: State, t: nat, i: nat, j: nat, o: Obj) returns (s': State)
    requires Reached(init, s) && t < |s.thr| && i < |s.thr| && s.thr[t].pc == ReadSlot(i, j) && At(s.thr[i].stack, j) == Some(o)
    requires !Marked(s.words, o) && s.thr[t].counter < ENOUGH
    ensures Reached(init, s') && Becomes(s, t, s', Pushed(s.thr[t], o, ReadSlot(i, j + 1)))
  {
    var r := See(init, s, t, i, j, o);
    s' := Take(init, r, t, i, j, o);
    Twice(s, r, s', t);
  }

  /** It passes a slot whose object is marked. */
  lemma PassBy(init: State, s: State, t: nat, i: nat, j: nat, o: Obj) returns (s': State)
    requires Reached(init, s) && t < |s.thr| && s.thr[t].pc == TestSlot(i, j, o) && Marked(s.words, o)
    ensures Reached(init, s') && Becomes(s, t, s', s.thr[t].(pc := ReadSlot(i, j + 1)))
  {
    s' := Own(init, s, t, s.thr[t].(pc := ReadSlot(i, j + 1)));
  }

  lemma TopIsMarked(init: State, s: State, t: nat, i: nat) returns (s': State)
    requires Reached(init, s) && t < |s.thr| && s.thr[t].pc == TestTop(i)
    requires i < |s.thr[t].tops| && (s.thr[t].tops[i].Busy? ==> Marked(s.words, s.thr[t].tops[i].o))
    ensures Reached(init, s') && Alone(s, t, s')
    ensures Becomes(s, t, s', s.thr[t].(clean := s'.thr[t].clean, pc := CheckVer(i + 1)))
  {
    s' := Once(init, s, t);
  }

  /** It has read all slots of thread i before the first NULL, and thread i's published object is marked. */
  lemma EndSlots(init: State, s: State, t: nat, i: nat, j: nat) returns (s': State)
    requires Reached(init, s) && t < |s.thr| && i < |s.thr| && s.thr[t].pc == ReadSlot(i, j) && At(s.thr[i].stack, j).None?
    requires i < |s.thr[t].tops| && (s.thr[t].tops[i].Busy? ==> Marked(s.words, s.thr[t].tops[i].o))
    ensures Reached(init, s') && Alone(s, t, s')
    ensures Becomes(s, t, s', s.thr[t].(clean := s'.thr[t].clean, pc := CheckVer(i + 1)))
  {
    var r := Own(init, s, t, s.thr[t].(pc := TestTop(i)));
    s' := TopIsMarked(init, r, t, i);
    Twice(s, r, s', t);
  }

  /** The first pass is over. */
  lemma EndPass(init: State, s: State, t: nat) returns (s': State)
    requires Reached(init, s) && t < |s.thr| && s.thr[t].pc == CheckVer(|s.thr|)
    ensures Reached(init, s') && Becomes(s, t, s', s.thr[t].(pc := if s.thr[t].counter >= 1 then CheckPhase else RecheckTop(0)))
  {
    s' := Own(init, s, t, s.thr[t].(pc := if s.thr[t].counter >= 1 then CheckPhase else RecheckTop(0)));
  }

  /** It has taken entries over and goes on tracing. */
  lemma Help(init: State, s: State, t: nat) returns (s': State)
    requires Reached(init, s) && t < |s.thr| && s.thr[t].pc == CheckVer(|s.thr|) && s.thr[t].counter >= 1 && !s.over
    ensures Reached(init, s') && Becomes(s, t, s', s.thr[t].(pc := Loop))
  {
    var r := EndPass(init, s, t);
    s' := Own(init, r, t, s.thr[t].(pc := Loop));
    Twice(s, r, s', t);
  }

  lemma VerIsSame(init: State, s: State, t: nat, i: nat) returns (s': State)
    requires Reached(init, s) && t < |s.thr| && i < |s.thr| && s.thr[t].pc == RecheckVer(i)
    requires i < |s.thr[t].vers| && s.thr[i].ver == s.thr[t].vers[i]
    ensures Reached(init, s') && Becomes(s, t, s', s.thr[t].(pc := RecheckTop(i + 1)))
  {
    s' := Own(init, s, t, s.thr[t].(pc := RecheckTop(i + 1)));
  }

  /** It finds thread i as it was. */
  lemma Rescan(init: State, s: State, t: nat, i: nat) returns (s': State)
    requires Reached(init, s) && t < |s.thr| && i < |s.thr| && s.thr[t].pc == RecheckTop(i)
    requires i < |s.thr[t].tops| && s.thr[i].top == s.thr[t].tops[i] && i < |s.thr[t].vers| && s.thr[i].ver == s.thr[t].vers[i]
    ensures Reached(init, s') && Becomes(s, t, s', s.thr[t].(pc := RecheckTop(i + 1)))
  {
    var r := Own(init, s, t, s.thr[t].(pc := RecheckVer(i)));
    s' := VerIsSame(init, r, t, i);
    Twice(s, r, s', t);
  }

  /** It finds all threads from i on as they were, and CheckFinish returns 1. */
  lemma {:induction false} Return(init: State, s: State, t: nat, i: nat) returns (s': State)
    requires Reached(init, s) && t < |s.thr| && i <= |s.thr| && s.thr[t].pc == RecheckTop(i)
    requires |s.thr[t].tops| == |s.thr[t].vers| == |s.thr|
    requires forall m :: i <= m < |s.thr| ==> s.thr[m].top == s.thr[t].tops[m] && s.thr[m].ver == s.thr[t].vers[m]
    ensures Reached(init, s') && Becomes(s, t, s', s.thr[t].(pc := Done))
    decreases |s.thr| - i
  {
    if i < |s.thr| {
      var r := Rescan(init, s, t, i);
      s' := Return(init, r, t, i + 1);
      Twice(s, r, s', t);
    } else {
      s' := Own(init, s, t, s.thr[t].(pc := Done));
    }
  }
}
