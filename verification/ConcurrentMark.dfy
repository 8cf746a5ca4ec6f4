/** Concurrent collection of trace.c in one phase over a fixed heap of objects with one child each: __mark, traceObj,
    traceMarkstack, trace and CheckFinish, then the sweep and the pool of that phase.  Threads may enter the phase late or
    stop anywhere; collectors of a later phase may overtake it. */
module ConcurrentMark {
  import opened Common
  import opened ObjectHeap
  import opened Runs

  /** markstack[0]: the object being processed, or the last one with the finished mark in its lowest bit. */
  datatype Published = Finished(last: Option<Obj>) | Busy(o: Obj)

  datatype PC =
    | Outside                                          // not in this phase
    | PushRoot(i: nat) | Loop
    // traceObj and __mark
    | ReadWord(cur: Obj) | Publish(cur: Obj, before: MarkWord) | ReadChild(cur: Obj, before: MarkWord)
    | WriteChild(cur: Obj, before: MarkWord, c: Obj)
    | FirstMark(cur: Obj, before: MarkWord, nxt: Option<Obj>)
    | Reread(cur: Obj, nxt: Option<Obj>) | MarkAgain(cur: Obj, before: MarkWord, nxt: Option<Obj>)
    | Commit(nxt: Option<Obj>) | Abort(nxt: Option<Obj>)
    | Finish
    // CheckFinish: the first pass over the threads, the second, and its two ways to return 1
    | CheckVer(i: nat) | CheckTop(i: nat) | ReadSlot(i: nat, j: nat) | TestSlot(i: nat, j: nat, ptr: Obj)
    | TakeSlot(i: nat, j: nat, ptr: Obj) | TestTop(i: nat) | TakeTop(i: nat) | CheckPhase | ClearSlot(j: nat)
    | RecheckTop(i: nat) | RecheckVer(i: nat)
    | Done | Abandoned
    // sweeping and allocating
    | Sweep(cache: set<Obj>) | Left

  /** tid and ver are tid and localVer; stack[j] is markstack[j + 1]; roots are the root's child and the hazard pointers
      that this thread collected; vers and tops are curPhases and tracing.  History variables: published, whether the
      thread has published an object in this phase; since, the moves of the thread that CheckFinish looks at, when it
      read its markstack[0]; clean, whether in its last first pass each other thread was Fresh or stood still. */
  datatype Thread = Thread(
    tid: nat, roots: seq<Obj>, ver: nat, top: Published, stack: seq<Option<Obj>>, counter: nat,
    vers: seq<nat>, tops: seq<Published>, published: bool, since: nat, clean: bool, pc: PC)

  /** over: the global phase has moved on; closed: the pool's version has moved on as well.  sc is the phase of the sweep
      counter.  History variables: opener, the thread that set it to this phase; handed, what palloc returned; moves, the
      number of steps each thread has made. */
  datatype State = State(
    phase: nat, over: bool, closed: bool, sc: nat, opener: Option<nat>, pool: set<Obj>, handed: set<Obj>,
    child: seq<Option<Obj>>, words: seq<MarkWord>, thr: seq<Thread>, moves: seq<nat>)

  /** What a sweeping thread, or a collector of a later phase, does next. */
  datatype Choice = Move | Test(o: Obj) | PushCache | Take(o: Obj) | Leave | Clear(w: nat)
  /** Thread tid moves; a tid that is no thread is a collector of a later phase. */
  datatype Action = Action(tid: nat, choice: Choice)

  /** CheckFinish takes entries over up to this many. */
  const ENOUGH := 10

  function At(stack: seq<Option<Obj>>, j: nat): Option<Obj> {
    if j < |stack| then stack[j] else None
  }

  /** The stack after a write at position j. */
  function Put(stack: seq<Option<Obj>>, j: nat, x: Option<Obj>): (r: seq<Option<Obj>>)
    ensures forall i: nat :: At(r, i) == if i == j then x else At(stack, i)
  {
    if j < |stack| then stack[j := x] else stack + seq(j - |stack|, _ => None) + [x]
  }

  /** The pointer in markstack[0], without the mark. */
  function Pointer(p: Published): Option<Obj> {
    match p
    case Busy(o) => Some(o)
    case Finished(last) => last
  }

  function Step(s: State, a: Action): State {
    if a.tid >= |s.thr| then LaterStep(s, a.choice)
    else if s.thr[a.tid].pc.Done? || s.thr[a.tid].pc.Abandoned? || s.thr[a.tid].pc.Sweep? then
      SweepStep(s, a.tid, s.thr[a.tid], a.choice).(moves := Counted(s.moves, a.tid))
    else
      var (words, th) := ThreadStep(s, s.thr[a.tid]);
      s.(words := words, thr := s.thr[a.tid := th], moves := Counted(s.moves, a.tid))
  }

  function Counted(moves: seq<nat>, t: nat): (r: seq<nat>)
    ensures |r| == |moves| && forall u :: 0 <= u < |r| ==> r[u] == if u == t then moves[u] + 1 else moves[u]
  {
    if t < |moves| then moves[t := moves[t] + 1] else moves
  }

  /** The next phase: the global phase, then the pool's version, then the mark words, one by one. */
  function LaterStep(s: State, choice: Choice): State {
    if !s.over then s.(over := true)
    else if !s.closed then s.(closed := true)
    else if choice.Clear? && choice.w < |s.words| then s.(words := s.words[choice.w := MarkWord(s.phase + 2, {})])
    else s
  }

  function ThreadStep(s: State, th: Thread): (seq<MarkWord>, Thread) {
    match th.pc
    case Outside => (s.words, th.(ver := s.phase, counter := 0, published := false, clean := false, pc := PushRoot(0)))
    case PushRoot(i) =>
      if i < |th.roots| then
        (s.words, th.(stack := Put(th.stack, i, Some(th.roots[i])), counter := i + 1, pc := PushRoot(i + 1)))
      else (s.words, th.(pc := Loop))
    case Loop =>
      if th.counter == 0 then (s.words, th.(pc := Finish))
      else if At(th.stack, th.counter - 1).None? then (s.words, th)
      else (s.words, th.(counter := th.counter - 1, pc := ReadWord(At(th.stack, th.counter - 1).value)))
    case Finish => (s.words, Restarted(th.(top := Finished(Pointer(th.top)))))
    case ReadWord(_) | Publish(_, _) | ReadChild(_, _) | WriteChild(_, _, _) | FirstMark(_, _, _) | Reread(_, _)
       | MarkAgain(_, _, _) | Commit(_) | Abort(_) => TraceStep(s, th)
    case _ => (s.words, CheckStep(s, th))
  }

  /** traceObj and __mark. */
  function TraceStep(s: State, th: Thread): (seq<MarkWord>, Thread) {
    match th.pc
    case ReadWord(cur) =>
      if Marked(s.words, cur) || cur / BITS >= |s.words| then (s.words, th.(pc := Loop))
      else (s.words, th.(pc := Publish(cur, s.words[cur / BITS])))
    case Publish(cur, before) => (s.words, th.(top := Busy(cur), published := true, pc := ReadChild(cur, before)))
    case ReadChild(cur, before) =>
      var c := At(s.child, cur);
      (s.words, th.(pc := if c.None? then FirstMark(cur, before, None) else WriteChild(cur, before, c.value)))
    case WriteChild(cur, before, c) =>
      (s.words, th.(stack := Put(th.stack, th.counter, Some(c)), pc := FirstMark(cur, before, Some(c))))
    case FirstMark(cur, before, nxt) =>
      if before.tag != s.phase then (s.words, th.(pc := Abort(nxt)))
      else MarkWith(s, th, cur, before, nxt)
    case Reread(cur, nxt) =>
      if Marked(s.words, cur) || cur / BITS >= |s.words| || s.words[cur / BITS].tag != s.phase then
        (s.words, th.(pc := Abort(nxt)))
      else (s.words, th.(pc := MarkAgain(cur, s.words[cur / BITS], nxt)))
    case MarkAgain(cur, before, nxt) => MarkWith(s, th, cur, before, nxt)
    case Commit(nxt) => (s.words, th.(counter := th.counter + (if nxt.Some? then 1 else 0), pc := Loop))
    case Abort(nxt) =>
      (s.words, th.(stack := if nxt.Some? then Put(th.stack, th.counter, None) else th.stack, pc := Loop))
    case _ => (s.words, th)
  }

  function WordCas(words: seq<MarkWord>, o: Obj, before: MarkWord): seq<MarkWord> {
    if o / BITS < |words| && words[o / BITS] == before then
      words[o / BITS := before.(bits := before.bits + {o % BITS})]
    else words
  }

  /** The marking CAS. */
  function MarkWith(s: State, th: Thread, cur: Obj, before: MarkWord, nxt: Option<Obj>): (seq<MarkWord>, Thread) {
    if cur / BITS < |s.words| && s.words[cur / BITS] == before then
      (WordCas(s.words, cur, before), th.(pc := Commit(nxt)))
    else (s.words, th.(pc := Reread(cur, nxt)))
  }

  // ---------------------------------------------------------------- CheckFinish

  /** The label CheckFinish. */
  function Restarted(th: Thread): Thread {
    th.(vers := [], tops := [], clean := true, pc := CheckVer(0))
  }

  /** Of a thread whose version and markstack[0] are read: it was not in the phase, or it is finished and has published
      something in the phase or never anything. */
  predicate Fresh(s: State, th: Thread, ver: nat) {
    ver != s.phase || (th.top.Finished? && (th.published || th.top.last.None?))
  }

  function MovesOf(moves: seq<nat>, i: nat): nat {
    if i < |moves| then moves[i] else 0
  }

  function Pushed(th: Thread, ptr: Obj, pc: PC): Thread {
    th.(stack := Put(th.stack, th.counter, Some(ptr)), counter := th.counter + 1, pc := pc)
  }

  function CheckStep(s: State, th: Thread): Thread {
    match th.pc
    case CheckVer(_) | CheckTop(_) | ReadSlot(_, _) => ReadStep(s, th)
    case TestSlot(_, _, _) | TakeSlot(_, _, _) | TestTop(_) | TakeTop(_) => TakeStep(s, th)
    case RecheckTop(_) | RecheckVer(_) => RecheckStep(s, th)
    case CheckPhase => th.(pc := if s.over then ClearSlot(0) else Loop)
    case ClearSlot(j) =>
      if At(th.stack, j).Some? then th.(stack := Put(th.stack, j, None), pc := ClearSlot(j + 1))
      else th.(counter := 0, clean := false, pc := Abandoned)
    case _ => th
  }

  /** The first pass reads thread i's version, its markstack[0], and, if it is busy in this phase, its stack. */
  function ReadStep(s: State, th: Thread): Thread {
    match th.pc
    case CheckVer(i) =>
      if i < |s.thr| then th.(vers := th.vers + [s.thr[i].ver], pc := CheckTop(i))
      else th.(pc := if th.counter >= 1 then CheckPhase else RecheckTop(0))
    case CheckTop(i) =>
      if i >= |s.thr| || i >= |th.vers| then th
      else
        var top := s.thr[i].top;
        th.(tops := th.tops + [top], since := MovesOf(s.moves, i),
            clean := th.clean && (i == th.tid || top.Busy? || Fresh(s, s.thr[i], th.vers[i])),
            pc := if top.Finished? || th.vers[i] != s.phase then CheckVer(i + 1) else ReadSlot(i, 0))
    case ReadSlot(i, j) =>
      if i >= |s.thr| then th
      else th.(pc := if At(s.thr[i].stack, j).Some? then TestSlot(i, j, At(s.thr[i].stack, j).value) else TestTop(i))
    case _ => th
  }

  /** What it has read and finds unmarked it takes over. */
  function TakeStep(s: State, th: Thread): Thread {
    match th.pc
    case TestSlot(i, j, ptr) =>
      th.(pc := if !Marked(s.words, ptr) && th.counter < ENOUGH then TakeSlot(i, j, ptr) else ReadSlot(i, j + 1))
    case TakeSlot(i, j, ptr) => Pushed(th, ptr, ReadSlot(i, j + 1))
    case TestTop(i) =>
      th.(clean := th.clean && MovesOf(s.moves, i) == th.since,
          pc := if i < |th.tops| && th.tops[i].Busy? && !Marked(s.words, th.tops[i].o) then TakeTop(i) else CheckVer(i + 1))
    case TakeTop(i) => if i < |th.tops| && th.tops[i].Busy? then Pushed(th, th.tops[i].o, CheckVer(i + 1)) else th
    case _ => th
  }

  /** The second pass begins the first one again if a thread is not as it was. */
  function RecheckStep(s: State, th: Thread): Thread {
    match th.pc
    case RecheckTop(i) =>
      if i >= |s.thr| then th.(pc := Done)
      else if i >= |th.tops| || s.thr[i].top != th.tops[i] then Restarted(th)
      else th.(pc := RecheckVer(i))
    case RecheckVer(i) =>
      if i >= |s.thr| || i >= |th.vers| || s.thr[i].ver != th.vers[i] then Restarted(th)
      else th.(pc := RecheckTop(i + 1))
    case _ => th
  }

  // ---------------------------------------------------------------- sweeping and allocating

  /** resetSweepCounter (a failed CAS of it changes nothing), then testing an object's mark, pushing what was found free,
      taking an object from the pool, and leaving for the next phase, in any order. */
  function SweepStep(s: State, t: nat, th: Thread, choice: Choice): State
    requires t < |s.thr|
  {
    if !th.pc.Sweep? then
      var s' := if s.sc < s.phase then s.(sc := s.phase, opener := Some(t)) else s;
      s'.(thr := s.thr[t := th.(pc := Sweep({}))])
    else match choice
      case Test(o) =>
        if o < |s.child| && !Marked(s.words, o) then s.(thr := s.thr[t := th.(pc := Sweep(th.pc.cache + {o}))]) else s
      case PushCache =>
        (if s.closed then s else s.(pool := s.pool + th.pc.cache)).(thr := s.thr[t := th.(pc := Sweep({}))])
      case Take(o) => if o in s.pool && !s.closed then s.(pool := s.pool - {o}, handed := s.handed + {o}) else s
      case Leave => if s.closed then s.(thr := s.thr[t := th.(ver := s.phase + 2, pc := Left)]) else s
      case _ => s
  }

  // ---------------------------------------------------------------- what the claims are about

  /** A later phase has taken over a mark word: whatever this phase finds no longer matters. */
  ghost predicate Overtaken(s: State) {
    exists w :: 0 <= w < |s.words| && s.words[w].tag != s.phase
  }

  /** What another thread sees in the stack of a busy thread: the published object, and every slot before the first
      NULL. */
  ghost predicate Visible(th: Thread, o: Obj) {
    && th.pc != Outside && th.top.Busy?
    && (th.top.o == o || exists j :: 0 <= j < |th.stack| && th.stack[j] == Some(o) && forall i :: 0 <= i <= j ==> th.stack[i].Some?)
  }

  /** A thread holds pointers into the heap only. */
  ghost predicate HeapPointers(child: seq<Option<Obj>>, th: Thread) {
    && (forall i :: 0 <= i < |th.roots| ==> th.roots[i] < |child|)
    && (forall j :: 0 <= j < |th.stack| && th.stack[j].Some? ==> th.stack[j].value < |child|)
  }

  /** No thread is yet in the phase; their stacks, and the pointers below the finished marks, are what earlier phases
      left. */
  ghost predicate Initial(s: State) {
    && WellFormed(s.child, s.words) && !s.over && !s.closed && |s.moves| == |s.thr|
    && s.sc < s.phase && s.opener == None && s.pool == {} && s.handed == {}
    && (forall w :: 0 <= w < |s.words| ==> s.words[w] == MarkWord(s.phase, {}))
    && (forall t :: 0 <= t < |s.thr| ==>
          s.thr[t].tid == t && s.thr[t].pc == Outside && s.thr[t].top.Finished? && s.thr[t].ver < s.phase && !s.thr[t].published
          && s.thr[t].tops == [] && HeapPointers(s.child, s.thr[t]))
  }
}
