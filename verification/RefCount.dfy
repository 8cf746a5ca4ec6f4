/** Reference counting as in refcount.c, driven by the list of lfl-RC.c.
    One step is one access to shared memory; DecrementAndTestAndSet and clearLowestBit are one step each, since a failed
    CAS of theirs changes nothing.  Keys are left out: the outcome of a key comparison is a choice. */
module RefCount {
  import opened Common
  import opened Runs
  import opened Sums

  type Node = nat
  datatype Link = Link(to: Option<Node>, marked: bool)
  datatype Place = Head | NextOf(n: Node)
  datatype Op = Search | Insert | Delete

  /** The life of a node (a history variable).  Its nextEntry counts as a reference while it is Live or Dying; its claim
      bit is set while it is Dying or Free.  Blank: taken by newRC, nextEntry not yet written. */
  datatype Stage = Blank | Live | Dying | Free

  datatype Shared = Shared(head: Option<Node>, rc: seq<int>, next: seq<Link>, stage: seq<Stage>)

  /** Pending calls of release: the decrement, then for a claimed node the release of its successor, then reclaim. */
  datatype Task = Release(n: Node) | ReleaseNext(n: Node) | Reclaim(n: Node)

  datatype PC =
    | Idle
    // find: cur = safeRead(prev)
    | ReadHead | CountHead(q: Node) | CheckHead(q: Node)
    | Loop
    // find: next = safeRead(&cur->nextEntry)
    | ReadNext | CountNext(x: Link) | CheckNext(x: Link)
    | Unlink | CountLink | Validate | Found(yes: bool)
    // newRC, and ListInsert up to its CAS
    | NewNode | Retake(n: Node) | ClearClaim(n: Node) | SetNext | CountCur | InsertCas
    | DeleteCas

  /** free is the thread's freeList, first node first; todo the releases it still has to carry out before it goes on. */
  datatype Thread = Thread(op: Op, pc: PC, prev: Place, cur: Option<Node>, next: Link, node: Node,
                           free: seq<Node>, todo: seq<Task>)

  datatype State = State(mem: Shared, thr: seq<Thread>)

  /** tid moves; op is the call it makes when idle; reached and equal are the outcomes of the key comparisons of find, and
      again tells ListDelete to force a list update. */
  datatype Action = Action(tid: nat, op: Op, reached: bool, equal: bool, again: bool)

  ghost function Init(n: nat): State {
    State(Shared(None, [], [], []), seq(n, _ => Thread(Search, Idle, Head, None, Link(None, false), 0, [], [])))
  }

  predicate Sizes(m: Shared) {
    |m.rc| == |m.next| == |m.stage|
  }

  function Step(s: State, a: Action): State {
    if a.tid < |s.thr| && Sizes(s.mem) then
      var (m, th) := ThreadStep(s.mem, s.thr[a.tid], a);
      State(m, s.thr[a.tid := th])
    else s
  }

  function ThreadStep(m: Shared, th: Thread, a: Action): (r: (Shared, Thread))
    requires Sizes(m)
    ensures Sizes(r.0)
  {
    if th.todo != [] then TaskStep(m, th)
    else match th.pc
      case Idle | ReadHead | CountHead(_) | CheckHead(_) | Loop
         | ReadNext | CountNext(_) | CheckNext(_) | Unlink | CountLink | Validate => FindStep(m, th, a)
      case Found(_) | NewNode | Retake(_) | ClearClaim(_) | SetNext | CountCur | InsertCas | DeleteCas => UpdateStep(m, th, a)
  }

  function Add(m: Shared, n: Node, k: int): Shared {
    if n < |m.rc| then m.(rc := m.rc[n := m.rc[n] + k]) else m
  }

  function Read(m: Shared, p: Place): Link {
    match p
    case Head => Link(m.head, false)
    case NextOf(n) => if n < |m.next| then m.next[n] else Link(None, true)
  }

  function Write(m: Shared, p: Place, x: Option<Node>): Shared {
    match p
    case Head => m.(head := x)
    case NextOf(n) => if n < |m.next| then m.(next := m.next[n := Link(x, false)]) else m
  }

  /** release of a pointer that may be NULL. */
  function Rel(x: Option<Node>): seq<Task> {
    if x.Some? then [Release(x.value)] else []
  }

  function RelPrev(p: Place): seq<Task> {
    if p.NextOf? then [Release(p.n)] else []
  }

  /** Release of everything fres holds. */
  function RelAll(th: Thread): seq<Task> {
    Rel(th.cur) + Rel(th.next.to) + RelPrev(th.prev)
  }

  /** release and reclaim. */
  function TaskStep(m: Shared, th: Thread): (r: (Shared, Thread))
    requires Sizes(m) && th.todo != []
    ensures Sizes(r.0)
  {
    var rest := th.todo[1..];
    match th.todo[0]
    case Release(n) =>
      if n >= |m.rc| then (m, th.(todo := rest))
      else if m.rc[n] == 2 then
        (m.(rc := m.rc[n := 1], stage := m.stage[n := Dying]), th.(todo := [ReleaseNext(n), Reclaim(n)] + rest))
      else (Add(m, n, -2), th.(todo := rest))
    case ReleaseNext(n) =>
      if n >= |m.next| then (m, th.(todo := rest))
      else (m.(stage := m.stage[n := Free]), th.(todo := Rel(m.next[n].to) + rest))
    case Reclaim(n) =>
      if n >= |m.next| then (m, th.(todo := rest))
      else (m.(next := m.next[n := Link(if th.free == [] then None else Some(th.free[0]), false)]),
            th.(free := [n] + th.free, todo := rest))
  }

  function FindStep(m: Shared, th: Thread, a: Action): (r: (Shared, Thread))
    requires Sizes(m)
    ensures Sizes(r.0)
  {
    match th.pc
    case Idle => (m, th.(op := a.op, pc := ReadHead))
    case ReadHead =>
      (m, th.(prev := Head, cur := None, next := Link(None, false),
              pc := if m.head.Some? then CountHead(m.head.value) else Loop))
    case CountHead(q) => (Add(m, q, 2), th.(pc := CheckHead(q)))
    case CheckHead(q) =>
      if m.head == Some(q) then (m, th.(cur := Some(q), pc := Loop))
      else (m, th.(todo := [Release(q)], pc := ReadHead))
    case Loop => (m, th.(pc := if th.cur.None? then Found(false) else ReadNext))
    case ReadNext =>
      if th.cur.None? || th.cur.value >= |m.next| then (m, th)
      else
        var x := m.next[th.cur.value];
        (m, if x.to.None? then th.(next := x, pc := Classify(x)) else th.(pc := CountNext(x)))
    case CountNext(x) => (if x.to.Some? then Add(m, x.to.value, 2) else m, th.(pc := CheckNext(x)))
    case CheckNext(x) =>
      if th.cur.Some? && th.cur.value < |m.next| && m.next[th.cur.value] == x then (m, th.(next := x, pc := Classify(x)))
      else (m, th.(todo := Rel(x.to), pc := ReadNext))
    case Unlink =>
      if Read(m, th.prev) == Link(th.cur, false) then
        (Write(m, th.prev, th.next.to), th.(todo := Rel(th.cur), pc := CountLink))
      else (m, th.(todo := RelAll(th), pc := ReadHead))
    case CountLink =>
      (if th.next.to.Some? then Add(m, th.next.to.value, 2) else m,
       th.(todo := Rel(th.cur), cur := th.next.to, pc := Loop))
    case Validate =>
      if Read(m, th.prev) != Link(th.cur, false) || th.cur.None? then (m, th.(todo := RelAll(th), pc := ReadHead))
      else if a.reached then (m, th.(pc := Found(a.equal)))
      else (m, th.(todo := RelPrev(th.prev), prev := NextOf(th.cur.value), cur := th.next.to, pc := Loop))
    case _ => (m, th)
  }

  function Classify(x: Link): PC {
    if x.marked then Unlink else Validate
  }

  function UpdateStep(m: Shared, th: Thread, a: Action): (r: (Shared, Thread))
    requires Sizes(m)
    ensures Sizes(r.0)
  {
    match th.pc
    case Found(yes) =>
      if th.op == Insert && !yes then (m, th.(pc := NewNode))
      else if th.op == Delete && yes then (m, th.(pc := DeleteCas))
      else (m, th.(todo := RelAll(th), pc := Idle))
    case NewNode =>
      if th.free == [] then
        (Shared(m.head, m.rc + [2], m.next + [Link(None, false)], m.stage + [Blank]), th.(node := |m.rc|, pc := SetNext))
      else (m, th.(free := th.free[1..], pc := Retake(th.free[0])))
    case Retake(n) => (Add(m, n, 2), th.(pc := ClearClaim(n)))
    case ClearClaim(n) =>
      if n < |m.stage| then (Add(m, n, -1).(stage := m.stage[n := Blank]), th.(node := n, pc := SetNext)) else (m, th)
    case SetNext =>
      if th.node < |m.next| then
        (m.(next := m.next[th.node := Link(th.cur, false)], stage := m.stage[th.node := Live]), th.(pc := CountCur))
      else (m, th)
    case CountCur => (if th.cur.Some? then Add(m, th.cur.value, 2) else m, th.(pc := InsertCas))
    case InsertCas =>
      if Read(m, th.prev) == Link(th.cur, false) then
        (Write(m, th.prev, Some(th.node)),
         th.(todo := Rel(th.cur) + Rel(th.next.to) + Rel(th.cur) + RelPrev(th.prev), pc := Idle))
      else (m, th.(todo := [Release(th.node)] + Rel(th.next.to) + Rel(th.cur) + RelPrev(th.prev), pc := ReadHead))
    case DeleteCas =>
      if th.cur.Some? && th.cur.value < |m.next| && m.next[th.cur.value] == th.next then
        // a forced update is one more find whose result is dropped
        (m.(next := m.next[th.cur.value := th.next.(marked := true)]),
         th.(todo := RelAll(th), op := Search, pc := if a.again then ReadHead else Idle))
      else (m, th.(todo := RelAll(th), pc := ReadHead))
    case _ => (m, th)
  }

  // ---------------------------------------------------------------- the references there are to a node

  function One(x: Option<Node>, n: Node): int {
    if x == Some(n) then 1 else 0
  }

  function OnePrev(p: Place, n: Node): int {
    if p == NextOf(n) then 1 else 0
  }

  function TaskRefs(todo: seq<Task>, n: Node): int {
    if todo == [] then 0 else (if todo[0] == Release(n) then 1 else 0) + TaskRefs(todo[1..], n)
  }

  /** The references to n in fres and newEntry at each point of the code, and the transient one of a safeRead in
      progress. */
  function VarRefs(th: Thread, n: Node): int {
    match th.pc
    case Idle => 0
    case ReadHead => 0
    case CountHead(_) => 0
    case CheckHead(q) => One(Some(q), n)
    case Loop => OnePrev(th.prev, n) + One(th.cur, n)
    case ReadNext => OnePrev(th.prev, n) + One(th.cur, n)
    case CountNext(_) => OnePrev(th.prev, n) + One(th.cur, n)
    case CheckNext(x) => OnePrev(th.prev, n) + One(th.cur, n) + One(x.to, n)
    case ClearClaim(q) => OnePrev(th.prev, n) + One(th.cur, n) + One(th.next.to, n) + One(Some(q), n)
    case SetNext => OnePrev(th.prev, n) + One(th.cur, n) + One(th.next.to, n) + One(Some(th.node), n)
    case CountCur => OnePrev(th.prev, n) + One(th.cur, n) + One(th.next.to, n) + One(Some(th.node), n)
    case InsertCas => OnePrev(th.prev, n) + One(th.cur, n) + One(th.next.to, n) + One(Some(th.node), n)
    case _ => OnePrev(th.prev, n) + One(th.cur, n) + One(th.next.to, n)
  }

  /** References to n held by a thread, those it is about to release included. */
  function Held(th: Thread, n: Node): int {
    VarRefs(th, n) + TaskRefs(th.todo, n)
  }

  /** Links to n that a thread has made and not yet counted. */
  function Debt(th: Thread, n: Node): int {
    match th.pc
    case CountLink => One(th.next.to, n)
    case CountCur => One(th.cur, n)
    case _ => 0
  }

  predicate Claimed(g: Stage) {
    g == Dying || g == Free
  }

  function LinkRef(x: Link, g: Stage, n: Node): int {
    if g == Live || g == Dying then One(x.to, n) else 0
  }

  /** The counted links to n: from head and from the nodes whose nextEntry counts. */
  ghost function Links(m: Shared, n: Node): int
    requires Sizes(m)
  {
    One(m.head, n) + Sum(LinkRefs(m, n))
  }

  function LinkRefs(m: Shared, n: Node): (r: seq<int>)
    requires Sizes(m)
    ensures |r| == |m.next| && forall i :: 0 <= i < |r| ==> r[i] == LinkRef(m.next[i], m.stage[i], n)
  {
    seq(|m.next|, i requires 0 <= i < |m.next| => LinkRef(m.next[i], m.stage[i], n))
  }

  /** All references to n held by threads, less the links not yet counted. */
  ghost function NetHeld(thr: seq<Thread>, n: Node): int {
    Sum(NetRefs(thr, n))
  }

  function NetRefs(thr: seq<Thread>, n: Node): (r: seq<int>)
    ensures |r| == |thr| && forall t :: 0 <= t < |r| ==> r[t] == Held(thr[t], n) - Debt(thr[t], n)
  {
    seq(|thr|, t requires 0 <= t < |thr| => Held(thr[t], n) - Debt(thr[t], n))
  }
}
