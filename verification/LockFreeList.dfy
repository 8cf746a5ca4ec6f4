/** The lock-free sorted list of lfl-NoOrDelayRecl.c: find, ListInsert, ListDelete and ListSearch, with any number of
    threads and no reclamation.  One step is one access to shared memory. */
module LockFreeList {
  import opened Common
  import opened Runs

  type Node = nat
  /** A nextEntry word: a pointer and the deleted flag in its lowest bit. */
  datatype Link = Link(to: Option<Node>, marked: bool)
  /** Where fres.prev points: entryHead, or the nextEntry field of a node. */
  datatype Place = Head | NextOf(n: Node)
  datatype Op = Search(k: int) | Insert(k: int) | Delete(k: int)

  /** History variables: linked holds every node that was ever connected; list is what is reachable from head, in
      order. */
  datatype Heap = Heap(head: Option<Node>, key: seq<int>, next: seq<Link>, linked: set<Node>, list: seq<Node>)

  datatype PC =
    | Idle | ReadHead | Loop | ReadNext | Unlink | Validate | Found(yes: bool) | InsertCas | DeleteCas | Returned(ok: bool)

  /** cleanup: the find that ListDelete may run after marking.  History variables: began is the index of the state in
      which the call began, effect the index of the state from which it made its update. */
  datatype Thread = Thread(op: Op, pc: PC, prev: Place, cur: Option<Node>, next: Link, node: Node, cleanup: bool,
                           began: nat, effect: Option<nat>)

  /** past: the heaps of all earlier states (a history variable). */
  datatype State = State(heap: Heap, past: seq<Heap>, thr: seq<Thread>)

  /** tid moves; op is the call it makes when idle; flag tells ListDelete to force a list update. */
  datatype Action = Action(tid: nat, op: Op, flag: bool)

  ghost function Init(n: nat): State {
    State(Heap(None, [], [], {}, []), [],
      seq(n, _ => Thread(Search(0), Idle, Head, None, Link(None, false), 0, false, 0, None)))
  }

  function Step(s: State, a: Action): State {
    if a.tid < |s.thr| then
      var (h, th) := ThreadStep(s.heap, |s.past|, s.thr[a.tid], a);
      State(h, s.past + [s.heap], s.thr[a.tid := th])
    else s.(past := s.past + [s.heap])
  }

  /** *p */
  function Read(h: Heap, p: Place): Link {
    match p
    case Head => Link(h.head, false)
    case NextOf(n) => if n < |h.next| then h.next[n] else Link(None, true)
  }

  /** *p := x for an unmarked x. */
  function Write(h: Heap, p: Place, x: Option<Node>): Heap {
    match p
    case Head => h.(head := x)
    case NextOf(n) => if n < |h.next| then h.(next := h.next[n := Link(x, false)]) else h
  }

  /** The list with n put after place p. */
  function InsertAfter(list: seq<Node>, p: Place, n: Node): seq<Node> {
    if p.Head? then [n] + list
    else if list == [] then []
    else if list[0] == p.n then [list[0], n] + list[1..]
    else [list[0]] + InsertAfter(list[1..], p, n)
  }

  function Remove(list: seq<Node>, n: Node): seq<Node> {
    if list == [] then [] else if list[0] == n then list[1..] else [list[0]] + Remove(list[1..], n)
  }

  function ThreadStep(h: Heap, now: nat, th: Thread, a: Action): (Heap, Thread) {
    match th.pc
    case Idle => (h, th.(op := a.op, cleanup := false, began := now, effect := None, pc := ReadHead))
    case Found(yes) =>
      if th.cleanup then (h, th.(pc := Returned(true)))
      else (match th.op
            case Search(_) => (h, th.(pc := Returned(yes)))
            case Insert(k) => if yes then (h, th.(pc := Returned(false))) else NewNode(h, th, k)
            case Delete(_) => (h, th.(pc := if yes then DeleteCas else Returned(false))))
    case InsertCas =>
      if Read(h, th.prev) == Link(th.cur, false) then
        (Write(h, th.prev, Some(th.node)).(linked := h.linked + {th.node}, list := InsertAfter(h.list, th.prev, th.node)),
         th.(effect := Some(now), pc := Returned(true)))
      else (h, th.(pc := ReadHead))
    case DeleteCas =>
      if th.cur.Some? && th.cur.value < |h.next| && h.next[th.cur.value] == th.next then
        (h.(next := h.next[th.cur.value := th.next.(marked := true)]),
         th.(effect := Some(now), cleanup := true, pc := if a.flag then ReadHead else Returned(true)))
      else (h, th.(pc := ReadHead))
    case Returned(_) => (h, th.(pc := Idle))
    case _ => FindStep(h, th)
  }

  /** Allocation and the two private writes to the new node. */
  function NewNode(h: Heap, th: Thread, k: int): (Heap, Thread) {
    (h.(key := h.key + [k], next := h.next + [Link(th.cur, false)]), th.(node := |h.key|, pc := InsertCas))
  }

  function FindStep(h: Heap, th: Thread): (Heap, Thread) {
    match th.pc
    case ReadHead => (h, th.(prev := Head, cur := h.head, pc := Loop))
    case Loop => (h, th.(pc := if th.cur.None? then Found(false) else ReadNext))
    case ReadNext =>
      if th.cur.Some? && th.cur.value < |h.next| then
        var x := h.next[th.cur.value];
        (h, th.(next := x, pc := if x.marked then Unlink else Validate))
      else (h, th)
    case Unlink =>
      if Read(h, th.prev) == Link(th.cur, false) && th.cur.Some? then
        (Write(h, th.prev, th.next.to).(list := Remove(h.list, th.cur.value)), th.(cur := th.next.to, pc := Loop))
      else (h, th.(pc := ReadHead))
    case Validate =>
      if Read(h, th.prev) != Link(th.cur, false) || th.cur.None? || th.cur.value >= |h.key| then (h, th.(pc := ReadHead))
      else if h.key[th.cur.value] >= th.op.k then (h, th.(pc := Found(h.key[th.cur.value] == th.op.k)))
      else (h, th.(prev := NextOf(th.cur.value), cur := th.next.to, pc := Loop))
    case _ => (h, th)
  }

  // ---------------------------------------------------------------- the abstract set

  /** Following nextEntry from p, marks ignored, yields exactly list. */
  ghost predicate Chain(next: seq<Link>, p: Option<Node>, list: seq<Node>)
    decreases |list|
  {
    if list == [] then p == None
    else p == Some(list[0]) && list[0] < |next| && Chain(next, next[list[0]].to, list[1..])
  }

  predicate Unmarked(h: Heap, n: Node) {
    n < |h.next| && n < |h.key| && !h.next[n].marked
  }

  /** The keys of the reachable unmarked nodes. */
  function Keys(h: Heap): set<int> {
    set n | n in h.list && Unmarked(h, n) :: h.key[n]
  }
}
