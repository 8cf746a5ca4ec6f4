/** The accounting invariant of the reference counts, and its preservation. */
module RefCountInvariant {
  import opened Common
  import opened Runs
  import opened Sums
  import opened RefCount

  // ---------------------------------------------------------------- what a thread relies on

  /** Is n one of the nodes that fres refers to with a reference of its own? */
  predicate InFres(th: Thread, n: Node) {
    match th.pc
    case Idle | ReadHead | CountHead(_) | CheckHead(_) => false
    case Loop | ReadNext | CountNext(_) | CheckNext(_) => th.prev == NextOf(n) || th.cur == Some(n)
    case _ => th.prev == NextOf(n) || th.cur == Some(n) || th.next.to == Some(n)
  }

  /** newEntry, between newRC and the insert CAS. */
  predicate IsPrivate(th: Thread, n: Node) {
    (th.pc.SetNext? || th.pc.CountCur? || th.pc.InsertCas?) && th.node == n
  }

  predicate StageIs(m: Shared, n: Node, g: Stage) {
    n < |m.stage| && m.stage[n] == g
  }

  predicate Counts(m: Shared, n: Node) {
    n < |m.stage| && (m.stage[n] == Live || m.stage[n] == Dying)
  }

  ghost predicate NotLinked(m: Shared, x: Node) {
    m.head != Some(x) && forall n :: 0 <= n < |m.next| && Counts(m, n) ==> m.next[n].to != Some(x)
  }

  /** How often this thread has n in its charge as a claimed node. */
  function Claims(th: Thread, n: Node): int {
    multiset(th.free)[n] + TaskClaims(th.todo, n)
    + (match th.pc { case Retake(q) => One(Some(q), n) case ClearClaim(q) => One(Some(q), n) case _ => 0 })
  }

  function TaskClaims(todo: seq<Task>, n: Node): int {
    if todo == [] then 0 else (if todo[0] == Reclaim(n) then 1 else 0) + TaskClaims(todo[1..], n)
  }

  ghost predicate TodoOk(m: Shared, todo: seq<Task>) {
    && (forall i :: 0 <= i < |todo| ==> todo[i].n < |m.rc|)
    && (forall i :: 1 <= i < |todo| ==> !todo[i].ReleaseNext?)
    && (todo != [] && todo[0].ReleaseNext? ==>
          |todo| > 1 && todo[1] == Reclaim(todo[0].n) && StageIs(m, todo[0].n, Dying))
    && (todo != [] && todo[0].Reclaim? ==> StageIs(m, todo[0].n, Free))
    && (forall i :: 2 <= i < |todo| && todo[i].Reclaim? ==> StageIs(m, todo[i].n, Free))
    && (|todo| > 1 && todo[1].Reclaim? && !todo[0].ReleaseNext? ==> StageIs(m, todo[1].n, Free))
  }

  ghost predicate PcOk(m: Shared, th: Thread) {
    match th.pc
    case CountHead(q) => th.prev == Head && q < |m.rc|
    case CheckHead(q) => th.prev == Head && q < |m.rc|
    case Loop => th.cur.None? ==> th.next.to.None?
    case ReadNext => th.cur.Some?
    case CountNext(x) => th.cur.Some? && x.to.Some? && x.to.value < |m.rc|
    case CheckNext(x) => th.cur.Some? && x.to.Some? && x.to.value < |m.rc|
    case Unlink => th.cur.Some? && th.next.marked && th.cur.value < |m.next| && m.next[th.cur.value] == th.next
    case CountLink => th.cur.Some? && th.next.marked && th.cur.value < |m.next| && m.next[th.cur.value] == th.next
    case Validate => th.cur.Some? && !th.next.marked
    case Found(yes) => yes ==> th.cur.Some? && !th.next.marked
    case Retake(n) => StageIs(m, n, Free)
    case ClearClaim(n) => StageIs(m, n, Free)
    case SetNext => StageIs(m, th.node, Blank) && NotLinked(m, th.node)
    case CountCur => StageIs(m, th.node, Live) && NotLinked(m, th.node) && th.node < |m.next| && m.next[th.node].to == th.cur
    case InsertCas => StageIs(m, th.node, Live) && NotLinked(m, th.node)
    case DeleteCas => th.cur.Some? && !th.next.marked
    case _ => true
  }

  ghost predicate ThreadOk(m: Shared, th: Thread) {
    && TodoOk(m, th.todo) && PcOk(m, th)
    && (forall n :: InFres(th, n) ==> StageIs(m, n, Live))
    && (forall i :: 0 <= i < |th.free| ==> StageIs(m, th.free[i], Free))
  }

  // ---------------------------------------------------------------- the invariant

  /** The count of n, and its claim bit; both 0 before n is allocated. */
  function CountOf(m: Shared, n: Node): int {
    if n < |m.rc| then m.rc[n] else 0
  }

  function ClaimOf(m: Shared, n: Node): int {
    if n < |m.stage| && Claimed(m.stage[n]) then 1 else 0
  }

  /** Counted links lead to live nodes only. */
  ghost predicate LinksLive(m: Shared) {
    && (m.head.Some? ==> StageIs(m, m.head.value, Live))
    && forall n :: 0 <= n < |m.next| && Counts(m, n) && m.next[n].to.Some? ==> StageIs(m, m.next[n].to.value, Live)
  }

  /** Twice the number of references to n, plus the claim bit; a link made and not yet counted is a debt. */
  ghost predicate CountExact(s: State, n: Node)
    requires Sizes(s.mem)
  {
    CountOf(s.mem, n) == 2 * (Links(s.mem, n) + NetHeld(s.thr, n)) + ClaimOf(s.mem, n)
  }

  ghost function AllClaims(thr: seq<Thread>, n: Node): int {
    Sum(ClaimCounts(thr, n))
  }

  function ClaimCounts(thr: seq<Thread>, n: Node): (r: seq<int>)
    ensures |r| == |thr| && forall t :: 0 <= t < |r| ==> r[t] == Claims(thr[t], n)
  {
    seq(|thr|, t requires 0 <= t < |thr| => Claims(thr[t], n))
  }

  /** A claimed node is in the charge of exactly one thread, once; any other node of none. */
  ghost predicate ClaimExact(s: State, n: Node)
  {
    AllClaims(s.thr, n) == ClaimOf(s.mem, n)
  }

  /** A node not yet inserted is known to its creator only. */
  ghost predicate PrivateTo(thr: seq<Thread>) {
    forall t, u, n :: 0 <= t < |thr| && 0 <= u < |thr| && IsPrivate(thr[t], n) ==>
      !InFres(thr[u], n) && (t != u ==> !IsPrivate(thr[u], n))
  }

  ghost predicate BlankHasCreator(s: State) {
    forall n :: StageIs(s.mem, n, Blank) ==> exists t :: 0 <= t < |s.thr| && s.thr[t].pc.SetNext? && s.thr[t].node == n
  }

  ghost predicate Inv(s: State) {
    && Sizes(s.mem) && LinksLive(s.mem) && PrivateTo(s.thr) && BlankHasCreator(s)
    && (forall n: Node :: CountExact(s, n)) && (forall n: Node :: ClaimExact(s, n))
    && forall t :: 0 <= t < |s.thr| ==> ThreadOk(s.mem, s.thr[t])
  }

  // ---------------------------------------------------------------- the last reference

  /** A debt is always for a node the debtor holds. */
  lemma DebtIsCovered(th: Thread, n: Node)
    ensures 0 <= Debt(th, n) <= VarRefs(th, n) && 0 <= TaskRefs(th.todo, n)
    ensures InFres(th, n) || IsPrivate(th, n) ==> 1 <= VarRefs(th, n)
  {
    TasksNonNegative(th.todo, n);
  }

  lemma {:induction false} TasksNonNegative(todo: seq<Task>, n: Node)
    ensures 0 <= TaskRefs(todo, n)
    ensures Release(n) in todo ==> 1 <= TaskRefs(todo, n)
  {
    if todo != [] { TasksNonNegative(todo[1..], n); }
  }

  lemma LinkIsCounted(m: Shared, i: Node, n: Node)
    requires Sizes(m)
    ensures 0 <= Links(m, n)
    ensures m.head == Some(n) || (i < |m.next| && Counts(m, i) && m.next[i].to == Some(n)) ==> 1 <= Links(m, n)
  {
    var xs := LinkRefs(m, n);
    SumNonNegative(xs);
    if i < |m.next| { SumBound(xs, i, i); }
  }

  lemma DebtorSeesLink(m: Shared, th: Thread, n: Node)
    requires Sizes(m) && ThreadOk(m, th) && 1 <= Debt(th, n)
    ensures 1 <= Links(m, n)
  {
    match th.pc
    case CountLink =>
      assert InFres(th, th.cur.value);
      LinkIsCounted(m, th.cur.value, n);
    case CountCur => LinkIsCounted(m, th.node, n);
  }

  /** When release finds the count at 2, its reference is the only one there is. */
  lemma LastReference(s: State, t: nat, n: Node)
    requires Inv(s) && t < |s.thr| && s.thr[t].todo != [] && s.thr[t].todo[0] == Release(n) && CountOf(s.mem, n) == 2
    ensures ClaimOf(s.mem, n) == 0 && Links(s.mem, n) == 0
    ensures forall u :: 0 <= u < |s.thr| ==> !InFres(s.thr[u], n) && !IsPrivate(s.thr[u], n)
  {
    var net := NetRefs(s.thr, n);
    assert CountExact(s, n);
    forall u | 0 <= u < |s.thr| ensures 0 <= net[u] { DebtIsCovered(s.thr[u], n); }
    DebtIsCovered(s.thr[t], n);
    TasksNonNegative(s.thr[t].todo, n);
    SumBound(net, t, t);
    LinkIsCounted(s.mem, 0, n);
    forall u | 0 <= u < |s.thr| ensures !InFres(s.thr[u], n) && !IsPrivate(s.thr[u], n) {
      DebtIsCovered(s.thr[u], n);
      SumBound(net, u, t);
      if 1 <= Debt(s.thr[u], n) { DebtorSeesLink(s.mem, s.thr[u], n); }
    }
  }

  // ---------------------------------------------------------------- what a step does to the accounts of one node

  ghost predicate Balanced(m: Shared, th: Thread, r: (Shared, Thread), n: Node)
    requires Sizes(m) && Sizes(r.0)
  {
    && CountOf(r.0, n) - CountOf(m, n)
       == 2 * (Links(r.0, n) - Links(m, n) + Held(r.1, n) - Debt(r.1, n) - Held(th, n) + Debt(th, n)) + ClaimOf(r.0, n) - ClaimOf(m, n)
    && Claims(r.1, n) - Claims(th, n) == ClaimOf(r.0, n) - ClaimOf(m, n)
  }

  lemma {:induction false} TasksConcat(a: seq<Task>, b: seq<Task>, n: Node)
    ensures TaskRefs(a + b, n) == TaskRefs(a, n) + TaskRefs(b, n)
    ensures TaskClaims(a + b, n) == TaskClaims(a, n) + TaskClaims(b, n)
  {
    if a == [] {
      assert a + b == b;
    } else {
      assert (a + b)[1..] == a[1..] + b;
      TasksConcat(a[1..], b, n);
    }
  }

  lemma RelRefs(x: Option<Node>, p: Place, n: Node)
    ensures TaskRefs(Rel(x), n) == One(x, n) && TaskClaims(Rel(x), n) == 0
    ensures TaskRefs(RelPrev(p), n) == OnePrev(p, n) && TaskClaims(RelPrev(p), n) == 0
  {
    assert forall t: Task :: [t][1..] == [];
  }

  lemma RelAllRefs(th: Thread, n: Node)
    ensures TaskRefs(RelAll(th), n) == OnePrev(th.prev, n) + One(th.cur, n) + One(th.next.to, n)
    ensures TaskClaims(RelAll(th), n) == 0
  {
    RelRefs(th.cur, th.prev, n);
    RelRefs(th.next.to, th.prev, n);
    TasksConcat(Rel(th.cur), Rel(th.next.to), n);
    TasksConcat(Rel(th.cur) + Rel(th.next.to), RelPrev(th.prev), n);
  }

  /** Changing the link or the stage of one node. */
  lemma LinksUpdate(m: Shared, m': Shared, i: Node, n: Node)
    requires Sizes(m) && Sizes(m') && m'.head == m.head && |m'.next| == |m.next| && i < |m.next|
    requires forall k :: 0 <= k < |m.next| && k != i ==> m'.next[k] == m.next[k] && m'.stage[k] == m.stage[k]
    ensures Links(m', n) == Links(m, n) - LinkRef(m.next[i], m.stage[i], n) + LinkRef(m'.next[i], m'.stage[i], n)
  {
    SumUpdate(LinkRefs(m, n), i, LinkRef(m'.next[i], m'.stage[i], n));
    assert LinkRefs(m', n) == LinkRefs(m, n)[i := LinkRef(m'.next[i], m'.stage[i], n)];
  }

  lemma LinksSame(m: Shared, m': Shared, n: Node)
    requires Sizes(m) && Sizes(m') && m'.next == m.next && m'.stage == m.stage
    ensures Links(m', n) == Links(m, n) - One(m.head, n) + One(m'.head, n)
  {
    assert LinkRefs(m', n) == LinkRefs(m, n);
  }

  lemma ReleaseBalanced(m: Shared, th: Thread, n: Node)
    requires Sizes(m) && ThreadOk(m, th) && th.todo != [] && th.todo[0].Release? && CountOf(m, th.todo[0].n) != 2
    ensures Balanced(m, th, TaskStep(m, th), n)
  {
    LinksSame(m, TaskStep(m, th).0, n);
    FirstTaskGone(th, TaskStep(m, th).1, n);
  }

  lemma FirstTaskGone(th: Thread, th': Thread, n: Node)
    requires th.todo != [] && th.todo[0].Release? && th' == th.(todo := th.todo[1..])
    ensures Held(th', n) == Held(th, n) - One(Some(th.todo[0].n), n) && Debt(th', n) == Debt(th, n) && Claims(th', n) == Claims(th, n)
  {}

  lemma LastReleaseBalanced(m: Shared, th: Thread, n: Node)
    requires Sizes(m) && ThreadOk(m, th) && th.todo != [] && th.todo[0].Release?
    requires CountOf(m, th.todo[0].n) == 2 && StageIs(m, th.todo[0].n, Live)
    ensures Balanced(m, th, TaskStep(m, th), n)
  {
    LinksUpdate(m, TaskStep(m, th).0, th.todo[0].n, n);
    LastReleaseHeld(th, TaskStep(m, th).1, n);
  }

  /** The last reference is given up, and the charge of the node taken on. */
  lemma LastReleaseHeld(th: Thread, th': Thread, n: Node)
    requires th.todo != [] && th.todo[0].Release?
    requires th' == th.(todo := [ReleaseNext(th.todo[0].n), Reclaim(th.todo[0].n)] + th.todo[1..])
    ensures Held(th', n) == Held(th, n) - One(Some(th.todo[0].n), n) && Debt(th', n) == Debt(th, n)
    ensures Claims(th', n) == Claims(th, n) + One(Some(th.todo[0].n), n)
  {
    ClaimTasks(th.todo[0].n, th.todo[1..], n);
  }

  lemma ClaimTasks(q: Node, rest: seq<Task>, n: Node)
    ensures TaskRefs([ReleaseNext(q), Reclaim(q)] + rest, n) == TaskRefs(rest, n)
    ensures TaskClaims([ReleaseNext(q), Reclaim(q)] + rest, n) == One(Some(q), n) + TaskClaims(rest, n)
  {
    TasksConcat([ReleaseNext(q), Reclaim(q)], rest, n);
    assert [ReleaseNext(q), Reclaim(q)][1..] == [Reclaim(q)] && [Reclaim(q)][1..] == [];
  }

  lemma ReleaseNextBalanced(m: Shared, th: Thread, n: Node)
    requires Sizes(m) && ThreadOk(m, th) && th.todo != [] && th.todo[0].ReleaseNext?
    ensures Balanced(m, th, TaskStep(m, th), n)
  {
    var q := th.todo[0].n;
    LinksUpdate(m, TaskStep(m, th).0, q, n);
    ReleaseNextHeld(th, TaskStep(m, th).1, m.next[q].to, n);
  }

  /** The reference that the claimed node's link was becomes one to release. */
  lemma ReleaseNextHeld(th: Thread, th': Thread, x: Option<Node>, n: Node)
    requires th.todo != [] && th.todo[0].ReleaseNext? && th' == th.(todo := Rel(x) + th.todo[1..])
    ensures Held(th', n) == Held(th, n) + One(x, n) && Debt(th', n) == Debt(th, n) && Claims(th', n) == Claims(th, n)
  {
    TasksConcat(Rel(x), th.todo[1..], n);
    RelRefs(x, Head, n);
  }

  lemma ReclaimBalanced(m: Shared, th: Thread, n: Node)
    requires Sizes(m) && ThreadOk(m, th) && th.todo != [] && th.todo[0].Reclaim?
    ensures Balanced(m, th, TaskStep(m, th), n)
  {
    LinksUpdate(m, TaskStep(m, th).0, th.todo[0].n, n);
    ReclaimHeld(th, TaskStep(m, th).1, n);
  }

  /** The charge of the node passes from the task to the free list. */
  lemma ReclaimHeld(th: Thread, th': Thread, n: Node)
    requires th.todo != [] && th.todo[0].Reclaim? && th' == th.(todo := th.todo[1..], free := [th.todo[0].n] + th.free)
    ensures Held(th', n) == Held(th, n) && Debt(th', n) == Debt(th, n) && Claims(th', n) == Claims(th, n)
  {
  }

  // steps of find

  lemma ReadHeadBalanced(m: Shared, th: Thread, a: Action, n: Node)
    requires Sizes(m) && ThreadOk(m, th) && th.todo == []
    requires th.pc.Idle? || th.pc.ReadHead? || th.pc.CountHead? || th.pc.CheckHead? || th.pc.Loop?
    ensures Balanced(m, th, FindStep(m, th, a), n)
  {
    LinksSame(m, FindStep(m, th, a).0, n);
    if th.pc.CheckHead? { RelRefs(Some(th.pc.q), Head, n); }
  }

  lemma ReadNextBalanced(m: Shared, th: Thread, a: Action, n: Node)
    requires Sizes(m) && ThreadOk(m, th) && th.todo == [] && th.pc.ReadNext?
    ensures Balanced(m, th, FindStep(m, th, a), n)
  {
    LinksSame(m, FindStep(m, th, a).0, n);
  }

  lemma CountNextBalanced(m: Shared, th: Thread, a: Action, n: Node)
    requires Sizes(m) && ThreadOk(m, th) && th.todo == [] && th.pc.CountNext?
    ensures Balanced(m, th, FindStep(m, th, a), n)
  {
    LinksSame(m, FindStep(m, th, a).0, n);
  }

  lemma CheckNextBalanced(m: Shared, th: Thread, a: Action, n: Node)
    requires Sizes(m) && ThreadOk(m, th) && th.todo == [] && th.pc.CheckNext?
    ensures Balanced(m, th, FindStep(m, th, a), n)
  {
    RelRefs(th.pc.x.to, Head, n);
  }

  lemma UnlinkBalanced(m: Shared, th: Thread, a: Action, n: Node)
    requires Sizes(m) && ThreadOk(m, th) && th.todo == [] && th.pc.Unlink?
    ensures Balanced(m, th, FindStep(m, th, a), n)
  {
    var m' := FindStep(m, th, a).0;
    RelAllRefs(th, n);
    RelRefs(th.cur, th.prev, n);
    if Read(m, th.prev) == Link(th.cur, false) {
      if th.prev.NextOf? {
        assert InFres(th, th.prev.n);
        LinksUpdate(m, m', th.prev.n, n);
      } else {
        LinksSame(m, m', n);
      }
    }
  }

  lemma CountLinkBalanced(m: Shared, th: Thread, a: Action, n: Node)
    requires Sizes(m) && ThreadOk(m, th) && th.todo == [] && th.pc.CountLink?
    ensures Balanced(m, th, FindStep(m, th, a), n)
  {
    LinksSame(m, FindStep(m, th, a).0, n);
    RelRefs(th.cur, th.prev, n);
    assert th.next.to.Some? ==> InFres(th, th.next.to.value);
  }

  lemma ValidateBalanced(m: Shared, th: Thread, a: Action, n: Node)
    requires Sizes(m) && ThreadOk(m, th) && th.todo == [] && th.pc.Validate?
    ensures Balanced(m, th, FindStep(m, th, a), n)
  {
    LinksSame(m, FindStep(m, th, a).0, n);
    RelAllRefs(th, n);
    RelRefs(th.cur, th.prev, n);
  }

  // newRC and the updates

  lemma NewNodeBalanced(m: Shared, th: Thread, a: Action, n: Node)
    requires Sizes(m) && ThreadOk(m, th) && th.todo == [] && th.pc.NewNode?
    ensures Balanced(m, th, UpdateStep(m, th, a), n)
  {
    if th.free == [] {
      NodeAdded(m, UpdateStep(m, th, a).0, n);
    } else {
      assert th.free == [th.free[0]] + th.free[1..];
    }
  }

  lemma NodeAdded(m: Shared, m': Shared, n: Node)
    requires Sizes(m) && m' == Shared(m.head, m.rc + [2], m.next + [Link(None, false)], m.stage + [Blank])
    ensures Links(m', n) == Links(m, n)
  {
    SumAppend(LinkRefs(m, n), 0);
    assert LinkRefs(m', n) == LinkRefs(m, n) + [0];
  }

  lemma RetakeBalanced(m: Shared, th: Thread, a: Action, n: Node)
    requires Sizes(m) && ThreadOk(m, th) && th.todo == [] && (th.pc.Retake? || th.pc.ClearClaim?)
    ensures Balanced(m, th, UpdateStep(m, th, a), n)
  {
    LinksUpdate(m, UpdateStep(m, th, a).0, th.pc.n, n);
  }

  lemma SetNextBalanced(m: Shared, th: Thread, a: Action, n: Node)
    requires Sizes(m) && ThreadOk(m, th) && th.todo == [] && th.pc.SetNext?
    ensures Balanced(m, th, UpdateStep(m, th, a), n)
  {
    LinksUpdate(m, UpdateStep(m, th, a).0, th.node, n);
  }

  lemma CountCurBalanced(m: Shared, th: Thread, a: Action, n: Node)
    requires Sizes(m) && ThreadOk(m, th) && th.todo == [] && th.pc.CountCur?
    ensures Balanced(m, th, UpdateStep(m, th, a), n)
  {
    assert th.cur.Some? ==> InFres(th, th.cur.value);
    LinksSame(m, UpdateStep(m, th, a).0, n);
  }

  /** The releases after the insert CAS: of x, next, cur and prev. */
  lemma InsertTasks(x: Option<Node>, th: Thread, n: Node)
    ensures TaskRefs(Rel(x) + Rel(th.next.to) + Rel(th.cur) + RelPrev(th.prev), n)
            == One(x, n) + One(th.next.to, n) + One(th.cur, n) + OnePrev(th.prev, n)
    ensures TaskClaims(Rel(x) + Rel(th.next.to) + Rel(th.cur) + RelPrev(th.prev), n) == 0
  {
    RelRefs(x, th.prev, n);
    RelRefs(th.cur, th.prev, n);
    RelRefs(th.next.to, th.prev, n);
    TasksConcat(Rel(x), Rel(th.next.to), n);
    TasksConcat(Rel(x) + Rel(th.next.to), Rel(th.cur), n);
    TasksConcat(Rel(x) + Rel(th.next.to) + Rel(th.cur), RelPrev(th.prev), n);
  }

  lemma InsertFailsBalanced(m: Shared, th: Thread, a: Action, n: Node)
    requires Sizes(m) && ThreadOk(m, th) && th.todo == [] && th.pc.InsertCas? && Read(m, th.prev) != Link(th.cur, false)
    ensures Balanced(m, th, UpdateStep(m, th, a), n)
  {
    InsertTasks(Some(th.node), th, n);
  }

  lemma InsertBalanced(m: Shared, th: Thread, a: Action, n: Node)
    requires Sizes(m) && ThreadOk(m, th) && th.todo == [] && th.pc.InsertCas? && Read(m, th.prev) == Link(th.cur, false)
    ensures Balanced(m, th, UpdateStep(m, th, a), n)
  {
    InsertTasks(th.cur, th, n);
    InsertLinks(m, th, UpdateStep(m, th, a).0, n);
    InsertHeld(th, UpdateStep(m, th, a).1, n);
  }

  lemma InsertHeld(th: Thread, th': Thread, n: Node)
    requires th.todo == [] && th.pc.InsertCas? && th' == th.(todo := th'.todo, pc := Idle)
    requires TaskRefs(th'.todo, n) == One(th.cur, n) + One(th.next.to, n) + One(th.cur, n) + OnePrev(th.prev, n)
    requires TaskClaims(th'.todo, n) == 0
    ensures Held(th', n) == Held(th, n) - One(Some(th.node), n) + One(th.cur, n)
    ensures Debt(th', n) == Debt(th, n) == 0 && Claims(th', n) == Claims(th, n)
  {
  }

  /** The insert CAS replaces the link to cur by one to the new node. */
  lemma InsertLinks(m: Shared, th: Thread, m': Shared, n: Node)
    requires Sizes(m) && ThreadOk(m, th) && th.pc.InsertCas? && Read(m, th.prev) == Link(th.cur, false)
    requires m' == Write(m, th.prev, Some(th.node))
    ensures Sizes(m') && Links(m', n) == Links(m, n) - One(th.cur, n) + One(Some(th.node), n)
  {
    if th.prev.NextOf? {
      assert InFres(th, th.prev.n);
      LinksUpdate(m, m', th.prev.n, n);
    } else {
      LinksSame(m, m', n);
    }
  }

  lemma FoundBalanced(m: Shared, th: Thread, a: Action, n: Node)
    requires Sizes(m) && ThreadOk(m, th) && th.todo == [] && th.pc.Found?
    ensures Balanced(m, th, UpdateStep(m, th, a), n)
  {
    var (m', th') := UpdateStep(m, th, a);
    assert m' == m;
    if th'.pc.Idle? {
      RelAllRefs(th, n);
      assert th'.todo == RelAll(th) && VarRefs(th', n) == 0;
      HeldAsTasks(th, th', n);
    } else {
      assert VarRefs(th', n) == VarRefs(th, n);
    }
  }

  lemma HeldAsTasks(th: Thread, th': Thread, n: Node)
    requires th.todo == [] && th.pc.Found? && th' == th.(todo := th'.todo, pc := Idle)
    requires TaskRefs(th'.todo, n) == VarRefs(th, n) && TaskClaims(th'.todo, n) == 0
    ensures Held(th', n) == Held(th, n) && Debt(th', n) == Debt(th, n) == 0 && Claims(th', n) == Claims(th, n)
  {
  }

  lemma DeleteBalanced(m: Shared, th: Thread, a: Action, n: Node)
    requires Sizes(m) && ThreadOk(m, th) && th.todo == [] && th.pc.DeleteCas?
    ensures Balanced(m, th, UpdateStep(m, th, a), n)
  {
    RelAllRefs(th, n);
    assert InFres(th, th.cur.value);
    LinksUpdate(m, UpdateStep(m, th, a).0, th.cur.value, n);
  }
}
