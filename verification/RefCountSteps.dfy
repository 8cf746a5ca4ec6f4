/** Every step keeps the accounting invariant. */
module RefCountSteps {
  import opened Common
  import opened Runs
  import opened Sums
  import opened RefCount
  import opened RefCountInvariant

  // ---------------------------------------------------------------- what a step leaves alone

  /** Only node i changes; nodes may be added. */
  ghost predicate Touches(m: Shared, m': Shared, i: Node) {
    && Sizes(m) && Sizes(m') && |m.next| <= |m'.next|
    && (forall k :: 0 <= k < |m.next| && k != i ==> m'.next[k] == m.next[k] && m'.stage[k] == m.stage[k])
    && forall k :: |m.next| <= k < |m'.next| ==> m'.stage[k] == Blank
  }

  predicate Foreign(u: Thread, i: Node) {
    !InFres(u, i) && !IsPrivate(u, i) && Claims(u, i) == 0
  }

  /** The change is to nothing that u relies on. */
  ghost predicate Spares(m: Shared, m': Shared, i: Node, u: Thread) {
    && Touches(m, m', i)
    && (i < |m.next| && m'.stage[i] != m.stage[i] ==> Foreign(u, i))
    && (i < |m.next| && m'.next[i] != m.next[i] ==> !IsPrivate(u, i) && (!m.next[i].marked || !InFres(u, i)))
    && (forall x :: IsPrivate(u, x) && NotLinked(m, x) ==> NotLinked(m', x))
  }

  lemma NoTask(todo: seq<Task>, n: Node, i: nat)
    requires TaskClaims(todo, n) == 0 && i < |todo|
    ensures todo[i] != Reclaim(n)
  {
    TaskClaimsNonNegative(todo[1..], n);
    if i > 0 { NoTask(todo[1..], n, i - 1); }
  }

  lemma {:induction false} TaskClaimsNonNegative(todo: seq<Task>, n: Node)
    ensures 0 <= TaskClaims(todo, n)
  {
    if todo != [] { TaskClaimsNonNegative(todo[1..], n); }
  }

  lemma NoClaims(u: Thread, n: Node)
    requires Claims(u, n) == 0
    ensures n !in u.free && Reclaim(n) !in u.todo && u.pc != Retake(n) && u.pc != ClearClaim(n)
  {
    TaskClaimsNonNegative(u.todo, n);
    forall i | 0 <= i < |u.todo| ensures u.todo[i] != Reclaim(n) { NoTask(u.todo, n, i); }
  }

  lemma FrameTodo(m: Shared, m': Shared, i: Node, u: Thread)
    requires TodoOk(m, u.todo) && Spares(m, m', i, u)
    ensures TodoOk(m', u.todo)
  {
    if Claims(u, i) == 0 { NoClaims(u, i); }
  }

  lemma FramePc(m: Shared, m': Shared, i: Node, u: Thread)
    requires ThreadOk(m, u) && Spares(m, m', i, u)
    ensures PcOk(m', u)
  {
    if Claims(u, i) == 0 { NoClaims(u, i); }
    assert u.pc.Unlink? || u.pc.CountLink? ==> InFres(u, u.cur.value);
  }

  /** A thread that relies on nothing that changes is as well off as before. */
  lemma Frame(m: Shared, m': Shared, i: Node, u: Thread)
    requires ThreadOk(m, u) && Spares(m, m', i, u)
    ensures ThreadOk(m', u)
  {
    FrameTodo(m, m', i, u);
    FramePc(m, m', i, u);
    if Claims(u, i) == 0 { NoClaims(u, i); }
  }

  // ---------------------------------------------------------------- a step and the other threads

  /** No node is in the charge of both, and what one has not yet inserted the other does not know. */
  ghost predicate Apart(th: Thread, u: Thread) {
    && (forall n :: 1 <= Claims(th, n) ==> Claims(u, n) == 0)
    && (forall n :: IsPrivate(th, n) ==> !InFres(u, n) && !IsPrivate(u, n))
    && (forall n :: IsPrivate(u, n) ==> !InFres(th, n))
  }

  /** The step takes the last reference of n away. */
  predicate Exhausts(m: Shared, th: Thread, n: Node) {
    th.todo != [] && th.todo[0] == Release(n) && CountOf(m, n) == 2
  }

  /** The node whose stage or nextEntry the step may change. */
  function Touched(th: Thread): Node {
    if th.todo != [] then th.todo[0].n
    else match th.pc
      case Unlink => if th.prev.NextOf? then th.prev.n else 0
      case InsertCas => if th.prev.NextOf? then th.prev.n else 0
      case ClearClaim(n) => n
      case SetNext => th.node
      case DeleteCas => if th.cur.Some? then th.cur.value else 0
      case _ => 0
  }

  ghost predicate Ready(m: Shared, th: Thread) {
    && Sizes(m) && LinksLive(m) && ThreadOk(m, th)
    && forall n :: Exhausts(m, th, n) ==> StageIs(m, n, Live) && !InFres(th, n) && !IsPrivate(th, n)
  }

  ghost predicate Pair(m: Shared, th: Thread, u: Thread) {
    Ready(m, th) && ThreadOk(m, u) && Apart(th, u) && forall n :: Exhausts(m, th, n) ==> !InFres(u, n) && !IsPrivate(u, n)
  }

  lemma UnclaimedStage(m: Shared, u: Thread, n: Node)
    requires ThreadOk(m, u) && (StageIs(m, n, Live) || StageIs(m, n, Blank))
    ensures Claims(u, n) == 0
  {
    assert n !in u.free;
    if TaskClaims(u.todo, n) != 0 { ClaimIsTask(u.todo, n); }
  }

  lemma {:induction false} ClaimIsTask(todo: seq<Task>, n: Node)
    requires TaskClaims(todo, n) != 0
    ensures Reclaim(n) in todo
  {
    if todo[0] != Reclaim(n) { ClaimIsTask(todo[1..], n); }
  }

  lemma TaskSpares(m: Shared, th: Thread, u: Thread)
    requires Pair(m, th, u) && th.todo != []
    ensures Spares(m, TaskStep(m, th).0, Touched(th), u)
  {
    var n := th.todo[0].n;
    TaskClaimsNonNegative(th.todo[1..], n);
    match th.todo[0]
    case Release(_) => if Exhausts(m, th, n) { UnclaimedStage(m, u, n); }
    case ReleaseNext(_) => TaskClaimsNonNegative(th.todo[2..], n); assert 1 <= Claims(th, n);
    case Reclaim(_) => assert 1 <= Claims(th, n);
  }

  lemma FindSpares(m: Shared, th: Thread, a: Action, u: Thread)
    requires Pair(m, th, u) && th.todo == [] && !th.pc.Unlink?
    ensures Spares(m, FindStep(m, th, a).0, Touched(th), u)
  {
  }

  lemma UnlinkSpares(m: Shared, th: Thread, a: Action, u: Thread)
    requires Pair(m, th, u) && th.todo == [] && th.pc.Unlink?
    ensures Spares(m, FindStep(m, th, a).0, Touched(th), u)
  {
  }

  lemma TakeSpares(m: Shared, th: Thread, a: Action, u: Thread)
    requires Pair(m, th, u) && th.todo == [] && (th.pc.Found? || th.pc.NewNode? || th.pc.Retake? || th.pc.ClearClaim?)
    ensures Spares(m, UpdateStep(m, th, a).0, Touched(th), u)
  {
    if th.pc.ClearClaim? { assert 1 <= Claims(th, th.pc.n); }
  }

  lemma SetNextSpares(m: Shared, th: Thread, a: Action, u: Thread)
    requires Pair(m, th, u) && th.todo == [] && (th.pc.SetNext? || th.pc.CountCur?)
    ensures Spares(m, UpdateStep(m, th, a).0, Touched(th), u)
  {
    if th.pc.SetNext? {
      UnclaimedStage(m, u, th.node);
      assert th.cur.Some? ==> InFres(th, th.cur.value);
    }
  }

  lemma CasSpares(m: Shared, th: Thread, a: Action, u: Thread)
    requires Pair(m, th, u) && th.todo == [] && (th.pc.InsertCas? || th.pc.DeleteCas?)
    ensures Spares(m, UpdateStep(m, th, a).0, Touched(th), u)
  {
  }

  /** No other thread is disturbed. */
  lemma OtherKeeps(m: Shared, th: Thread, a: Action, u: Thread)
    requires Pair(m, th, u)
    ensures ThreadOk(ThreadStep(m, th, a).0, u)
  {
    if th.todo != [] {
      TaskSpares(m, th, u);
    } else {
      match th.pc
      case Unlink => UnlinkSpares(m, th, a, u);
      case Found(_) => TakeSpares(m, th, a, u);
      case NewNode => TakeSpares(m, th, a, u);
      case Retake(_) => TakeSpares(m, th, a, u);
      case ClearClaim(_) => TakeSpares(m, th, a, u);
      case SetNext => SetNextSpares(m, th, a, u);
      case CountCur => SetNextSpares(m, th, a, u);
      case InsertCas => CasSpares(m, th, a, u);
      case DeleteCas => CasSpares(m, th, a, u);
      case _ => FindSpares(m, th, a, u);
    }
    Frame(m, ThreadStep(m, th, a).0, Touched(th), u);
  }

  // ---------------------------------------------------------------- the thread that moves

  /** A list of releases only. */
  predicate OnlyReleases(m: Shared, todo: seq<Task>) {
    forall i :: 0 <= i < |todo| ==> todo[i].Release? && todo[i].n < |m.rc|
  }

  /** Tasks may be dropped from the front, but not between ReleaseNext and Reclaim. */
  lemma DropTasks(m: Shared, th: Thread, k: nat)
    requires ThreadOk(m, th) && th.todo != [] && k == (if th.todo[0].ReleaseNext? then 2 else 1)
    ensures k <= |th.todo| && ThreadOk(m, th.(todo := th.todo[k..]))
  {
  }

  /** A release list may be put before tasks that do not start with ReleaseNext. */
  lemma AddReleases(m: Shared, th: Thread, front: seq<Task>)
    requires ThreadOk(m, th) && OnlyReleases(m, front) && (th.todo != [] ==> !th.todo[0].ReleaseNext?)
    ensures ThreadOk(m, th.(todo := front + th.todo))
  {
    var todo := front + th.todo;
    forall i | 0 <= i < |todo| ensures if i < |front| then todo[i] == front[i] else todo[i] == th.todo[i - |front|] {}
  }

  lemma ReleaseKeeps(m: Shared, th: Thread)
    requires Ready(m, th) && th.todo != [] && th.todo[0].Release?
    ensures ThreadOk(TaskStep(m, th).0, TaskStep(m, th).1)
  {
    var n, th1, m' := th.todo[0].n, th.(todo := th.todo[1..]), TaskStep(m, th).0;
    DropTasks(m, th, 1);
    if Exhausts(m, th, n) {
      UnclaimedStage(m, th1, n);
      Frame(m, m', n, th1);
      DyingOk(m', th1, n);
    } else {
      Frame(m, m', n, th1);
    }
  }

  /** The release of the last reference goes on with the successor's. */
  lemma DyingOk(m: Shared, th: Thread, n: Node)
    requires ThreadOk(m, th) && Sizes(m) && StageIs(m, n, Dying) && Claims(th, n) == 0
    requires th.todo != [] ==> !th.todo[0].ReleaseNext?
    ensures ThreadOk(m, th.(todo := [ReleaseNext(n), Reclaim(n)] + th.todo))
  {
  }

  lemma TwoTasks(todo: seq<Task>, n: Node)
    requires |todo| > 1 && todo[0] == ReleaseNext(n) && todo[1] == Reclaim(n)
    ensures TaskClaims(todo, n) == 1 + TaskClaims(todo[2..], n) && 0 <= TaskClaims(todo[2..], n)
  {
    assert todo[1..][1..] == todo[2..];
    TaskClaimsNonNegative(todo[2..], n);
    assert TaskClaims(todo[1..], n) == 1 + TaskClaims(todo[2..], n);
  }

  lemma ReleaseNextKeeps(m: Shared, th: Thread)
    requires Ready(m, th) && th.todo != [] && th.todo[0].ReleaseNext? && Claims(th, th.todo[0].n) == 1
    ensures ThreadOk(TaskStep(m, th).0, TaskStep(m, th).1)
  {
    var n, th1, m' := th.todo[0].n, th.(todo := th.todo[2..]), TaskStep(m, th).0;
    DropTasks(m, th, 2);
    TwoTasks(th.todo, n);
    Frame(m, m', n, th1);
    ReclaimOk(m', th1, n);
    AddReleases(m', th1.(todo := [Reclaim(n)] + th1.todo), Rel(m.next[n].to));
    ReleaseNextIs(m, th, n);
  }

  lemma ReleaseNextIs(m: Shared, th: Thread, n: Node)
    requires Sizes(m) && |th.todo| > 1 && th.todo[0] == ReleaseNext(n) && th.todo[1] == Reclaim(n) && n < |m.next|
    ensures TaskStep(m, th).1 == th.(todo := Rel(m.next[n].to) + ([Reclaim(n)] + th.todo[2..]))
  {
    assert th.todo[1..] == [Reclaim(n)] + th.todo[2..];
  }

  lemma ReclaimOk(m: Shared, th: Thread, n: Node)
    requires ThreadOk(m, th) && StageIs(m, n, Free) && Sizes(m) && (th.todo != [] ==> !th.todo[0].ReleaseNext?)
    ensures ThreadOk(m, th.(todo := [Reclaim(n)] + th.todo))
  {
  }

  lemma ReclaimKeeps(m: Shared, th: Thread)
    requires Ready(m, th) && th.todo != [] && th.todo[0].Reclaim?
    ensures ThreadOk(TaskStep(m, th).0, TaskStep(m, th).1)
  {
    var n, th1 := th.todo[0].n, th.(todo := th.todo[1..]);
    DropTasks(m, th, 1);
    Frame(m, TaskStep(m, th).0, n, th1);
  }

  lemma InRange(m: Shared, th: Thread)
    requires Sizes(m) && ThreadOk(m, th) && InFresAll(th)
    ensures th.cur.Some? ==> th.cur.value < |m.rc|
    ensures th.next.to.Some? ==> th.next.to.value < |m.rc|
    ensures th.prev.NextOf? ==> th.prev.n < |m.rc|
  {
    assert th.cur.Some? ==> InFres(th, th.cur.value);
    assert th.next.to.Some? ==> InFres(th, th.next.to.value);
    assert th.prev.NextOf? ==> InFres(th, th.prev.n);
  }

  /** Releasing what fres and newEntry refer to. */
  lemma RelOk(m: Shared, th: Thread, x: Option<Node>)
    requires Sizes(m) && ThreadOk(m, th) && InFresAll(th) && (x.Some? ==> x.value < |m.rc|)
    ensures OnlyReleases(m, Rel(x) + Rel(th.next.to) + Rel(th.cur) + RelPrev(th.prev))
    ensures OnlyReleases(m, RelAll(th)) && OnlyReleases(m, Rel(th.cur)) && OnlyReleases(m, RelPrev(th.prev))
  {
    InRange(m, th);
  }

  /** The points of the code at which fres holds all three of its references. */
  predicate InFresAll(th: Thread) {
    match th.pc
    case Idle | ReadHead | CountHead(_) | CheckHead(_) | Loop | ReadNext | CountNext(_) | CheckNext(_) => false
    case _ => true
  }

  lemma HeadKeeps(m: Shared, th: Thread, a: Action)
    requires Ready(m, th) && th.todo == []
    requires th.pc.Idle? || th.pc.ReadHead? || th.pc.CountHead? || th.pc.CheckHead? || th.pc.Loop?
    ensures ThreadOk(FindStep(m, th, a).0, FindStep(m, th, a).1)
  {
    var th' := FindStep(m, th, a).1;
    assert forall n :: InFres(th', n) ==> InFres(th, n) || StageIs(m, n, Live);
  }

  lemma ReadKeeps(m: Shared, th: Thread, a: Action)
    requires Ready(m, th) && th.todo == [] && (th.pc.ReadNext? || th.pc.CountNext? || th.pc.CheckNext?)
    ensures ThreadOk(FindStep(m, th, a).0, FindStep(m, th, a).1)
  {
    var th' := FindStep(m, th, a).1;
    assert InFres(th, th.cur.value);
    assert forall n :: InFres(th', n) ==> InFres(th, n) || StageIs(m, n, Live);
  }

  lemma UnlinkKeeps(m: Shared, th: Thread, a: Action)
    requires Ready(m, th) && th.todo == [] && (th.pc.Unlink? || th.pc.CountLink? || th.pc.Validate?)
    ensures ThreadOk(FindStep(m, th, a).0, FindStep(m, th, a).1)
  {
    var th' := FindStep(m, th, a).1;
    RelOk(m, th, None);
    assert InFres(th, th.cur.value);
    assert forall n :: InFres(th', n) ==> InFres(th, n);
  }

  lemma FoundKeeps(m: Shared, th: Thread, a: Action)
    requires Ready(m, th) && th.todo == [] && th.pc.Found?
    ensures ThreadOk(UpdateStep(m, th, a).0, UpdateStep(m, th, a).1)
  {
    var (m', th') := UpdateStep(m, th, a);
    RelOk(m, th, None);
    assert forall n :: InFres(th', n) ==> InFres(th, n);
  }

  lemma TakeKeeps(m: Shared, th: Thread, a: Action)
    requires Ready(m, th) && th.todo == [] && (th.pc.NewNode? || th.pc.Retake?)
    ensures ThreadOk(UpdateStep(m, th, a).0, UpdateStep(m, th, a).1)
  {
    var (m', th') := UpdateStep(m, th, a);
    assert forall n :: InFres(th', n) ==> InFres(th, n);
  }

  lemma ClearKeeps(m: Shared, th: Thread, a: Action)
    requires Ready(m, th) && th.todo == [] && th.pc.ClearClaim? && Claims(th, th.pc.n) == 1
    ensures ThreadOk(UpdateStep(m, th, a).0, UpdateStep(m, th, a).1)
  {
    var (m', th') := UpdateStep(m, th, a);
    var th1 := th.(pc := NewNode);
    assert Claims(th1, th.pc.n) == 0;
    assert forall n :: InFres(th', n) <==> InFres(th, n);
    assert forall n :: InFres(th1, n) <==> InFres(th, n);
    Frame(m, m', th.pc.n, th1);
  }

  lemma SetNextKeeps(m: Shared, th: Thread, a: Action)
    requires Ready(m, th) && th.todo == [] && th.pc.SetNext?
    ensures ThreadOk(UpdateStep(m, th, a).0, UpdateStep(m, th, a).1)
  {
    var (m', th') := UpdateStep(m, th, a);
    UnclaimedStage(m, th, th.node);
    NoClaims(th, th.node);
    assert th.cur.Some? ==> InFres(th, th.cur.value);
    assert forall n :: InFres(th', n) ==> InFres(th, n);
  }

  lemma CountCurKeeps(m: Shared, th: Thread, a: Action)
    requires Ready(m, th) && th.todo == [] && th.pc.CountCur?
    ensures ThreadOk(UpdateStep(m, th, a).0, UpdateStep(m, th, a).1)
  {
    assert forall n :: InFres(UpdateStep(m, th, a).1, n) ==> InFres(th, n);
  }

  /** After the insert CAS everything is released, whether it succeeds or not. */
  lemma InsertKeeps(m: Shared, th: Thread, a: Action)
    requires Ready(m, th) && th.todo == [] && th.pc.InsertCas?
    ensures ThreadOk(UpdateStep(m, th, a).0, UpdateStep(m, th, a).1)
  {
    InRange(m, th);
    var x := if Read(m, th.prev) == Link(th.cur, false) then th.cur else Some(th.node);
    RelOk(m, th, x);
    InsertSettles(m, th, x, UpdateStep(m, th, a).0, UpdateStep(m, th, a).1);
  }

  lemma InsertSettles(m: Shared, th: Thread, x: Option<Node>, m': Shared, th': Thread)
    requires ThreadOk(m, th) && OnlyReleases(m, Rel(x) + Rel(th.next.to) + Rel(th.cur) + RelPrev(th.prev))
    requires |m'.rc| == |m.rc| && m'.stage == m.stage && th'.free == th.free && (th'.pc.Idle? || th'.pc.ReadHead?)
    requires th'.todo == Rel(x) + Rel(th.next.to) + Rel(th.cur) + RelPrev(th.prev)
    ensures ThreadOk(m', th')
  {
    assert OnlyReleases(m', th'.todo);
    Settled(m', th');
  }

  lemma Settled(m: Shared, th: Thread)
    requires OnlyReleases(m, th.todo) && (th.pc.Idle? || th.pc.ReadHead?)
    requires forall i :: 0 <= i < |th.free| ==> StageIs(m, th.free[i], Free)
    ensures ThreadOk(m, th)
  {
  }

  lemma DeleteKeeps(m: Shared, th: Thread, a: Action)
    requires Ready(m, th) && th.todo == [] && th.pc.DeleteCas?
    ensures ThreadOk(UpdateStep(m, th, a).0, UpdateStep(m, th, a).1)
  {
    RelOk(m, th, None);
  }

  lemma OwnKeeps(m: Shared, th: Thread, a: Action)
    requires Ready(m, th) && forall n :: Claims(th, n) <= 1
    ensures ThreadOk(ThreadStep(m, th, a).0, ThreadStep(m, th, a).1)
  {
    TasksAndPcClaims(th);
    if th.todo != [] {
      match th.todo[0]
      case Release(_) => ReleaseKeeps(m, th);
      case ReleaseNext(_) => ReleaseNextKeeps(m, th);
      case Reclaim(_) => ReclaimKeeps(m, th);
    } else {
      match th.pc
      case Idle => HeadKeeps(m, th, a);
      case ReadHead => HeadKeeps(m, th, a);
      case CountHead(_) => HeadKeeps(m, th, a);
      case CheckHead(_) => HeadKeeps(m, th, a);
      case Loop => HeadKeeps(m, th, a);
      case ReadNext => ReadKeeps(m, th, a);
      case CountNext(_) => ReadKeeps(m, th, a);
      case CheckNext(_) => ReadKeeps(m, th, a);
      case Unlink => UnlinkKeeps(m, th, a);
      case CountLink => UnlinkKeeps(m, th, a);
      case Validate => UnlinkKeeps(m, th, a);
      case Found(_) => FoundKeeps(m, th, a);
      case NewNode => TakeKeeps(m, th, a);
      case Retake(_) => TakeKeeps(m, th, a);
      case ClearClaim(_) => ClearKeeps(m, th, a);
      case SetNext => SetNextKeeps(m, th, a);
      case CountCur => CountCurKeeps(m, th, a);
      case InsertCas => InsertKeeps(m, th, a);
      case DeleteCas => DeleteKeeps(m, th, a);
    }
  }

  lemma TasksAndPcClaims(th: Thread)
    ensures th.todo != [] && th.todo[0].ReleaseNext? && |th.todo| > 1 && th.todo[1] == Reclaim(th.todo[0].n) ==>
              1 <= Claims(th, th.todo[0].n)
    ensures th.todo != [] && th.todo[0].Reclaim? ==> 1 <= Claims(th, th.todo[0].n)
    ensures th.todo == [] && th.pc.ClearClaim? ==> 1 <= Claims(th, th.pc.n)
  {
    if th.todo != [] {
      var n := th.todo[0].n;
      TaskClaimsNonNegative(th.todo[1..], n);
      if th.todo[0].ReleaseNext? && |th.todo| > 1 && th.todo[1] == Reclaim(n) { TwoTasks(th.todo, n); }
    }
  }

  /** Each step adds to the count of a node, its references and its claims what the accounts require. */
  lemma StepBalanced(m: Shared, th: Thread, a: Action, n: Node)
    requires Ready(m, th)
    ensures Balanced(m, th, ThreadStep(m, th, a), n)
  {
    if th.todo != [] {
      match th.todo[0]
      case Release(q) => if Exhausts(m, th, q) { LastReleaseBalanced(m, th, n); } else { ReleaseBalanced(m, th, n); }
      case ReleaseNext(_) => ReleaseNextBalanced(m, th, n);
      case Reclaim(_) => ReclaimBalanced(m, th, n);
    } else {
      match th.pc
      case Idle => ReadHeadBalanced(m, th, a, n);
      case ReadHead => ReadHeadBalanced(m, th, a, n);
      case CountHead(_) => ReadHeadBalanced(m, th, a, n);
      case CheckHead(_) => ReadHeadBalanced(m, th, a, n);
      case Loop => ReadHeadBalanced(m, th, a, n);
      case ReadNext => ReadNextBalanced(m, th, a, n);
      case CountNext(_) => CountNextBalanced(m, th, a, n);
      case CheckNext(_) => CheckNextBalanced(m, th, a, n);
      case Unlink => UnlinkBalanced(m, th, a, n);
      case CountLink => CountLinkBalanced(m, th, a, n);
      case Validate => ValidateBalanced(m, th, a, n);
      case Found(_) => FoundBalanced(m, th, a, n);
      case NewNode => NewNodeBalanced(m, th, a, n);
      case Retake(_) => RetakeBalanced(m, th, a, n);
      case ClearClaim(_) => RetakeBalanced(m, th, a, n);
      case SetNext => SetNextBalanced(m, th, a, n);
      case CountCur => CountCurBalanced(m, th, a, n);
      case InsertCas =>
        if Read(m, th.prev) == Link(th.cur, false) { InsertBalanced(m, th, a, n); } else { InsertFailsBalanced(m, th, a, n); }
      case DeleteCas => DeleteBalanced(m, th, a, n);
    }
  }

  // ---------------------------------------------------------------- the links

  lemma TaskLinksLive(m: Shared, th: Thread)
    requires Ready(m, th) && th.todo != []
    requires forall n :: Exhausts(m, th, n) ==> NotLinked(m, n)
    ensures LinksLive(TaskStep(m, th).0)
  {
    assert th.todo[0].Release? && CountOf(m, th.todo[0].n) == 2 ==> Exhausts(m, th, th.todo[0].n);
  }

  lemma FindLinksLive(m: Shared, th: Thread, a: Action)
    requires Ready(m, th) && th.todo == []
    ensures LinksLive(FindStep(m, th, a).0)
  {
    assert th.pc.Unlink? && th.next.to.Some? ==> InFres(th, th.next.to.value);
  }

  lemma UpdateLinksLive(m: Shared, th: Thread, a: Action)
    requires Ready(m, th) && th.todo == []
    ensures LinksLive(UpdateStep(m, th, a).0)
  {
    assert th.pc.SetNext? && th.cur.Some? ==> InFres(th, th.cur.value);
  }

  lemma StepLinksLive(m: Shared, th: Thread, a: Action)
    requires Ready(m, th)
    requires forall n :: Exhausts(m, th, n) ==> NotLinked(m, n)
    ensures LinksLive(ThreadStep(m, th, a).0)
  {
    if th.todo != [] { TaskLinksLive(m, th); } else { FindLinksLive(m, th, a); UpdateLinksLive(m, th, a); }
  }

  // ---------------------------------------------------------------- nodes not yet inserted

  /** A thread comes to know a node only through a counted link. */
  lemma NewInFres(m: Shared, th: Thread, a: Action, n: Node)
    requires Ready(m, th)
    ensures InFres(ThreadStep(m, th, a).1, n) ==> InFres(th, n) || !NotLinked(m, n)
  {
    if th.pc.CheckNext? { assert InFres(th, th.cur.value); }
  }

  /** A node becomes a thread's own only by newRC, when nobody refers to it. */
  lemma NewPrivate(m: Shared, th: Thread, a: Action, n: Node)
    requires Ready(m, th)
    ensures IsPrivate(ThreadStep(m, th, a).1, n) ==> IsPrivate(th, n) || StageIs(m, n, Free) || |m.stage| <= n
  {
    if th.todo == [] && th.pc.ClearClaim? {
      assert ThreadStep(m, th, a) == UpdateStep(m, th, a);
    } else {
      SamePrivate(m, th, a, n);
    }
  }

  lemma SamePrivate(m: Shared, th: Thread, a: Action, n: Node)
    requires Sizes(m) && (th.todo == [] ==> !th.pc.ClearClaim?)
    ensures IsPrivate(ThreadStep(m, th, a).1, n) ==> IsPrivate(th, n) || |m.stage| <= n
  {
  }

  lemma PrivateStage(m: Shared, u: Thread, n: Node)
    requires ThreadOk(m, u) && IsPrivate(u, n)
    ensures (StageIs(m, n, Blank) || StageIs(m, n, Live)) && NotLinked(m, n)
  {
  }
}
