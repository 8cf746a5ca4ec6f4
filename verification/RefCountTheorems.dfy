/** What the reference counts are worth, for any number of threads and every schedule of their steps. */
module RefCountTheorems {
  import opened Common
  import opened Runs
  import opened Sums
  import opened RefCount
  import opened RefCountInvariant
  import opened RefCountSteps

  // ---------------------------------------------------------------- the invariant is kept

  lemma ClaimsNonNegative(thr: seq<Thread>)
    ensures forall t, n :: 0 <= t < |thr| ==> 0 <= Claims(thr[t], n)
  {
    forall t, n | 0 <= t < |thr| ensures 0 <= Claims(thr[t], n) { TaskClaimsNonNegative(thr[t].todo, n); }
  }

  /** Any two threads are apart. */
  lemma AreApart(s: State, t: nat, u: nat)
    requires Inv(s) && t < |s.thr| && u < |s.thr| && t != u
    ensures Apart(s.thr[t], s.thr[u])
  {
    ClaimsNonNegative(s.thr);
    forall n | 1 <= Claims(s.thr[t], n) ensures Claims(s.thr[u], n) == 0 {
      assert ClaimExact(s, n);
      SumBound(ClaimCounts(s.thr, n), t, u);
    }
  }

  lemma OneClaim(s: State, t: nat, n: Node)
    requires Inv(s) && t < |s.thr|
    ensures 0 <= Claims(s.thr[t], n) <= ClaimOf(s.mem, n)
  {
    ClaimsNonNegative(s.thr);
    assert ClaimExact(s, n);
    SumBound(ClaimCounts(s.thr, n), t, t);
  }

  lemma BlankIsPrivate(s: State, n: Node)
    requires BlankHasCreator(s) && StageIs(s.mem, n, Blank)
    ensures exists u :: 0 <= u < |s.thr| && IsPrivate(s.thr[u], n)
  {
    assert IsPrivate(s.thr[Creator(s, n)], n);
  }

  /** A node whose count release finds at 2 is live, and nobody else refers to it. */
  lemma ExhaustedIsFree(s: State, t: nat, n: Node)
    requires Inv(s) && t < |s.thr| && Exhausts(s.mem, s.thr[t], n)
    ensures StageIs(s.mem, n, Live) && NotLinked(s.mem, n)
    ensures forall u :: 0 <= u < |s.thr| ==> !InFres(s.thr[u], n) && !IsPrivate(s.thr[u], n)
  {
    if StageIs(s.mem, n, Blank) { BlankIsPrivate(s, n); }
    LastReference(s, t, n);
    forall i | 0 <= i < |s.mem.next| ensures Counts(s.mem, i) ==> s.mem.next[i].to != Some(n) { LinkIsCounted(s.mem, i, n); }
    LinkIsCounted(s.mem, 0, n);
  }

  lemma IsReady(s: State, t: nat)
    requires Inv(s) && t < |s.thr|
    ensures Ready(s.mem, s.thr[t])
    ensures forall u :: 0 <= u < |s.thr| && u != t ==> Pair(s.mem, s.thr[t], s.thr[u])
    ensures forall n :: Exhausts(s.mem, s.thr[t], n) ==> NotLinked(s.mem, n)
  {
    forall n | Exhausts(s.mem, s.thr[t], n)
      ensures StageIs(s.mem, n, Live) && NotLinked(s.mem, n)
      ensures forall u :: 0 <= u < |s.thr| ==> !InFres(s.thr[u], n) && !IsPrivate(s.thr[u], n)
    {
      ExhaustedIsFree(s, t, n);
    }
    forall u | 0 <= u < |s.thr| && u != t ensures Apart(s.thr[t], s.thr[u]) { AreApart(s, t, u); }
  }

  lemma SumsMove(thr: seq<Thread>, t: nat, th: Thread, n: Node)
    requires t < |thr|
    ensures NetHeld(thr[t := th], n) == NetHeld(thr, n) - (Held(thr[t], n) - Debt(thr[t], n)) + (Held(th, n) - Debt(th, n))
    ensures AllClaims(thr[t := th], n) == AllClaims(thr, n) - Claims(thr[t], n) + Claims(th, n)
  {
    SumUpdate(NetRefs(thr, n), t, Held(th, n) - Debt(th, n));
    assert NetRefs(thr[t := th], n) == NetRefs(thr, n)[t := Held(th, n) - Debt(th, n)];
    SumUpdate(ClaimCounts(thr, n), t, Claims(th, n));
    assert ClaimCounts(thr[t := th], n) == ClaimCounts(thr, n)[t := Claims(th, n)];
  }

  lemma AccountsKept(s: State, a: Action, n: Node)
    requires Inv(s) && a.tid < |s.thr|
    ensures CountExact(Step(s, a), n) && ClaimExact(Step(s, a), n)
  {
    IsReady(s, a.tid);
    var r := ThreadStep(s.mem, s.thr[a.tid], a);
    assert CountExact(s, n) && ClaimExact(s, n);
    StepBalanced(s.mem, s.thr[a.tid], a, n);
    SumsMove(s.thr, a.tid, r.1, n);
    Account(s, a.tid, r, n);
  }

  lemma Account(s: State, t: nat, r: (Shared, Thread), n: Node)
    requires Sizes(s.mem) && Sizes(r.0) && t < |s.thr| && CountExact(s, n) && ClaimExact(s, n)
    requires Balanced(s.mem, s.thr[t], r, n)
    ensures CountExact(State(r.0, s.thr[t := r.1]), n) && ClaimExact(State(r.0, s.thr[t := r.1]), n)
  {
    SumsMove(s.thr, t, r.1, n);
  }

  lemma ThreadsKept(s: State, a: Action)
    requires Inv(s) && a.tid < |s.thr|
    ensures forall u :: 0 <= u < |s.thr| ==> ThreadOk(Step(s, a).mem, Step(s, a).thr[u])
  {
    IsReady(s, a.tid);
    forall n ensures Claims(s.thr[a.tid], n) <= 1 { OneClaim(s, a.tid, n); }
    OwnKeeps(s.mem, s.thr[a.tid], a);
    forall u | 0 <= u < |s.thr| && u != a.tid ensures ThreadOk(Step(s, a).mem, s.thr[u]) {
      OtherKeeps(s.mem, s.thr[a.tid], a, s.thr[u]);
    }
  }

  lemma PrivatePair(s: State, a: Action, t: nat, u: nat, n: Node)
    requires Inv(s) && a.tid < |s.thr| && t < |s.thr| && u < |s.thr| && IsPrivate(Step(s, a).thr[t], n)
    ensures !InFres(Step(s, a).thr[u], n) && (t != u ==> !IsPrivate(Step(s, a).thr[u], n))
  {
    var th := s.thr[a.tid];
    IsReady(s, a.tid);
    NewInFres(s.mem, th, a, n);
    NewPrivate(s.mem, th, a, n);
    if IsPrivate(s.thr[t], n) { PrivateStage(s.mem, s.thr[t], n); } else { LiveNotFree(s.mem, s.thr[u], n); }
    if IsPrivate(s.thr[u], n) { PrivateStage(s.mem, s.thr[u], n); }
  }

  lemma LiveNotFree(m: Shared, u: Thread, n: Node)
    requires ThreadOk(m, u)
    ensures InFres(u, n) ==> StageIs(m, n, Live)
  {
  }

  lemma PrivateKept(s: State, a: Action)
    requires Inv(s) && a.tid < |s.thr|
    ensures PrivateTo(Step(s, a).thr)
  {
    var thr' := Step(s, a).thr;
    forall t, u, n | 0 <= t < |thr'| && 0 <= u < |thr'| && IsPrivate(thr'[t], n)
      ensures !InFres(thr'[u], n) && (t != u ==> !IsPrivate(thr'[u], n))
    {
      PrivatePair(s, a, t, u, n);
    }
  }

  lemma BlankIsHeld(m: Shared, th: Thread, a: Action, n: Node)
    requires Ready(m, th) && StageIs(ThreadStep(m, th, a).0, n, Blank)
    requires StageIs(m, n, Blank) ==> th.pc.SetNext? && th.node == n
    ensures ThreadStep(m, th, a).1.pc.SetNext? && ThreadStep(m, th, a).1.node == n
  {
    if th.todo != [] { TaskStages(m, th, n); } else { PcStages(m, th, a, n); }
  }

  /** What a step of release, and a step of the rest, do to the stage of a node. */
  lemma TaskStages(m: Shared, th: Thread, n: Node)
    requires Ready(m, th) && th.todo != []
    ensures var (m', th') := TaskStep(m, th);
            && th'.pc == th.pc && th'.node == th.node
            && (StageIs(m', n, Blank) ==> StageIs(m, n, Blank))
            && (ClaimOf(m, n) == 1 ==> ClaimOf(m', n) == 1)
            && (ClaimOf(m, n) == 0 && ClaimOf(m', n) == 1 ==> Exhausts(m, th, n) && CountOf(m', n) == 1)
  {
  }

  lemma PcStages(m: Shared, th: Thread, a: Action, n: Node)
    requires Ready(m, th) && th.todo == []
    ensures var (m', th') := ThreadStep(m, th, a);
            && (StageIs(m', n, Blank) && (StageIs(m, n, Blank) ==> th.pc.SetNext? && th.node == n) ==>
                  th'.pc.SetNext? && th'.node == n)
            && (ClaimOf(m, n) == 0 ==> ClaimOf(m', n) == 0)
            && (ClaimOf(m, n) == 1 && ClaimOf(m', n) == 0 ==> th.pc == ClearClaim(n) && IsPrivate(th', n))
  {
  }

  lemma CreatorsKept(s: State, a: Action)
    requires Inv(s) && a.tid < |s.thr|
    ensures BlankHasCreator(Step(s, a))
  {
    IsReady(s, a.tid);
    var r := ThreadStep(s.mem, s.thr[a.tid], a);
    var thr' := s.thr[a.tid := r.1];
    forall n | StageIs(r.0, n, Blank) ensures exists t :: 0 <= t < |thr'| && thr'[t].pc.SetNext? && thr'[t].node == n {
      var c := if StageIs(s.mem, n, Blank) then Creator(s, n) else a.tid;
      if c == a.tid { BlankIsHeld(s.mem, s.thr[a.tid], a, n); }
      assert thr'[c].pc.SetNext? && thr'[c].node == n;
    }
  }

  ghost function Creator(s: State, n: Node): (t: nat)
    requires BlankHasCreator(s) && StageIs(s.mem, n, Blank)
    ensures t < |s.thr| && s.thr[t].pc.SetNext? && s.thr[t].node == n
  {
    var t :| 0 <= t < |s.thr| && s.thr[t].pc.SetNext? && s.thr[t].node == n;
    t
  }

  lemma StepKeeps(s: State, a: Action)
    requires Inv(s)
    ensures Inv(Step(s, a))
  {
    if a.tid < |s.thr| {
      IsReady(s, a.tid);
      StepLinksLive(s.mem, s.thr[a.tid], a);
      ThreadsKept(s, a);
      PrivateKept(s, a);
      CreatorsKept(s, a);
      forall n: Node ensures CountExact(Step(s, a), n) && ClaimExact(Step(s, a), n) { AccountsKept(s, a, n); }
    }
  }

  lemma InitInv(n: nat)
    ensures Inv(Init(n))
  {
    var s := Init(n);
    forall x: Node ensures CountExact(s, x) && ClaimExact(s, x) {
      AllZero(NetRefs(s.thr, x));
      AllZero(ClaimCounts(s.thr, x));
      assert LinkRefs(s.mem, x) == [];
    }
  }

  ghost function Reached(threads: nat, sched: seq<Action>): State {
    After(Step, Init(threads), sched)
  }

  lemma ReachableInv(threads: nat, sched: seq<Action>)
    ensures Inv(Reached(threads, sched))
  {
    InitInv(threads);
    forall s, a | Inv(s) ensures Inv(Step(s, a)) { StepKeeps(s, a); }
    InvariantHolds(Step, Inv, Init(threads), sched);
  }

  // ---------------------------------------------------------------- what the counts mean

  /** The count of every node, at every moment of every run: twice the counted links and the references held by threads
      (those of a safeRead in progress and those waiting to be released included), less the links made by find and
      ListInsert but not counted yet, plus the claim bit. */
  lemma CountsAreExact(threads: nat, sched: seq<Action>, n: Node)
    ensures var s := Reached(threads, sched);
            Sizes(s.mem) && CountOf(s.mem, n) == 2 * (Links(s.mem, n) + NetHeld(s.thr, n)) + ClaimOf(s.mem, n)
  {
    ReachableInv(threads, sched);
    assert CountExact(Reached(threads, sched), n);
  }

  /** A node that fres or newEntry refers to, or that is linked, is not claimed and its count is at least 2: release
      cannot take it away. */
  lemma ReferencedIsKept(threads: nat, sched: seq<Action>, t: nat, i: Node, n: Node)
    requires t < threads
    ensures var s := Reached(threads, sched);
            |s.thr| == threads && Sizes(s.mem) &&
            (InFres(s.thr[t], n) || IsPrivate(s.thr[t], n) || s.mem.head == Some(n)
             || (i < |s.mem.next| && Counts(s.mem, i) && s.mem.next[i].to == Some(n))
             ==> ClaimOf(s.mem, n) == 0 && 2 <= CountOf(s.mem, n) && CountOf(s.mem, n) % 2 == 0)
  {
    var s := Reached(threads, sched);
    ReachableInv(threads, sched);
    ThreadCount(threads, sched);
    assert CountExact(s, n);
    LinkIsCounted(s.mem, i, n);
    HeldIsCounted(s, t, n);
    if IsPrivate(s.thr[t], n) { PrivateStage(s.mem, s.thr[t], n); }
  }

  lemma {:induction false} ThreadCount(threads: nat, sched: seq<Action>)
    ensures |Reached(threads, sched).thr| == threads
  {
    if sched != [] { ThreadCount(threads, sched[..|sched| - 1]); }
  }

  lemma HeldIsCounted(s: State, t: nat, n: Node)
    requires Inv(s) && t < |s.thr|
    ensures 0 <= NetHeld(s.thr, n)
    ensures InFres(s.thr[t], n) || IsPrivate(s.thr[t], n) ==> 1 <= Links(s.mem, n) + NetHeld(s.thr, n)
  {
    var net := NetRefs(s.thr, n);
    forall u | 0 <= u < |s.thr| ensures 0 <= net[u] { DebtIsCovered(s.thr[u], n); }
    SumBound(net, t, t);
    DebtIsCovered(s.thr[t], n);
    LinkIsCounted(s.mem, 0, n);
    if 1 <= Debt(s.thr[t], n) { DebtorSeesLink(s.mem, s.thr[t], n); }
  }

  /** t alone has n in its charge, and has it once. */
  ghost predicate SoleCharge(thr: seq<Thread>, t: nat, n: Node) {
    && t < |thr| && Claims(thr[t], n) == 1
    && forall u :: 0 <= u < |thr| && u != t ==> Claims(thr[u], n) == 0
  }

  /** A claimed node is in the charge of exactly one thread, once: on its free list, or on the way to or from it. */
  lemma ClaimedOnce(threads: nat, sched: seq<Action>, n: Node)
    ensures var s := Reached(threads, sched);
            ClaimOf(s.mem, n) == 1 ==> exists t :: SoleCharge(s.thr, t, n)
  {
    var s := Reached(threads, sched);
    ReachableInv(threads, sched);
    assert ClaimExact(s, n);
    if ClaimOf(s.mem, n) == 1 {
      var claims := ClaimCounts(s.thr, n);
      ClaimsNonNegative(s.thr);
      var t := Positive(claims);
      forall u | 0 <= u < |s.thr| && u != t ensures Claims(s.thr[u], n) == 0 { SumBound(claims, t, u); }
      SumBound(claims, t, t);
      assert SoleCharge(s.thr, t, n);
    }
  }

  /** A claimed node is nowhere linked and no fres refers to it; its count is odd, so no release finds it at 2. */
  lemma ClaimedIsUnlinked(threads: nat, sched: seq<Action>, t: nat, n: Node)
    ensures var s := Reached(threads, sched);
            ClaimOf(s.mem, n) == 1 ==>
              && CountOf(s.mem, n) % 2 == 1 && 1 <= CountOf(s.mem, n) && NotLinked(s.mem, n)
              && (t < |s.thr| ==> !InFres(s.thr[t], n) && !IsPrivate(s.thr[t], n))
  {
    var s := Reached(threads, sched);
    ReachableInv(threads, sched);
    assert CountExact(s, n);
    LinkIsCounted(s.mem, 0, n);
    if t < |s.thr| && IsPrivate(s.thr[t], n) { PrivateStage(s.mem, s.thr[t], n); }
    if 0 < |s.thr| { HeldIsCounted(s, 0, n); }
  }

  /** A node that is not claimed is on no free list and nobody is about to reclaim it. */
  lemma UnclaimedIsNotFree(threads: nat, sched: seq<Action>, t: nat, n: Node)
    ensures var s := Reached(threads, sched);
            ClaimOf(s.mem, n) == 0 && t < |s.thr| ==> n !in s.thr[t].free && Reclaim(n) !in s.thr[t].todo
  {
    var s := Reached(threads, sched);
    ReachableInv(threads, sched);
    if ClaimOf(s.mem, n) == 0 && t < |s.thr| {
      OneClaim(s, t, n);
      NoClaims(s.thr[t], n);
    }
  }

  lemma {:induction false} Positive(xs: seq<int>) returns (i: nat)
    requires 1 <= Sum(xs)
    ensures i < |xs| && 1 <= xs[i]
  {
    if 1 <= xs[0] {
      i := 0;
    } else {
      i := Positive(xs[1..]);
      i := i + 1;
    }
  }

  /** What a step may do to the claim of a node. */
  ghost predicate ClaimStep(s: State, s': State, t: nat, n: Node) {
    && t < |s.thr| && t < |s'.thr|
    && (ClaimOf(s.mem, n) == 0 && ClaimOf(s'.mem, n) == 1 ==>
          Exhausts(s.mem, s.thr[t], n) && CountOf(s'.mem, n) == 1 && Claims(s'.thr[t], n) == 1)
    && (ClaimOf(s.mem, n) == 1 && ClaimOf(s'.mem, n) == 0 ==>
          s.thr[t].todo == [] && s.thr[t].pc == ClearClaim(n) && Claims(s.thr[t], n) == 1
          && s'.thr[t].node == n && 2 <= CountOf(s'.mem, n))
    && (ClaimOf(s.mem, n) == 1 && s.thr[t].todo != [] && s.thr[t].todo[0] == Release(n) ==>
          CountOf(s'.mem, n) == CountOf(s.mem, n) - 2 && 1 <= CountOf(s'.mem, n) && ClaimOf(s'.mem, n) == 1)
  }

  /** The claim bit is set only by the release that takes the last reference away, and cleared only by the newRC of the
      thread that has the node in its charge: what other threads add and release meanwhile leaves it as it is. */
  lemma ClaimChanges(threads: nat, sched: seq<Action>, a: Action, n: Node)
    requires a.tid < threads
    ensures ClaimStep(Reached(threads, sched), Step(Reached(threads, sched), a), a.tid, n)
  {
    ReachableInv(threads, sched);
    ThreadCount(threads, sched);
    ClaimsMove(Reached(threads, sched), a, n);
  }

  lemma ClaimsMove(s: State, a: Action, n: Node)
    requires Inv(s) && a.tid < |s.thr|
    ensures ClaimStep(s, Step(s, a), a.tid, n)
  {
    var s' := Step(s, a);
    StepKeeps(s, a);
    IsReady(s, a.tid);
    assert CountExact(s, n) && CountExact(s', n);
    HeldIsCounted(s', a.tid, n);
    LinkIsCounted(s'.mem, 0, n);
    StageMoves(s.mem, s.thr[a.tid], a, n);
    OneClaim(s, a.tid, n);
    OneClaim(s', a.tid, n);
    StepBalanced(s.mem, s.thr[a.tid], a, n);
    TasksAndPcClaims(s.thr[a.tid]);
    if ClaimOf(s.mem, n) == 1 && s.thr[a.tid].todo != [] && s.thr[a.tid].todo[0] == Release(n) { ReleaseCounts(s.mem, s.thr[a.tid], n); }
  }

  lemma ReleaseCounts(m: Shared, th: Thread, n: Node)
    requires Ready(m, th) && th.todo != [] && th.todo[0] == Release(n) && ClaimOf(m, n) == 1
    ensures CountOf(TaskStep(m, th).0, n) == CountOf(m, n) - 2 && ClaimOf(TaskStep(m, th).0, n) == 1
  {
    assert !Exhausts(m, th, n);
  }

  lemma StageMoves(m: Shared, th: Thread, a: Action, n: Node)
    requires Ready(m, th)
    ensures var (m', th') := ThreadStep(m, th, a);
            && (ClaimOf(m, n) == 0 && ClaimOf(m', n) == 1 ==> Exhausts(m, th, n) && CountOf(m', n) == 1)
            && (ClaimOf(m, n) == 1 && ClaimOf(m', n) == 0 ==> th.todo == [] && th.pc == ClearClaim(n) && IsPrivate(th', n))
  {
    if th.todo != [] { TaskStages(m, th, n); } else { PcStages(m, th, a, n); }
  }

  // ---------------------------------------------------------------- the free lists in memory

  /** The nodes of free are chained through their nextEntry, in this order. */
  ghost predicate Chained(m: Shared, free: seq<Node>) {
    forall i :: 0 <= i < |free| ==> free[i] < |m.next| && m.next[free[i]] == Link(Follows(free, i), false)
  }

  ghost predicate ChainInv(s: State) {
    Inv(s) && forall t :: 0 <= t < |s.thr| ==> Chained(s.mem, s.thr[t].free)
  }

  /** Only reclaim writes the nextEntry of a free node. */
  lemma FreeNextKept(m: Shared, th: Thread, a: Action, n: Node)
    requires Ready(m, th) && StageIs(m, n, Free)
    ensures var (m', th') := ThreadStep(m, th, a);
            n < |m'.next| && (m'.next[n] == m.next[n] || (th.todo != [] && th.todo[0] == Reclaim(n)))
  {
    assert th.pc.DeleteCas? ==> InFres(th, th.cur.value);
    assert th.prev.NextOf? && (th.pc.Unlink? || th.pc.InsertCas?) ==> InFres(th, th.prev.n);
  }

  lemma ChainPush(m: Shared, n: Node, free: seq<Node>)
    requires Chained(m, free) && n < |m.next| && m.next[n] == Link(if free == [] then None else Some(free[0]), false)
    ensures Chained(m, [n] + free)
  {
    var more := [n] + free;
    forall i | 0 <= i < |more| ensures more[i] < |m.next| && m.next[more[i]] == Link(Follows(more, i), false) {
      if i > 0 { assert more[i] == free[i - 1] && Follows(more, i) == Follows(free, i - 1); }
    }
  }

  lemma ChainPop(m: Shared, free: seq<Node>)
    requires Chained(m, free) && free != []
    ensures Chained(m, free[1..])
  {
    var less := free[1..];
    forall i | 0 <= i < |less| ensures less[i] < |m.next| && m.next[less[i]] == Link(Follows(less, i), false) {
      assert less[i] == free[i + 1] && Follows(less, i) == Follows(free, i + 1);
    }
  }

  /** The thread's own list after its step: the same, less its first node, or with the reclaimed node in front. */
  lemma OwnChain(m: Shared, th: Thread, a: Action)
    requires Ready(m, th) && Chained(ThreadStep(m, th, a).0, th.free)
    ensures Chained(ThreadStep(m, th, a).0, ThreadStep(m, th, a).1.free)
  {
    var (m', th') := ThreadStep(m, th, a);
    if th.todo != [] && th.todo[0].Reclaim? {
      ChainPush(m', th.todo[0].n, th.free);
    } else if th.todo == [] && th.pc.NewNode? && th.free != [] {
      ChainPop(m', th.free);
    }
  }

  lemma ChainKept(s: State, a: Action)
    requires ChainInv(s)
    ensures ChainInv(Step(s, a))
  {
    StepKeeps(s, a);
    if a.tid < |s.thr| {
      IsReady(s, a.tid);
      forall u | 0 <= u < |s.thr| ensures Chained(Step(s, a).mem, s.thr[u].free) || u == a.tid { FreeNextsKept(s, a, u); }
      FreeNextsKept(s, a, a.tid);
      OwnChain(s.mem, s.thr[a.tid], a);
    }
  }

  lemma FreeNextsKept(s: State, a: Action, u: nat)
    requires ChainInv(s) && a.tid < |s.thr| && u < |s.thr|
    ensures Chained(Step(s, a).mem, s.thr[u].free)
    ensures forall i :: 0 <= i < |s.thr[u].free| ==> Step(s, a).mem.next[s.thr[u].free[i]] == s.mem.next[s.thr[u].free[i]]
  {
    IsReady(s, a.tid);
    forall i | 0 <= i < |s.thr[u].free|
      ensures s.thr[u].free[i] < |Step(s, a).mem.next|
      ensures Step(s, a).mem.next[s.thr[u].free[i]] == s.mem.next[s.thr[u].free[i]]
    {
      FreeNextKept(s.mem, s.thr[a.tid], a, s.thr[u].free[i]);
      if s.thr[a.tid].todo != [] { NotTwice(s, a.tid, u, i); }
    }
  }

  /** What a thread is about to reclaim is on no free list. */
  lemma NotTwice(s: State, t: nat, u: nat, i: nat)
    requires Inv(s) && t < |s.thr| && u < |s.thr| && i < |s.thr[u].free| && s.thr[t].todo != []
    ensures s.thr[t].todo[0] != Reclaim(s.thr[u].free[i])
  {
    var n := s.thr[u].free[i];
    assert n in s.thr[u].free;
    OneClaim(s, t, n);
    TaskClaimsNonNegative(s.thr[u].todo, n);
    TaskClaimsNonNegative(s.thr[t].todo[1..], n);
    if t != u { AreApart(s, t, u); }
  }

  /** The free list a thread finds when it follows nextEntry is the one that reclaim and newRC have left, whatever the
      other threads still do to the counts of its nodes. */
  lemma FreeListIsIntact(threads: nat, sched: seq<Action>, t: nat)
    requires t < threads
    ensures var s := Reached(threads, sched); t < |s.thr| && Chained(s.mem, s.thr[t].free)
  {
    InitInv(threads);
    ThreadCount(threads, sched);
    forall s, a | ChainInv(s) ensures ChainInv(Step(s, a)) { ChainKept(s, a); }
    InvariantHolds(Step, ChainInv, Init(threads), sched);
  }

  // ---------------------------------------------------------------- release terminates

  function Unclaimed(m: Shared): (r: seq<int>)
    ensures |r| == |m.stage| && forall i :: 0 <= i < |r| ==> r[i] == (if Claimed(m.stage[i]) then 0 else 1)
  {
    seq(|m.stage|, i requires 0 <= i < |m.stage| => if Claimed(m.stage[i]) then 0 else 1)
  }

  function Weight(todo: seq<Task>): nat {
    if todo == [] then 0 else (if todo[0].ReleaseNext? then 2 else 1) + Weight(todo[1..])
  }

  lemma {:induction false} WeightConcat(a: seq<Task>, b: seq<Task>)
    ensures Weight(a + b) == Weight(a) + Weight(b)
  {
    if a == [] {
      assert a + b == b;
    } else {
      assert (a + b)[1..] == a[1..] + b;
      WeightConcat(a[1..], b);
    }
  }

  /** Each step of a release claims a node, or leaves less to do. */
  lemma ReleaseShrinks(m: Shared, th: Thread)
    requires Ready(m, th) && th.todo != []
    ensures var (m', th') := TaskStep(m, th);
            && 0 <= Sum(Unclaimed(m')) <= Sum(Unclaimed(m))
            && (Sum(Unclaimed(m')) == Sum(Unclaimed(m)) ==> Weight(th'.todo) < Weight(th.todo))
  {
    var n, m' := th.todo[0].n, TaskStep(m, th).0;
    SumNonNegative(Unclaimed(m'));
    SumUpdate(Unclaimed(m), n, if Claimed(m'.stage[n]) then 0 else 1);
    assert Unclaimed(m') == Unclaimed(m)[n := if Claimed(m'.stage[n]) then 0 else 1];
    if !Exhausts(m, th, n) { LessToDo(m, th); }
  }

  lemma LessToDo(m: Shared, th: Thread)
    requires Ready(m, th) && th.todo != [] && !Exhausts(m, th, th.todo[0].n)
    ensures Weight(TaskStep(m, th).1.todo) < Weight(th.todo)
  {
    var rest := th.todo[1..];
    if th.todo[0].ReleaseNext? {
      var x := m.next[th.todo[0].n].to;
      WeightConcat(Rel(x), rest);
      assert Weight(Rel(x)) <= 1;
      assert TaskStep(m, th).1.todo == Rel(x) + rest;
    } else {
      assert TaskStep(m, th).1.todo == rest;
    }
  }

  /** k steps of one thread, with nobody else moving. */
  ghost function Alone(s: State, a: Action, k: nat): State {
    After(Step, s, seq(k, _ => a))
  }

  /** From every reachable state, a thread left to itself gets to the end of its releases, however long the chain of
      nodes that lose their last reference. */
  lemma ReleaseTerminates(threads: nat, sched: seq<Action>, a: Action)
    requires a.tid < threads
    ensures exists k: nat :: |Alone(Reached(threads, sched), a, k).thr| == threads
                             && Alone(Reached(threads, sched), a, k).thr[a.tid].todo == []
  {
    ReachableInv(threads, sched);
    ThreadCount(threads, sched);
    var k := Drain(Reached(threads, sched), a);
    assert |Alone(Reached(threads, sched), a, k).thr| == threads;
  }

  lemma {:induction false} Drain(s: State, a: Action) returns (k: nat)
    requires Inv(s) && a.tid < |s.thr|
    ensures |Alone(s, a, k).thr| == |s.thr| && Alone(s, a, k).thr[a.tid].todo == []
    decreases Sum(Unclaimed(s.mem)), Weight(s.thr[a.tid].todo)
  {
    if s.thr[a.tid].todo == [] {
      k := 0;
    } else {
      IsReady(s, a.tid);
      ReleaseShrinks(s.mem, s.thr[a.tid]);
      StepKeeps(s, a);
      k := Drain(Step(s, a), a);
      FirstStep(s, a, k);
      k := k + 1;
    }
  }

  lemma {:induction false} FirstStep(s: State, a: Action, k: nat)
    ensures Alone(s, a, k + 1) == Alone(Step(s, a), a, k)
  {
    assert seq(k + 1, _ => a)[..k] == seq(k, _ => a);
    if k > 0 {
      assert seq(k, _ => a)[..k - 1] == seq(k - 1, _ => a);
      FirstStep(s, a, k - 1);
    } else {
      assert After(Step, s, seq(k + 1, _ => a)) == Step(After(Step, s, seq(k, _ => a)), a);
    }
  }
}
