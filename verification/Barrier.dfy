/** The counter barrier of worker.c, with stop false throughout. */
module Barrier {
  import opened Division
  import opened Runs
  import opened Sums

  /** Outside a call, and the points of a call: the test on entry, the increment of br, the wait, the increment of cttr, the
      two tests on leaving. */
  datatype PC = Outside | Entry | Add | Wait(res: nat) | Leave(res: nat) | Test1(res: nat) | Test2 | AssertionFailed

  /** cttr is the thread's count of completed rounds; entered the number of rounds it has entered (a history variable). */
  datatype Thread = Thread(cttr: nat, entered: nat, pc: PC)
  datatype State = State(br: nat, thr: seq<Thread>)

  ghost function Init(n: nat): State {
    State(0, seq(n, _ => Thread(0, 0, Outside)))
  }

  /** Thread tid moves; every step reads or writes br once at most. */
  function Step(s: State, tid: nat): State {
    if tid < |s.thr| then
      var (br, th) := ThreadStep(s.br, |s.thr|, s.thr[tid]);
      State(br, s.thr[tid := th])
    else s
  }

  function ThreadStep(br: nat, n: nat, th: Thread): (nat, Thread)
    requires 0 < n
  {
    match th.pc
    case Outside => (br, th.(pc := Entry))
    case Entry => (br, th.(pc := if br / n == th.cttr then Add else AssertionFailed))
    case Add => (br + 1, th.(entered := th.entered + 1, pc := Wait(br / n)))
    case Wait(res) => (br, if br / n == res then th else th.(pc := Leave(res)))
    case Leave(res) => (br, th.(cttr := th.cttr + 1, pc := Test1(res)))
    case Test1(res) => (br, th.(pc := if br / n == res + 1 then Test2 else AssertionFailed))
    case Test2 => (br, th.(pc := if br / n == th.cttr then Outside else AssertionFailed))
    case AssertionFailed => (br, th)
  }

  // ---------------------------------------------------------------- the invariant

  function Entered(thr: seq<Thread>): (r: seq<int>)
    ensures |r| == |thr| && forall t :: 0 <= t < |r| ==> r[t] == thr[t].entered
  {
    seq(|thr|, t requires 0 <= t < |thr| => thr[t].entered)
  }

  /** A thread, when q rounds are complete. */
  predicate ThreadOk(q: nat, th: Thread) {
    match th.pc
    case Outside => th.entered == th.cttr == q
    case Entry => th.entered == th.cttr == q
    case Add => th.entered == th.cttr == q
    case Wait(res) => th.entered == res + 1 && th.cttr == res && res <= q <= res + 1
    case Leave(res) => th.entered == q == res + 1 && th.cttr == res
    case Test1(res) => th.entered == th.cttr == q == res + 1
    case Test2 => th.entered == th.cttr == q
    case AssertionFailed => false
  }

  /** br counts the entries; q of them per thread make q complete rounds, and nobody is more than one round ahead. */
  ghost predicate Inv(s: State) {
    && s.br == Sum(Entered(s.thr))
    && (s.thr != [] ==> forall t :: 0 <= t < |s.thr| ==> ThreadOk(s.br / |s.thr|, s.thr[t]))
  }

  // ---------------------------------------------------------------- counting

  lemma {:induction false} SumAtMost(xs: seq<int>, k: int)
    requires forall t :: 0 <= t < |xs| ==> xs[t] <= k
    ensures Sum(xs) <= |xs| * k
  {
    if xs != [] {
      SumAtMost(xs[1..], k);
      assert |xs| * k == (|xs| - 1) * k + k;
    }
  }

  /** Where nobody is above k and the total is as large as it can be, everybody is at k. */
  lemma {:induction false} AllAtTop(xs: seq<int>, k: int)
    requires (forall t :: 0 <= t < |xs| ==> xs[t] <= k) && Sum(xs) == |xs| * k
    ensures forall t :: 0 <= t < |xs| ==> xs[t] == k
  {
    if xs != [] {
      SumAtMost(xs[1..], k);
      assert |xs| * k == (|xs| - 1) * k + k;
      AllAtTop(xs[1..], k);
      forall t | 0 < t < |xs| ensures xs[t] == k { assert xs[1..][t - 1] == k; }
    }
  }

  /** One more entry completes a round, or leaves the number of complete rounds as it is. */
  lemma NextQuotient(x: nat, n: nat)
    requires 0 < n
    ensures (x + 1) / n == x / n || ((x + 1) / n == x / n + 1 && x + 1 == n * (x / n + 1))
  {
    var q, r := x / n, x % n;
    assert x == q * n + r;
    if r + 1 < n {
      Divides(q, n, r + 1);
    } else {
      assert (q + 1) * n == q * n + n;
      Divides(q + 1, n, 0);
    }
  }

  lemma AddKeeps(s: State, tid: nat)
    requires Inv(s) && tid < |s.thr| && s.thr[tid].pc.Add?
    ensures Inv(Step(s, tid))
  {
    var s', n := Step(s, tid), |s.thr|;
    var q := s.br / n;
    SumUpdate(Entered(s.thr), tid, q + 1);
    assert Entered(s'.thr) == Entered(s.thr)[tid := q + 1];
    NextQuotient(s.br, n);
    if s'.br / n == q + 1 { AllAtTop(Entered(s'.thr), q + 1); }
    forall t | 0 <= t < n ensures ThreadOk(s'.br / n, s'.thr[t]) {
      assert ThreadOk(q, s.thr[t]);
      assert Entered(s'.thr)[t] == s'.thr[t].entered;
    }
  }

  lemma StepKeeps(s: State, tid: nat)
    requires Inv(s)
    ensures Inv(Step(s, tid))
  {
    if tid < |s.thr| {
      if s.thr[tid].pc.Add? {
        AddKeeps(s, tid);
      } else {
        assert Entered(Step(s, tid).thr) == Entered(s.thr);
      }
    }
  }

  ghost function Reached(n: nat, sched: seq<nat>): State {
    After(Step, Init(n), sched)
  }

  lemma ReachableInv(n: nat, sched: seq<nat>)
    ensures Inv(Reached(n, sched)) && |Reached(n, sched).thr| == n
  {
    AllZero(Entered(Init(n).thr));
    forall s, t | Inv(s) ensures Inv(Step(s, t)) { StepKeeps(s, t); }
    InvariantHolds(Step, Inv, Init(n), sched);
    ThreadCount(n, sched);
  }

  lemma {:induction false} ThreadCount(n: nat, sched: seq<nat>)
    ensures |Reached(n, sched).thr| == n
  {
    if sched != [] { ThreadCount(n, sched[..|sched| - 1]); }
  }

  // ---------------------------------------------------------------- what the barrier guarantees

  /** The three assertions never fail. */
  lemma AssertionsHold(n: nat, sched: seq<nat>, t: nat)
    requires t < n
    ensures |Reached(n, sched).thr| == n && Reached(n, sched).thr[t].pc != AssertionFailed
  {
    ReachableInv(n, sched);
  }

  /** A thread that has left round k, or is past its wait there, has been preceded by everybody's entry into round k. */
  lemma NobodyLeavesEarly(n: nat, sched: seq<nat>, t: nat, u: nat)
    requires t < n && u < n
    ensures var s := Reached(n, sched);
            && |s.thr| == n
            && s.thr[t].cttr <= s.thr[u].entered
            && (s.thr[t].pc.Leave? ==> s.thr[t].pc.res + 1 <= s.thr[u].entered)
  {
    ReachableInv(n, sched);
    assert ThreadOk(Reached(n, sched).br / n, Reached(n, sched).thr[t]);
    assert ThreadOk(Reached(n, sched).br / n, Reached(n, sched).thr[u]);
  }

  /** Completed rounds differ by one at most, and so do entered ones. */
  lemma RoundsTogether(n: nat, sched: seq<nat>, t: nat, u: nat)
    requires t < n && u < n
    ensures var s := Reached(n, sched);
            && |s.thr| == n
            && s.thr[t].cttr <= s.thr[u].cttr + 1
            && s.thr[t].entered <= s.thr[u].entered + 1
            && s.br == Sum(Entered(s.thr))
  {
    ReachableInv(n, sched);
    assert ThreadOk(Reached(n, sched).br / n, Reached(n, sched).thr[t]);
    assert ThreadOk(Reached(n, sched).br / n, Reached(n, sched).thr[u]);
  }
}
