/** Runs of interleaved machines.
    A machine is a total step function on states; an action names the thread that moves and the
    choices its environment makes for it.  A schedule is any finite sequence of actions, so a thread that
    stops forever is a schedule that stops naming it. */
module Runs {
  /** The state after the schedule has been played from s. */
  ghost function After<S, A>(step: (S, A) -> S, s: S, sched: seq<A>): S
  {
    if sched == [] then s else step(After(step, s, sched[..|sched| - 1]), sched[|sched| - 1])
  }

  /** What every step keeps holds after every schedule. */
  lemma {:induction false} InvariantHolds<S(!new), A(!new)>(step: (S, A) -> S, inv: S -> bool, s: S, sched: seq<A>)
    requires inv(s)
    requires forall r, a :: inv(r) ==> inv(step(r, a))
    ensures inv(After(step, s, sched))
  {
    if sched != [] {
      InvariantHolds(step, inv, s, sched[..|sched| - 1]);
    }
  }

  /** One more action is one more step. */
  lemma AfterSnoc<S, A>(step: (S, A) -> S, s: S, sched: seq<A>, k: nat)
    requires k < |sched|
    ensures After(step, s, sched[..k + 1]) == step(After(step, s, sched[..k]), sched[k])
  {
    assert sched[..k + 1][..k] == sched[..k];
  }

  /** Some step of the run, from step k on, is an event of this kind. */
  ghost predicate Happens<S, A>(step: (S, A) -> S, event: (S, A) -> bool, s: S, sched: seq<A>, k: nat) {
    exists i :: k <= i < |sched| && event(After(step, s, sched[..i]), sched[i])
  }

  lemma HappensSnoc<S, A>(step: (S, A) -> S, event: (S, A) -> bool, s: S, sched: seq<A>, k: nat)
    requires k < |sched|
    ensures var before := sched[..|sched| - 1];
      Happens(step, event, s, sched, k) <==>
        Happens(step, event, s, before, k) || event(After(step, s, before), sched[|sched| - 1])
  {
    var before := sched[..|sched| - 1];
    assert forall i :: 0 <= i < |before| ==> before[..i] == sched[..i] && before[i] == sched[i];
    if Happens(step, event, s, before, k) {
      var i :| k <= i < |before| && event(After(step, s, before[..i]), before[i]);
      assert event(After(step, s, sched[..i]), sched[i]);
    }
  }

  /** What does not hold at the start, and comes to hold by events of one kind only, holds after such an event only. */
  lemma {:induction false} HasCause<S(!new), A(!new)>(
    step: (S, A) -> S, inv: S -> bool, holds: S -> bool, event: (S, A) -> bool, s: S, sched: seq<A>)
    requires inv(s) && (forall r, a :: inv(r) ==> inv(step(r, a)))
    requires !holds(s) && forall r, a :: inv(r) && holds(step(r, a)) ==> holds(r) || event(r, a)
    ensures holds(After(step, s, sched)) ==> Happens(step, event, s, sched, 0)
  {
    if sched != [] {
      var before := sched[..|sched| - 1];
      InvariantHolds(step, inv, s, before);
      HasCause(step, inv, holds, event, s, before);
      HappensSnoc(step, event, s, sched, 0);
    }
  }

  /** What holds at one moment of a run and is kept by every step into a quiet state holds as long as the run stays quiet. */
  lemma {:induction false} HoldsSince<S(!new), A(!new)>(
    step: (S, A) -> S, inv: S -> bool, holds: S -> bool, quiet: S -> bool, s: S, sched: seq<A>, k: nat)
    requires inv(s) && (forall r, a :: inv(r) ==> inv(step(r, a)))
    requires k <= |sched| && holds(After(step, s, sched[..k]))
    requires forall r, a :: inv(r) && holds(r) && quiet(step(r, a)) ==> holds(step(r, a))
    requires forall j :: k < j <= |sched| ==> quiet(After(step, s, sched[..j]))
    ensures holds(After(step, s, sched))
  {
    assert sched[..|sched|] == sched;
    if k < |sched| {
      var before := sched[..|sched| - 1];
      assert before[..k] == sched[..k];
      forall j | k < j <= |before| ensures quiet(After(step, s, before[..j])) { assert before[..j] == sched[..j]; }
      HoldsSince(step, inv, holds, quiet, s, before, k);
      InvariantHolds(step, inv, s, before);
    }
  }
}
