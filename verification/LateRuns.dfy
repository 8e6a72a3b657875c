/**
 Round runs that end late (src/application/plan_loop.go): a loop that was paused, stopped or moved on to another round
 is out of the reach of the executor it left behind, but for one sequence of failed writes.
 */
module LateRuns {
  import opened Basics
  import opened Plans
  import opened PlanLoop
  import opened PlanLoopService

  /** The executor of the run would change the loop now. */
  predicate CanAdvance(s: State, run: Id, p: Id) {
    s.holder.Free? && run in s.leaving && Drives(s, run, p)
  }

  /** The loop is in another round, or was started anew. */
  predicate MovedOn(s: State, run: Id, p: Id) {
    run in s.runs && p in s.plans && s.plans[p].loop.Some? && s.plans[p].loop.value.roundRunId != run
  }

  lemma MovedOnRound(s: State, a: Action, run: Id, p: Id)
    requires Inv(s) && MovedOn(s, run, p) && OfRound(a)
    ensures MovedOn(Next(s, a), run, p)
  {
  }

  lemma MovedOnStep(s: State, a: Action, run: Id, p: Id)
    requires Inv(s) && MovedOn(s, run, p)
    ensures MovedOn(Next(s, a), run, p)
  {
    if OfRound(a) { MovedOnRound(s, a, run, p); }
  }

  /** Once a loop has moved on, the run it left behind never drives it again. */
  lemma {:induction false} NeverDrivesAgain(s: State, actions: seq<Action>, run: Id, p: Id)
    requires Inv(s) && MovedOn(s, run, p)
    ensures !Drives(Play(s, actions), run, p)
    decreases |actions|
  {
    if actions != [] {
      NextKeeps(s, actions[0]);
      MovedOnStep(s, actions[0], run, p);
      NeverDrivesAgain(Next(s, actions[0]), actions[1..], run, p);
    }
  }

  // ---- Loops that were paused or stopped ----

  predicate UnderWay(s: State, run: Id) {
    run in s.active || run in s.leaving
  }

  /** The run has lost its hold on the loop: the loop is elsewhere, does not run, is in the hands of the lock
      holder, or the executor is gone. */
  predicate Released(s: State, run: Id, p: Id) {
    && run in s.runs && p in s.plans && s.plans[p].loop.Some?
    && (s.plans[p].loop.value.roundRunId != run || !LoopActive(s.plans[p]) || On(s.holder, p) || !UnderWay(s, run))
  }

  /** The next round of a resumed loop could not be begun, and that could not be stored either. */
  predicate Reclaims(s: State, a: Action, run: Id, p: Id) {
    && a == PauseFailed(false) && s.holder == Failing(p) && p in s.plans
    && s.plans[p].loop.Some? && s.plans[p].loop.value.roundRunId == run && UnderWay(s, run)
  }

  lemma ReleasedUser(s: State, a: Action, run: Id, p: Id)
    requires Inv(s) && Released(s, run, p) && OfUser(a)
    ensures Released(Next(s, a), run, p)
  {
  }

  lemma ReleasedBegin(s: State, a: Action, run: Id, p: Id)
    requires Inv(s) && Released(s, run, p) && (a.Begin? || a.SaveRun?)
    ensures Released(Next(s, a), run, p)
  {
  }

  lemma ReleasedPauseFailed(s: State, ok: bool, run: Id, p: Id)
    requires Inv(s) && Released(s, run, p)
    ensures Released(OnPauseFailed(s, ok), run, p) <==> !Reclaims(s, PauseFailed(ok), run, p)
  {
  }

  lemma ReleasedAdvance(s: State, late: Id, q: Id, ok: bool, run: Id, p: Id)
    requires Inv(s) && Released(s, run, p)
    ensures Released(OnAdvance(s, late, q, ok), run, p)
  {
  }

  lemma ReleasedReconcile(s: State, q: Id, run: Id, p: Id)
    requires Inv(s) && Released(s, run, p)
    ensures Released(OnReconcile(s, q), run, p)
  {
  }

  lemma ReleasedOther(s: State, a: Action, run: Id, p: Id)
    requires Inv(s) && Released(s, run, p) && !OfUser(a) && !OfRound(a)
    ensures Released(Next(s, a), run, p)
  {
  }

  /** Exactly that gives the loop back to the run. */
  lemma ReleasedStep(s: State, a: Action, run: Id, p: Id)
    requires Inv(s) && Released(s, run, p)
    ensures Released(Next(s, a), run, p) <==> !Reclaims(s, a, run, p)
  {
    if OfUser(a) {
      ReleasedUser(s, a, run, p);
    } else if a.Begin? || a.SaveRun? {
      ReleasedBegin(s, a, run, p);
    } else if a.PauseFailed? {
      ReleasedPauseFailed(s, a.ok, run, p);
    } else if a.Advance? {
      ReleasedAdvance(s, a.run, a.plan, a.ok, run, p);
    } else if a.Reconcile? {
      ReleasedReconcile(s, a.plan, run, p);
    } else {
      ReleasedOther(s, a, run, p);
    }
  }

  /** No step of the run of the service gives the loop back. */
  predicate NeverReclaimed(s: State, actions: seq<Action>, run: Id, p: Id)
    decreases |actions|
  {
    actions == [] || (!Reclaims(s, actions[0], run, p) && NeverReclaimed(Next(s, actions[0]), actions[1..], run, p))
  }

  /** In no state on the way the executor of the run can advance the loop. */
  predicate OutOfReach(s: State, actions: seq<Action>, run: Id, p: Id)
    decreases |actions|
  {
    !CanAdvance(s, run, p) && (actions == [] || OutOfReach(Next(s, actions[0]), actions[1..], run, p))
  }

  /** A loop that was paused, stopped or moved on stays out of the reach of the run as long as it is not given back
      that way. */
  lemma {:induction false} LateRunStaysOut(s: State, actions: seq<Action>, run: Id, p: Id)
    requires Inv(s) && Released(s, run, p) && NeverReclaimed(s, actions, run, p)
    ensures OutOfReach(s, actions, run, p) && Released(Play(s, actions), run, p)
    decreases |actions|
  {
    if actions != [] {
      ReleasedStep(s, actions[0], run, p);
      NextKeeps(s, actions[0]);
      LateRunStaysOut(Next(s, actions[0]), actions[1..], run, p);
    }
  }

  /** When it is given back, the executor advances the loop as soon as it has left the active table. */
  lemma ReclaimedIsReached(s: State, a: Action, run: Id, p: Id)
    requires Inv(s) && Released(s, run, p) && Reclaims(s, a, run, p)
    ensures run in s.leaving ==> CanAdvance(Next(s, a), run, p)
    ensures run !in s.leaving ==> CanAdvance(Next(Next(s, a), Leave(run)), run, p)
  {
  }

  lemma LeftForGood(s: State, a: Action, run: Id)
    requires Inv(s) && run in s.runs && run !in s.active
    ensures run in Next(s, a).runs && run !in Next(s, a).active
  {
  }

  /** A run that has left the active table reaches a loop it has lost if and only if the loop is given back that way. */
  lemma {:induction false} LateRunExactly(s: State, actions: seq<Action>, run: Id, p: Id)
    requires Inv(s) && Released(s, run, p) && run !in s.active
    ensures OutOfReach(s, actions, run, p) <==> NeverReclaimed(s, actions, run, p)
    decreases |actions|
  {
    if actions != [] {
      ReleasedStep(s, actions[0], run, p);
      if Reclaims(s, actions[0], run, p) {
        ReclaimedIsReached(s, actions[0], run, p);
      } else {
        NextKeeps(s, actions[0]);
        LeftForGood(s, actions[0], run);
        LateRunExactly(Next(s, actions[0]), actions[1..], run, p);
      }
    }
  }

  /** The way back exists: a paused loop whose old executor is still leaving is resumed, the next round cannot be
      begun and that cannot be stored. */
  lemma LateRunReturns(s: State, run: Id, p: Id, another: Id)
    requires Inv(s) && p in s.plans && s.plans[p].loop.Some? && s.plans[p].loop.value.roundRunId == run
        && run in s.leaving
    requires s.holder.Free? && ResumeLoop(s.plans[p]).Ok? && Idle(s, s.home[p]) && Fresh(s, another)
    ensures Released(s, run, p) && Reclaims(Next(Next(s, Resume(p)), Begin(another, false)), PauseFailed(false), run, p)
  {
    ResumedLoop(s.plans[p]);
    var t := Next(s, Resume(p));
    assert t.holder == Starting(p) && t.leaving == s.leaving && t.plans[p].loop.value.roundRunId == run;
    FailedBegin(t, another, p);
  }

  lemma FailedBegin(s: State, another: Id, p: Id)
    requires s.holder == Starting(p) && p in s.plans && p in s.home && Fresh(s, another)
    ensures Next(s, Begin(another, false)) == s.(holder := Failing(p))
  {
  }
}
