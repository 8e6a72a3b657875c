/**
 The service that drives plan loops (src/application/plan_loop.go), as a machine whose steps are the durable
 writes: a crash may fall between any two of them. One thread at a time holds the start lock; executors
 of runs, tools that move plan steps and the crash itself interleave with it freely.
 */
module PlanLoopService {
  import opened Basics
  import opened Plans
  import opened PlanLoop

  datatype RunStatus = Live | Succeeded | Ended

  datatype RunRecord = RunRecord(session: Id, status: RunStatus)

  /** Where the thread that holds the start lock is between two writes. */
  datatype Holder = Free | Starting(plan: Id) | Begun(plan: Id, run: Id) | Failing(plan: Id) | Canceling(session: Id)

  /** `plans` and `runs` are stored, `active`, `leaving` and `holder` are lost in a crash; `leaving` are the
      executors that have left the active table and have yet to advance their loop. `started` and `orphaned`
      only record history: the round runs of each loop since its start, and the loops that lost their driver. */
  datatype State = State(
    home: map<Id, Id>,
    plans: map<Id, LoopPlan>,
    runs: map<Id, RunRecord>,
    active: set<Id>,
    leaving: set<Id>,
    holder: Holder,
    started: map<Id, set<Id>>,
    orphaned: set<Id>)

  datatype Action =
    | Start(plan: Id, rounds: int)
    | Resume(plan: Id)
    | Stop(plan: Id)
    | Interrupt(plan: Id, from: Reason, reason: string, note: string)
    | Begin(run: Id, ok: bool)
    | SaveRun(ok: bool)
    | PauseFailed(ok: bool)
    | CancelOne(run: Id)
    | CancelDone
    | OtherRun(run: Id, session: Id)
    | Finish(run: Id, status: RunStatus)
    | Leave(run: Id)
    | Advance(run: Id, plan: Id, ok: bool)
    | AdvanceNone(run: Id)
    | Reconcile(plan: Id)
    | MoveStep(plan: Id, event: Event)
    | Restart

  predicate Idle(s: State, session: Id) {
    forall r :: r in s.active && r in s.runs ==> s.runs[r].session != session
  }

  predicate Fresh(s: State, run: Id) {
    run != BLANK && run !in s.runs && forall p ::
        p in s.plans && s.plans[p].loop.Some? ==> s.plans[p].loop.value.roundRunId != run
  }

  /** The loop a finished round run belongs to: it must still be running that round. */
  predicate Drives(s: State, run: Id, p: Id) {
    p in s.plans && LoopActive(s.plans[p]) && s.plans[p].loop.value.roundRunId == run
  }

  function Put(s: State, p: Id, value: LoopPlan): State {
    s.(plans := s.plans[p := value])
  }

  // ---- The steps of the start-lock holder ----

  function OnStart(s: State, p: Id, rounds: int): State {
    if !s.holder.Free? || p !in s.plans || p !in s.home || !Idle(s, s.home[p]) then s
    else
      var r := StartLoop(s.plans[p], rounds);
      if r.Err? then s
      else Put(s, p, r.value).(holder := Starting(p), started := s.started[p := {}], orphaned := s.orphaned - {p})
  }

  function OnResume(s: State, p: Id): State {
    if !s.holder.Free? || p !in s.plans || p !in s.home || !Idle(s, s.home[p]) then s
    else
      var r := ResumeLoop(s.plans[p]);
      if r.Err? then s else Put(s, p, r.value).(holder := Starting(p), orphaned := s.orphaned - {p})
  }

  function OnStop(s: State, p: Id): State {
    if !s.holder.Free? || p !in s.plans || p !in s.home then s
    else
      var r := StopLoop(s.plans[p], ByUser);
      if r.Err? then s else Put(s, p, r.value).(holder := Canceling(s.home[p]))
  }

  function OnInterrupt(s: State, p: Id, from: Reason, reason: string, note: string): State {
    if !s.holder.Free? || p !in s.plans || p !in s.home then s
    else
      var r := InterruptLoop(s.plans[p], from, reason, note);
      if r.Err? then s else Put(s, p, r.value).(holder := Canceling(s.home[p]))
  }

  /** Counts the round and stores its run id. The run itself is saved afterwards. */
  function OnBegin(s: State, run: Id, ok: bool): State {
    if !s.holder.Starting? || s.holder.plan !in s.plans || s.holder.plan !in s.home || !Fresh(s, run) then s
    else
      var p := s.holder.plan;
      var r := BeginRound(s.plans[p]);
      if !ok || !Idle(s, s.home[p]) || r.Err? then s.(holder := Failing(p))
      else
        var loop := r.value.loop.value.(roundRunId := run);
        Put(s, p, r.value.(loop := Some(loop))).(holder := Begun(p, run))
  }

  /** The run is saved and its executor starts. */
  function WithRun(s: State, p: Id, run: Id): State
    requires p in s.home && p in s.started
  {
    s.(holder := Free, runs := s.runs[run := RunRecord(s.home[p], Live)], active := s.active + {run},
       started := s.started[p := s.started[p] + {run}])
  }

  function OnSaveRun(s: State, ok: bool): State {
    if !s.holder.Begun? || s.holder.plan !in s.started || s.holder.plan !in s.home then s
    else
      var p, run := s.holder.plan, s.holder.run;
      if !ok then s.(holder := Failing(p))
      else WithRun(s, p, run)
  }

  /** A loop that the service itself pauses. */
  function Failed(p: LoopPlan): LoopPlan {
    var r := InterruptLoop(p, RunFailed, "failed", "");
    if r.Ok? then r.value else p
  }

  lemma FailedLoop(p: LoopPlan)
    requires LoopOk(p) && LoopActive(p)
    ensures LoopOk(Failed(p)) && SameBudget(p, Failed(p)) && Failed(p).loop.value.status.Paused?
    ensures Failed(p).loop.value.stoppedBy.RunFailed? && Failed(p).loop.value.idleRounds == p.loop.value.idleRounds
    ensures Failed(p).loop.value.checkpoint.Some?
        && Failed(p).loop.value.checkpoint.value.stepId == p.plan.currentStepId
  {
    assert "failed"[0] == 'f';
    InterruptedLoop(p, RunFailed, "failed", "");
  }

  /** A round that could not be sent pauses the loop; if even that cannot be stored the loop is left without a
      driver. */
  function OnPauseFailed(s: State, ok: bool): State {
    if !s.holder.Failing? || s.holder.plan !in s.plans then s
    else
      var p := s.holder.plan;
      if !ok then s.(holder := Free, orphaned := s.orphaned + {p}) else Put(s, p, Failed(s.plans[p])).(holder := Free)
  }

  function OnCancelOne(s: State, run: Id): State {
    if s.holder.Canceling? && run in s.active && run in s.runs && s.runs[run] == RunRecord(s.holder.session, Live)
    then s.(runs := s.runs[run := s.runs[run].(status := Ended)])
    else s
  }

  function OnOtherRun(s: State, run: Id, session: Id): State {
    if s.holder.Free? && Fresh(s, run)
    then s.(runs := s.runs[run := RunRecord(session, Live)], active := s.active + {run})
    else s
  }

  /** The loop after its round run: paused unless the run completed, otherwise evaluated by what the steps show. */
  function AfterRound(p: LoopPlan, status: RunStatus): (LoopPlan, bool)
    requires LoopActive(p)
  {
    if !status.Succeeded? then (Failed(p), false)
    else Evaluate(p, Fingerprint(p.plan.steps) != p.loop.value.fingerprint)
  }

  function OnAdvance(s: State, run: Id, p: Id, ok: bool): State {
    if !s.holder.Free? || run !in s.leaving || run !in s.runs || !Drives(s, run, p) then s
    else if !ok then s.(leaving := s.leaving - {run}, orphaned := s.orphaned + {p})
    else
      var (after, more) := AfterRound(s.plans[p], s.runs[run].status);
      Put(s, p, after).(leaving := s.leaving - {run}, holder := if more then Starting(p) else Free)
  }

  /** Recovery: a running loop of a session without active runs has lost its driver. */
  function OnReconcile(s: State, p: Id): State {
    if !s.holder.Free? || p !in s.plans || p !in s.home || !Idle(s, s.home[p]) || !LoopActive(s.plans[p]) then s
    else
      var loop := s.plans[p].loop.value;
      var over := loop.roundRunId in s.runs && s.runs[loop.roundRunId].status.Succeeded? && IsTerminal(s.plans[p].plan);
      Put(s, p, Recovered(s.plans[p], over)).(orphaned := s.orphaned - {p})
  }

  function Recovered(p: LoopPlan, over: bool): LoopPlan {
    if over then Stopping(p, if p.plan.status.Completed? then AllCompleted else Incomplete)
    else
      var r := InterruptLoop(p, RunFailed, "left without an executor", RecoveryNote(p));
      if r.Ok? then r.value else p
  }

  const RECOVERED := "Steps, evidence and rounds are kept."

  /** What a recovered loop tells its next round: the note of the checkpoint it has is kept behind a new one. */
  function RecoveryNote(p: LoopPlan): string {
    if p.loop.Some? && p.loop.value.checkpoint.Some? && p.loop.value.checkpoint.value.note != ""
    then RECOVERED + "\n" + p.loop.value.checkpoint.value.note else RECOVERED
  }

  /** A loop that has lost its driver is stopped when its round run completed and the plan is over, and is paused
      otherwise, with the note it had. */
  lemma RecoveredLoop(p: LoopPlan, over: bool)
    requires LoopOk(p) && LoopActive(p)
    ensures LoopOk(Recovered(p, over)) && SameBudget(p, Recovered(p, over)) && !LoopActive(Recovered(p, over))
    ensures over ==>
        var loop := Recovered(p, over).loop.value;
        loop.status.Stopped? && loop.stoppedBy == if p.plan.status.Completed? then AllCompleted else Incomplete
    ensures !over ==> var loop := Recovered(p, over).loop.value;
        && loop.status.Paused? && loop.stoppedBy.RunFailed? && loop.idleRounds == p.loop.value.idleRounds
        && loop.checkpoint.Some? && loop.checkpoint.value.stepId == p.plan.currentStepId
        && NoteOf(loop.checkpoint.value.note, RecoveryNote(p))
    ensures RecoveryNote(p) == RECOVERED + match p.loop.value.checkpoint
        case None => ""
        case Some(checkpoint) => if checkpoint.note == "" then "" else "\n" + checkpoint.note
  {
    StoppedLoop(p, if p.plan.status.Completed? then AllCompleted else Incomplete);
    assert "left without an executor"[0] == 'l';
    InterruptedLoop(p, RunFailed, "left without an executor", RecoveryNote(p));
  }

  // ---- The other threads ----

  function OnFinish(s: State, run: Id, status: RunStatus): State {
    if run in s.active && run in s.runs
        && s.runs[run].status.Live? then s.(runs := s.runs[run := s.runs[run].(status := status)]) else s
  }

  function OnLeave(s: State, run: Id): State {
    if run in s.active then s.(active := s.active - {run}, leaving := s.leaving + {run}) else s
  }

  function OnRestart(s: State): State {
    s.(active := {}, leaving := {}, holder := Free,
       runs := map r | r in s.runs :: if s.runs[r].status.Live? then s.runs[r].(status := Ended) else s.runs[r],
       orphaned := s.orphaned + set p | p in s.plans && LoopActive(s.plans[p]))
  }

  function Next(s: State, a: Action): State {
    match a
    case Start(p, rounds) => OnStart(s, p, rounds)
    case Resume(p) => OnResume(s, p)
    case Stop(p) => OnStop(s, p)
    case Interrupt(p, from, reason, note) => OnInterrupt(s, p, from, reason, note)
    case Begin(run, ok) => OnBegin(s, run, ok)
    case SaveRun(ok) => OnSaveRun(s, ok)
    case PauseFailed(ok) => OnPauseFailed(s, ok)
    case CancelOne(run) => OnCancelOne(s, run)
    case CancelDone => if s.holder.Canceling? then s.(holder := Free) else s
    case OtherRun(run, session) => OnOtherRun(s, run, session)
    case Finish(run, status) => OnFinish(s, run, status)
    case Leave(run) => OnLeave(s, run)
    case Advance(run, p, ok) => OnAdvance(s, run, p, ok)
    case AdvanceNone(run) =>
      if s.holder.Free? && forall p :: p in s.plans ==> !Drives(s, run, p) then s.(leaving := s.leaving - {run}) else s
    case Reconcile(p) => OnReconcile(s, p)
    case MoveStep(p, event) => if p in s.plans then Put(s, p, s.plans[p].(plan := AfterEvent(s.plans[p].plan, event)))
        else s
    case Restart => OnRestart(s)
  }

  function Play(s: State, actions: seq<Action>): State
    decreases |actions|
  {
    if actions == [] then s else Play(Next(s, actions[0]), actions[1..])
  }

  // ---- The invariant ----

  predicate On(holder: Holder, p: Id) {
    (holder.Starting? || holder.Begun? || holder.Failing?) && holder.plan == p
  }

  /** The rounds of a loop: each was counted before its run was saved. */
  predicate Counted(s: State, p: Id)
    requires p in s.plans && p in s.started
  {
    && LoopOk(s.plans[p])
    && (s.plans[p].loop.None? ==> s.started[p] == {})
    && (s.plans[p].loop.Some? ==>
          |s.started[p]| + (if s.holder.Begun? && s.holder.plan == p then 1 else 0) <= s.plans[p].loop.value.round)
  }

  /** Round runs are runs of the session of their plan, and only the current one can be active. */
  predicate Placed(s: State, p: Id)
    requires p in s.plans && p in s.started && p in s.home
  {
    forall r :: r in s.started[p] ==>
      && r in s.runs && s.runs[r].session == s.home[p]
      && (r in s.active ==> s.plans[p].loop.Some? && s.plans[p].loop.value.roundRunId == r)
  }

  /** A running loop has a driver: the lock holder, its round run, or the executor that is about to advance it. */
  predicate Driven(s: State, p: Id)
    requires p in s.plans
  {
    LoopActive(s.plans[p]) ==>
      p in s.orphaned || On(s.holder, p) || s.plans[p].loop.value.roundRunId in s.active
          || s.plans[p].loop.value.roundRunId in s.leaving
  }

  predicate HolderOk(s: State) {
    match s.holder
    case Starting(p) => p in s.plans && LoopActive(s.plans[p])
        && s.plans[p].loop.value.round < s.plans[p].loop.value.maxRounds
    case Begun(p, run) =>
      && p in s.plans && p in s.home && LoopActive(s.plans[p]) && s.plans[p].loop.value.roundRunId == run
      && run != BLANK && run !in s.runs && Idle(s, s.home[p])
    case Failing(p) => p in s.plans && LoopActive(s.plans[p])
    case _ => true
  }

  ghost predicate Distinct(s: State) {
    forall p, q ::
        HasRound(s, p) && HasRound(s, q) && p != q ==>
          s.plans[p].loop.value.roundRunId != s.plans[q].loop.value.roundRunId
  }

  predicate HasRound(s: State, p: Id) {
    p in s.plans && s.plans[p].loop.Some? && s.plans[p].loop.value.roundRunId != BLANK
  }

  ghost predicate Inv(s: State) {
    && s.home.Keys == s.plans.Keys == s.started.Keys
    && s.active <= s.runs.Keys && BLANK !in s.runs
    && s.leaving <= s.runs.Keys
    && HolderOk(s) && Distinct(s)
    && (forall p :: p in s.plans ==> Counted(s, p) && Placed(s, p) && Driven(s, p))
  }

  // ---- Every step keeps it ----

  /** A step that touches one plan, its started rounds and the lock holder, and frees no driver of another loop. */
  predicate OnlyPlan(s: State, t: State, p: Id) {
    && p in s.plans && p in t.plans && p in s.started && p in t.started
    && t.home == s.home && t.runs == s.runs && t.active == s.active
    && t.plans == s.plans[p := t.plans[p]] && t.started == s.started[p := t.started[p]]
    && s.orphaned - {p} <= t.orphaned
    && (s.holder == t.holder || (OffOthers(s.holder, p) && OffOthers(t.holder, p)))
  }

  predicate OffOthers(holder: Holder, p: Id) {
    holder.Starting? || holder.Begun? || holder.Failing? ==> holder.plan == p
  }

  lemma OtherPlans(s: State, t: State, p: Id)
    requires Inv(s) && OnlyPlan(s, t, p)
    requires t.leaving == s.leaving || (HasRound(s, p) && t.leaving == s.leaving - {s.plans[p].loop.value.roundRunId})
    requires HolderOk(t) && Counted(t, p) && Placed(t, p) && Driven(t, p)
    requires HasRound(t, p) ==> (HasRound(s, p) && t.plans[p].loop.value.roundRunId == s.plans[p].loop.value.roundRunId)
                                || Fresh(s, t.plans[p].loop.value.roundRunId)
    ensures Inv(t)
  {
    forall q | q in t.plans && q != p ensures Counted(t, q) && Placed(t, q) && Driven(t, q) {
      assert Counted(s, q) && Placed(s, q) && Driven(s, q);
      if LoopActive(s.plans[q]) && HasRound(s, p)
          && s.plans[q].loop.value.roundRunId == s.plans[p].loop.value.roundRunId {
        assert HasRound(s, q);
      }
    }
    forall q, r | HasRound(t, q) && HasRound(t, r)
        && q != r ensures t.plans[q].loop.value.roundRunId != t.plans[r].loop.value.roundRunId {
      assert q != p ==> HasRound(s, q);
      assert r != p ==> HasRound(s, r);
    }
  }

  lemma StartKeeps(s: State, p: Id, rounds: int)
    requires Inv(s)
    ensures Inv(OnStart(s, p, rounds))
  {
    var t := OnStart(s, p, rounds);
    if t != s {
      StartedLoop(s.plans[p], rounds);
      OtherPlans(s, t, p);
    }
  }

  lemma ResumeKeeps(s: State, p: Id)
    requires Inv(s)
    ensures Inv(OnResume(s, p))
  {
    var t := OnResume(s, p);
    if t != s {
      assert Counted(s, p) && Placed(s, p);
      ResumedLoop(s.plans[p]);
      OtherPlans(s, t, p);
    }
  }

  lemma StopKeeps(s: State, p: Id)
    requires Inv(s)
    ensures Inv(OnStop(s, p))
  {
    var t := OnStop(s, p);
    if t != s {
      assert Counted(s, p) && Placed(s, p);
      StoppedLoop(s.plans[p], ByUser);
      OtherPlans(s, t, p);
    }
  }

  lemma InterruptKeeps(s: State, p: Id, from: Reason, reason: string, note: string)
    requires Inv(s)
    ensures Inv(OnInterrupt(s, p, from, reason, note))
  {
    var t := OnInterrupt(s, p, from, reason, note);
    if t != s {
      assert Counted(s, p) && Placed(s, p);
      InterruptedLoop(s.plans[p], from, reason, note);
      OtherPlans(s, t, p);
    }
  }

  lemma BeginKeeps(s: State, run: Id, ok: bool)
    requires Inv(s)
    ensures Inv(OnBegin(s, run, ok))
  {
    var t := OnBegin(s, run, ok);
    if t != s {
      var p := s.holder.plan;
      assert Counted(s, p) && Placed(s, p);
      BegunRound(s.plans[p]);
      OtherPlans(s, t, p);
    }
  }

  lemma PauseFailedKeeps(s: State, ok: bool)
    requires Inv(s)
    ensures Inv(OnPauseFailed(s, ok))
  {
    var t := OnPauseFailed(s, ok);
    if t != s {
      var p := s.holder.plan;
      assert Counted(s, p) && Placed(s, p);
      FailedLoop(s.plans[p]);
      OtherPlans(s, t, p);
    }
  }

  /** What is left of a loop after its round run: it waits for its next round, or it no longer runs. */
  lemma AfterRoundKeeps(p: LoopPlan, status: RunStatus)
    requires LoopActive(p) && LoopOk(p)
    ensures var (q, more) := AfterRound(p, status);
            && LoopOk(q) && SameBudget(p, q) && (more <==> LoopActive(q))
                && (more ==> status.Succeeded? && 0 < RoundsLeft(q))
  {
    if status.Succeeded? {
      EvaluatedLoop(p, Fingerprint(p.plan.steps) != p.loop.value.fingerprint);
    } else {
      FailedLoop(p);
    }
  }

  lemma AdvanceKeeps(s: State, run: Id, p: Id, ok: bool)
    requires Inv(s)
    ensures Inv(OnAdvance(s, run, p, ok))
  {
    var t := OnAdvance(s, run, p, ok);
    if t != s {
      assert Counted(s, p) && Placed(s, p) && HasRound(s, p);
      AfterRoundKeeps(s.plans[p], s.runs[run].status);
      OtherPlans(s, t, p);
    }
  }

  lemma ReconcileKeeps(s: State, p: Id)
    requires Inv(s)
    ensures Inv(OnReconcile(s, p))
  {
    var t := OnReconcile(s, p);
    if t != s {
      assert Counted(s, p) && Placed(s, p);
      RecoveredLoop(s.plans[p], true);
      RecoveredLoop(s.plans[p], false);
      OtherPlans(s, t, p);
    }
  }

  lemma MoveStepKeeps(s: State, p: Id, event: Event)
    requires Inv(s) && p in s.plans
    ensures Inv(Put(s, p, s.plans[p].(plan := AfterEvent(s.plans[p].plan, event))))
  {
    assert Counted(s, p) && Placed(s, p) && Driven(s, p);
    var t := Put(s, p, s.plans[p].(plan := AfterEvent(s.plans[p].plan, event)));
    assert t.plans[p].loop == s.plans[p].loop;
    OtherPlans(s, t, p);
  }

  lemma SaveRunKeeps(s: State, ok: bool)
    requires Inv(s)
    ensures Inv(OnSaveRun(s, ok))
  {
    var t := OnSaveRun(s, ok);
    if t != s {
      var p, run := s.holder.plan, s.holder.run;
      assert Counted(s, p) && Placed(s, p);
      if !ok {
        OtherPlans(s, t, p);
      } else {
        RunSaved(s, p, run);
      }
    }
  }

  lemma RunSavedHere(s: State, p: Id, run: Id)
    requires Inv(s) && s.holder == Begun(p, run)
    ensures var t := WithRun(s, p, run); Counted(t, p) && Placed(t, p) && Driven(t, p)
  {
    assert Counted(s, p) && Placed(s, p) && run !in s.started[p];
    var t := WithRun(s, p, run);
    assert forall r :: r in s.started[p] ==> s.runs[r].session == s.home[p];
  }

  lemma RunSavedElsewhere(s: State, p: Id, run: Id, q: Id)
    requires Inv(s) && s.holder == Begun(p, run) && q in s.plans && q != p
    ensures var t := WithRun(s, p, run); Counted(t, q) && Placed(t, q) && Driven(t, q)
  {
    assert Counted(s, q) && Placed(s, q) && Driven(s, q);
  }

  lemma RunSaved(s: State, p: Id, run: Id)
    requires Inv(s) && s.holder == Begun(p, run)
    ensures Inv(WithRun(s, p, run))
  {
    var t := WithRun(s, p, run);
    forall q | q in t.plans ensures Counted(t, q) && Placed(t, q) && Driven(t, q) {
      if q == p { RunSavedHere(s, p, run); } else { RunSavedElsewhere(s, p, run, q); }
    }
    SameRounds(s, t);
    Together(s, t);
  }

  lemma Together(s: State, t: State)
    requires Inv(s) && t.home == s.home && t.plans == s.plans && t.started.Keys == s.started.Keys
    requires t.active <= t.runs.Keys && t.leaving <= t.runs.Keys && BLANK !in t.runs && HolderOk(t) && Distinct(t)
    requires forall q :: q in t.plans ==> Counted(t, q) && Placed(t, q) && Driven(t, q)
    ensures Inv(t)
  {
  }

  lemma SameRounds(s: State, t: State)
    requires Distinct(s) && t.plans == s.plans
    ensures Distinct(t)
  {
    assert forall p :: HasRound(t, p) <==> HasRound(s, p);
  }

  /** Steps that leave plans and started rounds alone. */
  lemma PlansStay(s: State, t: State)
    requires Inv(s) && t.plans == s.plans && t.started == s.started && t.home == s.home
    requires s.runs.Keys <= t.runs.Keys && (forall r :: r in s.runs ==> t.runs[r].session == s.runs[r].session)
        && BLANK !in t.runs
    requires t.active <= t.runs.Keys && t.leaving <= t.runs.Keys && s.orphaned <= t.orphaned
    requires (forall r :: r in t.active && r in s.runs ==> r in s.active)
    requires t.holder == s.holder
        || (!t.holder.Begun? && HolderOk(t) && forall p ::
        p in s.plans && LoopActive(s.plans[p]) ==> p in t.orphaned || !On(s.holder, p))
    requires t.holder.Begun? ==> HolderOk(t)
    requires forall p :: p in s.plans && LoopActive(s.plans[p]) && p !in t.orphaned ==>
               var r := s.plans[p].loop.value.roundRunId;
                   r in s.active || r in s.leaving ==> r in t.active || r in t.leaving
    ensures Inv(t)
  {
    forall q | q in t.plans ensures Counted(t, q) && Placed(t, q) && Driven(t, q) {
      assert Counted(s, q) && Placed(s, q) && Driven(s, q);
    }
    SameRounds(s, t);
  }

  lemma CancelOneKeeps(s: State, run: Id)
    requires Inv(s)
    ensures Inv(OnCancelOne(s, run))
  {
    PlansStay(s, OnCancelOne(s, run));
  }

  lemma OtherRunKeeps(s: State, run: Id, session: Id)
    requires Inv(s)
    ensures Inv(OnOtherRun(s, run, session))
  {
    PlansStay(s, OnOtherRun(s, run, session));
  }

  lemma FinishKeeps(s: State, run: Id, status: RunStatus)
    requires Inv(s)
    ensures Inv(OnFinish(s, run, status))
  {
    PlansStay(s, OnFinish(s, run, status));
  }

  lemma LeaveKeeps(s: State, run: Id)
    requires Inv(s)
    ensures Inv(OnLeave(s, run))
  {
    PlansStay(s, OnLeave(s, run));
  }

  lemma AdvanceNoneKeeps(s: State, run: Id)
    requires Inv(s) && s.holder.Free? && forall p :: p in s.plans ==> !Drives(s, run, p)
    ensures Inv(s.(leaving := s.leaving - {run}))
  {
    PlansStay(s, s.(leaving := s.leaving - {run}));
  }

  lemma RestartKeeps(s: State)
    requires Inv(s)
    ensures Inv(OnRestart(s))
  {
    PlansStay(s, OnRestart(s));
  }

  predicate OfUser(a: Action) {
    a.Start? || a.Resume? || a.Stop? || a.Interrupt?
  }

  predicate OfRound(a: Action) {
    a.Begin? || a.SaveRun? || a.PauseFailed? || a.Advance? || a.Reconcile?
  }

  lemma UserKeeps(s: State, a: Action)
    requires Inv(s) && OfUser(a)
    ensures Inv(Next(s, a))
  {
    match a
    case Start(p, rounds) => StartKeeps(s, p, rounds);
    case Resume(p) => ResumeKeeps(s, p);
    case Stop(p) => StopKeeps(s, p);
    case Interrupt(p, from, reason, note) => InterruptKeeps(s, p, from, reason, note);
  }

  lemma RoundKeeps(s: State, a: Action)
    requires Inv(s) && OfRound(a)
    ensures Inv(Next(s, a))
  {
    match a
    case Begin(run, ok) => BeginKeeps(s, run, ok);
    case SaveRun(ok) => SaveRunKeeps(s, ok);
    case PauseFailed(ok) => PauseFailedKeeps(s, ok);
    case Advance(run, p, ok) => AdvanceKeeps(s, run, p, ok);
    case Reconcile(p) => ReconcileKeeps(s, p);
  }

  lemma OtherKeeps(s: State, a: Action)
    requires Inv(s) && !OfUser(a) && !OfRound(a)
    ensures Inv(Next(s, a))
  {
    match a
    case CancelOne(run) => CancelOneKeeps(s, run);
    case CancelDone => if s.holder.Canceling? { PlansStay(s, s.(holder := Free)); }
    case OtherRun(run, session) => OtherRunKeeps(s, run, session);
    case Finish(run, status) => FinishKeeps(s, run, status);
    case Leave(run) => LeaveKeeps(s, run);
    case AdvanceNone(run) =>
      if s.holder.Free? && forall p :: p in s.plans ==> !Drives(s, run, p) { AdvanceNoneKeeps(s, run); }
    case MoveStep(p, event) => if p in s.plans { MoveStepKeeps(s, p, event); }
    case Restart => RestartKeeps(s);
  }

  lemma NextKeeps(s: State, a: Action)
    requires Inv(s)
    ensures Inv(Next(s, a))
  {
    if OfUser(a) {
      UserKeeps(s, a);
    } else if OfRound(a) {
      RoundKeeps(s, a);
    } else {
      OtherKeeps(s, a);
    }
  }

  // ---- Whole runs ----

  /** Before any loop was started. */
  predicate Initial(s: State) {
    && s.home.Keys == s.plans.Keys == s.started.Keys && s.runs == map[] && s.active == {} && s.leaving == {}
        && s.holder.Free?
    && forall p :: p in s.plans ==> s.plans[p].loop.None? && s.started[p] == {}
  }

  lemma InitialKeeps(s: State)
    requires Initial(s)
    ensures Inv(s)
  {
  }

  lemma {:induction false} PlayKeeps(s: State, actions: seq<Action>)
    requires Inv(s)
    ensures Inv(Play(s, actions))
    decreases |actions|
  {
    if actions != [] {
      NextKeeps(s, actions[0]);
      PlayKeeps(Next(s, actions[0]), actions[1..]);
    }
  }

  predicate Restarts(a: Action, p: Id) {
    a.Start? && a.plan == p
  }

  /** Without a new start a loop keeps its bound, its rounds are only counted up, and no started round is forgotten. */
  predicate Follows(s: State, t: State, p: Id) {
    && p in s.plans && p in t.plans && p in s.started && p in t.started && s.plans[p].loop.Some?
        && t.plans[p].loop.Some?
    && t.plans[p].loop.value.maxRounds == s.plans[p].loop.value.maxRounds
    && s.plans[p].loop.value.round <= t.plans[p].loop.value.round
    && s.started[p] <= t.started[p]
  }

  lemma SamePlanFollows(s: State, t: State, p: Id)
    requires p in s.plans && p in s.started && s.plans[p].loop.Some?
    requires p in t.plans && p in t.started && t.started[p] == s.started[p]
    requires t.plans[p].loop == s.plans[p].loop || SameBudget(s.plans[p], t.plans[p])
    ensures Follows(s, t, p)
  {
  }

  lemma BeginFollows(s: State, run: Id, ok: bool, p: Id)
    requires Inv(s) && p in s.plans && s.plans[p].loop.Some?
    ensures Follows(s, OnBegin(s, run, ok), p)
  {
    assert Counted(s, p);
    BegunRound(s.plans[p]);
  }

  lemma AdvanceFollows(s: State, run: Id, q: Id, ok: bool, p: Id)
    requires Inv(s) && p in s.plans && s.plans[p].loop.Some?
    ensures Follows(s, OnAdvance(s, run, q, ok), p)
  {
    assert Counted(s, p);
    if q == p && run in s.runs && LoopActive(s.plans[p]) { AfterRoundKeeps(s.plans[p], s.runs[run].status); }
    SamePlanFollows(s, OnAdvance(s, run, q, ok), p);
  }

  lemma ReconcileFollows(s: State, q: Id, p: Id)
    requires Inv(s) && p in s.plans && s.plans[p].loop.Some?
    ensures Follows(s, OnReconcile(s, q), p)
  {
    assert Counted(s, p);
    if LoopActive(s.plans[p]) {
      RecoveredLoop(s.plans[p], true);
      RecoveredLoop(s.plans[p], false);
    }
    SamePlanFollows(s, OnReconcile(s, q), p);
  }

  lemma PauseFailedFollows(s: State, ok: bool, p: Id)
    requires Inv(s) && p in s.plans && s.plans[p].loop.Some?
    ensures Follows(s, OnPauseFailed(s, ok), p)
  {
    assert Counted(s, p);
    if LoopActive(s.plans[p]) { FailedLoop(s.plans[p]); }
    SamePlanFollows(s, OnPauseFailed(s, ok), p);
  }

  lemma ResumeFollows(s: State, q: Id, p: Id)
    requires Inv(s) && p in s.plans && s.plans[p].loop.Some?
    ensures Follows(s, OnResume(s, q), p)
  {
    assert Counted(s, p);
    if ResumeLoop(s.plans[p]).Ok? { ResumedLoop(s.plans[p]); }
    SamePlanFollows(s, OnResume(s, q), p);
  }

  lemma StopFollows(s: State, q: Id, p: Id)
    requires Inv(s) && p in s.plans && s.plans[p].loop.Some?
    ensures Follows(s, OnStop(s, q), p)
  {
    assert Counted(s, p);
    StoppedLoop(s.plans[p], ByUser);
    SamePlanFollows(s, OnStop(s, q), p);
  }

  lemma InterruptFollows(s: State, q: Id, from: Reason, reason: string, note: string, p: Id)
    requires Inv(s) && p in s.plans && s.plans[p].loop.Some?
    ensures Follows(s, OnInterrupt(s, q, from, reason, note), p)
  {
    assert Counted(s, p);
    if InterruptLoop(s.plans[p], from, reason, note).Ok? { InterruptedLoop(s.plans[p], from, reason, note); }
    SamePlanFollows(s, OnInterrupt(s, q, from, reason, note), p);
  }

  lemma SaveRunFollows(s: State, ok: bool, p: Id)
    requires Inv(s) && p in s.plans && s.plans[p].loop.Some?
    ensures Follows(s, OnSaveRun(s, ok), p)
  {
  }

  lemma RunFollows(s: State, a: Action, p: Id)
    requires Inv(s) && p in s.plans && s.plans[p].loop.Some?
    requires a.CancelOne? || a.CancelDone? || a.OtherRun? || a.Finish? || a.Leave? || a.AdvanceNone? || a.Restart?
    ensures Follows(s, Next(s, a), p)
  {
    SamePlanFollows(s, Next(s, a), p);
  }

  lemma PlanFollows(s: State, a: Action, p: Id)
    requires Inv(s) && p in s.plans && s.plans[p].loop.Some? && (a.MoveStep? || a.Start?) && !Restarts(a, p)
    ensures Follows(s, Next(s, a), p)
  {
  }

  lemma UserFollows(s: State, a: Action, p: Id)
    requires Inv(s) && p in s.plans && s.plans[p].loop.Some? && (a.Resume? || a.Stop? || a.Interrupt?)
    ensures Follows(s, Next(s, a), p)
  {
    if a.Resume? {
      ResumeFollows(s, a.plan, p);
    } else if a.Stop? {
      StopFollows(s, a.plan, p);
    } else {
      InterruptFollows(s, a.plan, a.from, a.reason, a.note, p);
    }
  }

  lemma RoundFollows(s: State, a: Action, p: Id)
    requires Inv(s) && p in s.plans && s.plans[p].loop.Some?
    requires a.Begin? || a.SaveRun? || a.PauseFailed? || a.Advance? || a.Reconcile?
    ensures Follows(s, Next(s, a), p)
  {
    if a.Begin? {
      BeginFollows(s, a.run, a.ok, p);
    } else if a.SaveRun? {
      SaveRunFollows(s, a.ok, p);
    } else if a.PauseFailed? {
      PauseFailedFollows(s, a.ok, p);
    } else if a.Advance? {
      AdvanceFollows(s, a.run, a.plan, a.ok, p);
    } else {
      ReconcileFollows(s, a.plan, p);
    }
  }

  lemma NextFollows(s: State, a: Action, p: Id)
    requires Inv(s) && p in s.plans && s.plans[p].loop.Some? && !Restarts(a, p)
    ensures Follows(s, Next(s, a), p)
  {
    if a.Resume? || a.Stop? || a.Interrupt? {
      UserFollows(s, a, p);
    } else if a.Begin? || a.SaveRun? || a.PauseFailed? || a.Advance? || a.Reconcile? {
      RoundFollows(s, a, p);
    } else if a.MoveStep? || a.Start? {
      PlanFollows(s, a, p);
    } else {
      RunFollows(s, a, p);
    }
  }

  lemma FollowsOn(s: State, t: State, u: State, p: Id)
    requires Follows(s, t, p) && Follows(t, u, p)
    ensures Follows(s, u, p)
  {
  }

  /** From one start of a loop, however interrupts, resumes, failed starts, failed runs, recoveries and restarts
      interleave, the rounds ever started are at most the rounds counted, which are at most the bound. */
  lemma {:induction false} BudgetHolds(s: State, actions: seq<Action>, p: Id)
    requires Inv(s) && p in s.plans && s.plans[p].loop.Some?
    requires forall i :: 0 <= i < |actions| ==> !Restarts(actions[i], p)
    ensures Follows(s, Play(s, actions), p)
    ensures |Play(s, actions).started[p]| <= Play(s,
        actions).plans[p].loop.value.round <= s.plans[p].loop.value.maxRounds <= MAX_ROUNDS
    decreases |actions|
  {
    assert Counted(s, p);
    if actions != [] {
      var t := Next(s, actions[0]);
      NextFollows(s, actions[0], p);
      NextKeeps(s, actions[0]);
      BudgetHolds(t, actions[1..], p);
      FollowsOn(s, t, Play(s, actions), p);
    }
  }

  predicate AtMostOneActive(s: State, p: Id) {
    p in s.started && forall a, b :: a in s.started[p] && b in s.started[p] && a in s.active && b in s.active ==> a == b
  }

  /** In every reachable state each loop has at most one round run that is still active, and a running loop that
      has not lost its driver to a crash or a failed write will be advanced. */
  lemma {:induction false} OneRoundAtATime(s: State, actions: seq<Action>, p: Id)
    requires Initial(s)
    ensures var t := Play(s, actions);
            p in t.plans ==>
              && AtMostOneActive(t, p)
              && Driven(t, p)
  {
    InitialKeeps(s);
    PlayKeeps(s, actions);
    var t := Play(s, actions);
    if p in t.plans { assert Placed(t, p) && Driven(t, p); }
  }

  // ---- The source's own form ----

  /** The service, with the writes that may fail as parameters. What it records beyond the source is ghost. */
  class Service {
    const home: map<Id, Id>
    var plans: map<Id, LoopPlan>
    var runs: map<Id, RunRecord>
    var active: set<Id>
    ghost var leaving: set<Id>
    ghost var holder: Holder
    ghost var started: map<Id, set<Id>>
    ghost var orphaned: set<Id>

    constructor (s: State)
      ensures View() == s
    {
      home, plans, runs, active, leaving, holder, started, orphaned :=
        s.home, s.plans, s.runs, s.active, s.leaving, s.holder, s.started, s.orphaned;
    }

    ghost function View(): State
      reads this
    {
      State(home, plans, runs, active, leaving, holder, started, orphaned)
    }

    method HasActiveSession(session: Id) returns (busy: bool)
      requires active <= runs.Keys
      ensures busy <==> !Idle(View(), session)
    {
      var rest := active;
      while rest != {}
        invariant rest <= active
        invariant forall r :: r in active - rest ==> runs[r].session != session
        decreases rest
      {
        var r := Pick(rest);
        if runs[r].session == session {
          return true;
        }
        rest := rest - {r};
      }
      return false;
    }

    /** The loop that is still running the round of a run. */
    method PlanForLoopRun(run: Id) returns (found: bool, p: Id)
      ensures found ==> Drives(View(), run, p)
      ensures !found ==> forall q :: q in plans ==> !Drives(View(), run, q)
    {
      found, p := false, BLANK;
      var rest := plans.Keys;
      while rest != {}
        invariant rest <= plans.Keys
        invariant forall q :: q in plans.Keys - rest ==> !Drives(View(), run, q)
        decreases rest
      {
        var q := Pick(rest);
        if LoopActive(plans[q]) && plans[q].loop.value.roundRunId == run {
          return true, q;
        }
        rest := rest - {q};
      }
    }

    /** Counts the round under its new run. */
    method CountRound(p: Id, run: Id, ok: bool) returns (counted: bool)
      requires Inv(View()) && holder == Starting(p) && Fresh(View(), run)
      modifies this
      ensures View() == OnBegin(old(View()), run, ok) && Inv(View())
      ensures counted <==> ok && Idle(old(View()), home[p])
      ensures holder == if counted then Begun(p, run) else Failing(p)
    {
      ghost var s := View();
      BeginKeeps(s, run, ok);
      assert Counted(s, p);
      BegunRound(plans[p]);
      var busy := HasActiveSession(home[p]);
      var begun := BeginRound(plans[p]);
      counted := ok && !busy;
      if counted {
        var loop := begun.value.loop.value.(roundRunId := run);
        plans := plans[p := begun.value.(loop := Some(loop))];
        holder := Begun(p, run);
      } else {
        holder := Failing(p);
      }
    }

    method SaveRound(p: Id, run: Id, saved: bool)
      requires Inv(View()) && holder == Begun(p, run)
      modifies this
      ensures View() == OnSaveRun(old(View()), saved) && Inv(View())
      ensures holder == if saved then Free else Failing(p)
      ensures saved ==> run in active && p in started && run in started[p]
    {
      ghost var s := View();
      SaveRunKeeps(s, saved);
      if saved {
        runs := runs[run := RunRecord(home[p], Live)];
        active := active + {run};
        started := started[p := started[p] + {run}];
        holder := Free;
        assert View() == WithRun(s, p, run);
      } else {
        holder := Failing(p);
        assert View() == s.(holder := Failing(p));
      }
    }

    method PauseUnsent(p: Id, paused: bool)
      requires Inv(View()) && holder == Failing(p)
      modifies this
      ensures View() == OnPauseFailed(old(View()), paused) && Inv(View()) && holder.Free?
      ensures paused ==> p in plans && !LoopActive(plans[p])
    {
      PauseFailedKeeps(View(), paused);
      assert Counted(View(), p);
      FailedLoop(plans[p]);
      if paused {
        plans := plans[p := Failed(plans[p])];
      } else {
        orphaned := orphaned + {p};
      }
      holder := Free;
    }

    /** Counts a round, saves its run and starts it; when anything fails the loop is paused. */
    method StartPlanLoopRound(p: Id, run: Id, ok: bool, saved: bool, paused: bool) returns (sent: bool)
      requires Inv(View()) && holder == Starting(p) && Fresh(View(), run)
      modifies this
      ensures View() == Play(old(View()), [Begin(run, ok), SaveRun(saved), PauseFailed(paused)])
      ensures Inv(View()) && holder.Free?
      ensures sent <==> ok && saved && Idle(old(View()), home[p])
      ensures sent ==> run in active && p in started && run in started[p]
      ensures !sent && paused ==> p in plans && !LoopActive(plans[p])
    {
      ghost var s := View();
      PlayThree(s, Begin(run, ok), SaveRun(saved), PauseFailed(paused));
      var counted := CountRound(p, run, ok);
      sent := counted && saved;
      if counted {
        SaveRound(p, run, saved);
      } else {
        NotBegun(View(), saved);
      }
      if sent {
        NotFailing(View(), paused);
      } else {
        PauseUnsent(p, paused);
      }
    }

    method StoreRoundEnd(run: Id, p: Id, stored: bool) returns (more: bool)
      requires Inv(View()) && holder.Free? && run in leaving && Drives(View(), run, p)
      modifies this
      ensures View() == OnAdvance(old(View()), run, p, stored) && Inv(View())
      ensures holder == if more then Starting(p) else Free
      ensures forall r :: Fresh(old(View()), r) ==> Fresh(View(), r)
    {
      AdvanceKeeps(View(), run, p, stored);
      assert Counted(View(), p);
      AfterRoundKeeps(plans[p], runs[run].status);
      leaving := leaving - {run};
      more := false;
      if !stored {
        orphaned := orphaned + {p};
      } else {
        var after := AfterRound(plans[p], runs[run].status);
        more := after.1;
        plans := plans[p := after.0];
        holder := if more then Starting(p) else Free;
      }
    }

    /** After the executor of a run has left: its loop, if it is still in that round, is paused, stopped or goes on. */
    method AdvancePlanLoop(run: Id, next: Id, stored: bool, ok: bool, saved: bool, paused: bool)
        returns (found: bool, p: Id)
      requires Inv(View()) && holder.Free? && run in leaving && Fresh(View(), next)
      modifies this
      ensures found ==> Drives(old(View()), run, p)
      ensures found ==>
          View() == Play(OnAdvance(old(View()), run, p, stored), [Begin(next, ok), SaveRun(saved), PauseFailed(paused)])
      ensures !found ==> View() == old(View()).(leaving := old(leaving) - {run})
      ensures !found ==> forall q :: q in plans ==> !Drives(old(View()), run, q)
      ensures Inv(View()) && holder.Free?
    {
      found, p := PlanForLoopRun(run);
      if !found {
        AdvanceNoneKeeps(View(), run);
        leaving := leaving - {run};
        return;
      }
      var more := StoreRoundEnd(run, p, stored);
      if more {
        var sent := StartPlanLoopRound(p, next, ok, saved, paused);
      } else {
        PlayNothing(View(), Begin(next, ok), SaveRun(saved), PauseFailed(paused));
      }
    }

    /** Marks every live run of a session as canceled. */
    method CancelSessionRuns(session: Id) returns (ghost actions: seq<Action>)
      requires holder == Canceling(session) && active <= runs.Keys
      modifies this
      ensures View() == Play(old(View()), actions + [CancelDone])
      ensures holder.Free? && plans == old(plans) && active == old(active) && runs.Keys == old(runs.Keys)
      ensures forall r :: r in active ==> runs[r] != RunRecord(session, Live)
    {
      ghost var s0 := View();
      actions := [];
      var rest := active;
      while rest != {}
        invariant rest <= active && active == old(active) && active <= runs.Keys && runs.Keys == old(runs.Keys)
        invariant View() == Play(s0, actions) && holder == Canceling(session) && plans == old(plans)
        invariant forall r :: r in active - rest ==> runs[r] != RunRecord(session, Live)
        decreases rest
      {
        var r := Pick(rest);
        rest := rest - {r};
        PlayMore(s0, actions, CancelOne(r));
        if runs[r] == RunRecord(session, Live) {
          runs := runs[r := RunRecord(session, Ended)];
        }
        actions := actions + [CancelOne(r)];
      }
      PlayMore(s0, actions, CancelDone);
      holder := Free;
    }
  }

  lemma {:induction false} PlayThree(s: State, a: Action, b: Action, c: Action)
    ensures Play(s, [a, b, c]) == Next(Next(Next(s, a), b), c)
  {
    assert [a, b, c][1..] == [b, c] && [b, c][1..] == [c] && [c][1..] == [];
    assert Play(s, [a, b, c]) == Play(Next(s, a), [b, c]);
    assert Play(Next(s, a), [b, c]) == Play(Next(Next(s, a), b), [c]);
    assert Play(Next(Next(s, a), b), [c]) == Play(Next(Next(Next(s, a), b), c), []);
  }

  lemma NotBegun(s: State, saved: bool)
    requires !s.holder.Begun?
    ensures OnSaveRun(s, saved) == s
  {
  }

  lemma NotFailing(s: State, paused: bool)
    requires !s.holder.Failing?
    ensures OnPauseFailed(s, paused) == s
  {
  }

  /** When nobody is starting a round these steps do nothing. */
  lemma {:induction false} PlayNothing(s: State, a: Action, b: Action, c: Action)
    requires s.holder.Free? && a.Begin? && b.SaveRun? && c.PauseFailed?
    ensures Play(s, [a, b, c]) == s
  {
    PlayThree(s, a, b, c);
  }

  lemma {:induction false} PlayMore(s: State, actions: seq<Action>, a: Action)
    ensures Play(s, actions + [a]) == Next(Play(s, actions), a)
    decreases |actions|
  {
    if actions == [] {
      assert [] + [a] == [a] && [a][1..] == [];
      assert Play(s, [a]) == Play(Next(s, a), []);
    } else {
      PlayMore(Next(s, actions[0]), actions[1..], a);
      assert (actions + [a])[1..] == actions[1..] + [a] && (actions + [a])[0] == actions[0];
    }
  }
}
