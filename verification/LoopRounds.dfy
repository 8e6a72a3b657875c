/** How loops begin, count and end their rounds, and how they start, stop and recover (src/application/plan_loop.go). */
module LoopRounds {
  import opened Basics
  import opened Plans
  import opened PlanLoop
  import opened PlanLoopService
  import Text

  // ---- The plan between two states ----

  /** The moves that a plan has seen. */
  function Moves(actions: seq<Action>, p: Id): seq<Event>
    decreases |actions|
  {
    if actions == [] then []
    else (if actions[0].MoveStep? && actions[0].plan == p then [actions[0].event] else []) + Moves(actions[1..], p)
  }

  lemma PlanAfterAdvance(s: State, run: Id, q: Id, ok: bool, p: Id)
    requires Inv(s) && p in s.plans
    ensures p in OnAdvance(s, run, q, ok).plans && OnAdvance(s, run, q, ok).plans[p].plan == s.plans[p].plan
  {
    assert Counted(s, p);
    if run in s.runs && LoopActive(s.plans[p]) { AfterRoundKeeps(s.plans[p], s.runs[run].status); }
  }

  lemma PlanAfterRounds(s: State, a: Action, p: Id)
    requires Inv(s) && p in s.plans && OfRound(a)
    ensures p in Next(s, a).plans && Next(s, a).plans[p].plan == s.plans[p].plan
  {
    assert Counted(s, p);
    if a.PauseFailed? && LoopActive(s.plans[p]) { FailedLoop(s.plans[p]); }
    if a.Advance? { PlanAfterAdvance(s, a.run, a.plan, a.ok, p); }
    if a.Reconcile? && LoopActive(s.plans[p]) {
      RecoveredLoop(s.plans[p], true);
      RecoveredLoop(s.plans[p], false);
    }
  }

  lemma PlanAfter(s: State, a: Action, p: Id)
    requires Inv(s) && p in s.plans
    ensures p in Next(s, a).plans
    ensures Next(s, a).plans[p].plan
        == if a.MoveStep? && a.plan == p then AfterEvent(s.plans[p].plan, a.event) else s.plans[p].plan
  {
    if OfRound(a) { PlanAfterRounds(s, a, p); }
  }

  /** Whatever the service does, a plan is changed by the moves of its steps and by nothing else. */
  lemma {:induction false} OnlyMoves(s: State, actions: seq<Action>, p: Id)
    requires Inv(s) && p in s.plans
    ensures p in Play(s, actions).plans && Play(s, actions).plans[p].plan == Run(s.plans[p].plan, Moves(actions, p))
    decreases |actions|
  {
    if actions != [] {
      var a := actions[0];
      NextKeeps(s, a);
      PlanAfter(s, a, p);
      OnlyMoves(Next(s, a), actions[1..], p);
      if a.MoveStep? && a.plan == p {
        assert Moves(actions, p) == [a.event] + Moves(actions[1..], p);
        assert ([a.event] + Moves(actions[1..], p))[1..] == Moves(actions[1..], p);
      } else {
        assert Moves(actions, p) == Moves(actions[1..], p);
      }
    }
  }

  // ---- What is known of a round ----

  /** The step books the end of a round of the loop. */
  predicate Books(s: State, a: Action, p: Id) {
    && a.Advance? && a.plan == p && a.ok && s.holder.Free? && a.run in s.leaving && a.run in s.runs
    && Drives(s, a.run, p)
  }

  predicate Unbooked(s: State, actions: seq<Action>, p: Id)
    decreases |actions|
  {
    actions == [] || (!Books(s, actions[0], p) && Unbooked(Next(s, actions[0]), actions[1..], p))
  }

  predicate IdleIs(s: State, p: Id, idle: nat) {
    p in s.plans && s.plans[p].loop.Some? && s.plans[p].loop.value.idleRounds == idle
  }

  /** As long as the loop is in the round of this run, what was stored at its beginning is there. */
  predicate InRound(s: State, p: Id, run: Id, mark: string) {
    p in s.plans && s.plans[p].loop.Some?
        && (s.plans[p].loop.value.roundRunId == run ==> s.plans[p].loop.value.fingerprint == mark)
  }

  lemma IdleAfterFailure(s: State, ok: bool, p: Id, idle: nat)
    requires Inv(s) && IdleIs(s, p, idle)
    ensures IdleIs(OnPauseFailed(s, ok), p, idle)
  {
    assert Counted(s, p);
    if LoopActive(s.plans[p]) { FailedLoop(s.plans[p]); }
  }

  lemma IdleAfterRecovery(s: State, q: Id, p: Id, idle: nat)
    requires Inv(s) && IdleIs(s, p, idle)
    ensures IdleIs(OnReconcile(s, q), p, idle)
  {
    assert Counted(s, p);
    if q == p && LoopActive(s.plans[p]) {
      RecoveredIdle(s.plans[p], Over(s, p));
      if Idle(s, s.home[p]) && s.holder.Free? { ReconciledPlan(s, p); } else { NotReconciled(s, p); }
    }
  }

  lemma RecoveredIdle(p: LoopPlan, over: bool)
    requires LoopOk(p) && LoopActive(p)
    ensures Recovered(p, over).loop.Some? && Recovered(p, over).loop.value.idleRounds == p.loop.value.idleRounds
  {
  }

  lemma IdleAfterRounds(s: State, a: Action, p: Id, idle: nat)
    requires Inv(s) && IdleIs(s, p, idle) && !Books(s, a, p) && OfRound(a)
    ensures IdleIs(Next(s, a), p, idle)
  {
    if a.PauseFailed? { IdleAfterFailure(s, a.ok, p, idle); }
    if a.Reconcile? { IdleAfterRecovery(s, a.plan, p, idle); }
  }

  /** Only the end of a round and a new start change the count of idle rounds. */
  lemma IdleAfter(s: State, a: Action, p: Id, idle: nat)
    requires Inv(s) && IdleIs(s, p, idle) && !Books(s, a, p) && !Restarts(a, p)
    ensures IdleIs(Next(s, a), p, idle)
  {
    if OfRound(a) { IdleAfterRounds(s, a, p, idle); }
  }

  lemma {:induction false} IdleStays(s: State, actions: seq<Action>, p: Id, idle: nat)
    requires Inv(s) && IdleIs(s, p, idle) && Unbooked(s, actions, p)
    requires forall a :: a in actions ==> !Restarts(a, p)
    ensures IdleIs(Play(s, actions), p, idle)
    decreases |actions|
  {
    if actions != [] {
      NextKeeps(s, actions[0]);
      IdleAfter(s, actions[0], p, idle);
      IdleStays(Next(s, actions[0]), actions[1..], p, idle);
    }
  }

  predicate BeginsAgain(a: Action, run: Id, p: Id) {
    Restarts(a, p) || (a.Begin? && a.run == run)
  }

  lemma InRoundAfterRounds(s: State, a: Action, p: Id, run: Id, mark: string)
    requires Inv(s) && InRound(s, p, run, mark) && !Books(s, a, p) && !BeginsAgain(a, run, p) && OfRound(a)
    ensures InRound(Next(s, a), p, run, mark)
  {
  }

  lemma InRoundAfter(s: State, a: Action, p: Id, run: Id, mark: string)
    requires Inv(s) && InRound(s, p, run, mark) && !Books(s, a, p) && !BeginsAgain(a, run, p)
    ensures InRound(Next(s, a), p, run, mark)
  {
    if OfRound(a) { InRoundAfterRounds(s, a, p, run, mark); }
  }

  lemma {:induction false} InRoundStays(s: State, actions: seq<Action>, p: Id, run: Id, mark: string)
    requires Inv(s) && InRound(s, p, run, mark) && Unbooked(s, actions, p)
    requires forall a :: a in actions ==> !BeginsAgain(a, run, p)
    ensures InRound(Play(s, actions), p, run, mark)
    decreases |actions|
  {
    if actions != [] {
      NextKeeps(s, actions[0]);
      InRoundAfter(s, actions[0], p, run, mark);
      InRoundStays(Next(s, actions[0]), actions[1..], p, run, mark);
    }
  }

  // ---- Whole rounds ----

  /** A round: its run, and what happens between its beginning and its end. */
  datatype Round = Round(run: Id, actions: seq<Action>)

  function BegunState(s: State, round: Round): State {
    Next(s, Begin(round.run, true))
  }

  /** The state in which the end of the round is booked. */
  function LastState(s: State, round: Round): State {
    Play(BegunState(s, round), round.actions)
  }

  function BookedState(s: State, round: Round, p: Id): State {
    Next(LastState(s, round), Advance(round.run, p, true))
  }

  /** The round begins here, its run is drawn once, and its executor comes to book its end. */
  predicate IsRound(s: State, round: Round, p: Id) {
    && p in s.plans && s.holder == Starting(p) && BegunState(s, round).holder == Begun(p, round.run)
    && Unbooked(BegunState(s, round), round.actions, p)
    && (forall a :: a in round.actions ==> !BeginsAgain(a, round.run, p))
    && Books(LastState(s, round), Advance(round.run, p, true), p)
  }

  /** A round from its first to its last plan, and what is booked. Without a completed run the loop is paused. Otherwise
      the round was idle exactly when every step has the status and the evidence it had. */
  predicate Booked(first: LoopPlan, last: LoopPlan, status: RunStatus, booked: LoopPlan, more: bool) {
    && first.loop.Some? && last.loop.Some? && booked.loop.Some? && booked.plan == last.plan
    && var loop := booked.loop.value;
    if status.Succeeded? then
      && loop.idleRounds == (if SameProgress(first.plan.steps, last.plan.steps) then first.loop.value.idleRounds + 1
          else 0)
      && (more <==> !IsTerminal(last.plan) && loop.idleRounds < 2 && loop.round < loop.maxRounds)
      && (more ==> loop.status.Running?) && (!more ==> loop.status.Stopped?)
      && (loop.stoppedBy.AllCompleted? && !more <==> last.plan.status.Completed?)
      && (loop.stoppedBy.Incomplete? && !more <==> last.plan.status.Partial? || last.plan.status.Canceled?)
      && (loop.stoppedBy.NoProgress? && !more <==> !IsTerminal(last.plan) && 2 <= loop.idleRounds)
      && (loop.stoppedBy.MaxRounds? && !more
          <==> !IsTerminal(last.plan) && loop.idleRounds < 2 && loop.maxRounds <= loop.round)
    else
      loop.status.Paused? && loop.stoppedBy.RunFailed? && loop.idleRounds == first.loop.value.idleRounds && !more
  }

  /** What AfterRound does to a loop in the round that was begun at another stage of its plan. */
  lemma {:induction false} AfterRoundExactly(first: LoopPlan, events: seq<Event>, last: LoopPlan, status: RunStatus)
    requires Reached(first.plan) && first.loop.Some? && LoopOk(last) && LoopActive(last)
    requires last.plan == Run(first.plan, events)
    requires last.loop.value.fingerprint == Fingerprint(first.plan.steps)
    requires last.loop.value.idleRounds == first.loop.value.idleRounds
    ensures var (booked, more) := AfterRound(last, status); Booked(first, last, status, booked, more)
  {
    FingerprintExact(first.plan, events);
    if status.Succeeded? {
      EvaluatedLoop(last, Fingerprint(last.plan.steps) != last.loop.value.fingerprint);
    } else {
      FailedLoop(last);
    }
  }

  lemma RoundBegun(s: State, round: Round, p: Id)
    requires Inv(s) && p in s.plans && s.holder == Starting(p)
    requires BegunState(s, round).holder == Begun(p, round.run)
    ensures var t := BegunState(s, round);
            && Inv(t) && p in t.plans && t.plans[p].plan == s.plans[p].plan && s.plans[p].loop.Some?
            && InRound(t, p, round.run, Fingerprint(s.plans[p].plan.steps))
            && IdleIs(t, p, s.plans[p].loop.value.idleRounds)
  {
    BeginKeeps(s, round.run, true);
    assert Counted(s, p);
    BegunRound(s.plans[p]);
  }

  /** The service books every round as what it was, whatever happens between its beginning and its end. */
  lemma RoundExactly(s: State, round: Round, p: Id)
    requires Inv(s) && IsRound(s, round, p) && Reached(s.plans[p].plan)
    ensures var t, u := LastState(s, round), BookedState(s, round, p);
            && p in t.plans && p in u.plans && round.run in t.runs
            && Booked(s.plans[p], t.plans[p], t.runs[round.run].status, u.plans[p], u.holder == Starting(p))
  {
    var b, t := BegunState(s, round), LastState(s, round);
    var idle := s.plans[p].loop.value.idleRounds;
    RoundBegun(s, round, p);
    PlayKeeps(b, round.actions);
    OnlyMoves(b, round.actions, p);
    InRoundStays(b, round.actions, p, round.run, Fingerprint(s.plans[p].plan.steps));
    IdleStays(b, round.actions, p, idle);
    assert Counted(t, p);
    AfterRoundExactly(s.plans[p], Moves(round.actions, p), t.plans[p], t.runs[round.run].status);
  }

  /** The round completed and no step was moved on. */
  predicate WasIdle(s: State, round: Round, p: Id) {
    && p in s.plans && p in LastState(s, round).plans && round.run in LastState(s, round).runs
    && LastState(s, round).runs[round.run].status.Succeeded?
    && SameProgress(s.plans[p].plan.steps, LastState(s, round).plans[p].plan.steps)
  }

  predicate IdleStopped(s: State, p: Id) {
    && p in s.plans && s.plans[p].loop.Some? && s.plans[p].loop.value.status.Stopped? && s.holder.Free?
    && (s.plans[p].loop.value.stoppedBy.NoProgress? <==> !IsTerminal(s.plans[p].plan))
  }

  lemma BookedSound(s: State, round: Round, p: Id)
    requires Inv(s) && IsRound(s, round, p) && Reached(s.plans[p].plan)
    ensures var u := BookedState(s, round, p); Inv(u) && p in u.plans && Reached(u.plans[p].plan)
  {
    var b, t := BegunState(s, round), LastState(s, round);
    RoundBegun(s, round, p);
    PlayKeeps(b, round.actions);
    OnlyMoves(b, round.actions, p);
    RunKeeps(b.plans[p].plan, Moves(round.actions, p));
    NextKeeps(t, Advance(round.run, p, true));
    PlanAfter(t, Advance(round.run, p, true), p);
  }

  lemma FirstIdle(s: State, round: Round, p: Id)
    requires Inv(s) && IsRound(s, round, p) && Reached(s.plans[p].plan) && WasIdle(s, round, p)
    ensures s.plans[p].loop.Some? && IdleIs(BookedState(s, round, p), p, s.plans[p].loop.value.idleRounds + 1)
  {
    RoundExactly(s, round, p);
  }

  lemma {:induction false} Between(s: State, actions: seq<Action>, p: Id, idle: nat)
    requires Inv(s) && IdleIs(s, p, idle) && Reached(s.plans[p].plan)
    requires Unbooked(s, actions, p) && forall a :: a in actions ==> !Restarts(a, p)
    ensures var m := Play(s, actions); Inv(m) && IdleIs(m, p, idle) && Reached(m.plans[p].plan)
  {
    IdleStays(s, actions, p, idle);
    PlayKeeps(s, actions);
    OnlyMoves(s, actions, p);
    RunKeeps(s.plans[p].plan, Moves(actions, p));
  }

  /** A round behind an idle one. */
  lemma SecondRound(s: State, round: Round, p: Id, idle: nat)
    requires Inv(s) && IsRound(s, round, p) && Reached(s.plans[p].plan) && IdleIs(s, p, idle) && 1 <= idle
    ensures round.run in LastState(s, round).runs
    ensures WasIdle(s, round, p) ==> IdleStopped(BookedState(s, round, p), p)
    ensures !WasIdle(s, round, p) && LastState(s, round).runs[round.run].status.Succeeded? ==>
        IdleIs(BookedState(s, round, p), p, 0)
  {
    RoundExactly(s, round, p);
  }

  /** Two idle rounds in a row stop the loop, however it is interrupted and resumed between them; a round with progress
      is not stopped for want of it, and the count begins again. */
  lemma {:induction false} TwoIdleRounds(s: State, first: Round, between: seq<Action>, second: Round, p: Id)
    requires Inv(s) && IsRound(s, first, p) && Reached(s.plans[p].plan) && WasIdle(s, first, p)
    requires Unbooked(BookedState(s, first, p), between, p) && forall a :: a in between ==> !Restarts(a, p)
    requires IsRound(Play(BookedState(s, first, p), between), second, p)
    ensures var m := Play(BookedState(s, first, p), between);
            && second.run in LastState(m, second).runs
            && (WasIdle(m, second, p) ==> IdleStopped(BookedState(m, second, p), p))
            && (!WasIdle(m, second, p) && LastState(m, second).runs[second.run].status.Succeeded? ==>
                IdleIs(BookedState(m, second, p), p, 0))
  {
    var b := BookedState(s, first, p);
    FirstIdle(s, first, p);
    BookedSound(s, first, p);
    var idle := s.plans[p].loop.value.idleRounds + 1;
    Between(b, between, p, idle);
    SecondRound(Play(b, between), second, p, idle);
  }

  // ---- Starting, resuming, stopping and recovering ----

  /** The loop of the plan is in this round, which has this run. */
  predicate Sent(s: State, p: Id, run: Id, round: nat, rounds: nat) {
    && p in s.plans && LoopActive(s.plans[p]) && s.holder.Free?
    && s.plans[p].loop.value.round == round && s.plans[p].loop.value.maxRounds == rounds
    && s.plans[p].loop.value.roundRunId == run
    && run in s.active && run in s.runs && s.runs[run].status.Live? && p in s.started && run in s.started[p]
    && p in s.home && s.runs[run].session == s.home[p] && p !in s.orphaned
  }

  function SentState(s: State, run: Id): State {
    Next(Next(s, Begin(run, true)), SaveRun(true))
  }

  lemma RoundSent(s: State, run: Id, p: Id)
    requires Inv(s) && s.holder == Starting(p) && Idle(s, s.home[p]) && Fresh(s, run) && p !in s.orphaned
    ensures p in s.plans && s.plans[p].loop.Some?
    ensures Sent(SentState(s, run), p, run, s.plans[p].loop.value.round + 1, s.plans[p].loop.value.maxRounds)
  {
    assert Counted(s, p);
    BegunRound(s.plans[p]);
    var b := Next(s, Begin(run, true));
    assert b.holder == Begun(p, run) && p in b.started && p in b.home;
    assert Next(b, SaveRun(true)) == WithRun(b, p, run);
  }

  /** A round that cannot be begun, or whose run cannot be saved, pauses its loop; if that cannot be stored either, the
      loop is left without a driver. */
  lemma UnsentPauses(s: State, run: Id, p: Id, failed: State)
    requires Inv(s) && s.holder == Starting(p) && Fresh(s, run)
    requires failed == Next(s, Begin(run, false)) || failed == Next(Next(s, Begin(run, true)), SaveRun(false))
    ensures p in Next(failed, PauseFailed(true)).plans && Next(failed, PauseFailed(true)).plans[p].loop.Some?
    ensures Next(failed, PauseFailed(true)).plans[p].loop.value.status.Paused?
    ensures Next(failed, PauseFailed(true)).plans[p].loop.value.stoppedBy.RunFailed?
    ensures Next(failed, PauseFailed(true)).holder.Free? && run !in Next(failed, PauseFailed(true)).runs
    ensures Next(failed, PauseFailed(false)) == failed.(holder := Free, orphaned := failed.orphaned + {p})
  {
    FailsToSend(s, run, p);
    assert Counted(failed, p);
    FailedLoop(failed.plans[p]);
  }

  predicate Unsent(s: State, run: Id, p: Id) {
    s.holder == Failing(p) && p in s.plans && LoopActive(s.plans[p]) && run !in s.runs
  }

  lemma FailsToSend(s: State, run: Id, p: Id)
    requires Inv(s) && s.holder == Starting(p) && Fresh(s, run)
    ensures var t := Next(s, Begin(run, false)); Inv(t) && Unsent(t, run, p)
    ensures var t := Next(Next(s, Begin(run, true)), SaveRun(false)); Inv(t) && Unsent(t, run, p)
  {
    BeginKeeps(s, run, false);
    BeginKeeps(s, run, true);
    SaveRunKeeps(Next(s, Begin(run, true)), false);
    assert Counted(s, p);
    BegunRound(s.plans[p]);
  }

  predicate MayStart(s: State, p: Id, rounds: int) {
    && s.holder.Free? && p in s.plans && p in s.home && Idle(s, s.home[p]) && Check(s.plans[p].plan).None?
    && s.plans[p].plan.status.Active? && !LoopActive(s.plans[p]) && rounds <= 20
  }

  /** A start that is allowed sends the first round of so many, or of three; any other start changes nothing. */
  lemma StartExactly(s: State, p: Id, rounds: int, run: Id)
    requires Inv(s) && Fresh(s, run)
    ensures !MayStart(s, p, rounds) ==> Next(s, Start(p, rounds)) == s
    ensures MayStart(s, p, rounds) ==>
        Sent(SentState(Next(s, Start(p, rounds)), run), p, run, 1, if rounds <= 0 then 3 else rounds)
  {
    if p in s.plans { StartedLoop(s.plans[p], rounds); }
    if MayStart(s, p, rounds) {
      StartKeeps(s, p, rounds);
      RoundSent(Next(s, Start(p, rounds)), run, p);
    }
  }

  predicate MayResume(s: State, p: Id) {
    && s.holder.Free? && p in s.plans && p in s.home && Idle(s, s.home[p]) && s.plans[p].plan.status.Active?
    && s.plans[p].loop.Some? && s.plans[p].loop.value.status.Paused?
    && s.plans[p].loop.value.round < s.plans[p].loop.value.maxRounds
  }

  /** A paused loop that has rounds left goes on with the next of them; any other stays as it is. */
  lemma ResumeExactly(s: State, p: Id, run: Id)
    requires Inv(s) && Fresh(s, run)
    ensures !MayResume(s, p) ==> Next(s, Resume(p)) == s
    ensures MayResume(s, p) ==>
        Sent(SentState(Next(s, Resume(p)), run), p, run, s.plans[p].loop.value.round + 1,
            s.plans[p].loop.value.maxRounds)
  {
    if p in s.plans {
      assert Counted(s, p);
      ResumedLoop(s.plans[p]);
    }
    if MayResume(s, p) {
      ResumeKeeps(s, p);
      RoundSent(Next(s, Resume(p)), run, p);
    }
  }

  /** The user's stop ends every loop that is not stopped already, and the runs of the session are canceled next. */
  lemma StopExactly(s: State, p: Id)
    requires Inv(s) && s.holder.Free? && p in s.plans
    ensures var t := Next(s, Stop(p));
            && (s.plans[p].loop.None? ==> t == s)
            && (s.plans[p].loop.Some? ==>
              && p in t.plans && t.plans[p].loop.Some? && t.plans[p].loop.value.status.Stopped?
              && t.holder == Canceling(s.home[p]) && t.plans[p].plan == s.plans[p].plan
              && (if s.plans[p].loop.value.status.Stopped? then t.plans[p] == s.plans[p]
                  else t.plans[p].loop.value.stoppedBy.ByUser?))
  {
    assert Counted(s, p);
    if s.plans[p].loop.Some? { StoppedLoop(s.plans[p], ByUser); }
  }

  /** An interrupt pauses a running loop with its checkpoint, and the runs of the session are canceled next. */
  lemma {:induction false} InterruptExactly(s: State, p: Id, from: Reason, reason: string, note: string)
    requires Inv(s) && s.holder.Free? && p in s.plans
    ensures var t := Next(s, Interrupt(p, from, reason, note));
            if LoopActive(s.plans[p]) && !Text.Blank(reason) && (from.ByAgent? ==> !Text.Blank(note)) then
              && p in t.plans && t.plans[p].loop.Some? && t.plans[p].loop.value.status.Paused?
              && t.plans[p].loop.value.stoppedBy == from && t.plans[p].loop.value.checkpoint.Some?
              && NoteOf(t.plans[p].loop.value.checkpoint.value.note, note) && t.holder == Canceling(s.home[p])
            else t == s
  {
    assert Counted(s, p);
    InterruptedLoop(s.plans[p], from, reason, note);
  }

  /** A loop that nobody drives any more is stopped when its work is over, and paused otherwise. */
  predicate Recovers(before: LoopPlan, over: bool, after: LoopPlan) {
    && after.loop.Some? && after.plan == before.plan
    && if over then
         && after.loop.value.status.Stopped?
         && after.loop.value.stoppedBy == if before.plan.status.Completed? then AllCompleted else Incomplete
       else after.loop.value.status.Paused? && after.loop.value.stoppedBy.RunFailed?
  }

  lemma RecoveredRecovers(p: LoopPlan, over: bool)
    requires LoopOk(p) && LoopActive(p)
    ensures Recovers(p, over, Recovered(p, over))
  {
    RecoveredLoop(p, over);
  }

  /** The run of the current round completed, and the plan is over. */
  predicate Over(s: State, p: Id)
    requires p in s.plans && s.plans[p].loop.Some?
  {
    var run := s.plans[p].loop.value.roundRunId;
    IsTerminal(s.plans[p].plan) && run in s.runs && s.runs[run].status.Succeeded?
  }

  lemma ReconciledPlan(s: State, p: Id)
    requires s.holder.Free? && p in s.plans && p in s.home && LoopActive(s.plans[p]) && Idle(s, s.home[p])
    ensures p in OnReconcile(s, p).plans && OnReconcile(s, p).plans[p] == Recovered(s.plans[p], Over(s, p))
  {
  }

  lemma NotReconciled(s: State, p: Id)
    requires p in s.plans && !(s.holder.Free? && LoopActive(s.plans[p]) && p in s.home && Idle(s, s.home[p]))
    ensures OnReconcile(s, p) == s
  {
  }

  /** The step of the recovery, from a loop and its next state. */
  predicate ReconciledTo(s: State, p: Id, t: State)
    requires p in s.plans && p in s.home
  {
    if LoopActive(s.plans[p]) && Idle(s, s.home[p]) then p in t.plans && Recovers(s.plans[p], Over(s, p), t.plans[p])
    else t == s
  }

  /** Recovery takes care of every running loop of a session without active runs, and of no other. */
  lemma ReconcileExactly(s: State, p: Id, t: State)
    requires Inv(s) && s.holder.Free? && p in s.plans && t == OnReconcile(s, p)
    ensures ReconciledTo(s, p, t)
  {
    if LoopActive(s.plans[p]) && Idle(s, s.home[p]) {
      assert Counted(s, p);
      RecoveredRecovers(s.plans[p], Over(s, p));
      ReconciledPlan(s, p);
    } else {
      NotReconciled(s, p);
    }
  }

  // ---- The end of a round run ----

  /** A round that was sent can be carried out: its run completes and leaves, and then its end is booked. */
  lemma RoundCarriedOut(s: State, run: Id, p: Id, round: nat, rounds: nat, status: RunStatus)
    requires Sent(s, p, run, round, rounds)
    ensures var t := Next(Next(s, Finish(run, status)), Leave(run));
            && Books(t, Advance(run, p, true), p) && t.runs[run].status == status && run !in t.active
            && run !in Next(t, Advance(run, p, true)).leaving
            && run !in Next(t, Advance(run, p, true)).leaving
            && Next(t, Advance(run, p, false)) == t.(leaving := t.leaving - {run}, orphaned := t.orphaned + {p})
  {
  }

  /** An executor whose run drives no loop leaves everything as it is and is gone. */
  lemma NothingToAdvance(s: State, run: Id)
    requires s.holder.Free?
    ensures (forall p :: p in s.plans && LoopActive(s.plans[p]) ==> s.plans[p].loop.value.roundRunId != run) ==>
        Next(s, AdvanceNone(run)) == s.(leaving := s.leaving - {run})
    ensures Next(s, AdvanceNone(run)).plans == s.plans && Next(s, AdvanceNone(run)).holder.Free?
  {
  }

  /** When the user stops the loop its run is ended, and the session is free as soon as the executor has left. */
  lemma StopFrees(s: State, run: Id, p: Id, round: nat, rounds: nat)
    requires Inv(s) && Sent(s, p, run, round, rounds)
    requires forall other :: other in s.active && other in s.runs && other != run ==> s.runs[other].session != s.home[p]
    ensures var t := Next(Next(Next(s, Stop(p)), CancelOne(run)), CancelDone);
            && run in t.runs && t.runs[run].status.Ended? && t.holder.Free?
            && p in Next(t, Leave(run)).plans && !LoopActive(Next(t, Leave(run)).plans[p])
            && Idle(Next(t, Leave(run)), s.home[p])
  {
    StopExactly(s, p);
  }

  /** Only live runs of the session whose loop was stopped are ended. */
  lemma CancelSpares(s: State, run: Id, other: Id)
    requires other in s.runs
    ensures var t := Next(s, CancelOne(run));
            && other in t.runs && t.plans == s.plans && t.active == s.active
            && (t.runs[other] != s.runs[other] ==>
                other == run && s.holder == Canceling(s.runs[other].session) && s.runs[other].status.Live?)
  {
  }

  /** Another run may be started in an idle session, and keeps the loops of the session from starting a round. */
  lemma OtherRunsCount(s: State, run: Id, session: Id)
    requires s.holder.Free? && Fresh(s, run)
    ensures var t := Next(s, OtherRun(run, session));
            !Idle(t, session) && run in t.runs && t.runs[run].status.Live? && t.plans == s.plans
  {
    assert run in OnOtherRun(s, run, session).active;
  }

  /** After a restart no run is live, and recovery leaves no loop running. */
  lemma RestartRecovers(s: State, p: Id)
    requires Inv(s) && p in s.plans
    ensures var t := Next(s, Restart);
            && t.holder.Free? && t.active == {} && t.plans == s.plans && t.runs.Keys == s.runs.Keys
            && (forall r :: r in t.runs ==> t.runs[r].status == if s.runs[r].status.Live? then Ended
                else s.runs[r].status)
            && p in OnReconcile(t, p).plans && !LoopActive(OnReconcile(t, p).plans[p])
  {
    RestartKeeps(s);
    ReconcileExactly(Next(s, Restart), p, OnReconcile(Next(s, Restart), p));
  }
}
