/**
 The rounds of a plan loop (src/domain/plan_loop.go) and the service that drives them
 (src/application/plan_loop.go): a budget of rounds that no interrupt, failed start, failed run or
 restart can stretch.
 */
module PlanLoop {
  import opened Basics
  import opened Plans
  import opened Text

  type Id = int

  const BLANK: Id := 0

  const DEFAULT_ROUNDS := 3
  const MAX_ROUNDS := 20
  const IDLE_LIMIT := 2
  const MAX_NOTE := 4000

  // ---- One loop ----

  datatype LoopStatus = Running | Paused | Stopped

  datatype Reason = NoReason | ByAgent | ByUser | MaxRounds | NoProgress | RunFailed | AllCompleted | Incomplete

  datatype Checkpoint = Checkpoint(round: nat, stepId: string, note: string)

  datatype Loop = Loop(
    round: nat,
    maxRounds: nat,
    status: LoopStatus,
    stoppedBy: Reason,
    idleRounds: nat,
    roundRunId: Id,
    fingerprint: string,
    checkpoint: Option<Checkpoint>)

  datatype LoopPlan = LoopPlan(plan: PlanValue, loop: Option<Loop>)

  predicate LoopActive(p: LoopPlan) {
    p.loop.Some? && p.loop.value.status.Running?
  }

  function StartLoop(p: LoopPlan, rounds: int): Result<LoopPlan> {
    if Check(p.plan).Some? then Err(Check(p.plan).value)
    else if !p.plan.status.Active? || LoopActive(p) then Err(Conflict)
    else if MAX_ROUNDS < rounds then Err(InvalidInput)
    else Ok(p.(loop := Some(Loop(0, if rounds <= 0 then DEFAULT_ROUNDS
        else rounds, Running, NoReason, 0, BLANK, "", None))))
  }

  /** A round is counted before it runs. */
  function BeginRound(p: LoopPlan): Result<LoopPlan> {
    if !LoopActive(p) || p.loop.value.maxRounds <= p.loop.value.round then Err(Conflict)
    else Ok(p.(loop := Some(p.loop.value.(round := p.loop.value.round
        + 1, fingerprint := Fingerprint(p.plan.steps), roundRunId := BLANK))))
  }

  function Shortened(note: string): string {
    if MAX_NOTE < |note| then note[..MAX_NOTE] else note
  }

  function InterruptLoop(p: LoopPlan, from: Reason, reason: string, note: string): Result<LoopPlan> {
    if p.loop.None? then Err(NotFound)
    else if !p.loop.value.status.Running? then Err(Conflict)
    else if Blank(reason) || (from.ByAgent? && Blank(note)) then Err(InvalidInput)
    else
      var checkpoint := Checkpoint(p.loop.value.round, p.plan.currentStepId, Shortened(Trim(note)));
      Ok(p.(loop := Some(p.loop.value.(status := Paused, stoppedBy := from, checkpoint := Some(checkpoint)))))
  }

  function ResumeLoop(p: LoopPlan): Result<LoopPlan> {
    if p.loop.None? then Err(NotFound)
    else if !p.loop.value.status.Paused? || !p.plan.status.Active?
        || p.loop.value.maxRounds <= p.loop.value.round then Err(Conflict)
    else Ok(p.(loop := Some(p.loop.value.(status := Running, stoppedBy := NoReason))))
  }

  function StopLoop(p: LoopPlan, from: Reason): Result<LoopPlan> {
    if p.loop.None? then Err(NotFound)
    else if p.loop.value.status.Stopped? then Ok(p)
    else Ok(p.(loop := Some(p.loop.value.(status := Stopped, stoppedBy := from, checkpoint := None))))
  }

  function Stopping(p: LoopPlan, from: Reason): LoopPlan {
    if StopLoop(p, from).Ok? then StopLoop(p, from).value else p
  }

  /** The plan after a round, and whether another round follows. */
  function Evaluate(p: LoopPlan, progressed: bool): (LoopPlan, bool) {
    if !LoopActive(p) then (p, false)
    else
      var loop := p.loop.value;
      var counted := p.(loop := Some(loop.(idleRounds := if progressed then 0 else loop.idleRounds + 1)));
      if IsTerminal(p.plan) then (Stopping(counted, if p.plan.status.Completed? then AllCompleted else Incomplete),
          false)
      else if IDLE_LIMIT <= counted.loop.value.idleRounds then (Stopping(counted, NoProgress), false)
      else if loop.maxRounds <= loop.round then (Stopping(counted, MaxRounds), false)
      else (counted, true)
  }

  /** The budget of a loop, and what a running loop has not yet done. */
  predicate LoopOk(p: LoopPlan) {
    p.loop.Some? ==>
      var loop := p.loop.value;
      && 1 <= loop.maxRounds <= MAX_ROUNDS && loop.round <= loop.maxRounds
      && (!loop.status.Stopped? ==> loop.idleRounds < IDLE_LIMIT)
      && (loop.checkpoint.Some? ==>
          |loop.checkpoint.value.note| <= MAX_NOTE && loop.checkpoint.value.round <= loop.round)
  }

  /** How many rounds are left to begin. */
  function RoundsLeft(p: LoopPlan): nat
    requires LoopOk(p)
  {
    if p.loop.None? then 0 else p.loop.value.maxRounds - p.loop.value.round
  }

  /** What an operation leaves of a loop: its budget and its round run. */
  predicate SameBudget(p: LoopPlan, q: LoopPlan) {
    && p.plan == q.plan && p.loop.Some? && q.loop.Some? && q.loop.value.round == p.loop.value.round
    && q.loop.value.maxRounds == p.loop.value.maxRounds && q.loop.value.roundRunId == p.loop.value.roundRunId
  }

  /** A start refills the budget and forgets the round run. */
  lemma StartedLoop(p: LoopPlan, rounds: int)
    ensures StartLoop(p, rounds).Ok?
        <==> Check(p.plan).None? && p.plan.status.Active? && !LoopActive(p) && rounds <= MAX_ROUNDS
    ensures StartLoop(p, rounds).Ok? ==>
            var q := StartLoop(p, rounds).value;
            && q.loop.value.idleRounds == 0 && q.loop.value.checkpoint.None?
            && LoopOk(q) && LoopActive(q) && !LoopActive(p) && q.plan == p.plan && q.loop.value.round == 0
            && q.loop.value.roundRunId == BLANK && RoundsLeft(q) == (if rounds <= 0 then DEFAULT_ROUNDS else rounds)
  {
  }

  /** A round takes one from the budget. */
  lemma BegunRound(p: LoopPlan)
    requires LoopOk(p)
    ensures BeginRound(p).Ok? <==> LoopActive(p) && 0 < RoundsLeft(p)
    ensures BeginRound(p).Ok? ==>
              var q := BeginRound(p).value;
              && LoopOk(q) && LoopActive(q) && q.plan == p.plan && RoundsLeft(q) == RoundsLeft(p) - 1
              && q.loop.value.roundRunId == BLANK && q.loop.value.idleRounds == p.loop.value.idleRounds
              && q.loop.value.maxRounds == p.loop.value.maxRounds
                  && q.loop.value.fingerprint == Fingerprint(p.plan.steps)
  {
  }

  /** A note as a checkpoint keeps it: without white space at its ends, and cut behind so many characters. */
  predicate NoteOf(kept: string, note: string) {
    kept <= Trim(note) && |kept| == if |Trim(note)| <= MAX_NOTE then |Trim(note)| else MAX_NOTE
  }

  /** Interrupting, resuming and stopping take nothing and give nothing back. */
  lemma {:induction false} InterruptedLoop(p: LoopPlan, from: Reason, reason: string, note: string)
    ensures InterruptLoop(p, from, reason, note).Ok?
        <==> LoopActive(p) && !Blank(reason) && (from.ByAgent? ==> !Blank(note))
    ensures LoopOk(p) && LoopActive(p) && InterruptLoop(p, from, reason, note).Ok? ==>
            var q := InterruptLoop(p, from, reason, note).value;
            && LoopOk(q) && q.loop.value.status.Paused? && SameBudget(p, q) && q.loop.value.stoppedBy == from
            && q.loop.value.idleRounds == p.loop.value.idleRounds && q.loop.value.checkpoint.Some?
            && var checkpoint := q.loop.value.checkpoint.value;
              && checkpoint.round == p.loop.value.round && checkpoint.stepId == p.plan.currentStepId
              && NoteOf(checkpoint.note, note)
  {
  }

  lemma ResumedLoop(p: LoopPlan)
    ensures LoopOk(p) ==> (ResumeLoop(p).Ok? <==>
        p.loop.Some? && p.loop.value.status.Paused? && p.plan.status.Active? && 0 < RoundsLeft(p))
    ensures LoopOk(p) && ResumeLoop(p).Ok? ==>
        var q := ResumeLoop(p).value;
        && LoopOk(q) && LoopActive(q) && !LoopActive(p) && SameBudget(p, q) && 0 < RoundsLeft(q)
        && q.loop.value.stoppedBy.NoReason? && q.loop.value.idleRounds == p.loop.value.idleRounds
        && q.loop.value.checkpoint == p.loop.value.checkpoint
  {
  }

  lemma StoppedLoop(p: LoopPlan, from: Reason)
    requires LoopOk(p) && p.loop.Some?
    ensures StopLoop(p, from).Ok? && Stopping(p, from) == StopLoop(p, from).value
    ensures var q := Stopping(p, from); LoopOk(q) && q.loop.value.status.Stopped? && SameBudget(p, q)
    ensures p.loop.value.status.Stopped? ==> Stopping(p, from) == p
    ensures !p.loop.value.status.Stopped? ==>
        Stopping(p, from).loop.value.stoppedBy == from && Stopping(p, from).loop.value.checkpoint.None?
  {
  }

  function StopReason(p: LoopPlan, idle: nat): Reason {
    if p.plan.status.Completed? then AllCompleted
    else if IsTerminal(p.plan) then Incomplete
    else if IDLE_LIMIT <= idle then NoProgress
    else MaxRounds
  }

  /** After a round another follows exactly when the plan is not over, fewer than two rounds in a row were idle and
      the budget is not used up. Otherwise the loop stops, and of several reasons to stop the first of these counts. */
  lemma EvaluatedLoop(p: LoopPlan, progressed: bool)
    requires LoopOk(p) && LoopActive(p)
    ensures var (q, more) := Evaluate(p, progressed);
            var idle := if progressed then 0 else p.loop.value.idleRounds + 1;
            && LoopOk(q) && SameBudget(p, q) && q.loop.value.idleRounds == idle
            && (more <==> !IsTerminal(p.plan) && idle < IDLE_LIMIT && 0 < RoundsLeft(p))
            && (more ==> LoopActive(q))
            && (!more ==> q.loop.value.status.Stopped? && q.loop.value.stoppedBy == StopReason(p, idle))
  {
  }
}
