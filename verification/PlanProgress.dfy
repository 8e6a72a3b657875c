/** Which moves succeed, and that every plan can end (src/domain/plan.go). */
module PlanProgress {
  import opened Basics
  import opened Text
  import opened Plans

  // ---- What a valid plan is ----

  predicate UnderWay(step: Step) {
    step.status == InProgress || step.status == Verifying || step.status == Blocked
  }

  lemma BusyIsUnderWay(step: Step)
    ensures Busy(step) <==> UnderWay(step)
  {
  }

  predicate NoTwoUnderWay(steps: seq<Step>) {
    forall i, j :: 0 <= i < j < |steps| ==> !(UnderWay(steps[i]) && UnderWay(steps[j]))
  }

  lemma {:induction false} NoneBusy(steps: seq<Step>)
    ensures CountBusy(steps) == 0 <==> forall i :: 0 <= i < |steps| ==> !UnderWay(steps[i])
  {
    if steps != [] {
      BusyIsUnderWay(steps[0]);
      NoneBusy(steps[1..]);
      assert forall i :: 0 < i < |steps| ==> steps[i] == steps[1..][i - 1];
    }
  }

  lemma {:induction false} OneBusyExactly(steps: seq<Step>)
    ensures CountBusy(steps) <= 1 <==> NoTwoUnderWay(steps)
  {
    if steps != [] {
      BusyIsUnderWay(steps[0]);
      NoneBusy(steps[1..]);
      OneBusyExactly(steps[1..]);
      assert steps == [steps[0]] + steps[1..];
      assert forall i :: 0 < i < |steps| ==> steps[i] == steps[1..][i - 1];
      assert NoTwoUnderWay(steps) ==> NoTwoUnderWay(steps[1..]);
    }
  }

  predicate WellFilled(step: Step) {
    && !Blank(step.id) && !Blank(step.title) && !Blank(step.verification)
    && (step.status == Done ==> !Blank(step.evidence))
  }

  /** A plan is valid exactly when it is named, has from one to fifty steps, all of them filled in, no id twice, and at
      most one step under way; it conflicts when only the last is missing. */
  lemma CheckExactly(plan: PlanValue)
    ensures var filled := && !Blank(plan.id) && !Blank(plan.sessionId) && !Blank(plan.title)
              && 1 <= |plan.steps| <= 50 && (forall i :: 0 <= i < |plan.steps| ==> WellFilled(plan.steps[i]))
              && forall i, j :: 0 <= i < j < |plan.steps| ==> plan.steps[i].id != plan.steps[j].id;
            Check(plan) == if !filled then Some(InvalidInput) else if NoTwoUnderWay(plan.steps) then None
                else Some(Conflict)
  {
    OneBusyExactly(plan.steps);
    assert forall i :: 0 <= i < |plan.steps| ==> (Complete(plan.steps[i]) <==> WellFilled(plan.steps[i]));
  }

  // ---- Single moves ----

  /** The ways through the life of a step. */
  predicate Leads(from: StepStatus, to: StepStatus) {
    || (from.Pending? && (to.InProgress? || to.Skipped?))
    || (from.Blocked? && to.InProgress?)
    || (from.InProgress? && (to.Verifying? || to.Blocked?))
    || (from.Verifying? && (to.Done? || to.Blocked?))
  }

  /** Proofs that were observed since the verification began. */
  predicate Proves(proofs: seq<Evidence>, since: Option<int>) {
    && proofs != [] && since.Some?
    && forall proof :: proof in proofs ==>
        proof.callId != "" && proof.toolName != "" && |proof.hash| == 64 && since.value <= proof.observedAt
  }

  predicate Justified(step: Step, input: Update) {
    && (input.status.Done? || input.status.Blocked? || input.status.Skipped? ==> !Blank(input.evidence))
    && (input.status.Done? ==> Proves(input.verified, step.verificationStartedAt))
  }

  /** The move succeeds exactly when the step may go there from where it is and the move is justified. */
  lemma MovedExactly(step: Step, input: Update, now: int)
    ensures Moved(step, input, now).Ok? <==> Leads(step.status, input.status) && Justified(step, input)
    ensures Moved(step, input, now).Err? ==>
        Moved(step, input, now).error == if Leads(step.status, input.status) || input.status.Pending?
            then InvalidInput else Conflict
  {
    TrimTwice(input.evidence);
    if input.status.Done? && Leads(step.status, Done) && step.verificationStartedAt.Some? {
      assert forall proof :: proof in input.verified ==> (Sound(proof, step.verificationStartedAt.value) <==>
          proof.callId != "" && proof.toolName != "" && |proof.hash| == 64
          && step.verificationStartedAt.value <= proof.observedAt);
    }
  }

  /** Nothing of an earlier attempt is left. */
  predicate Untried(step: Step) {
    step.evidence == "" && step.verified == [] && step.verificationStartedAt.None? && step.completedAt.None?
  }

  /** What a move leaves of a step: what it is about stays, its first start stays, and its evidence is what was given
      for the status it has. */
  lemma MovedTo(step: Step, input: Update, now: int)
    requires Moved(step, input, now).Ok?
    ensures var after := Moved(step, input, now).value;
      && after.status == input.status && after.id == step.id && after.title == step.title
      && after.description == step.description && after.verification == step.verification
      && (step.startedAt.Some? ==> after.startedAt == step.startedAt)
      && (input.status.InProgress? ==> Untried(after) && after.startedAt.Some?)
      && (input.status.Verifying? ==> after.verificationStartedAt == Some(now) && after.evidence == step.evidence)
      && (input.status.Done? || input.status.Blocked? || input.status.Skipped? ==>
          after.evidence == Trim(input.evidence))
      && (input.status.Done? ==> after.verified == input.verified)
      && (input.status.Done? || input.status.Skipped? ==> after.completedAt == Some(now))
  {
  }

  // ---- Moving the first unfinished step ----

  /** Ids as they are drawn, without white space at their ends. */
  predicate DrawnIds(plan: PlanValue) {
    forall i :: 0 <= i < |plan.steps| ==> Trim(plan.steps[i].id) == plan.steps[i].id
  }

  predicate Open(plan: PlanValue) {
    Reached(plan) && plan.status.Active? && DrawnIds(plan) && Frontier(plan.steps) < |plan.steps|
  }

  lemma {:induction false} FoundAt(steps: seq<Step>, f: nat)
    requires DistinctIds(steps) && f < |steps|
    ensures IndexOf(steps, steps[f].id) == f
  {
  }

  /** A move that the step allows succeeds on the first unfinished step of an active plan. */
  lemma FrontierMoves(plan: PlanValue, stepId: string, input: Update, now: int)
    requires Open(plan) && Trim(stepId) == plan.steps[Frontier(plan.steps)].id
    ensures var f := Frontier(plan.steps);
      var moved := Moved(plan.steps[f], input, now);
      moved.Ok? ==> Transition(plan, stepId, input, now) == Ok(After(plan, f, moved.value, now))
  {
    FoundAt(plan.steps, Frontier(plan.steps));
  }

  /** Whether a move succeeds: its step is the first unfinished one and goes that way. */
  lemma TransitionExactly(plan: PlanValue, stepId: string, input: Update, now: int)
    requires Open(plan)
    ensures var f := Frontier(plan.steps);
      Transition(plan, stepId, input, now).Ok? <==>
        plan.steps[f].id == Trim(stepId) && Leads(plan.steps[f].status, input.status) && Justified(plan.steps[f], input)
  {
    MovedExactly(plan.steps[Frontier(plan.steps)], input, now);
    if Transition(plan, stepId, input, now).Ok? {
      var f := TransitionAtFrontier(plan, stepId, input, now);
    } else if plan.steps[Frontier(plan.steps)].id == Trim(stepId) {
      FrontierMoves(plan, stepId, input, now);
    }
  }

  /** Only valid, active plans move; a move keeps what the plan is and notes its time. */
  lemma TransitionNeeds(plan: PlanValue, stepId: string, input: Update, now: int)
    ensures Check(plan).Some? ==> Transition(plan, stepId, input, now) == Err(Check(plan).value)
    ensures Check(plan).None? && plan.status != Active ==> Transition(plan, stepId, input, now) == Err(Conflict)
    ensures Transition(plan, stepId, input, now).Ok? ==>
      var after := Transition(plan, stepId, input, now).value;
      && after.id == plan.id && after.sessionId == plan.sessionId && after.title == plan.title
      && after.updatedAt == now && |after.steps| == |plan.steps|
  {
  }

  /** The queue makes a plan that is not over active or queued, and changes nothing else. */
  lemma RequeueExactly(plan: PlanValue, first: bool)
    ensures var over := plan.status == Completed || plan.status == Partial || plan.status == Canceled;
      var after := AfterEvent(plan, Requeue(first));
      && after.status == (if over then plan.status else if first then Active else Queued)
      && after.steps == plan.steps && after.currentStepId == plan.currentStepId
  {
  }

  /** What the status of a plan says: completed when every step is done, partial when every step is done or skipped and
      one was skipped, and otherwise the current step is the first that is neither. */
  lemma StatusSays(plan: PlanValue)
    requires Reached(plan)
    ensures plan.status == Completed <==> forall i :: 0 <= i < |plan.steps| ==> plan.steps[i].status == Done
    ensures plan.status == Partial <==>
      && (forall i :: 0 <= i < |plan.steps| ==> plan.steps[i].status == Done || plan.steps[i].status == Skipped)
      && exists i :: 0 <= i < |plan.steps| && plan.steps[i].status == Skipped
    ensures plan.status == Active || plan.status == Queued ==>
      exists i :: 0 <= i < |plan.steps| && plan.currentStepId == plan.steps[i].id
        && plan.steps[i].status != Done && plan.steps[i].status != Skipped
        && forall j :: 0 <= j < i ==> plan.steps[j].status == Done || plan.steps[j].status == Skipped
  {
    var f := Frontier(plan.steps);
    if f < |plan.steps| {
      assert !Finished(plan.steps[f]) && plan.currentStepId == plan.steps[f].id;
      assert forall j :: 0 <= j < f ==> Finished(plan.steps[j]);
    }
  }

  // ---- Bringing a plan to its end ----

  /** A proof that holds from this moment on. */
  predicate Proof(proof: Evidence, now: int) {
    proof.callId != "" && proof.toolName != "" && |proof.hash| == 64 && now <= proof.observedAt
  }

  function Begin(id: string, now: int): Event {
    Move(id, Update(InProgress, "", []), now)
  }

  function Verify(id: string, now: int): Event {
    Move(id, Update(Verifying, "", []), now)
  }

  function Finish(id: string, evidence: string, proof: Evidence, now: int): Event {
    Move(id, Update(Done, evidence, [proof]), now)
  }

  predicate OnlyStep(plan: PlanValue, next: PlanValue, f: nat) {
    |next.steps| == |plan.steps| && f < |plan.steps| && next.steps == plan.steps[f := next.steps[f]]
  }

  /** A move of the first unfinished step that it allows. */
  lemma OneMove(plan: PlanValue, input: Update, now: int)
    requires Open(plan) && !input.status.Skipped?
    requires var step := plan.steps[Frontier(plan.steps)]; Leads(step.status, input.status) && Justified(step, input)
    ensures var f := Frontier(plan.steps);
      var next := AfterEvent(plan, Move(plan.steps[f].id, input, now));
      && Reached(next) && DrawnIds(next) && OnlyStep(plan, next, f)
      && next.steps[f].status == input.status && next.steps[f].id == plan.steps[f].id
      && (input.status.Verifying? ==> next.steps[f].verificationStartedAt == Some(now))
      && (!input.status.Done? ==> Open(next) && Frontier(next.steps) == f)
      && (input.status.Done? ==> Frontier(next.steps) == f + 1 && (f + 1 < |plan.steps| ==> Open(next)))
  {
    var f := Frontier(plan.steps);
    MovedExactly(plan.steps[f], input, now);
    MovedTo(plan.steps[f], input, now);
    FrontierMoves(plan, plan.steps[f].id, input, now);
    TransitionKeeps(plan, plan.steps[f].id, input, now);
    ReplaceKeepsOrder(plan.steps, f, Moved(plan.steps[f], input, now).value);
  }

  lemma {:induction false} RunOne(plan: PlanValue, event: Event, rest: seq<Event>)
    ensures Run(plan, [event] + rest) == Run(AfterEvent(plan, event), rest)
  {
    assert ([event] + rest)[1..] == rest;
  }

  /** No step that is being verified began with that in the future. */
  predicate Timely(plan: PlanValue, now: int) {
    forall i :: 0 <= i < |plan.steps| && plan.steps[i].status.Verifying? ==>
      plan.steps[i].verificationStartedAt.Some? && plan.steps[i].verificationStartedAt.value <= now
  }

  /** The first unfinished step is done, and nothing else has changed. */
  predicate StepDone(plan: PlanValue, done: PlanValue, f: nat) {
    && Reached(done) && DrawnIds(done) && OnlyStep(plan, done, f) && Frontier(done.steps) == f + 1
    && done.steps[f].status.Done? && (f + 1 < |plan.steps| ==> Open(done))
  }

  lemma StepDoneOn(plan: PlanValue, next: PlanValue, done: PlanValue, f: nat)
    requires OnlyStep(plan, next, f) && StepDone(next, done, f)
    ensures StepDone(plan, done, f)
  {
  }

  lemma VerifyingFinishes(plan: PlanValue, evidence: string, proof: Evidence, now: int) returns (events: seq<Event>)
    requires Open(plan) && !Blank(evidence) && Proof(proof, now)
    requires var step := plan.steps[Frontier(plan.steps)];
        step.status.Verifying? && step.verificationStartedAt.Some? && step.verificationStartedAt.value <= now
    ensures StepDone(plan, Run(plan, events), Frontier(plan.steps))
  {
    var event := Finish(plan.steps[Frontier(plan.steps)].id, evidence, proof, now);
    OneMove(plan, event.input, now);
    events := [event] + [];
    RunOne(plan, event, []);
  }

  lemma InProgressFinishes(plan: PlanValue, evidence: string, proof: Evidence, now: int) returns (events: seq<Event>)
    requires Open(plan) && !Blank(evidence) && Proof(proof, now)
    requires plan.steps[Frontier(plan.steps)].status.InProgress?
    ensures StepDone(plan, Run(plan, events), Frontier(plan.steps))
  {
    var event := Verify(plan.steps[Frontier(plan.steps)].id, now);
    OneMove(plan, event.input, now);
    var next := AfterEvent(plan, event);
    var rest := VerifyingFinishes(next, evidence, proof, now);
    events := [event] + rest;
    RunOne(plan, event, rest);
    StepDoneOn(plan, next, Run(next, rest), Frontier(plan.steps));
  }

  /** What brings a step to its end, from wherever it is. */
  lemma StepFinishes(plan: PlanValue, evidence: string, proof: Evidence, now: int) returns (events: seq<Event>)
    requires Open(plan) && !Blank(evidence) && Proof(proof, now) && Timely(plan, now)
    ensures StepDone(plan, Run(plan, events), Frontier(plan.steps))
  {
    var f := Frontier(plan.steps);
    if plan.steps[f].status.Verifying? {
      events := VerifyingFinishes(plan, evidence, proof, now);
    } else if plan.steps[f].status.InProgress? {
      events := InProgressFinishes(plan, evidence, proof, now);
    } else {
      var event := Begin(plan.steps[f].id, now);
      OneMove(plan, event.input, now);
      var next := AfterEvent(plan, event);
      var rest := InProgressFinishes(next, evidence, proof, now);
      events := [event] + rest;
      RunOne(plan, event, rest);
      StepDoneOn(plan, next, Run(next, rest), f);
    }
  }

  lemma {:induction false} RunBoth(plan: PlanValue, a: seq<Event>, b: seq<Event>)
    ensures Run(plan, a + b) == Run(Run(plan, a), b)
    decreases |a|
  {
    if a == [] {
      assert a + b == b;
    } else {
      RunBoth(AfterEvent(plan, a[0]), a[1..], b);
      RunOne(plan, a[0], a[1..] + b);
      assert a + b == [a[0]] + (a[1..] + b);
    }
  }

  lemma PendingIsTimely(plan: PlanValue, f: nat, now: int)
    requires Reached(plan) && Frontier(plan.steps) == f < |plan.steps| && plan.steps[f].status.Pending?
    ensures Timely(plan, now)
  {
  }

  /** From wherever an active plan is, blocked steps included, there are moves that bring every step to its end: no plan
      is ever stuck. */
  lemma {:induction false} PlanFinishes(plan: PlanValue, evidence: string, proof: Evidence, now: int)
      returns (events: seq<Event>)
    requires Open(plan) && !Blank(evidence) && Proof(proof, now) && Timely(plan, now)
    ensures var done := Run(plan, events); Reached(done) && (done.status.Completed? || done.status.Partial?)
    ensures (forall i :: 0 <= i < |plan.steps| ==> !plan.steps[i].status.Skipped?) ==>
        Run(plan, events).status.Completed?
    decreases |plan.steps| - Frontier(plan.steps)
  {
    var f := Frontier(plan.steps);
    events := StepFinishes(plan, evidence, proof, now);
    var next := Run(plan, events);
    if f + 1 < |plan.steps| {
      PendingIsTimely(next, f + 1, now);
      var rest := PlanFinishes(next, evidence, proof, now);
      RunBoth(plan, events, rest);
      events := events + rest;
    }
  }
}
