/** The life of plans and their steps (src/domain/plan.go, plan_loop.go). */
module Plans {
  import opened Basics
  import opened Text

  // Times are integers; identifiers that the source draws at random are parameters.

  // ---- Plans ----

  datatype Error = InvalidInput | Conflict | NotFound

  datatype Result<T> = Ok(value: T) | Err(error: Error)

  datatype PlanStatus = Queued | Active | Completed | Partial | Canceled

  datatype StepStatus = Pending | InProgress | Verifying | Done | Blocked | Skipped

  datatype Evidence = Evidence(callId: string, toolName: string, hash: string, observedAt: int)

  datatype Step = Step(
    id: string,
    title: string,
    description: string,
    verification: string,
    status: StepStatus,
    evidence: string,
    startedAt: Option<int>,
    completedAt: Option<int>,
    verificationStartedAt: Option<int>,
    verified: seq<Evidence>)

  /** A plan as a value; the fields that no transition looks at are left out. */
  datatype PlanValue = PlanValue(
    id: string,
    sessionId: string,
    title: string,
    status: PlanStatus,
    currentStepId: string,
    steps: seq<Step>,
    updatedAt: int)

  /** A request to move a step. A request for Pending stands for every status that cannot be asked for. */
  datatype Update = Update(status: StepStatus, evidence: string, verified: seq<Evidence>)

  const MAX_STEPS := 50
  const HASH_LENGTH := 64

  predicate IsTerminal(plan: PlanValue) {
    plan.status.Completed? || plan.status.Partial? || plan.status.Canceled?
  }

  // ---- Validation ----

  predicate Busy(step: Step) {
    step.status.InProgress? || step.status.Verifying? || step.status.Blocked?
  }

  predicate Finished(step: Step) {
    step.status.Done? || step.status.Skipped?
  }

  predicate Complete(step: Step) {
    && !Blank(step.id) && !Blank(step.title) && !Blank(step.verification)
    && (step.status.Done? ==> !Blank(step.evidence))
  }

  predicate DistinctIds(steps: seq<Step>) {
    forall i, j :: 0 <= i < j < |steps| ==> steps[i].id != steps[j].id
  }

  predicate StepsComplete(steps: seq<Step>) {
    DistinctIds(steps) && forall i :: 0 <= i < |steps| ==> Complete(steps[i])
  }

  function CountBusy(steps: seq<Step>): nat {
    if steps == [] then 0 else (if Busy(steps[0]) then 1 else 0) + CountBusy(steps[1..])
  }

  predicate Named(plan: PlanValue) {
    !Blank(plan.id) && !Blank(plan.sessionId) && !Blank(plan.title)
  }

  function Check(plan: PlanValue): Option<Error> {
    if !Named(plan) || !(1 <= |plan.steps| <= MAX_STEPS) || !StepsComplete(plan.steps) then Some(InvalidInput)
    else if 1 < CountBusy(plan.steps) then Some(Conflict)
    else None
  }

  // ---- Moving a step ----

  predicate Sound(proof: Evidence, since: int) {
    proof.callId != "" && proof.toolName != "" && |proof.hash| == HASH_LENGTH && since <= proof.observedAt
  }

  /** One step of the life cycle pending, in progress, verifying, done; with blocked and skipped beside it. */
  function Moved(step: Step, input: Update, now: int): Result<Step> {
    var evidence := Trim(input.evidence);
    match input.status
    case InProgress =>
      if !step.status.Pending? && !step.status.Blocked? then Err(Conflict)
      else Ok(step.(status := InProgress, evidence := "", verified := [], verificationStartedAt := None,
          completedAt := None,
                    startedAt := if step.startedAt.None? then Some(now) else step.startedAt))
    case Verifying =>
      if !step.status.InProgress? then Err(Conflict)
      else Ok(step.(status := Verifying, verificationStartedAt := Some(now)))
    case Done =>
      if !step.status.Verifying? then Err(Conflict)
      else if evidence == "" || step.verificationStartedAt.None? || input.verified == [] then Err(InvalidInput)
      else if exists proof ::
          proof in input.verified && !Sound(proof, step.verificationStartedAt.value) then Err(InvalidInput)
      else Ok(step.(status := Done, evidence := evidence, verified := input.verified, completedAt := Some(now)))
    case Blocked =>
      if !step.status.InProgress? && !step.status.Verifying? then Err(Conflict)
      else if evidence == "" then Err(InvalidInput)
      else Ok(step.(status := Blocked, evidence := evidence))
    case Skipped =>
      if !step.status.Pending? then Err(Conflict)
      else if evidence == "" then Err(InvalidInput)
      else Ok(step.(status := Skipped, evidence := evidence, completedAt := Some(now)))
    case Pending => Err(InvalidInput)
  }

  /** How many steps are finished before the first that is not. */
  function Frontier(steps: seq<Step>): (n: nat)
    ensures n <= |steps|
    ensures forall i :: 0 <= i < n ==> Finished(steps[i])
    ensures n < |steps| ==> !Finished(steps[n])
  {
    if steps == [] || !Finished(steps[0]) then 0 else 1 + Frontier(steps[1..])
  }

  function IndexOf(steps: seq<Step>, id: string): (n: nat)
    ensures n <= |steps|
    ensures n < |steps| ==> steps[n].id == id
    ensures forall i :: 0 <= i < n ==> steps[i].id != id
  {
    if steps == [] || steps[0].id == id then 0 else 1 + IndexOf(steps[1..], id)
  }

  predicate AllDone(steps: seq<Step>) {
    forall i :: 0 <= i < |steps| ==> steps[i].status.Done?
  }

  function CurrentOf(steps: seq<Step>): string {
    if Frontier(steps) < |steps| then steps[Frontier(steps)].id else ""
  }

  function StatusOf(steps: seq<Step>, status: PlanStatus): PlanStatus {
    if Frontier(steps) < |steps| then status else if AllDone(steps) then Completed else Partial
  }

  /** The plan with one step replaced. */
  function After(plan: PlanValue, index: nat, step: Step, now: int): PlanValue
    requires index < |plan.steps|
  {
    var steps := plan.steps[index := step];
    plan.(steps := steps, updatedAt := now, currentStepId := CurrentOf(steps), status := StatusOf(steps, plan.status))
  }

  function Transition(plan: PlanValue, stepId: string, input: Update, now: int): Result<PlanValue> {
    if Check(plan).Some? then Err(Check(plan).value)
    else if !plan.status.Active? then Err(Conflict)
    else
      var index := IndexOf(plan.steps, Trim(stepId));
      if index == |plan.steps| then Err(NotFound)
      else if Frontier(plan.steps) < index then Err(Conflict)
      else
        var moved := Moved(plan.steps[index], input, now);
        if moved.Err? then Err(moved.error) else Ok(After(plan, index, moved.value, now))
  }

  // ---- What every reachable plan looks like ----

  predicate Untouched(step: Step) {
    step.status.Pending? && step.evidence == "" && step.startedAt.None? && step.completedAt.None?
    && step.verificationStartedAt.None? && step.verified == []
  }

  predicate Proven(step: Step) {
    && step.verified != [] && step.verificationStartedAt.Some?
    && forall proof :: proof in step.verified ==> Sound(proof, step.verificationStartedAt.value)
  }

  predicate StepOk(step: Step) {
    match step.status
    case Pending => Untouched(step)
    case InProgress => step.evidence == "" && step.verificationStartedAt.None? && step.verified == []
        && step.completedAt.None?
    case Verifying => step.evidence == "" && step.verificationStartedAt.Some? && step.verified == []
        && step.completedAt.None?
    case Blocked => !Blank(step.evidence) && step.verified == [] && step.completedAt.None?
    case Done => !Blank(step.evidence) && Proven(step) && step.completedAt.Some?
    case Skipped => !Blank(step.evidence) && step.verified == [] && step.completedAt.Some?
  }

  /** Finished steps, then at most one step that is not pending, then pending steps. */
  predicate InOrder(steps: seq<Step>) {
    forall i :: Frontier(steps) < i < |steps| ==> steps[i].status.Pending?
  }

  predicate StatusFits(plan: PlanValue) {
    if Frontier(plan.steps) < |plan.steps| then plan.status.Active? || plan.status.Queued?
    else plan.status == if AllDone(plan.steps) then Completed else Partial
  }

  predicate Reached(plan: PlanValue) {
    && Check(plan).None?
    && InOrder(plan.steps)
    && StepsOk(plan.steps)
    && plan.currentStepId == CurrentOf(plan.steps)
    && StatusFits(plan)
  }

  /** What can happen to a stored plan: a step is moved, or the queue of the session is rearranged. */
  datatype Event = Move(stepId: string, input: Update, now: int) | Requeue(first: bool)

  /** A refused move changes nothing. The queue makes a plan that is not over active or queued. */
  function AfterEvent(plan: PlanValue, event: Event): PlanValue {
    match event
    case Move(stepId, input, now) => var r := Transition(plan, stepId, input, now); if r.Ok? then r.value else plan
    case Requeue(first) => if IsTerminal(plan) then plan else plan.(status := if first then Active else Queued)
  }

  function Run(plan: PlanValue, events: seq<Event>): PlanValue
    decreases |events|
  {
    if events == [] then plan else Run(AfterEvent(plan, events[0]), events[1..])
  }

  lemma {:induction false} FrontierIs(steps: seq<Step>, n: nat)
    requires n <= |steps| && (forall i :: 0 <= i < n ==> Finished(steps[i])) && (n < |steps| ==> !Finished(steps[n]))
    ensures Frontier(steps) == n
  {
    if steps != [] && n != 0 {
      FrontierIs(steps[1..], n - 1);
    }
  }

  lemma {:induction false} OneBusy(steps: seq<Step>, f: int)
    requires forall i :: 0 <= i < |steps| && i != f ==> !Busy(steps[i])
    ensures CountBusy(steps) <= 1
    ensures f < 0 ==> CountBusy(steps) == 0
  {
    if steps != [] {
      OneBusy(steps[1..], f - 1);
    }
  }

  /** In the pending part nothing is busy, so the busy step can only be the first unfinished one. */
  lemma {:induction false} InOrderCounts(steps: seq<Step>)
    requires InOrder(steps)
    ensures CountBusy(steps) <= 1
  {
    OneBusy(steps, Frontier(steps));
  }

  /** A finished step cannot be moved, and a move always changes the status. */
  lemma MovedLeaves(step: Step, input: Update, now: int)
    requires Moved(step, input, now).Ok?
    ensures var after := Moved(step, input, now).value;
        !Finished(step) && after.status != step.status && after.id == step.id
  {
  }

  lemma MovedKeeps(step: Step, input: Update, now: int)
    requires Complete(step) && StepOk(step) && Moved(step, input, now).Ok?
    ensures var after := Moved(step, input, now).value; StepOk(after) && Complete(after)
  {
    TrimTwice(input.evidence);
  }

  /** A successful transition moves the first unfinished step and nothing else. */
  lemma TransitionAtFrontier(plan: PlanValue, stepId: string, input: Update, now: int) returns (f: nat)
    requires Transition(plan, stepId, input, now).Ok?
    ensures f == Frontier(plan.steps) < |plan.steps| && plan.steps[f].id == Trim(stepId)
    ensures Moved(plan.steps[f], input, now).Ok?
    ensures Transition(plan, stepId, input, now) == Ok(After(plan, f, Moved(plan.steps[f], input, now).value, now))
  {
    f := IndexOf(plan.steps, Trim(stepId));
    MovedLeaves(plan.steps[f], input, now);
  }

  predicate StepsOk(steps: seq<Step>) {
    forall i :: 0 <= i < |steps| ==> StepOk(steps[i])
  }

  lemma ReplaceKeepsComplete(steps: seq<Step>, f: nat, step: Step)
    requires StepsComplete(steps) && StepsOk(steps) && f < |steps|
    requires Complete(step) && StepOk(step) && step.id == steps[f].id
    ensures StepsComplete(steps[f := step]) && StepsOk(steps[f := step])
  {
  }

  lemma ReplaceKeepsOrder(steps: seq<Step>, f: nat, step: Step)
    requires InOrder(steps) && f == Frontier(steps) < |steps|
    ensures InOrder(steps[f := step]) && CountBusy(steps[f := step]) <= 1
    ensures Frontier(steps[f := step]) == if Finished(step) then f + 1 else f
  {
    FrontierIs(steps[f := step], if Finished(step) then f + 1 else f);
    InOrderCounts(steps[f := step]);
  }

  lemma TransitionKeeps(plan: PlanValue, stepId: string, input: Update, now: int)
    requires Reached(plan) && Transition(plan, stepId, input, now).Ok?
    ensures Reached(Transition(plan, stepId, input, now).value)
  {
    var f := TransitionAtFrontier(plan, stepId, input, now);
    var before := plan.steps[f];
    assert Complete(before) && StepOk(before);
    MovedKeeps(before, input, now);
    MovedLeaves(before, input, now);
    var step := Moved(before, input, now).value;
    ReplaceKeepsComplete(plan.steps, f, step);
    ReplaceKeepsOrder(plan.steps, f, step);
    AfterIsReached(plan, f, step, now);
  }

  lemma AfterIsReached(plan: PlanValue, f: nat, step: Step, now: int)
    requires Check(plan).None? && StatusFits(plan) && f == Frontier(plan.steps) < |plan.steps|
    requires var steps := plan.steps[f := step];
        StepsComplete(steps) && StepsOk(steps) && InOrder(steps) && CountBusy(steps) <= 1
    ensures Reached(After(plan, f, step, now))
  {
  }

  /** The shape of every plan that transitions and queueing lead to. */
  lemma {:induction false} RunKeeps(plan: PlanValue, events: seq<Event>)
    requires Reached(plan)
    ensures Reached(Run(plan, events))
    decreases |events|
  {
    if events != [] {
      var event := events[0];
      if event.Move? && Transition(plan, event.stepId, event.input, event.now).Ok? {
        TransitionKeeps(plan, event.stepId, event.input, event.now);
      }
      RunKeeps(AfterEvent(plan, event), events[1..]);
    }
  }

  /** Steps are never added, removed, exchanged or renamed, and a finished step never changes again. */
  predicate Grown(before: seq<Step>, after: seq<Step>) {
    && |before| == |after|
    && (forall i :: 0 <= i < |before| ==> before[i].id == after[i].id)
    && (forall i :: 0 <= i < |before| && Finished(before[i]) ==> after[i] == before[i])
  }

  lemma MoveGrows(plan: PlanValue, event: Event)
    ensures Grown(plan.steps, AfterEvent(plan, event).steps)
  {
    if event.Move? && Transition(plan, event.stepId, event.input, event.now).Ok? {
      var f := TransitionAtFrontier(plan, event.stepId, event.input, event.now);
      MovedLeaves(plan.steps[f], event.input, event.now);
    }
  }

  lemma GrowsOn(a: seq<Step>, b: seq<Step>, c: seq<Step>)
    requires Grown(a, b) && Grown(b, c)
    ensures Grown(a, c)
  {
    forall i | 0 <= i < |a| && Finished(a[i]) ensures c[i] == a[i] {
      assert b[i] == a[i];
    }
  }

  lemma {:induction false} RunGrows(plan: PlanValue, events: seq<Event>)
    ensures Grown(plan.steps, Run(plan, events).steps)
    decreases |events|
  {
    if events != [] {
      var next := AfterEvent(plan, events[0]);
      MoveGrows(plan, events[0]);
      RunGrows(next, events[1..]);
      GrowsOn(plan.steps, next.steps, Run(plan, events).steps);
    }
  }

  // ---- Telling progress by the fingerprint ----

  function Word(status: StepStatus): string {
    match status
    case Pending => "pending"
    case InProgress => "in_progress"
    case Verifying => "verifying"
    case Done => "completed"
    case Blocked => "blocked"
    case Skipped => "skipped"
  }

  function Part(step: Step): string {
    step.id + (":" + (Word(step.status) + (":" + step.evidence)))
  }

  function Fingerprint(steps: seq<Step>): string {
    if steps == [] then ""
    else if |steps| == 1 then Part(steps[0])
    else Part(steps[0]) + ("\n" + Fingerprint(steps[1..]))
  }

  /** The end of a fingerprint behind its first part. */
  function Rest(steps: seq<Step>): string {
    if steps == [] then "" else "\n" + Fingerprint(steps)
  }

  predicate SameProgress(a: seq<Step>, b: seq<Step>) {
    |a| == |b| && forall i :: 0 <= i < |a| ==> a[i].status == b[i].status && a[i].evidence == b[i].evidence
  }

  lemma Cancel(prefix: string, a: string, b: string)
    requires prefix + a == prefix + b
    ensures a == b
  {
    assert a == (prefix + a)[|prefix|..];
    assert b == (prefix + b)[|prefix|..];
  }

  lemma CancelRight(a: string, b: string, suffix: string)
    requires a + suffix == b + suffix
    ensures a == b
  {
    assert |a + suffix| == |b + suffix|;
    assert a == (a + suffix)[..|a|];
    assert b == (b + suffix)[..|b|];
  }

  lemma AssociateText(a: string, b: string, c: string)
    ensures (a + b) + c == a + (b + c)
  {
  }

  /** The six status words hold no colon, so the colon behind a word ends it. */
  lemma WordEnds(a: StepStatus, b: StepStatus, x: string, y: string)
    requires Word(a) + (":" + x) == Word(b) + (":" + y)
    ensures a == b
  {
    var s, t := Word(a) + (":" + x), Word(b) + (":" + y);
    assert s[|Word(a)|] == ':' && t[|Word(b)|] == ':';
    NoColon(a);
    NoColon(b);
    assert |Word(a)| == |Word(b)|;
    assert Word(a) == s[..|Word(a)|] == t[..|Word(b)|] == Word(b);
  }

  lemma NoColon(a: StepStatus)
    ensures forall i :: 0 <= i < |Word(a)| ==> Word(a)[i] != ':'
  {
  }

  /** Two parts of the same step, each with something behind, are the same text only if their statuses agree;
      and what follows the status is then the same too. */
  lemma PartsAgree(a: Step, b: Step, x: string, y: string)
    requires a.id == b.id && Part(a) + x == Part(b) + y
    ensures a.status == b.status && a.evidence + x == b.evidence + y
  {
    PartRest(a, x);
    PartRest(b, y);
    Cancel(a.id, ":" + (Word(a.status) + (":" + (a.evidence + x))), ":" + (Word(b.status) + (":" + (b.evidence + y))));
    Cancel(":", Word(a.status) + (":" + (a.evidence + x)), Word(b.status) + (":" + (b.evidence + y)));
    WordEnds(a.status, b.status, a.evidence + x, b.evidence + y);
    Cancel(Word(a.status), ":" + (a.evidence + x), ":" + (b.evidence + y));
    Cancel(":", a.evidence + x, b.evidence + y);
  }

  lemma PartRest(a: Step, x: string)
    ensures Part(a) + x == a.id + (":" + (Word(a.status) + (":" + (a.evidence + x))))
  {
    var w := Word(a.status);
    AssociateText(":", a.evidence, x);
    AssociateText(w, ":" + a.evidence, x);
    AssociateText(":", w + (":" + a.evidence), x);
    AssociateText(a.id, ":" + (w + (":" + a.evidence)), x);
  }

  lemma {:induction false} FingerprintHead(steps: seq<Step>)
    requires steps != []
    ensures Fingerprint(steps) == Part(steps[0]) + Rest(steps[1..])
  {
    if |steps| == 1 {
      assert Part(steps[0]) + "" == Part(steps[0]);
    }
  }

  /** Where only the evidence of a step differs, the same text follows. */
  predicate Aligned(a: seq<Step>, b: seq<Step>) {
    && |a| == |b|
    && (forall i :: 0 <= i < |a| ==> a[i].id == b[i].id)
    && (forall i ::
        0 <= i < |a| && a[i].status == b[i].status && a[i].evidence != b[i].evidence ==>
          PendingBehind(a, i) && PendingBehind(b, i))
  }

  predicate PendingBehind(steps: seq<Step>, i: nat) {
    forall j :: i < j < |steps| ==> Untouched(steps[j])
  }

  lemma {:induction false} SameTextBehind(a: seq<Step>, b: seq<Step>)
    requires |a| == |b| && forall i ::
        0 <= i < |a| ==> a[i].id == b[i].id && a[i].status == b[i].status && a[i].evidence == b[i].evidence
    ensures Fingerprint(a) == Fingerprint(b)
  {
    if a != [] {
      assert Part(a[0]) == Part(b[0]);
      SameTextBehind(a[1..], b[1..]);
    }
  }

  lemma {:induction false} AlignedExact(a: seq<Step>, b: seq<Step>)
    requires Aligned(a, b) && Fingerprint(a) == Fingerprint(b)
    ensures SameProgress(a, b)
  {
    if a != [] {
      FingerprintHead(a);
      FingerprintHead(b);
      PartsAgree(a[0], b[0], Rest(a[1..]), Rest(b[1..]));
      HeadEvidence(a, b);
      Cancel(a[0].evidence, Rest(a[1..]), Rest(b[1..]));
      AlignedTail(a, b);
      if |a| > 1 {
        Cancel("\n", Fingerprint(a[1..]), Fingerprint(b[1..]));
      }
      AlignedExact(a[1..], b[1..]);
    }
  }

  lemma HeadEvidence(a: seq<Step>, b: seq<Step>)
    requires Aligned(a, b) && a != [] && a[0].status == b[0].status
    requires a[0].evidence + Rest(a[1..]) == b[0].evidence + Rest(b[1..])
    ensures a[0].evidence == b[0].evidence
  {
    if a[0].evidence != b[0].evidence {
      assert PendingBehind(a, 0) && PendingBehind(b, 0);
      TailsAgree(a, b);
      SameTextBehind(a[1..], b[1..]);
      CancelRight(a[0].evidence, b[0].evidence, Rest(a[1..]));
    }
  }

  lemma TailsAgree(a: seq<Step>, b: seq<Step>)
    requires Aligned(a, b) && a != [] && PendingBehind(a, 0) && PendingBehind(b, 0)
    ensures forall i ::
        0 <= i < |a[1..]| ==> a[1..][i].id == b[1..][i].id && Untouched(a[1..][i]) && Untouched(b[1..][i])
  {
    forall i | 0 <= i < |a[1..]| ensures a[1..][i].id == b[1..][i].id && Untouched(a[1..][i]) && Untouched(b[1..][i]) {
      assert a[1..][i] == a[i + 1] && b[1..][i] == b[i + 1];
    }
  }

  lemma AlignedTail(a: seq<Step>, b: seq<Step>)
    requires Aligned(a, b) && a != []
    ensures Aligned(a[1..], b[1..])
  {
    forall i | 0 <= i < |a| - 1 && a[i + 1].status == b[i + 1].status && a[i + 1].evidence != b[i + 1].evidence
      ensures PendingBehind(a[1..], i) && PendingBehind(b[1..], i)
    {
      assert PendingBehind(a, i + 1) && PendingBehind(b, i + 1);
    }
  }

  /** Two reachable plans of which one grew out of the other are aligned: only a blocked step can keep its
      status and change its evidence. */
  lemma GrownAligned(p: PlanValue, q: PlanValue)
    requires Reached(p) && Reached(q) && Grown(p.steps, q.steps)
    ensures Aligned(p.steps, q.steps)
  {
    var a, b := p.steps, q.steps;
    forall i | 0 <= i < |a| && a[i].status == b[i].status && a[i].evidence != b[i].evidence
      ensures PendingBehind(a, i) && PendingBehind(b, i)
    {
      assert StepOk(a[i]) && StepOk(b[i]) && !Finished(a[i]);
      assert a[i].status.Blocked?;
      BlockedIsFrontier(a, i);
      BlockedIsFrontier(b, i);
    }
  }

  lemma BlockedIsFrontier(steps: seq<Step>, i: nat)
    requires InOrder(steps) && StepsOk(steps) && i < |steps| && steps[i].status.Blocked?
    ensures PendingBehind(steps, i)
  {
    forall j | i < j < |steps| ensures Untouched(steps[j]) {
      assert StepOk(steps[j]);
    }
  }

  /** Along the life of a plan the fingerprint is exact: it is the same if and only if every step has the
      same status and the same evidence. */
  lemma {:induction false} FingerprintExact(plan: PlanValue, events: seq<Event>)
    requires Reached(plan)
    ensures Fingerprint(plan.steps) == Fingerprint(Run(plan, events).steps) <==>
        SameProgress(plan.steps, Run(plan, events).steps)
  {
    var after := Run(plan, events);
    RunKeeps(plan, events);
    RunGrows(plan, events);
    if Fingerprint(plan.steps) == Fingerprint(after.steps) {
      GrownAligned(plan, after);
      AlignedExact(plan.steps, after.steps);
    }
    if SameProgress(plan.steps, after.steps) {
      SameTextBehind(plan.steps, after.steps);
    }
  }

  function SkippedWith(id: string, reason: string): Step {
    Step(id, "title", "", "check", Skipped, reason, None, Some(0), None, [])
  }

  function SkippedPlan(first: string, second: string): PlanValue {
    PlanValue("plan", "session", "title", Partial, "", [SkippedWith("s", first), SkippedWith("t", second)], 0)
  }

  /** A line end and everything that comes before the evidence of the second step. */
  function Divider(): string {
    "\n" + Part(SkippedWith("t", ""))
  }

  predicate Inked(value: string) {
    value != "" && !IsSpace(value[0]) && !IsSpace(value[|value| - 1])
  }

  /** Between plans that are not stages of one another it is not: whatever the texts, these two plans with the
      same steps, both of a reachable shape, have different evidence and the same fingerprint. */
  lemma FingerprintAmbiguous(x: string, y: string, z: string)
    requires Inked(x) && Inked(y) && Inked(z)
    ensures var p, q := SkippedPlan(x, y + (Divider() + z)), SkippedPlan(x + (Divider() + y), z);
            && Reached(p) && Reached(q) && Fingerprint(p.steps) == Fingerprint(q.steps)
                && !SameProgress(p.steps, q.steps)
  {
    var d := Divider();
    SkippedPlanReached(x, y + (d + z));
    SkippedPlanReached(x + (d + y), z);
    SkippedFingerprint(x, y + (d + z));
    SkippedFingerprint(x + (d + y), z);
    PartExtends("s", x, d + y);
    var s := Part(SkippedWith("s", x));
    AssociateText(s, d + y, d + z);
    AssociateText(d, y, d + z);
    assert SkippedPlan(x, y + (d + z)).steps[1].evidence == y + (d + z);
    assert SkippedPlan(x + (d + y), z).steps[1].evidence == z;
    assert |z| < |y + (d + z)|;
  }

  lemma PartExtends(id: string, e: string, x: string)
    ensures Part(SkippedWith(id, e + x)) == Part(SkippedWith(id, e)) + x
  {
    PartRest(SkippedWith(id, e), x);
  }

  lemma SkippedFingerprint(first: string, second: string)
    ensures Fingerprint(SkippedPlan(first, second).steps) == Part(SkippedWith("s", first)) + (Divider() + second)
  {
    var b := SkippedWith("t", second);
    var steps := SkippedPlan(first, second).steps;
    FingerprintHead(steps);
    assert steps[1..] == [b];
    PartExtends("t", "", second);
    assert "" + second == second;
    AssociateText("\n", Part(SkippedWith("t", "")), second);
  }

  lemma {:induction false} InkedIsNotBlank(value: string)
    requires Inked(value)
    ensures !Blank(value)
  {
  }

  lemma SkippedStepOk(id: string, reason: string)
    requires Inked(id) && Inked(reason)
    ensures StepOk(SkippedWith(id, reason)) && Complete(SkippedWith(id, reason))
  {
    InkedIsNotBlank(id);
    InkedIsNotBlank(reason);
    InkedIsNotBlank("title");
    InkedIsNotBlank("check");
  }

  lemma TwoSkipped(a: Step, b: Step)
    requires a.id != b.id && a.status.Skipped? && b.status.Skipped?
    requires StepOk(a) && Complete(a) && StepOk(b) && Complete(b)
    ensures Frontier([a, b]) == 2 && !AllDone([a, b]) && CountBusy([a, b]) <= 1
    ensures StepsComplete([a, b]) && StepsOk([a, b])
  {
    FrontierIs([a, b], 2);
    assert [a, b][0] == a;
    OneBusy([a, b], -1);
  }

  lemma SkippedPlanReached(first: string, second: string)
    requires Inked(first) && Inked(second)
    ensures Reached(SkippedPlan(first, second))
  {
    SkippedStepOk("s", first);
    SkippedStepOk("t", second);
    InkedIsNotBlank("plan");
    InkedIsNotBlank("session");
    InkedIsNotBlank("title");
    assert "s"[0] != "t"[0];
    TwoSkipped(SkippedWith("s", first), SkippedWith("t", second));
  }

  // ---- The source's own form ----

  datatype Creator = Unnamed | User | Agent | Unsupported

  datatype StepInput = StepInput(title: string, description: string, verification: string)

  predicate Admissible(sessionId: string, title: string, creator: Creator, inputs: seq<StepInput>) {
    && !Blank(sessionId) && !Blank(title) && 1 <= |inputs| <= MAX_STEPS && !creator.Unsupported?
    && forall i :: 0 <= i < |inputs| ==> !Blank(inputs[i].title) && !Blank(inputs[i].verification)
  }

  predicate NewStep(step: Step, input: StepInput, id: string) {
    && Untouched(step) && step.id == id
    && step.title == Trim(input.title) && step.description == Trim(input.description)
        && step.verification == Trim(input.verification)
  }

  /** A new plan, with the ids drawn for the plan and its steps. */
  method NewPlan(sessionId: string, title: string, creator: Creator, inputs: seq<StepInput>, now: int, drawn: string,
      drawnSteps: seq<string>)
    returns (r: Result<PlanValue>)
    requires !Blank(drawn) && |drawnSteps| == |inputs|
    requires forall i :: 0 <= i < |drawnSteps| ==> !Blank(drawnSteps[i])
    requires forall i, j :: 0 <= i < j < |drawnSteps| ==> drawnSteps[i] != drawnSteps[j]
    ensures r.Ok? <==> Admissible(sessionId, title, creator, inputs)
    ensures r.Ok? ==> Reached(r.value) && r.value.status.Active? && |r.value.steps| == |inputs|
    ensures r.Ok? ==> r.value.sessionId == Trim(sessionId) && r.value.title == Trim(title) && r.value.id == drawn
    ensures r.Ok? ==> forall i :: 0 <= i < |inputs| ==> NewStep(r.value.steps[i], inputs[i], drawnSteps[i])
    ensures r.Err? ==> r.error.InvalidInput?
  {
    var session, name := Trim(sessionId), Trim(title);
    TrimTwice(sessionId);
    TrimTwice(title);
    if session == "" || name == "" || |inputs| == 0 || |inputs| > MAX_STEPS || creator.Unsupported? {
      return Err(InvalidInput);
    }
    var ok, steps := NewSteps(inputs, drawnSteps);
    if !ok {
      return Err(InvalidInput);
    }
    var plan := PlanValue(drawn, session, name, Active, steps[0].id, steps, now);
    NewPlanReached(plan);
    r := Ok(plan);
  }

  lemma NewPlanReached(plan: PlanValue)
    requires Named(plan) && plan.status.Active? && 1 <= |plan.steps| <= MAX_STEPS && DistinctIds(plan.steps)
    requires forall i :: 0 <= i < |plan.steps| ==> Untouched(plan.steps[i]) && Complete(plan.steps[i])
    requires plan.currentStepId == plan.steps[0].id
    ensures Reached(plan)
  {
    NewStepsInOrder(plan.steps);
  }

  method NewSteps(inputs: seq<StepInput>, drawn: seq<string>) returns (ok: bool, steps: seq<Step>)
    requires |drawn| == |inputs| && forall i :: 0 <= i < |drawn| ==> !Blank(drawn[i])
    ensures ok <==> forall i :: 0 <= i < |inputs| ==> !Blank(inputs[i].title) && !Blank(inputs[i].verification)
    ensures ok ==> |steps| == |inputs| && forall i ::
        0 <= i < |inputs| ==> NewStep(steps[i], inputs[i], drawn[i]) && Complete(steps[i])
  {
    steps := [];
    for i := 0 to |inputs|
      invariant |steps| == i
      invariant forall j :: 0 <= j < i ==> NewStep(steps[j], inputs[j], drawn[j]) && Complete(steps[j])
      invariant forall j :: 0 <= j < i ==> !Blank(inputs[j].title) && !Blank(inputs[j].verification)
    {
      var title, check := Trim(inputs[i].title), Trim(inputs[i].verification);
      TrimTwice(inputs[i].title);
      TrimTwice(inputs[i].verification);
      if title == "" || check == "" {
        return false, [];
      }
      steps := steps + [Step(drawn[i], title, Trim(inputs[i].description), check, Pending, "", None, None, None, [])];
    }
    ok := true;
  }

  lemma {:induction false} NewStepsInOrder(steps: seq<Step>)
    requires steps != [] && forall i :: 0 <= i < |steps| ==> Untouched(steps[i])
    ensures InOrder(steps) && StepsOk(steps) && CountBusy(steps) <= 1 && Frontier(steps) == 0
  {
    FrontierIs(steps, 0);
    OneBusy(steps, -1);
  }

  predicate IdsAre(steps: seq<Step>, ids: set<string>) {
    ids == set i | 0 <= i < |steps| :: steps[i].id
  }

  lemma Duplicate(steps: seq<Step>, index: nat, ids: set<string>)
    requires index < |steps| && IdsAre(steps[..index], ids) && steps[index].id in ids
    ensures !DistinctIds(steps)
  {
    var i :| 0 <= i < index && steps[..index][i].id == steps[index].id;
    assert steps[i].id == steps[index].id;
  }

  lemma OneMoreId(steps: seq<Step>, index: nat, ids: set<string>)
    requires index < |steps| && IdsAre(steps[..index], ids) && DistinctIds(steps[..index]) && steps[index].id !in ids
    ensures IdsAre(steps[..index + 1], ids + {steps[index].id}) && DistinctIds(steps[..index + 1])
  {
    var more := steps[..index + 1];
    assert forall i :: 0 <= i < index ==> more[i] == steps[..index][i] && steps[..index][i].id in ids;
  }

  lemma CountBusyStep(steps: seq<Step>, index: nat)
    requires index < |steps|
    ensures CountBusy(steps[index..]) == (if Busy(steps[index]) then 1 else 0) + CountBusy(steps[index + 1..])
  {
    assert steps[index..][1..] == steps[index + 1..];
  }

  class Plan {
    var id: string
    var sessionId: string
    var title: string
    var status: PlanStatus
    var currentStepId: string
    var steps: array<Step>
    var updatedAt: int

    constructor (value: PlanValue)
      ensures View() == value && fresh(steps)
    {
      id, sessionId, title, status, currentStepId, updatedAt :=
        value.id, value.sessionId, value.title, value.status, value.currentStepId, value.updatedAt;
      steps := new Step[|value.steps|](i requires 0 <= i < |value.steps| => value.steps[i]);
      new;
      assert steps[..] == value.steps;
    }

    ghost function View(): PlanValue
      reads this, steps
    {
      PlanValue(id, sessionId, title, status, currentStepId, steps[..], updatedAt)
    }

    method Validate() returns (error: Option<Error>)
      ensures error == Check(View())
    {
      if Blank(id) || Blank(sessionId) || Blank(title) {
        return Some(InvalidInput);
      }
      if steps.Length == 0 || steps.Length > MAX_STEPS {
        return Some(InvalidInput);
      }
      ghost var all := steps[..];
      var busy := 0;
      var ids: set<string> := {};
      assert all[0..] == all;
      for index := 0 to steps.Length
        invariant CountBusy(all) == busy + CountBusy(all[index..])
        invariant forall i :: 0 <= i < index ==> Complete(all[i])
        invariant DistinctIds(all[..index]) && IdsAre(all[..index], ids)
      {
        var step := steps[index];
        CountBusyStep(all, index);
        if Blank(step.id) || Blank(step.title) || Blank(step.verification) {
          assert !Complete(all[index]);
          return Some(InvalidInput);
        }
        if step.id in ids {
          Duplicate(all, index, ids);
          return Some(InvalidInput);
        }
        OneMoreId(all, index, ids);
        ids := ids + {step.id};
        if Busy(step) {
          busy := busy + 1;
        }
        if step.status.Done? && Blank(step.evidence) {
          assert !Complete(all[index]);
          return Some(InvalidInput);
        }
      }
      assert all[..|all|] == all;
      if busy > 1 {
        return Some(Conflict);
      }
      return None;
    }

    /** Moves one step in place. A refused move leaves the plan as it is. */
    method TransitionStep(stepId: string, input: Update, now: int) returns (error: Option<Error>)
      modifies this, steps
      ensures steps == old(steps)
      ensures var r := Transition(old(View()), stepId, input, now);
              if r.Ok? then error.None? && View() == r.value else error == Some(r.error) && View() == old(View())
    {
      error := Validate();
      if error.Some? {
        return;
      }
      if !status.Active? {
        return Some(Conflict);
      }
      ghost var before := View();
      var wanted := Trim(stepId);
      var index := Find(wanted);
      if index == steps.Length {
        return Some(NotFound);
      }
      var free := PrecedingFinished(index);
      if !free {
        return Some(Conflict);
      }
      var moved := Moved(steps[index], input, now);
      if moved.Err? {
        return Some(moved.error);
      }
      MovedLeaves(steps[index], input, now);
      Replace(index, moved.value, now);
    }

    method PrecedingFinished(index: nat) returns (ok: bool)
      requires index <= steps.Length
      ensures ok <==> index <= Frontier(steps[..])
    {
      ghost var all := steps[..];
      for previous := 0 to index
        invariant forall i :: 0 <= i < previous ==> Finished(all[i])
      {
        if !Finished(steps[previous]) {
          FrontierIs(all, previous);
          return false;
        }
      }
      return true;
    }

    method Replace(index: nat, step: Step, now: int)
      requires index < steps.Length && Check(View()).None? && step.id == steps[index].id
      modifies this`currentStepId, this`status, this`updatedAt, steps
      ensures View() == After(old(View()), index, step, now)
    {
      ghost var before := steps[..];
      forall i | 0 <= i < |before| ensures before[i].id != "" {
        assert Complete(before[i]);
      }
      steps[index] := step;
      updatedAt := now;
      assert steps[..] == before[index := step];
      Refresh();
    }

    method Find(wanted: string) returns (index: nat)
      ensures index == IndexOf(steps[..], wanted)
    {
      index := 0;
      assert steps[..][0..] == steps[..];
      while index < steps.Length && steps[index].id != wanted
        invariant index <= steps.Length
        invariant IndexOf(steps[..], wanted) == index + IndexOf(steps[..][index..], wanted)
      {
        assert steps[..][index..][1..] == steps[..][index + 1..];
        index := index + 1;
      }
    }

    /** Recomputes the current step and the status of the plan from its steps. */
    method Refresh()
      requires forall i :: 0 <= i < steps.Length ==> steps[i].id != ""
      modifies this`currentStepId, this`status
      ensures currentStepId == CurrentOf(steps[..])
      ensures status == StatusOf(steps[..], old(status))
    {
      ghost var all := steps[..];
      currentStepId := "";
      var allFinished, allCompleted := true, true;
      for i := 0 to steps.Length
        invariant all == steps[..] && status == old(status)
        invariant allCompleted <==> forall j :: 0 <= j < i ==> all[j].status.Done?
        invariant allFinished ==> currentStepId == "" && forall j :: 0 <= j < i ==> Finished(all[j])
        invariant !allFinished ==> Frontier(all) < i && currentStepId == all[Frontier(all)].id
      {
        var candidate := steps[i];
        assert candidate == all[i];
        if !candidate.status.Done? {
          allCompleted := false;
        }
        if !Finished(candidate) {
          if allFinished { FrontierIs(all, i); }
          allFinished := false;
          if currentStepId == "" {
            currentStepId := candidate.id;
          }
        }
      }
      if allFinished {
        FrontierIs(all, |all|);
        status := Partial;
        if allCompleted {
          status := Completed;
        }
      }
    }
  }
}
