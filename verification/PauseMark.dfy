/** The mark of a pause against the stored status of a run (src/application/admin.go, src/application/service.go). */
module PauseMark {
  import opened Basics
  import opened RunRecord

  // Resuming looks at the status and waiting looks at the mark, so a marked run whose status is not "paused" waits
  // for somebody who will be turned away.

  /** The run is marked as paused exactly when its stored status says so, as long as it has not ended. */
  predicate Agrees(s: State) {
    Terminal(s.status) || (s.paused <==> s.status.Paused?)
  }

  /** A step that sets the mark and the status apart: the executor overwrites the status of a marked run, at its
      start or for an approval, or leaves while the status still says that the run is paused. */
  predicate Splits(s: State, a: Action) {
    !s.booting &&
      match a
      case Start(ok) => ok && s.exec.Queue? && !Parked(s) && !(s.active && s.cancelRequested) && s.paused
      case Approval(to, ok) =>
        ok && s.exec.Work? && !Parked(s) && MaySaveActive(s) && (to.WaitingApproval? || to.Running?) && s.paused
      case Exit => s.exec.Leave? && s.status.Paused?
      case _ => false
  }

  /** A step that ends the disagreement: the run ends, or its executor leaves and takes the mark away. */
  predicate Mends(s: State, a: Action) {
    !s.booting &&
      match a
      case SaveEnd(ok) => ok && s.exec.Finish?
      case CancelSave(ok) => ok && s.control.Canceling?
      case Exit => s.exec.Leave? && !s.status.Paused?
      case Restart => true
      case _ => false
  }

  /** A run that is stored as paused without the mark has been left by its executor, which nobody can pause or
      resume. */
  predicate Sided(s: State) {
    (s.status.Paused? && !s.paused ==> s.exec.Gone?) && (s.exec.Gone? ==> !s.active)
  }

  /** What the invariant says about the end of a run. */
  predicate Ends(s: State) {
    EndOk(s.status, s.usage, s.exec, s.control, s.active, s.cancelRequested, s.booting)
  }

  lemma SidedExecutor(s: State, a: Action)
    requires Ends(s) && Sided(s) && !s.booting && ByExecutor(a)
    ensures Sided(Next(s, a))
  {
  }

  lemma SidedStays(s: State, a: Action)
    requires Ends(s) && Sided(s)
    ensures Sided(Next(s, a))
  {
    if !s.booting && ByExecutor(a) { SidedExecutor(s, a); }
  }

  lemma SplitByExecutor(s: State, a: Action)
    requires Ends(s) && Agrees(s) && !s.booting && ByExecutor(a)
    ensures Agrees(Next(s, a)) <==> !Splits(s, a)
  {
  }

  /** Where they agree, exactly the splitting steps set them apart. */
  lemma SplitExact(s: State, a: Action)
    requires Ends(s) && Agrees(s)
    ensures Agrees(Next(s, a)) <==> !Splits(s, a)
  {
    if !s.booting && ByExecutor(a) { SplitByExecutor(s, a); }
  }

  /** Where they do not, exactly the mending steps bring them together. */
  lemma MendExact(s: State, a: Action)
    requires Ends(s) && Sided(s) && !Agrees(s)
    ensures Agrees(Next(s, a)) <==> Mends(s, a)
  {
  }

  // ---- Over a whole run ----

  lemma {:induction false} PlayLast(s: State, front: seq<Action>, a: Action)
    ensures Play(s, front + [a]) == Next(Play(s, front), a)
    decreases |front|
  {
    if front == [] {
      assert ([] + [a])[1..] == [] && ([] + [a])[0] == a;
    } else {
      PlayLast(Next(s, front[0]), front[1..], a);
      assert (front + [a])[1..] == front[1..] + [a];
    }
  }

  /** The state after the first actions. */
  function StateAt(actions: seq<Action>, n: nat): State
    requires n <= |actions|
  {
    Play(Initial(), actions[..n])
  }

  lemma StateStep(actions: seq<Action>, n: nat)
    requires n < |actions|
    ensures StateAt(actions, n + 1) == Next(StateAt(actions, n), actions[n])
  {
    assert actions[..n + 1] == actions[..n] + [actions[n]];
    PlayLast(Initial(), actions[..n], actions[n]);
  }

  lemma {:induction false} StateKeeps(actions: seq<Action>, n: nat)
    requires n <= |actions|
    ensures Inv(StateAt(actions, n)) && Sided(StateAt(actions, n))
  {
    if n != 0 {
      StateKeeps(actions, n - 1);
      StateStep(actions, n - 1);
      NextKeeps(StateAt(actions, n - 1), actions[n - 1]);
      SidedStays(StateAt(actions, n - 1), actions[n - 1]);
    }
  }

  predicate SplitAt(actions: seq<Action>, i: nat)
    requires i < |actions|
  {
    Splits(StateAt(actions, i), actions[i])
  }

  predicate MendedBetween(actions: seq<Action>, i: nat, n: nat)
    requires i < n <= |actions|
  {
    exists j :: i < j < n && Mends(StateAt(actions, j), actions[j])
  }

  lemma {:induction false} AgreesAt(actions: seq<Action>, n: nat)
    requires n <= |actions|
    ensures Agrees(StateAt(actions, n)) <==> forall i ::
        0 <= i < n && SplitAt(actions, i) ==> MendedBetween(actions, i, n)
  {
    if n != 0 {
      var s, a := StateAt(actions, n - 1), actions[n - 1];
      AgreesAt(actions, n - 1);
      StateKeeps(actions, n - 1);
      StateStep(actions, n - 1);
      if Agrees(s) { SplitExact(s, a); } else { MendExact(s, a); }
      forall i | 0 <= i < n - 1 ensures MendedBetween(actions, i, n) <==>
          MendedBetween(actions, i, n - 1) || Mends(s, a) {
        if Mends(s, a) { assert Mends(StateAt(actions, n - 1), actions[n - 1]); }
      }
      assert SplitAt(actions, n - 1) <==> Splits(s, a);
    }
  }

  /** The mark and the stored status agree exactly when every step that set them apart has been mended since. */
  lemma {:induction false} AgreesExactly(actions: seq<Action>)
    ensures Agrees(Play(Initial(), actions)) <==>
              forall i :: 0 <= i < |actions| && SplitAt(actions, i) ==> MendedBetween(actions, i, |actions|)
  {
    AgreesAt(actions, |actions|);
    assert actions[..|actions|] == actions;
  }

  // ---- What a disagreement leads to ----

  /** The executor sleeps on an open channel, and the status does not say that the run is paused. */
  predicate Stuck(s: State) {
    !s.booting && s.waiting.Some? && s.waiting.value !in s.closed && !s.status.Paused?
  }

  /** A canceled or expired context, or the end of the process. */
  predicate Frees(a: Action) {
    a.Restart? || (a.Quit? && (a.status.Failed? || a.status.Canceled?))
  }

  /** The executor is winding up and waits no more. */
  predicate Winding(exec: Exec) {
    exec.Finish? || exec.Leave? || exec.Gone? || ExecClaims(exec)
  }

  /** Resuming wakes a sleeping executor exactly when the stored status says that the run is paused. */
  lemma ResumeWakes(s: State)
    requires Inv(s) && !s.booting && s.control.Idle? && s.waiting.Some? && s.waiting.value !in s.closed
    ensures s.waiting.value in Next(s, Resume(true)).closed <==> s.status.Paused?
    ensures !s.status.Paused? ==> forall ok :: Next(s, Resume(ok)) == s && Next(s, Pause(ok)) == s
  {
  }

  lemma StuckStep(s: State, a: Action)
    requires Inv(s) && Stuck(s)
    ensures if Frees(a) then Winding(Next(s, a).exec) else Stuck(Next(s, a)) && Next(s, a).waiting == s.waiting
  {
  }

  lemma WindingExecutor(s: State, a: Action)
    requires Winding(s.exec) && !s.booting && ByExecutor(a)
    ensures Winding(Next(s, a).exec)
  {
  }

  lemma WindingStays(s: State, a: Action)
    requires Winding(s.exec)
    ensures Winding(Next(s, a).exec)
  {
    if !s.booting && ByExecutor(a) { WindingExecutor(s, a); }
  }

  lemma {:induction false} WindingOn(s: State, actions: seq<Action>)
    requires Inv(s) && Winding(s.exec)
    ensures !Stuck(Play(s, actions))
    decreases |actions|
  {
    if actions != [] {
      NextKeeps(s, actions[0]);
      WindingStays(s, actions[0]);
      WindingOn(Next(s, actions[0]), actions[1..]);
    }
  }

  /** A stuck executor sleeps on, whatever anybody resumes, pauses or cancels, until its own context ends or the
      process does. */
  lemma {:induction false} StuckUntilFreed(s: State, actions: seq<Action>)
    requires Inv(s) && Stuck(s)
    ensures Stuck(Play(s, actions)) <==> forall i :: 0 <= i < |actions| ==> !Frees(actions[i])
    ensures Stuck(Play(s, actions)) ==> Play(s, actions).waiting == s.waiting
    decreases |actions|
  {
    if actions != [] {
      var t, rest := Next(s, actions[0]), actions[1..];
      NextKeeps(s, actions[0]);
      StuckStep(s, actions[0]);
      if Frees(actions[0]) {
        WindingOn(t, rest);
      } else {
        StuckUntilFreed(t, rest);
        assert forall i :: 0 < i < |actions| ==> actions[i] == rest[i - 1];
      }
    }
  }

  /** The event of a change of status is written while nobody interferes. */
  lemma EventWritten(s: State)
    requires !s.booting && s.exec == Append(Plain) && !s.control.Writing? && !Terminal(s.status)
    ensures var next := Max(s.own, s.counter) + 1;
            Next(Next(s, Check), Store(true))
            == s.(events := s.events + [Event(next, Plain)], own := next, counter := next, exec := Work)
  {
  }

  lemma Overwritten(s: State, a: Action)
    requires Inv(s) && Agrees(s) && Splits(s, a) && !a.Exit?
    ensures var t := Next(s, a);
            && !t.booting && t.exec == Append(Plain) && t.control == s.control && !Terminal(t.status)
            && t.paused && !t.status.Paused? && t.signal.Some? && t.signal.value !in t.closed
  {
  }

  /** The run is marked as paused, and its status does not say so. */
  predicate Overlooked(s: State) {
    !s.booting && s.paused && !s.status.Paused? && !Terminal(s.status)
  }

  lemma OverlookedStays(s: State, a: Action)
    requires Inv(s) && Overlooked(s) && !Mends(s, a)
    ensures Overlooked(Next(s, a))
  {
  }

  /** The executor is at a point where it looks at the mark. */
  predicate Looks(exec: Exec) {
    exec.Queue? || exec.Work? || exec.Complete?
  }

  lemma LookSticks(s: State)
    requires Inv(s) && Overlooked(s) && Looks(s.exec)
    ensures Stuck(Next(s, Look))
  {
  }

  /** No step on the way ends the run or lets its executor leave. */
  predicate NeverMends(s: State, actions: seq<Action>)
    decreases |actions|
  {
    actions == [] || (!Mends(s, actions[0]) && NeverMends(Next(s, actions[0]), actions[1..]))
  }

  lemma {:induction false} OverlookedOn(s: State, actions: seq<Action>)
    requires Inv(s) && Overlooked(s) && NeverMends(s, actions)
    ensures Inv(Play(s, actions)) && Overlooked(Play(s, actions))
    decreases |actions|
  {
    if actions != [] {
      NextKeeps(s, actions[0]);
      OverlookedStays(s, actions[0]);
      OverlookedOn(Next(s, actions[0]), actions[1..]);
    }
  }

  /** Once the status of a marked run has been overwritten, and whatever interleaves with its executor as long as
      nothing mends it, the mark stays set and the status does not say paused; whenever the executor then looks at
      the mark it goes to sleep for good. */
  lemma {:induction false} OverwritingSticks(s: State, a: Action, actions: seq<Action>)
    requires Inv(s) && Agrees(s) && Splits(s, a) && !a.Exit? && NeverMends(Next(s, a), actions)
    ensures var t := Play(Next(s, a), actions); Overlooked(t) && (Looks(t.exec) ==> Stuck(Next(t, Look)))
  {
    Overwritten(s, a);
    NextKeeps(s, a);
    OverlookedOn(Next(s, a), actions);
    var t := Play(Next(s, a), actions);
    if Looks(t.exec) { LookSticks(t); }
  }

  /** For example at once: the executor writes its event and looks. */
  lemma OverwritingSticksAtOnce(s: State, a: Action)
    requires Inv(s) && Agrees(s) && Splits(s, a) && !a.Exit? && !s.control.Writing?
    ensures Stuck(Next(Next(Next(Next(s, a), Check), Store(true)), Look))
  {
    Overwritten(s, a);
    EventWritten(Next(s, a));
  }

  /** Both kinds of overwriting happen: at the start of a run that was paused while it waited for the gate, ... */
  lemma StartSplits()
    ensures Splits(Next(Initial(), Pause(true)), Start(true))
  {
  }

  /** ... and for an approval that is asked for while the run is being paused. */
  lemma ApprovalSplits()
    ensures Splits(Next(Next(Next(Next(Initial(), Start(true)), Check), Store(true)), Pause(true)),
        Approval(WaitingApproval, true))
  {
    EventWritten(Next(Initial(), Start(true)));
  }
}
