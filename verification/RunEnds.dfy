/** How runs end, pause and go on (src/application/service.go, admin.go, run_lifecycle.go), and for what reason. */
module RunEnds {
  import opened Basics
  import opened RunRecord

  // ---- What single steps store ----

  /** A run whose work is done, that is not paused and not being canceled, is stored as completed with its usage,
      and the event of that is due. */
  lemma CompletionStored(s: State)
    requires !s.booting && s.exec.Complete? && !Parked(s) && !s.paused && !(s.active && s.cancelRequested)
    ensures Next(s, SaveCompleted(true))
        == s.(status := Completed, usage := s.exec.usage, exec := Append(Ended(Completed)))
    ensures Next(s, SaveCompleted(false)) == s.(exec := Finish(Failed, s.exec.usage))
  {
  }

  /** While it is paused it waits, and when it is being canceled it ends canceled. */
  lemma CompletionWaits(s: State, ok: bool)
    requires !s.booting && s.exec.Complete? && !Parked(s)
    ensures s.active && s.cancelRequested ==> Next(s, SaveCompleted(ok)) == s.(exec := Finish(Canceled, s.exec.usage))
    ensures !(s.active && s.cancelRequested) && s.paused ==> Next(s, SaveCompleted(ok)) == s
  {
  }

  /** The start and an approval store what they announce, unless the run is being canceled; work that is done waits to
      be stored, and the executor announces what it likes. */
  lemma WorkStored(s: State, to: Status)
    requires !s.booting && !Parked(s) && !(s.active && s.cancelRequested)
    ensures s.exec.Queue? ==> Next(s, Start(true)) == s.(status := Running, exec := Append(Plain))
    ensures s.exec.Queue? ==> Next(s, Start(false)) == s.(exec := Finish(Failed, None))
    ensures s.exec.Work? && (to.WaitingApproval? || to.Running?) && !Terminal(s.status) ==>
              Next(s, Approval(to, true)) == s.(status := to, exec := Append(Plain))
    ensures s.exec.Work? ==> Next(s, Emit) == s.(exec := Append(Plain))
  {
  }

  lemma DoneWaits(s: State, usage: Option<Usage>)
    requires !s.booting && !Parked(s) && s.exec.Work?
    ensures Next(s, Done(usage)) == s.(exec := Complete(usage))
  {
  }

  /** An error or a canceled context ends the work wherever it is, also while it sleeps. */
  lemma QuitEnds(s: State, status: Status, usage: Option<Usage>)
    requires !s.booting && (s.exec.Queue? || s.exec.Work? || s.exec.Complete? || s.exec.Broken?)
    requires status == Failed || status == Canceled
    ensures Next(s, Quit(status, usage)) == s.(exec := Finish(status, usage), waiting := None)
  {
  }

  /** After a restart a run that was under way has failed. */
  lemma RestartStored(s: State)
    requires Inv(s)
    ensures var t := Next(s, Restart);
            && t.status == (if s.status in {Completed, Failed, Canceled} then s.status else Failed)
            && t.usage == s.usage && t.events == s.events && t.booting && t.exec.Gone? && t.control.Idle?
  {
  }

  /** And its terminal event is written once, when it is missing. */
  lemma ReconcileStored(s: State)
    requires Inv(s) && s.booting
    ensures var t := Next(s, Reconcile(true));
            && Logged(t.events) && t.status == s.status && t.usage == s.usage
            && t.events == if Logged(s.events) then s.events
                else s.events + [Event(|s.events| + 1, Ended(s.status))]
    ensures Next(s, Reconcile(false)) == s && Next(s, Booted) == s.(booting := false)
  {
  }

  /** A late callback, one of a run that is being canceled, and one whose write fails break the run off and store
      nothing. */
  lemma CallbackRefused(s: State, to: Status, ok: bool)
    requires !s.booting && s.exec.Work? && !Parked(s) && (to == WaitingApproval || to == Running)
    requires s.status in {Completed, Failed, Canceled} || (s.active && s.cancelRequested) || !ok
    ensures Next(s, Approval(to, ok)) == s.(exec := Broken)
  {
  }

  /** A usage may be replaced by one that is nowhere smaller. */
  predicate Replaces(usage: Option<Usage>, stored: Option<Usage>) {
    usage.Some? && (stored.None? || (usage.value.input >= stored.value.input
        && usage.value.output >= stored.value.output && usage.value.total >= stored.value.total))
  }

  /** Whoever ends a run first decides how, but for a cancellation that was requested. */
  lemma EndStored(s: State)
    requires !s.booting && s.exec.Finish? && !Terminal(s.status)
    ensures var t := Next(s, SaveEnd(true));
            && t.status == (if s.active && s.cancelRequested then Canceled else s.exec.status)
            && t.usage == (if Replaces(s.exec.usage, s.usage) then s.exec.usage else s.usage)
            && t.exec == Append(Ended(t.status)) && t.events == s.events
  {
  }

  /** Whoever comes later can only complete the usage, and when the write fails nothing is stored. */
  lemma EndKept(s: State, ok: bool)
    requires !s.booting && s.exec.Finish? && (s.status in {Completed, Failed, Canceled} || !ok)
    ensures Next(s, SaveEnd(ok))
        == s.(exec := Leave, usage := if ok && Replaces(s.exec.usage, s.usage) then s.exec.usage else s.usage)
  {
  }

  /** The executor that leaves takes the mark of a pause away and closes its channel. */
  lemma ExitStored(s: State)
    requires !s.booting && s.exec.Leave?
    ensures var t := Next(s, Exit);
            && !t.active && t.exec.Gone? && !t.paused && t.signal.None? && t.waiting.None?
            && (s.signal.Some? ==> s.signal.value in t.closed) && s.closed <= t.closed
            && t.status == s.status && t.usage == s.usage && t.events == s.events
  {
  }

  /** A cancellation is requested, stored and announced. */
  lemma CancellationStored(s: State)
    requires !s.booting && s.control.Idle? && s.active && !Terminal(s.status)
    ensures var t := Next(Next(s, CancelLook), CancelMark);
            t.cancelRequested && t.status == s.status
            && Next(t, CancelSave(true)).status == Canceled
                && Next(t, CancelSave(true)).control == Appending(Ended(Canceled))
  {
  }

  /** A cancellation that cannot be stored, or that comes too late, leaves the status as it is; the request stays. */
  lemma CancellationKept(s: State, ok: bool)
    requires !s.booting && s.control.Canceling? && (s.status in {Completed, Failed, Canceled} || !ok)
    ensures var t := Next(s, CancelSave(ok));
            && t.status == s.status && t.events == s.events && t.control.Idle? && t.cancelRequested == s.cancelRequested
            && t.exec == s.exec && (!ok ==> t.usage == s.usage)
  {
  }

  /** The event that is due is written behind the others, with the next number, when nobody else is writing. */
  lemma EventStored(s: State)
    requires Inv(s) && !s.booting && EventLockFree(s) && s.exec.Append? && Admitted(s, s.exec.kind)
    ensures var t := Next(Next(s, Check), Store(true));
            && t.events == s.events + [Event(|s.events| + 1, s.exec.kind)]
            && t.exec == if s.exec.kind.Plain? then Work else Leave
  {
    WriterMayWrite(s, s.exec.kind);
  }

  lemma ControlEventStored(s: State)
    requires Inv(s) && !s.booting && EventLockFree(s) && s.control.Appending? && Admitted(s, s.control.kind)
    ensures var t := Next(Next(s, ControlCheck), ControlStore(true));
            t.events == s.events + [Event(|s.events| + 1, s.control.kind)] && t.control.Idle?
  {
    WriterMayWrite(s, s.control.kind);
  }

  /** An event that cannot be written, or that does not fit the stored end, changes nothing in the log: the work of the
      executor breaks off, or the end stays without its event. */
  lemma EventNotStored(s: State)
    requires !s.booting
    ensures s.exec.Append? && EventLockFree(s) && !Admitted(s, s.exec.kind) ==>
              Next(s, Check) == s.(exec := if s.exec.kind.Plain? then Broken else Leave)
    ensures s.exec.Write? ==>
        Next(s, Store(false)) == s.(exec := if s.exec.kind.Plain? then Broken else Leave,
            lost := s.lost || s.exec.kind.Ended?)
    ensures s.control.Appending? && EventLockFree(s) && !Admitted(s, s.control.kind) ==>
              Next(s, ControlCheck) == s.(control := Idle)
    ensures s.control.Writing? ==>
              Next(s, ControlStore(false)) == s.(control := Idle, lost := s.lost || s.control.kind.Ended?)
  {
  }

  // ---- Pausing and resuming ----

  /** Exactly an active run that has not ended, waits for no approval and is not marked can be paused. */
  lemma PauseExactly(s: State)
    requires !s.booting
    ensures var may := && s.control.Idle? && s.active && !s.paused
                && (s.status.Queued? || s.status.Running? || s.status.Paused?);
            var t := Next(s, Pause(true));
            && (!may ==> t == s)
            && (may ==>
                && t.status.Paused? && t.paused && t.signal.Some? && t.control == Appending(Plain)
                && (s.signal.Some? ==> t.signal == s.signal) && t.exec == s.exec && t.events == s.events)
  {
  }

  /** When the write fails the run is as before, but for its channel. */
  lemma PauseFails(s: State)
    requires !s.booting
    ensures var t := Next(s, Pause(false));
            && t.status == s.status && t.paused == s.paused && t.control == s.control && t.exec == s.exec
            && t.events == s.events && t.usage == s.usage
  {
  }

  /** Exactly an active run that is stored as paused can be resumed; whoever sleeps on its channel may then wake up. */
  lemma ResumeExactly(s: State)
    requires !s.booting
    ensures var may := s.control.Idle? && s.active && s.status.Paused?;
            var t := Next(s, Resume(true));
            && (!may ==> t == s)
            && (may ==>
                && t.status.Running? && !t.paused && t.control == Appending(Plain) && t.exec == s.exec
                && (s.signal.Some? ==> s.signal.value in t.closed))
  {
  }

  /** An executor sleeps when it finds its run marked, and goes on as it was once the channel is closed. */
  lemma SleepsAndWakes(s: State)
    requires !s.booting && (s.exec.Queue? || s.exec.Work? || s.exec.Complete?)
    ensures s.paused && s.signal.Some? ==> Next(s, Look) == s.(waiting := s.signal)
    ensures !s.paused ==> Next(s, Look) == s
    ensures s.waiting.Some? ==> Next(s, Wake) == if s.waiting.value in s.closed then s.(waiting := None) else s
  {
  }

  // ---- Runs that nobody disturbs ----

  /** Nobody cancels or breaks off the run, nothing that it stores fails, and the process lives on. Pausing,
      resuming and approvals may interleave. */
  predicate Gentle(a: Action) {
    match a
    case Quit(_, _) => false
    case CancelLook => false
    case CancelMark => false
    case CancelSave(_) => false
    case Restart => false
    case Start(ok) => ok
    case Approval(_, ok) => ok
    case SaveCompleted(ok) => ok
    case SaveEnd(ok) => ok
    case Store(ok) => ok
    case _ => true
  }

  predicate Undisturbed(s: State, all: seq<Action>) {
    && !s.booting && !s.cancelRequested
        && (s.control.Idle? || s.control == Appending(Plain) || (s.control.Writing? && s.control.kind.Plain?))
    && (s.status.Completed? ==> Done(s.usage) in all)
    && match s.exec
       case Queue => !Terminal(s.status)
       case Work => !Terminal(s.status)
       case Complete(usage) => !Terminal(s.status) && Done(usage) in all
       case Append(kind) => if kind.Plain? then !Terminal(s.status) else kind == Ended(Completed) && s.status.Completed?
       case Write(kind, _) => if kind.Plain? then !Terminal(s.status)
           else kind == Ended(Completed) && s.status.Completed?
       case Leave => EndedCompleted(s)
       case Gone => EndedCompleted(s)
       case Broken => false
       case Finish(_, _) => false
  }

  /** The run is stored as completed, and its log ends with the event of that. */
  predicate EndedCompleted(s: State) {
    s.status.Completed? && Logged(s.events) && s.events[|s.events| - 1].kind == Ended(Completed)
  }

  lemma GentleByExecutor(s: State, a: Action, all: seq<Action>)
    requires Inv(s) && Undisturbed(s, all) && Gentle(a) && (ByExecutor(a) || a.Emit? || a.Done?)
    requires a in all
    ensures Undisturbed(Next(s, a), all)
  {
  }

  lemma GentleStep(s: State, a: Action, all: seq<Action>)
    requires Inv(s) && Undisturbed(s, all) && Gentle(a) && a in all
    ensures Undisturbed(Next(s, a), all)
  {
    if ByExecutor(a) || a.Emit? || a.Done? { GentleByExecutor(s, a, all); }
  }

  lemma {:induction false} GentleOn(s: State, actions: seq<Action>, all: seq<Action>)
    requires Inv(s) && Undisturbed(s, all)
    requires forall a :: a in actions ==> Gentle(a) && a in all
    ensures Undisturbed(Play(s, actions), all)
    decreases |actions|
  {
    if actions != [] {
      NextKeeps(s, actions[0]);
      GentleStep(s, actions[0], all);
      GentleOn(Next(s, actions[0]), actions[1..], all);
    }
  }

  /** The run waits for its start. */
  predicate NotBegun(s: State) {
    s.exec.Queue? && !Terminal(s.status) && !s.booting && !s.cancelRequested && s.control.Idle?
  }

  lemma InitialNotBegun()
    ensures Inv(Initial()) && NotBegun(Initial())
  {
    assert Play(Initial(), []) == Initial();
    PlayKeeps(Initial(), []);
  }

  lemma NotBegunUndisturbed(s: State, all: seq<Action>)
    requires NotBegun(s)
    ensures Undisturbed(s, all)
  {
  }

  /** Never failed or canceled, completed only with the usage the work was done with, and completed, with the event of
      that at the end of the log, when the executor leaves. */
  predicate EndsWell(s: State, actions: seq<Action>) {
    && !s.status.Failed? && !s.status.Canceled?
    && (s.exec.Leave? || s.exec.Gone? ==> EndedCompleted(s))
    && (s.status.Completed? ==> Done(s.usage) in actions)
  }

  lemma UndisturbedEnd(s: State, all: seq<Action>)
    requires Undisturbed(s, all)
    ensures EndsWell(s, all)
  {
  }

  /** A run that nobody disturbs from its start on, however it is paused, resumed and approved, is never stored as
      failed or canceled. When its executor leaves it is stored as completed with the usage its work was done with, and
      its log ends so. */
  lemma {:induction false} EndsCompleted(s: State, actions: seq<Action>)
    requires Inv(s) && NotBegun(s) && forall a :: a in actions ==> Gentle(a)
    ensures EndsWell(Play(s, actions), actions)
  {
    NotBegunUndisturbed(s, actions);
    GentleOn(s, actions, actions);
    UndisturbedEnd(Play(s, actions), actions);
  }

  // ---- What every end was caused by ----

  predicate MayFail(a: Action) {
    a.Restart? || (a.Quit? && a.status.Failed?) || (a.Start? && !a.ok) || (a.SaveCompleted? && !a.ok)
  }

  predicate MayCancel(a: Action) {
    a.CancelMark? || (a.Quit? && a.status.Canceled?)
  }

  /** Nothing has failed. */
  predicate Unfailed(s: State) {
    !s.status.Failed? && !(s.exec.Finish? && s.exec.status.Failed?)
  }

  lemma UnfailedByExecutor(s: State, a: Action)
    requires Unfailed(s) && !MayFail(a) && !s.booting && ByExecutor(a)
    ensures Unfailed(Next(s, a))
  {
  }

  lemma UnfailedStep(s: State, a: Action)
    requires Unfailed(s) && !MayFail(a)
    ensures Unfailed(Next(s, a))
  {
    if !s.booting && ByExecutor(a) { UnfailedByExecutor(s, a); }
  }

  lemma {:induction false} UnfailedOn(s: State, actions: seq<Action>)
    requires Unfailed(s) && forall a :: a in actions ==> !MayFail(a)
    ensures Unfailed(Play(s, actions))
    decreases |actions|
  {
    if actions != [] {
      UnfailedStep(s, actions[0]);
      UnfailedOn(Next(s, actions[0]), actions[1..]);
    }
  }

  /** Nobody has asked to cancel. */
  predicate Uncanceled(s: State) {
    && !s.status.Canceled? && !(s.exec.Finish? && s.exec.status.Canceled?) && !s.cancelRequested
        && !s.control.Canceling?
  }

  lemma UncanceledByExecutor(s: State, a: Action)
    requires Uncanceled(s) && !MayCancel(a) && !s.booting && ByExecutor(a)
    ensures Uncanceled(Next(s, a))
  {
  }

  lemma UncanceledStep(s: State, a: Action)
    requires Uncanceled(s) && !MayCancel(a)
    ensures Uncanceled(Next(s, a))
  {
    if !s.booting && ByExecutor(a) { UncanceledByExecutor(s, a); }
  }

  lemma {:induction false} UncanceledOn(s: State, actions: seq<Action>)
    requires Uncanceled(s) && forall a :: a in actions ==> !MayCancel(a)
    ensures Uncanceled(Play(s, actions))
    decreases |actions|
  {
    if actions != [] {
      UncanceledStep(s, actions[0]);
      UncanceledOn(Next(s, actions[0]), actions[1..]);
    }
  }

  /** The work has not been done. */
  predicate Unfinished(s: State) {
    && !s.status.Completed? && !s.exec.Complete? && !(s.exec.Finish? && s.exec.status.Completed?)
  }

  lemma UnfinishedByExecutor(s: State, a: Action)
    requires Unfinished(s) && !a.Done? && !s.booting && ByExecutor(a)
    ensures Unfinished(Next(s, a))
  {
  }

  lemma UnfinishedStep(s: State, a: Action)
    requires Unfinished(s) && !a.Done?
    ensures Unfinished(Next(s, a))
  {
    if !s.booting && ByExecutor(a) { UnfinishedByExecutor(s, a); }
  }

  lemma {:induction false} UnfinishedOn(s: State, actions: seq<Action>)
    requires Unfinished(s) && forall a :: a in actions ==> !a.Done?
    ensures Unfinished(Play(s, actions))
    decreases |actions|
  {
    if actions != [] {
      UnfinishedStep(s, actions[0]);
      UnfinishedOn(Next(s, actions[0]), actions[1..]);
    }
  }

  /** Nothing has been stored as completed. */
  predicate Uncompleted(s: State) {
    !s.status.Completed? && !(s.exec.Finish? && s.exec.status.Completed?)
  }

  lemma UncompletedByExecutor(s: State, a: Action)
    requires Uncompleted(s) && !(a.SaveCompleted? && a.ok) && !s.booting && ByExecutor(a)
    ensures Uncompleted(Next(s, a))
  {
  }

  lemma UncompletedStep(s: State, a: Action)
    requires Uncompleted(s) && !(a.SaveCompleted? && a.ok)
    ensures Uncompleted(Next(s, a))
  {
    if !s.booting && ByExecutor(a) { UncompletedByExecutor(s, a); }
  }

  lemma {:induction false} UncompletedOn(s: State, actions: seq<Action>)
    requires Uncompleted(s) && forall a :: a in actions ==> !(a.SaveCompleted? && a.ok)
    ensures Uncompleted(Play(s, actions))
    decreases |actions|
  {
    if actions != [] {
      UncompletedStep(s, actions[0]);
      UncompletedOn(Next(s, actions[0]), actions[1..]);
    }
  }

  /** No run fails, is canceled or completes without a cause: a failure comes from an error, a write that failed or a
      restart, a cancellation from a request or a canceled context, and a completion from work that was done. */
  lemma {:induction false} EndsHaveCauses(actions: seq<Action>)
    ensures var s := Play(Initial(), actions);
            && (s.status.Failed? ==> exists a :: a in actions && MayFail(a))
            && (s.status.Canceled? ==> exists a :: a in actions && MayCancel(a))
            && (s.status.Completed? ==> SaveCompleted(true) in actions && exists a :: a in actions && a.Done?)
  {
    var s := Initial();
    if forall a :: a in actions ==> !MayFail(a) { UnfailedOn(s, actions); }
    if forall a :: a in actions ==> !MayCancel(a) { UncanceledOn(s, actions); }
    if forall a :: a in actions ==> !a.Done? { UnfinishedOn(s, actions); }
    if SaveCompleted(true) !in actions {
      assert forall a :: a in actions && a.SaveCompleted? && a.ok ==> a == SaveCompleted(true);
      UncompletedOn(s, actions);
    }
  }
}
