/**
 The durable record of one run (src/application/service.go, run_lifecycle.go, admin.go): its status, its usage and its
 event log, written by the executor of the run and by the thread that holds the start lock (cancel, pause, resume).
 Every step is one region under the control lock or the event lock, or one write; the threads interleave between steps,
 a write may fail, and the process may crash.
 */
module RunRecord {
  import opened Basics

  datatype Status = Queued | Running | Paused | WaitingApproval | Completed | Failed | Canceled

  predicate Terminal(status: Status) {
    status.Completed? || status.Failed? || status.Canceled?
  }

  datatype Usage = Usage(input: nat, output: nat, total: nat)

  /** A usage that may replace another one: present, and no smaller in any part. */
  predicate AtLeast(candidate: Option<Usage>, previous: Option<Usage>) {
    candidate.Some? && (previous.None? ||
      (candidate.value.input >= previous.value.input && candidate.value.output >= previous.value.output
          && candidate.value.total >= previous.value.total))
  }

  /** Plain stands for every event that does not end a run. */
  datatype Kind = Plain | Ended(status: Status)

  datatype Event = Event(sequence: nat, kind: Kind)

  /** Where the executor is. Queue: before the region that marks the run as running; Append: about to take the event
      lock; Write: holding it with the check passed; Broken: the work has failed and is about to be wound up;
      Finish: about to save a terminal status; Leave: about to leave the active table. */
  datatype Exec =
    | Queue
    | Work
    | Complete(usage: Option<Usage>)
    | Append(kind: Kind)
    | Write(kind: Kind, next: nat)
    | Broken
    | Finish(status: Status, usage: Option<Usage>)
    | Leave
    | Gone

  /** Where the thread that holds the start lock is. */
  datatype Control =
    | Idle
    | Marking(usage: Option<Usage>)
    | Canceling(usage: Option<Usage>)
    | Appending(kind: Kind)
    | Writing(kind: Kind, next: nat)

  /** `status`, `usage` and `events` are stored; everything else is lost in a crash. Channels are numbers below
      `unused`. `lost` only records that the terminal event could not be written. */
  datatype State = State(
    status: Status,
    usage: Option<Usage>,
    events: seq<Event>,
    active: bool,
    cancelRequested: bool,
    paused: bool,
    signal: Option<nat>,
    closed: set<nat>,
    unused: nat,
    counter: nat,
    own: nat,
    exec: Exec,
    waiting: Option<nat>,
    control: Control,
    booting: bool,
    lost: bool)

  datatype Action =
    | Look
    | Wake
    | Start(ok: bool)
    | Emit
    | Approval(status: Status, ok: bool)
    | Done(usage: Option<Usage>)
    | SaveCompleted(ok: bool)
    | Quit(status: Status, usage: Option<Usage>)
    | SaveEnd(ok: bool)
    | Check
    | Store(ok: bool)
    | Exit
    | CancelLook
    | CancelMark
    | CancelSave(ok: bool)
    | Pause(ok: bool)
    | Resume(ok: bool)
    | ControlCheck
    | ControlStore(ok: bool)
    | Restart
    | Reconcile(ok: bool)
    | Booted

  // ---- Regions under the control lock ----

  function Closing(s: State): set<nat> {
    if s.signal.Some? then s.closed + {s.signal.value} else s.closed
  }

  function ClearPause(s: State): State {
    s.(paused := false, closed := Closing(s), signal := None)
  }

  /** A late approval callback must not bring a run back that has ended or is being canceled. */
  predicate MaySaveActive(s: State) {
    !(s.active && s.cancelRequested) && !Terminal(s.status)
  }

  function EndStatus(s: State, status: Status): Status {
    if s.active && s.cancelRequested then Canceled else status
  }

  /** The first to save a terminal status wins; later ones can only complete the usage. */
  function SavedEnd(s: State, status: Status, usage: Option<Usage>): State {
    if Terminal(s.status) then (if AtLeast(usage, s.usage) then s.(usage := usage) else s)
    else s.(status := EndStatus(s, status), usage := if AtLeast(usage, s.usage) then usage else s.usage)
  }

  // ---- Regions under the event lock ----

  predicate EventLockFree(s: State) {
    !s.exec.Write? && !s.control.Writing?
  }

  predicate Admitted(s: State, kind: Kind) {
    Terminal(s.status) ==> kind == Ended(s.status)
  }

  function AfterAppend(kind: Kind): Exec {
    if kind.Plain? then Work else Leave
  }

  function AfterFailure(kind: Kind): Exec {
    if kind.Plain? then Broken else Leave
  }

  // ---- The executor ----

  predicate Parked(s: State) {
    s.waiting.Some?
  }

  /** The executor is anywhere before it has decided how the run ends. */
  predicate Early(exec: Exec) {
    exec.Queue? || exec.Work? || exec.Complete? || exec.Broken? || exec == Append(Plain)
        || (exec.Write? && exec.kind.Plain?)
  }

  function OnLook(s: State): State {
    if (s.exec.Queue? || s.exec.Work? || s.exec.Complete?) && s.paused && s.signal.Some? then s.(waiting := s.signal)
        else s
  }

  function OnWake(s: State): State {
    if s.waiting.Some? && s.waiting.value in s.closed then s.(waiting := None) else s
  }

  function OnStart(s: State, ok: bool): State {
    if !s.exec.Queue? || Parked(s) then s
    else if s.active && s.cancelRequested then s.(exec := Leave)
    else if !ok then s.(exec := Finish(Failed, None))
    else s.(status := Running, exec := Append(Plain))
  }

  function OnApproval(s: State, status: Status, ok: bool): State {
    if !s.exec.Work? || Parked(s) || !(status.WaitingApproval? || status.Running?) then s
    else if !MaySaveActive(s) || !ok then s.(exec := Broken)
    else s.(status := status, exec := Append(Plain))
  }

  function OnSaveCompleted(s: State, ok: bool): State {
    if !s.exec.Complete? || Parked(s) then s
    else if s.active && s.cancelRequested then s.(exec := Finish(Canceled, s.exec.usage))
    else if s.paused then s
    else if !ok then s.(exec := Finish(Failed, s.exec.usage))
    else s.(status := Completed, usage := s.exec.usage, exec := Append(Ended(Completed)))
  }

  /** Errors, a canceled context and panics end the work at any point where no event is being written. */
  function OnQuit(s: State, status: Status, usage: Option<Usage>): State {
    if (s.exec.Queue? || s.exec.Work? || s.exec.Complete? || s.exec.Broken?) && (status.Failed? || status.Canceled?)
    then s.(exec := Finish(status, usage), waiting := None) else s
  }

  function OnSaveEnd(s: State, ok: bool): State {
    if !s.exec.Finish? then s
    else if !ok then s.(exec := Leave)
    else
      var t := SavedEnd(s, s.exec.status, s.exec.usage);
      t.(exec := if Terminal(s.status) then Leave else Append(Ended(t.status)))
  }

  function OnCheck(s: State): State {
    if !s.exec.Append? || !EventLockFree(s) then s
    else if !Admitted(s, s.exec.kind) then s.(exec := AfterFailure(s.exec.kind))
    else s.(own := Max(s.own, s.counter), exec := Write(s.exec.kind, Max(s.own, s.counter) + 1))
  }

  function OnStore(s: State, ok: bool): State {
    if !s.exec.Write? then s
    else if !ok then s.(exec := AfterFailure(s.exec.kind), lost := s.lost || s.exec.kind.Ended?)
    else s.(events := s.events
        + [Event(s.exec.next, s.exec.kind)], own := s.exec.next, counter := s.exec.next,
        exec := AfterAppend(s.exec.kind))
  }

  function OnExit(s: State): State {
    if s.exec.Leave? then ClearPause(s).(active := false, exec := Gone, waiting := None) else s
  }

  // ---- The holder of the start lock ----

  function OnCancelSave(s: State, ok: bool): State {
    if !s.control.Canceling? then s
    else if !ok then s.(control := Idle)
    else
      var t := SavedEnd(s, Canceled, s.control.usage);
      t.(control := if Terminal(s.status) then Idle else Appending(Ended(t.status)))
  }

  function OnPause(s: State, ok: bool): State {
    if !s.control.Idle? || Terminal(s.status) || s.status.WaitingApproval? || !s.active || s.paused then s
    else
      var t := if s.signal.None? then s.(paused := true, signal := Some(s.unused), unused := s.unused + 1)
          else s.(paused := true);
      if ok then t.(status := Paused, control := Appending(Plain)) else ClearPause(t)
  }

  function OnResume(s: State, ok: bool): State {
    if !s.control.Idle? || !s.status.Paused? || !s.active || !ok then s
    else s.(status := Running, paused := false, closed := Closing(s), signal := Some(s.unused), unused := s.unused
        + 1, control := Appending(Plain))
  }

  function OnControlCheck(s: State): State {
    if !s.control.Appending? || !EventLockFree(s) then s
    else if !Admitted(s, s.control.kind) then s.(control := Idle)
    else s.(control := Writing(s.control.kind, (if s.counter == 0 then |s.events| else s.counter) + 1))
  }

  function OnControlStore(s: State, ok: bool): State {
    if !s.control.Writing? then s
    else if !ok then s.(control := Idle, lost := s.lost || s.control.kind.Ended?)
    else s.(events := s.events + [Event(s.control.next, s.control.kind)], counter := s.control.next, control := Idle)
  }

  // ---- The process ----

  predicate Logged(events: seq<Event>) {
    events != [] && events[|events| - 1].kind.Ended?
  }

  /** A run that was under way when the process died has failed. */
  function OnRestart(s: State): State {
    var status := if Terminal(s.status) then s.status else Failed;
    State(status, s.usage, s.events, false, false, false, None, {}, 0, 0, 0, Gone, None, Idle, true, !Logged(s.events))
  }

  function OnReconcile(s: State, ok: bool): State {
    if !s.booting || !Terminal(s.status) || Logged(s.events) || !ok then s
    else
      var next := (if s.events == [] then 0 else s.events[|s.events| - 1].sequence) + 1;
      s.(events := s.events + [Event(next, Ended(s.status))], counter := next, lost := false)
  }

  function Next(s: State, a: Action): State {
    if s.booting then
      match a
      case Restart => OnRestart(s)
      case Reconcile(ok) => OnReconcile(s, ok)
      case Booted => s.(booting := false)
      case _ => s
    else
      match a
      case Look => OnLook(s)
      case Wake => OnWake(s)
      case Start(ok) => OnStart(s, ok)
      case Emit => if s.exec.Work? && !Parked(s) then s.(exec := Append(Plain)) else s
      case Approval(status, ok) => OnApproval(s, status, ok)
      case Done(usage) => if s.exec.Work? && !Parked(s) then s.(exec := Complete(usage)) else s
      case SaveCompleted(ok) => OnSaveCompleted(s, ok)
      case Quit(status, usage) => OnQuit(s, status, usage)
      case SaveEnd(ok) => OnSaveEnd(s, ok)
      case Check => OnCheck(s)
      case Store(ok) => OnStore(s, ok)
      case Exit => OnExit(s)
      case CancelLook => if s.control.Idle? && s.active then s.(control := Marking(s.usage)) else s
      case CancelMark =>
        if s.control.Marking? then s.(control := Canceling(s.control.usage), cancelRequested := s.cancelRequested
            || s.active) else s
      case CancelSave(ok) => OnCancelSave(s, ok)
      case Pause(ok) => OnPause(s, ok)
      case Resume(ok) => OnResume(s, ok)
      case ControlCheck => OnControlCheck(s)
      case ControlStore(ok) => OnControlStore(s, ok)
      case Restart => OnRestart(s)
      case _ => s
  }

  function Play(s: State, actions: seq<Action>): State
    decreases |actions|
  {
    if actions == [] then s else Play(Next(s, actions[0]), actions[1..])
  }

  /** A run as it is when its executor starts. */
  function Initial(): State {
    State(Queued, None, [], true, false, false, None, {}, 0, 0, 0, Queue, None, Idle, false, false)
  }

  // ---- The invariant ----

  /** A log that is numbered without gap or repeat and holds at most one terminal event, with nothing behind it, that
      names the stored status. */
  predicate SoundLog(status: Status, events: seq<Event>) {
    && (forall i :: 0 <= i < |events| ==> events[i].sequence == i + 1)
    && (forall i :: 0 <= i < |events| && events[i].kind.Ended? ==>
          i == |events| - 1 && Terminal(status) && events[i].kind == Ended(status))
  }

  predicate ExecClaims(exec: Exec) {
    (exec.Append? || exec.Write?) && exec.kind.Ended?
  }

  predicate ControlClaims(control: Control) {
    (control.Appending? || control.Writing?) && control.kind.Ended?
  }

  function Ticket(held: bool): nat {
    if held then 1 else 0
  }

  /** Exactly one place answers for the terminal event of a run that has ended: the log, a thread, or nobody any
      more. */
  predicate TicketOk(status: Status, logged: bool, exec: Exec, control: Control, lost: bool) {
    && Ticket(logged) + Ticket(ExecClaims(exec)) + Ticket(ControlClaims(control)) + Ticket(lost)
        == Ticket(Terminal(status))
    && (ExecClaims(exec) ==> exec.kind == Ended(status))
    && (ControlClaims(control) ==> control.kind == Ended(status))
  }

  /** Whoever holds the event lock writes the next number, and only while the log is open. */
  predicate LockOk(length: nat, logged: bool, exec: Exec, control: Control, counter: nat, own: nat) {
    && !(exec.Write? && control.Writing?)
    && (exec.Write? ==> exec.next == length + 1 && !logged)
    && (control.Writing? ==> control.next == length + 1 && !logged)
    && (counter == 0 || counter == length) && (!exec.Gone? ==> counter == length)
    && own <= length
  }

  /** Only a cancellation ends a run behind its executor's back, and then the executor can see it. */
  predicate EndOk(status: Status, usage: Option<Usage>, exec: Exec, control: Control, active: bool,
      cancelRequested: bool, booting: bool) {
    && (!exec.Gone? ==> active)
    && (Early(exec) && Terminal(status) ==> cancelRequested)
    && (control.Canceling? && active ==> cancelRequested)
    && (!Terminal(status) ==> usage.None? && !booting)
    && (booting ==> exec.Gone? && control.Idle?)
    && (exec.Finish? ==> Terminal(exec.status))
  }

  /** A paused run has an open channel, and whoever waits for an open channel waits for a run that is paused. */
  predicate SignalOk(closed: set<nat>, unused: nat, signal: Option<nat>, paused: bool, waiting: Option<nat>) {
    && (forall c :: c in closed ==> c < unused)
    && (signal.Some? ==> signal.value < unused && signal.value !in closed)
    && (paused ==> signal.Some?)
    && (waiting.Some? && waiting.value !in closed ==> paused && signal == waiting)
    && (waiting.Some? ==> waiting.value < unused)
  }

  predicate Inv(s: State) {
    && SoundLog(s.status, s.events)
    && TicketOk(s.status, Logged(s.events), s.exec, s.control, s.lost)
    && LockOk(|s.events|, Logged(s.events), s.exec, s.control, s.counter, s.own)
    && EndOk(s.status, s.usage, s.exec, s.control, s.active, s.cancelRequested, s.booting)
    && SignalOk(s.closed, s.unused, s.signal, s.paused, s.waiting)
    && (s.waiting.Some? ==> s.exec.Queue? || s.exec.Work? || s.exec.Complete?)
  }

  /** Whoever passes the check may write: a terminal event by its ticket, any other because the run has not ended. */
  lemma WriterMayWrite(s: State, kind: Kind)
    requires Inv(s) && EventLockFree(s) && Admitted(s, kind)
    requires kind.Ended? ==> s.exec == Append(kind) || s.control == Appending(kind)
    ensures !Logged(s.events)
    ensures (if s.counter == 0 then |s.events| else s.counter) == |s.events|
    ensures !s.exec.Gone? ==> Max(s.own, s.counter) == |s.events|
  {
  }

  /** Who saves the terminal status first takes the ticket; nobody else holds one. */
  lemma SavedEndKeeps(s: State, status: Status, usage: Option<Usage>)
    requires Inv(s) && Terminal(status)
    ensures var t := SavedEnd(s, status, usage);
            && Terminal(t.status) && SoundLog(t.status, t.events) && t == s.(status := t.status, usage := t.usage)
            && (Terminal(s.status) ==> t.status == s.status)
            && (!Terminal(s.status) ==>
                !Logged(s.events) && !ExecClaims(s.exec) && !ControlClaims(s.control) && !s.lost)
            && (!Terminal(s.status) && s.active && s.cancelRequested ==> t.status.Canceled?)
  {
  }

  lemma LookKeeps(s: State)
    requires Inv(s) && !s.booting
    ensures Inv(OnLook(s))
  {
  }

  lemma WakeKeeps(s: State)
    requires Inv(s) && !s.booting
    ensures Inv(OnWake(s))
  {
  }

  lemma StartKeeps(s: State, ok: bool)
    requires Inv(s) && !s.booting
    ensures Inv(OnStart(s, ok))
  {
  }

  lemma ApprovalKeeps(s: State, status: Status, ok: bool)
    requires Inv(s) && !s.booting
    ensures Inv(OnApproval(s, status, ok))
  {
  }

  lemma SaveCompletedKeeps(s: State, ok: bool)
    requires Inv(s) && !s.booting
    ensures var t := OnSaveCompleted(s, ok);
            Inv(t) && (Terminal(s.status) ==> t.status == s.status && t.usage == s.usage && t.events == s.events)
  {
  }

  lemma QuitKeeps(s: State, status: Status, usage: Option<Usage>)
    requires Inv(s) && !s.booting
    ensures Inv(OnQuit(s, status, usage))
  {
  }

  lemma SaveEndKeeps(s: State, ok: bool)
    requires Inv(s) && !s.booting
    ensures Inv(OnSaveEnd(s, ok))
  {
    if s.exec.Finish? && ok { SavedEndKeeps(s, s.exec.status, s.exec.usage); }
  }

  lemma CheckKeeps(s: State)
    requires Inv(s) && !s.booting
    ensures Inv(OnCheck(s))
  {
    if s.exec.Append? && EventLockFree(s) && Admitted(s, s.exec.kind) {
      WriterMayWrite(s, s.exec.kind);
    }
  }

  lemma StoreKeeps(s: State, ok: bool)
    requires Inv(s) && !s.booting
    ensures Inv(OnStore(s, ok))
  {
  }

  lemma ExitKeeps(s: State)
    requires Inv(s) && !s.booting
    ensures Inv(OnExit(s))
  {
  }

  lemma CancelSaveKeeps(s: State, ok: bool)
    requires Inv(s) && !s.booting
    ensures Inv(OnCancelSave(s, ok))
  {
    if s.control.Canceling? && ok { SavedEndKeeps(s, Canceled, s.control.usage); }
  }

  lemma PauseKeeps(s: State, ok: bool)
    requires Inv(s) && !s.booting
    ensures Inv(OnPause(s, ok))
  {
  }

  lemma ResumeKeeps(s: State, ok: bool)
    requires Inv(s) && !s.booting
    ensures Inv(OnResume(s, ok))
  {
  }

  lemma ControlCheckKeeps(s: State)
    requires Inv(s) && !s.booting
    ensures Inv(OnControlCheck(s))
  {
    if s.control.Appending? && EventLockFree(s) && Admitted(s, s.control.kind) {
      WriterMayWrite(s, s.control.kind);
    }
  }

  lemma ControlStoreKeeps(s: State, ok: bool)
    requires Inv(s) && !s.booting
    ensures Inv(OnControlStore(s, ok))
  {
  }

  lemma RestartKeeps(s: State)
    requires Inv(s)
    ensures Inv(OnRestart(s))
  {
  }

  lemma ReconcileKeeps(s: State, ok: bool)
    requires Inv(s) && s.booting
    ensures Inv(OnReconcile(s, ok))
  {
  }

  lemma MinorKeeps(s: State, a: Action)
    requires Inv(s) && !s.booting && (a.Emit? || a.Done? || a.CancelLook? || a.CancelMark?)
    ensures Inv(Next(s, a))
  {
  }

  predicate ByExecutor(a: Action) {
    || a.Look? || a.Wake? || a.Start? || a.Approval? || a.SaveCompleted? || a.Quit? || a.SaveEnd? || a.Check?
        || a.Store? || a.Exit?
  }

  predicate ByControl(a: Action) {
    a.CancelSave? || a.Pause? || a.Resume? || a.ControlCheck? || a.ControlStore?
  }

  lemma ExecutorKeeps(s: State, a: Action)
    requires Inv(s) && !s.booting && ByExecutor(a)
    ensures Inv(Next(s, a))
  {
    match a
    case Look => LookKeeps(s);
    case Wake => WakeKeeps(s);
    case Start(ok) => StartKeeps(s, ok);
    case Approval(status, ok) => ApprovalKeeps(s, status, ok);
    case SaveCompleted(ok) => SaveCompletedKeeps(s, ok);
    case Quit(status, usage) => QuitKeeps(s, status, usage);
    case SaveEnd(ok) => SaveEndKeeps(s, ok);
    case Check => CheckKeeps(s);
    case Store(ok) => StoreKeeps(s, ok);
    case Exit => ExitKeeps(s);
  }

  lemma ControlKeeps(s: State, a: Action)
    requires Inv(s) && !s.booting && ByControl(a)
    ensures Inv(Next(s, a))
  {
    match a
    case CancelSave(ok) => CancelSaveKeeps(s, ok);
    case Pause(ok) => PauseKeeps(s, ok);
    case Resume(ok) => ResumeKeeps(s, ok);
    case ControlCheck => ControlCheckKeeps(s);
    case ControlStore(ok) => ControlStoreKeeps(s, ok);
  }

  lemma ProcessKeeps(s: State, a: Action)
    requires Inv(s) && (s.booting || a.Restart? || a.Reconcile? || a.Booted?)
    ensures Inv(Next(s, a))
  {
    if a.Restart? {
      RestartKeeps(s);
    } else if s.booting && a.Reconcile? {
      ReconcileKeeps(s, a.ok);
    }
  }

  lemma NextKeeps(s: State, a: Action)
    requires Inv(s)
    ensures Inv(Next(s, a))
  {
    if s.booting || a.Restart? || a.Reconcile? || a.Booted? {
      ProcessKeeps(s, a);
    } else if ByExecutor(a) {
      ExecutorKeeps(s, a);
    } else if ByControl(a) {
      ControlKeeps(s, a);
    } else {
      MinorKeeps(s, a);
    }
  }

  lemma {:induction false} PlayKeeps(s: State, actions: seq<Action>)
    requires Inv(s)
    ensures Inv(Play(s, actions))
    decreases |actions|
  {
    if actions != [] {
      NextKeeps(s, actions[0]);
      PlayKeeps(Next(s, actions[0]), actions[1..]);
    }
  }

  // ---- What holds in every interleaving ----

  /** The event log of a run is sound, and a run that has ended has its terminal event in the log, or one thread is
      about to write it, or writing it has failed. */
  lemma {:induction false} EventLogIsSound(actions: seq<Action>)
    ensures var s := Play(Initial(), actions);
            && SoundLog(s.status, s.events)
            && (Terminal(s.status) ==> Logged(s.events) || ExecClaims(s.exec) || ControlClaims(s.control) || s.lost)
            && !(ExecClaims(s.exec) && ControlClaims(s.control))
  {
    PlayKeeps(Initial(), actions);
  }

  predicate NumbersFit(s: State) {
    && (s.exec.Write? ==> s.exec.next == |s.events| + 1)
    && (s.control.Writing? ==> s.control.next == |s.events| + 1)
    && !(s.exec.Write? && s.control.Writing?)
  }

  lemma InvNumbers(s: State)
    requires Inv(s)
    ensures NumbersFit(s)
  {
  }

  /** The store never has to reject an event for its number. */
  lemma {:induction false} NumbersAlwaysFit(actions: seq<Action>)
    ensures NumbersFit(Play(Initial(), actions))
  {
    PlayKeeps(Initial(), actions);
    InvNumbers(Play(Initial(), actions));
  }

  predicate Grows(before: Option<Usage>, after: Option<Usage>) {
    before.None? || after == before || AtLeast(after, before)
  }

  predicate Absorbs(s: State, t: State) {
    (Terminal(s.status) ==> t.status == s.status) && Grows(s.usage, t.usage) && s.events <= t.events
  }

  lemma ExecAbsorbs(s: State, a: Action)
    requires Inv(s) && !s.booting
    requires a.Start? || a.Approval? || a.SaveCompleted?
    ensures Absorbs(s, Next(s, a))
  {
  }

  lemma EndAbsorbs(s: State, a: Action)
    requires Inv(s) && !s.booting && a.SaveEnd?
    ensures Absorbs(s, Next(s, a))
  {
  }

  lemma CancelAbsorbs(s: State, a: Action)
    requires Inv(s) && !s.booting && a.CancelSave?
    ensures Absorbs(s, Next(s, a))
  {
  }

  lemma ControlAbsorbs(s: State, a: Action)
    requires Inv(s) && !s.booting && (a.Pause? || a.Resume?)
    ensures Absorbs(s, Next(s, a))
  {
  }

  lemma StoreAbsorbs(s: State, a: Action)
    requires Inv(s) && !s.booting && (a.Store? || a.ControlStore?)
    ensures Absorbs(s, Next(s, a))
  {
  }

  lemma OtherAbsorbs(s: State, a: Action)
    requires Inv(s) && !s.booting
    requires a.Look? || a.Wake? || a.Emit? || a.Done? || a.Quit?
    ensures Absorbs(s, Next(s, a))
  {
  }

  lemma StepAbsorbs(s: State, a: Action)
    requires Inv(s) && !s.booting
    requires a.Check? || a.Exit? || a.CancelLook? || a.CancelMark? || a.ControlCheck?
    ensures Absorbs(s, Next(s, a))
  {
  }

  lemma BootAbsorbs(s: State, a: Action)
    requires Inv(s) && (s.booting || a.Restart? || a.Reconcile? || a.Booted?)
    ensures Absorbs(s, Next(s, a))
  {
  }

  lemma NextAbsorbs(s: State, a: Action)
    requires Inv(s)
    ensures Absorbs(s, Next(s, a))
  {
    if s.booting || a.Restart? || a.Reconcile? || a.Booted? {
      BootAbsorbs(s, a);
    } else if a.Start? || a.Approval? || a.SaveCompleted? {
      ExecAbsorbs(s, a);
    } else if a.SaveEnd? {
      EndAbsorbs(s, a);
    } else if a.CancelSave? {
      CancelAbsorbs(s, a);
    } else if a.Pause? || a.Resume? {
      ControlAbsorbs(s, a);
    } else if a.Store? || a.ControlStore? {
      StoreAbsorbs(s, a);
    } else if a.Look? || a.Wake? || a.Emit? || a.Done? || a.Quit? {
      OtherAbsorbs(s, a);
    } else {
      StepAbsorbs(s, a);
    }
  }

  lemma GrowsOn(a: Option<Usage>, b: Option<Usage>, c: Option<Usage>)
    requires Grows(a, b) && Grows(b, c)
    ensures Grows(a, c)
  {
  }

  /** A run that has ended keeps its status for good, its usage never becomes smaller in any part, and no event is ever
      taken back, whatever callbacks, cancellations, pauses, failures, completions and crashes come later. */
  lemma {:induction false} EndIsFinal(s: State, actions: seq<Action>)
    requires Inv(s)
    ensures Absorbs(s, Play(s, actions))
    decreases |actions|
  {
    if actions != [] {
      var t := Next(s, actions[0]);
      NextKeeps(s, actions[0]);
      NextAbsorbs(s, actions[0]);
      EndIsFinal(t, actions[1..]);
      GrowsOn(s.usage, t.usage, Play(s, actions).usage);
    }
  }

  /** No wake-up is lost: whoever waits for a channel that is still open waits for a run that is marked as paused, and
      whenever the mark is taken away the channel is closed. */
  lemma {:induction false} NoLostWakeUp(actions: seq<Action>)
    ensures var s := Play(Initial(), actions);
            && (s.waiting.Some? && s.waiting.value !in s.closed ==> s.paused && s.signal == s.waiting)
            && (s.paused ==> s.signal.Some? && s.signal.value !in s.closed)
  {
    PlayKeeps(Initial(), actions);
  }

  /** Not an invariant: the run may be marked as paused while its stored status says that it is running, because the
      executor that is about to start does not look at the mark again. */
  lemma PausedWhileRunning()
    ensures var s := Play(Initial(), [Pause(true), Start(true)]); s.paused && s.status.Running?
  {
    var a, b := Pause(true), Start(true);
    assert [a, b][1..] == [b] && [b][1..] == [];
    var s := Next(Initial(), a);
    assert Play(Initial(), [a, b]) == Play(s, [b]);
    assert Play(s, [b]) == Play(Next(s, b), []);
  }

  // ---- The source's own form ----

  /** What one turn of the completion loop does: it stores the end, fails to, finds a cancellation, or has to wait. */
  datatype Turn = Saved | NotSaved | CanceledTurn | Wait

  function TurnOf(canceled: bool, paused: bool, ok: bool): Turn {
    if canceled then CanceledTurn else if paused then Wait else if ok then Saved else NotSaved
  }

  /** The run is paused and not being canceled. */
  predicate WaitsIn(s: State) {
    s.paused && !(s.active && s.cancelRequested)
  }

  /** The service as far as one run is concerned. Where the threads are is ghost; the methods are the lock regions. */
  class Service {
    var status: Status
    var usage: Option<Usage>
    var events: seq<Event>
    var active: bool
    var cancelRequested: bool
    var paused: bool
    var signal: Option<nat>
    var closed: set<nat>
    var unused: nat
    var counter: nat
    var own: nat
    ghost var exec: Exec
    ghost var waiting: Option<nat>
    ghost var control: Control
    ghost var booting: bool
    ghost var lost: bool

    constructor ()
      ensures View() == Initial()
    {
      status, usage, events, active, cancelRequested, paused := Queued, None, [], true, false, false;
      signal, closed, unused, counter, own := None, {}, 0, 0, 0;
      exec, waiting, control, booting, lost := Queue, None, Idle, false, false;
    }

    ghost function View(): State
      reads this
    {
      State(status, usage, events, active, cancelRequested, paused, signal, closed, unused, counter, own, exec,
          waiting, control, booting, lost)
    }

    method SaveActiveRun(to: Status, ok: bool) returns (saved: bool)
      modifies this`status
      ensures saved <==> MaySaveActive(old(View())) && ok
      ensures View() == if saved then old(View()).(status := to) else old(View())
    {
      saved := false;
      if active && cancelRequested {
        return;
      }
      if Terminal(status) {
        return;
      }
      if ok {
        status := to;
      }
      saved := ok;
    }

    method SaveTerminalRun(to: Status, used: Option<Usage>, ok: bool) returns (changed: bool)
      modifies this`status, this`usage
      ensures View() == if ok then SavedEnd(old(View()), to, used) else old(View())
      ensures changed <==> ok && !Terminal(old(status))
    {
      changed := false;
      if Terminal(status) {
        if AtLeast(used, usage) && ok {
          usage := used;
        }
        return;
      }
      var final, kept := to, used;
      if !AtLeast(kept, usage) {
        kept := usage;
      }
      if active && cancelRequested && !final.Canceled? {
        final := Canceled;
      }
      if !ok {
        return;
      }
      status, usage, changed := final, kept, true;
    }

    /** One turn of the completion loop, under the control lock. */
    method SaveCompleted(used: Option<Usage>, ok: bool) returns (turn: Turn)
      requires exec == Complete(used) && waiting.None?
      modifies this`status, this`usage, this`exec
      ensures View() == OnSaveCompleted(old(View()), ok)
      ensures turn == TurnOf(active && cancelRequested, paused, ok)
      ensures turn.Saved? ==> status.Completed? && usage == used && exec == Append(Ended(Completed))
      ensures !turn.Saved? ==> status == old(status) && usage == old(usage)
    {
      if active && cancelRequested {
        exec := Finish(Canceled, used);
        return CanceledTurn;
      }
      if paused {
        return Wait;
      }
      if !ok {
        exec := Finish(Failed, used);
        return NotSaved;
      }
      status, usage, exec := Completed, used, Append(Ended(Completed));
      return Saved;
    }

    /** The state that the other threads have left when the executor comes back from waiting. */
    method Adopt(s: State)
      modifies this
      ensures View() == s
    {
      AdoptRecord(s);
      AdoptThreads(s);
    }

    method AdoptRecord(s: State)
      modifies this`status, this`usage, this`events, this`counter, this`own, this`lost
      ensures status == s.status && usage == s.usage && events == s.events
      ensures counter == s.counter && own == s.own && lost == s.lost
    {
      status, usage, events := s.status, s.usage, s.events;
      counter, own, lost := s.counter, s.own, s.lost;
    }

    method AdoptThreads(s: State)
      modifies this`active, this`cancelRequested, this`paused, this`signal, this`closed, this`unused
      modifies this`exec, this`waiting, this`control, this`booting
      ensures active == s.active && cancelRequested == s.cancelRequested && paused == s.paused
      ensures signal == s.signal && closed == s.closed && unused == s.unused
      ensures exec == s.exec && waiting == s.waiting && control == s.control && booting == s.booting
    {
      active, cancelRequested, paused := s.active, s.cancelRequested, s.paused;
      signal, closed, unused := s.signal, s.closed, s.unused;
      exec, waiting, control, booting := s.exec, s.waiting, s.control, s.booting;
    }

    /** The completion loop. `turns` are the states in which the executor comes back from waiting. The first turn in
        which the run is being canceled or is not paused decides, and until then nothing is stored. */
    method CompleteRun(used: Option<Usage>, ok: bool, turns: seq<State>) returns (turn: Turn, ghost n: nat)
      requires exec == Complete(used) && waiting.None?
      requires forall k :: 0 <= k < |turns| ==> turns[k].exec == Complete(used) && turns[k].waiting.None?
      modifies this
      ensures n <= |turns| && View() == OnSaveCompleted(([old(View())] + turns)[n], ok)
      ensures forall k :: 0 <= k < n ==> WaitsIn(([old(View())] + turns)[k])
      ensures turn.Wait? ==> n == |turns| && WaitsIn(([old(View())] + turns)[n])
      ensures !turn.Wait? ==> !WaitsIn(([old(View())] + turns)[n])
      ensures turn.Saved? ==> status.Completed? && usage == used && exec == Append(Ended(Completed))
    {
      ghost var states := [View()] + turns;
      n := 0;
      turn := SaveCompleted(used, ok);
      var next := 0;
      while turn.Wait? && next < |turns|
        invariant 0 <= next <= |turns| && n == next && View() == OnSaveCompleted(states[n], ok)
        invariant forall k :: 0 <= k < n ==> WaitsIn(states[k])
        invariant turn.Wait? <==> WaitsIn(states[n])
        invariant turn.Saved? ==> status.Completed? && usage == used && exec == Append(Ended(Completed))
      {
        Adopt(turns[next]);
        next, n := next + 1, n + 1;
        turn := SaveCompleted(used, ok);
      }
    }

    /** Waits for nothing: a paused run is marked, its waiters get a channel and its stored status says so. */
    method PauseRun(ok: bool) returns (accepted: bool)
      requires control.Idle?
      modifies this
      ensures View() == OnPause(old(View()), ok)
      ensures accepted ==> paused
    {
      if Terminal(status) || status.WaitingApproval? || !active {
        return false;
      }
      if paused {
        return true;
      }
      paused := true;
      if signal.None? {
        signal, unused := Some(unused), unused + 1;
      }
      if !ok {
        ClearRunPauseLocked();
        return false;
      }
      status, control := Paused, Appending(Plain);
      return true;
    }

    method ResumeRun(ok: bool) returns (accepted: bool)
      requires control.Idle?
      modifies this
      ensures View() == OnResume(old(View()), ok)
      ensures accepted ==> !paused && (old(signal).Some? ==> old(signal).value in closed)
    {
      if !status.Paused? || !active || !ok {
        return false;
      }
      status, paused := Running, false;
      if signal.Some? {
        closed := closed + {signal.value};
      }
      signal, unused, control := Some(unused), unused + 1, Appending(Plain);
      return true;
    }

    method ClearRunPauseLocked()
      modifies this`paused, this`closed, this`signal
      ensures View() == ClearPause(old(View()))
    {
      paused := false;
      if signal.Some? {
        closed := closed + {signal.value};
      }
      signal := None;
    }

    method ClearActive()
      requires exec.Leave?
      modifies this
      ensures View() == OnExit(old(View()))
    {
      active := false;
      ClearRunPauseLocked();
      exec, waiting := Gone, None;
    }

    /** Takes the event lock and the next number, unless the run has ended otherwise than the event says. */
    method CheckEvent(kind: Kind) returns (admitted: bool, next: nat)
      requires exec == Append(kind) && EventLockFree(View())
      modifies this`own, this`exec
      ensures View() == OnCheck(old(View()))
      ensures admitted <==> Admitted(old(View()), kind)
      ensures admitted ==> exec == Write(kind, next)
    {
      next := 0;
      admitted := !(Terminal(status) && kind != Ended(status));
      if !admitted {
        exec := AfterFailure(kind);
        return;
      }
      if counter > own {
        own := counter;
      }
      next := own + 1;
      exec := Write(kind, next);
    }

    method StoreEvent(kind: Kind, next: nat, ok: bool)
      requires exec == Write(kind, next)
      modifies this`events, this`own, this`counter, this`exec, this`lost
      ensures View() == OnStore(old(View()), ok)
    {
      if !ok {
        exec, lost := AfterFailure(kind), lost || kind.Ended?;
        return;
      }
      events := events + [Event(next, kind)];
      own, counter, exec := next, next, AfterAppend(kind);
    }

    /** The whole region under the event lock, as the executor runs it. */
    method AppendEvent(kind: Kind, ok: bool) returns (written: bool)
      requires Inv(View()) && exec == Append(kind) && EventLockFree(View())
      modifies this
      ensures View() == if Admitted(old(View()), kind) then OnStore(OnCheck(old(View())), ok) else OnCheck(old(View()))
      ensures written <==> Admitted(old(View()), kind) && ok
      ensures Inv(View()) && old(events) <= events && |events| == |old(events)| + (if written then 1 else 0)
    {
      CheckKeeps(View());
      var next;
      written, next := CheckEvent(kind);
      if !written {
        return;
      }
      StoreKeeps(View(), ok);
      StoreEvent(kind, next, ok);
      written := ok;
    }
  }
}
