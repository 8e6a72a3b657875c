/** Dispatching tool calls over all runs of a session (src/harness/tools.go, loop.go). */
module ToolDispatch {
  import opened Basics
  import opened ToolRecovery
  import opened LoopGuard

  // Each run may end at any point: an operation of unknown outcome is never sent again without somebody approving
  // that very call.

  // ---- Admitting one call ----

  datatype Decision = Interrupted | Denied | Approved(permanent: bool)

  /** What decides about a call besides the guard. */
  datatype Grounds = Grounds(
    available: bool,
    contractHolds: bool,
    hookRefuses: bool,
    approvals: bool,
    exempt: bool,
    permanent: bool,
    required: bool,
    decision: Decision)

  datatype Status = Waiting | Cleared(asked: bool) | Sent | Ended(known: bool)

  /** Whether somebody is asked. An operation of unknown outcome is asked about whatever was exempted or approved
      before. */
  predicate MustAsk(unknown: bool, g: Grounds) {
    g.approvals && (unknown || (!g.exempt && !g.permanent && g.required))
  }

  /** The guard stops the call, unless somebody can be asked about an unknown outcome. */
  predicate Stopped(verdict: Verdict, g: Grounds) {
    verdict.Refused? || verdict.Skipped? || (verdict.OutcomeUnknown? && !g.approvals)
  }

  /** A call that is not admitted ends with a known result: it was not dispatched. */
  function Admission(verdict: Verdict, g: Grounds): Status {
    if !g.available || !g.contractHolds then Ended(true)
    else if Stopped(verdict, g) then Ended(true)
    else if g.hookRefuses then Ended(true)
    else if MustAsk(verdict.OutcomeUnknown?, g) && !g.decision.Approved? then Ended(true)
    else Cleared(MustAsk(verdict.OutcomeUnknown?, g))
  }

  // ---- The runs of a session ----

  datatype Item = Item(call: Call, status: Status)

  /** A run: its guard, the group of calls under way and the calls of the turn that follow. What it found in the
      record when it began, the guard it began with and what that was told since are only remembered. */
  datatype Run = Run(id: Id, began: nat, first: Guard, guard: Guard, acts: seq<Act>, group: seq<Item>, later: seq<Call>)

  /** The record survives a crash, the run does not. */
  datatype State = State(log: seq<Event>, run: Option<Run>)

  datatype Action =
    | Begin(id: Id, mutating: set<string>)
    | Recatalog(mutating: set<string>)
    | Turn(calls: seq<Call>)
    | Take(count: nat)
    | Admit(k: nat, request: Request, grounds: Grounds, refusal: Outcome)
    | Send(k: nat)
    | Finish(k: nat, request: Request, outcome: Outcome)
    | Record
    | Skip
    | Die

  predicate GoodCalls(calls: seq<Call>) {
    (forall i :: 0 <= i < |calls| ==> calls[i].id != BLANK) && forall i, j ::
        0 <= i < j < |calls| ==> calls[i].id != calls[j].id
  }

  predicate AllEnded(group: seq<Item>) {
    forall i :: 0 <= i < |group| ==> group[i].status.Ended?
  }

  predicate NewId(log: seq<Event>, id: Id) {
    forall e :: e in log && e.Dispatched? ==> e.run != id
  }

  /** A run begins with a guard that takes for uncertain what the record leaves open. */
  function NewRun(log: seq<Event>, id: Id, mutating: set<string>): Run {
    var guard := NewGuard(mutating, Uncertain(log));
    Run(id, |log|, guard, guard, [], [], [])
  }

  function Items(calls: seq<Call>): seq<Item> {
    seq(|calls|, i requires 0 <= i < |calls| => Item(calls[i], Waiting))
  }

  function Told(r: Run, a: Act): Run {
    r.(guard := LoopGuard.Next(r.guard, a), acts := r.acts + [a])
  }

  /** What the guard learns when a call is considered: it is asked if the call is available at all, and told about a
      refusal that was not its own. */
  function Considered(r: Run, request: Request, g: Grounds, refusal: Outcome): Run {
    if !g.available || !g.contractHolds then r
    else
      var verdict := Before(r.guard, request).1;
      var asked := Told(r, Ask(request));
      if Admission(verdict, g).Ended? && !Stopped(verdict, g) then Told(asked, See(request, refusal)) else asked
  }

  function Set(s: State, r: Run, k: nat, status: Status): State
    requires k < |r.group|
  {
    s.(run := Some(r.(group := r.group[k := r.group[k].(status := status)])))
  }

  function Dispatch(r: Run, item: Item): Event {
    Dispatched(item.call.id, item.call.signature, r.id, item.call.signature.tool in r.guard.mutating,
        item.status.Cleared? && item.status.asked)
  }

  function Next(s: State, a: Action): State {
    if a.Begin? then
      if s.run.Some? || !NewId(s.log, a.id) then s else s.(run := Some(NewRun(s.log, a.id, a.mutating)))
    else if s.run.None? then s
    else
      var r := s.run.value;
      match a
      case Recatalog(mutating) => if r.group == [] && r.later == [] then s.(run := Some(Told(r, Change(mutating))))
          else s
      case Turn(calls) =>
        if r.group == [] && r.later == []
            && GoodCalls(calls) then State(s.log + Declarations(calls), Some(r.(later := calls))) else s
      case Take(count) =>
        if r.group == [] && 0 < count <= |r.later|
            && (count == 1 || forall i :: 0 <= i < count ==> r.later[i].signature.tool !in r.guard.mutating)
        then s.(run := Some(r.(group := Items(r.later[..count]), later := r.later[count..])))
        else s
      case Admit(k, request, grounds, refusal) =>
        if k < |r.group| && r.group[k].status.Waiting? && request.signature == r.group[k].call.signature
            && refusal.Failed?
        then Set(s, Considered(r, request, grounds, refusal), k, Admission(Before(r.guard, request).1, grounds))
        else s
      case Send(k) =>
        if k < |r.group| && r.group[k].status.Cleared?
        then Set(s, r, k, Sent).(log := s.log + [Dispatch(r, r.group[k])])
        else s
      case Finish(k, request, outcome) =>
        if k < |r.group| && r.group[k].status.Sent? && request.signature == r.group[k].call.signature
        then Set(s, Told(r, See(request, outcome)), k, Ended(!outcome.Unknown?))
        else s
      case Record =>
        if r.group != [] && AllEnded(r.group)
        then State(s.log
            + [if r.group[0].status.known then Resolved(r.group[0].call.id) else Noted(r.group[0].call.id)],
                   Some(r.(group := r.group[1..])))
        else s
      case Skip =>
        if r.group == []
            && r.later != [] then State(s.log + [Resolved(r.later[0].id)], Some(r.(later := r.later[1..]))) else s
      case Die => s.(run := None)
      case _ => s
  }

  /** A run begins exactly where none is under way, under an id that no dispatch carries, and finds uncertain what the
      record leaves open. */
  lemma BeginExactly(s: State, id: Id, mutating: set<string>)
    ensures var t := Next(s, Begin(id, mutating));
            if s.run.None? && forall i :: 0 <= i < |s.log| && s.log[i].Dispatched? ==> s.log[i].run != id then
              && t.log == s.log && t.run.Some? && t.run.value.id == id
              && t.run.value.guard.uncertain == Uncertain(s.log) && t.run.value.guard.mutating == mutating
              && t.run.value.group == [] && t.run.value.later == []
            else t == s
  {
    if s.run.None? && forall i :: 0 <= i < |s.log| && s.log[i].Dispatched? ==> s.log[i].run != id {
      assert NewId(s.log, id);
    } else if s.run.None? {
      var i :| 0 <= i < |s.log| && s.log[i].Dispatched? && s.log[i].run == id;
      assert s.log[i] in s.log;
    }
  }

  function Play(s: State, actions: seq<Action>): State
    decreases |actions|
  {
    if actions == [] then s else Play(Next(s, actions[0]), actions[1..])
  }

  // ---- What is promised ----

  predicate Redeclared(log: seq<Event>, i: nat, n: nat)
    requires i < n <= |log| && log[i].Dispatched?
  {
    exists m :: i < m < n && log[m].Declared? && log[m].id == log[i].id
  }

  /** No result but "unknown" has been recorded for the call since it was dispatched. A result behind a new
      declaration of the same call id belongs to another call. */
  predicate Unresolved(log: seq<Event>, i: nat, n: nat)
    requires i < n <= |log|
  {
    log[i].Dispatched? && forall k :: i < k < n && log[k] == Resolved(log[i].id) ==> Redeclared(log, i, k)
  }

  /** An operation with side effects that was dispatched before, in another run or with side effects too, and whose
      earlier result is not known, was dispatched again only because somebody approved that very call. */
  predicate SafeAt(log: seq<Event>, j: nat)
    requires j < |log|
  {
    log[j].Dispatched? && log[j].mutating ==>
      forall i :: 0 <= i < j && Unresolved(log, i, j) && log[i].signature == log[j].signature
                  && (log[i].mutating || log[i].run != log[j].run)
                  ==> log[j].approved
  }

  predicate Safe(log: seq<Event>) {
    forall j :: 0 <= j < |log| ==> SafeAt(log, j)
  }

  // ---- The invariant ----

  /** Every dispatch belongs to the declaration that is open under its call id. */
  predicate Consistent(log: seq<Event>) {
    forall i :: 0 <= i < |log| && log[i].Dispatched? ==> OpenAt(log[..i], log[i].id, log[i].signature)
  }

  predicate OpenAt(log: seq<Event>, id: Id, signature: Signature) {
    id != BLANK && id in Track(log).pending && Track(log).pending[id] == signature
  }

  /** The dispatch belongs to the one call under way, whose result will be recorded. */
  predicate InFlight(log: seq<Event>, r: Run, i: nat)
    requires i < |log| && log[i].Dispatched?
  {
    && |r.group| == 1 && r.group[0].call == Call(log[i].id, log[i].signature) && !Redeclared(log, i, |log|)
    && log[i].signature.tool in r.guard.mutating
    && (r.group[0].status.Sent? || (r.group[0].status.Ended? && r.group[0].status.known))
  }

  predicate Covered(log: seq<Event>, r: Run) {
    forall i :: 0 <= i < |log| && Unresolved(log, i, |log|) && (log[i].mutating || log[i].run != r.id)
                ==> log[i].signature in r.guard.uncertain || InFlight(log, r, i)
  }

  predicate ItemOk(log: seq<Event>, r: Run, item: Item) {
    && OpenAt(log, item.call.id, item.call.signature)
    && (item.call.signature.tool in r.guard.mutating ==> |r.group| == 1)
    && (item.call.signature.tool in r.guard.mutating && item.call.signature in r.guard.uncertain ==>
          item.status.Cleared? ==> item.status.asked)
  }

  function GroupCalls(group: seq<Item>): seq<Call> {
    seq(|group|, i requires 0 <= i < |group| => group[i].call)
  }

  predicate RunOk(log: seq<Event>, r: Run) {
    && Covered(log, r)
    && (forall k :: 0 <= k < |r.group| ==> ItemOk(log, r, r.group[k]))
    && (forall k :: 0 <= k < |r.later| ==> OpenAt(log, r.later[k].id, r.later[k].signature))
    && GoodCalls(GroupCalls(r.group) + r.later)
  }

  predicate Inv(s: State) {
    && Safe(s.log) && Consistent(s.log)
    && (s.run.Some? ==> RunOk(s.log, s.run.value))
  }

  // ---- One event more ----

  lemma UnresolvedBefore(log: seq<Event>, more: seq<Event>, i: nat)
    requires i < |log| && Unresolved(log + more, i, |log + more|)
    ensures Unresolved(log, i, |log|)
  {
    var all := log + more;
    forall k | i < k < |log| && log[k] == Resolved(log[i].id) ensures Redeclared(log, i, k) {
      assert all[k] == log[k];
      assert Redeclared(all, i, k);
      var m :| i < m < k && all[m].Declared? && all[m].id == all[i].id;
      assert log[m] == all[m];
    }
  }

  lemma UnresolvedPrefix(log: seq<Event>, more: seq<Event>, i: nat, n: nat)
    requires i < n <= |log|
    ensures Unresolved(log + more, i, n) <==> Unresolved(log, i, n)
  {
    var all := log + more;
    forall k | i < k <= n && log[i].Dispatched? ensures Redeclared(all, i, k) <==> Redeclared(log, i, k) {
      assert forall m :: 0 <= m < |log| ==> all[m] == log[m];
    }
    assert forall m :: 0 <= m < |log| ==> all[m] == log[m];
  }

  lemma SafeBefore(log: seq<Event>, more: seq<Event>)
    requires Safe(log) && forall e :: e in more ==> !e.Dispatched?
    ensures Safe(log + more)
  {
    var all := log + more;
    forall j | 0 <= j < |all| ensures SafeAt(all, j) {
      if j < |log| {
        SafePrefix(log, more, j);
      } else {
        assert all[j] == more[j - |log|];
      }
    }
  }

  lemma SafePrefix(log: seq<Event>, more: seq<Event>, j: nat)
    requires j < |log| && SafeAt(log, j)
    ensures SafeAt(log + more, j)
  {
    var all := log + more;
    assert all[j] == log[j];
    if log[j].Dispatched? && log[j].mutating {
      forall i | 0 <= i < j && Unresolved(all, i, j) && all[i].signature == all[j].signature
          && (all[i].mutating || all[i].run != all[j].run)
        ensures all[j].approved
      {
        assert all[i] == log[i];
        UnresolvedPrefix(log, more, i, j);
      }
    }
  }

  lemma ConsistentBefore(log: seq<Event>, more: seq<Event>)
    requires Consistent(log) && forall e :: e in more ==> !e.Dispatched?
    ensures Consistent(log + more)
  {
    var all := log + more;
    assert forall i :: |log| <= i < |all| ==> all[i] in more;
    forall i | 0 <= i < |all| && all[i].Dispatched? ensures OpenAt(all[..i], all[i].id, all[i].signature) {
      assert all[..i] == log[..i] && all[i] == log[i];
    }
  }

  lemma {:induction false} TrackOne(log: seq<Event>, e: Event)
    ensures Track(log + [e]) == Update(Track(log), e)
  {
    assert (log + [e])[..|log|] == log;
  }

  // ---- Recovery covers every open dispatch ----

  /** As long as no known result was recorded, a dispatched operation is under way or was given up. */
  lemma {:induction false} StillTracked(log: seq<Event>, i: nat, n: nat)
    requires i < n <= |log| && Consistent(log) && Unresolved(log, i, n)
    ensures log[i].signature in Track(log[..n]).settled
        || (!Redeclared(log, i, n) && OpenAt(log[..n], log[i].id, log[i].signature))
    decreases n
  {
    var e := log[n - 1];
    assert log[..n] == log[..n - 1] + [e];
    TrackOne(log[..n - 1], e);
    if i < n - 1 {
      assert Unresolved(log, i, n - 1);
      StillTracked(log, i, n - 1);
      if e.Dispatched? && e.id == log[i].id {
        assert OpenAt(log[..n - 1], e.id, e.signature);
      }
    } else {
      assert OpenAt(log[..i], log[i].id, log[i].signature);
    }
  }

  lemma RecoveryCovers(log: seq<Event>, i: nat)
    requires i < |log| && Consistent(log) && Unresolved(log, i, |log|)
    ensures log[i].signature in Uncertain(log)
  {
    StillTracked(log, i, |log|);
    assert log[..|log|] == log;
  }

  // ---- Every action keeps it ----

  lemma BeginKeeps(s: State, id: Id, mutating: set<string>)
    requires Inv(s) && s.run.None?
    ensures Inv(s.(run := Some(NewRun(s.log, id, mutating))))
  {
    var r := NewRun(s.log, id, mutating);
    forall i | 0 <= i < |s.log| && Unresolved(s.log, i, |s.log|) ensures s.log[i].signature in r.guard.uncertain {
      RecoveryCovers(s.log, i);
    }
    assert GroupCalls([]) + [] == [];
  }

  lemma RecatalogKeeps(s: State, r: Run, mutating: set<string>)
    requires Inv(s) && s.run == Some(r) && r.group == [] && r.later == []
    ensures Inv(s.(run := Some(Told(r, Change(mutating)))))
  {
    var t := Told(r, Change(mutating));
    forall i | 0 <= i < |s.log| && Unresolved(s.log, i, |s.log|) && (s.log[i].mutating || s.log[i].run != t.id)
      ensures s.log[i].signature in t.guard.uncertain
    {
      assert !InFlight(s.log, r, i);
    }
  }

  lemma {:induction false} DeclarationsOpen(log: seq<Event>, calls: seq<Call>)
    requires GoodCalls(calls)
    ensures forall k :: 0 <= k < |calls| ==> OpenAt(log + Declarations(calls), calls[k].id, calls[k].signature)
    ensures forall e :: e in Declarations(calls) ==> e.Declared?
    decreases |calls|
  {
    if calls != [] {
      var n := |calls| - 1;
      var front, last := calls[..n], Declared(calls[n].id, calls[n].signature);
      DeclarationsOpen(log, front);
      assert log + Declarations(calls) == (log + Declarations(front)) + [last];
      TrackOne(log + Declarations(front), last);
      forall k | 0 <= k < n ensures OpenAt(log + Declarations(calls), calls[k].id, calls[k].signature) {
        assert front[k] == calls[k];
      }
    }
  }

  /** A quiet stretch of the record leaves every open dispatch covered by what the run already avoids. */
  lemma CoveredLater(log: seq<Event>, more: seq<Event>, r: Run, t: Run)
    requires Covered(log, r) && t.id == r.id && r.guard.uncertain <= t.guard.uncertain
    requires forall e :: e in more ==> !e.Dispatched?
    requires forall i ::
        0 <= i < |log| && log[i].Dispatched? && InFlight(log, r, i) && Unresolved(log + more, i, |log + more|) ==>
               log[i].signature in t.guard.uncertain || InFlight(log + more, t, i)
    ensures Covered(log + more, t)
  {
    var all := log + more;
    assert forall i :: |log| <= i < |all| ==> all[i] in more;
    forall i | 0 <= i < |all| && Unresolved(all, i, |all|) && (all[i].mutating || all[i].run != t.id)
      ensures all[i].signature in t.guard.uncertain || InFlight(all, t, i)
    {
      assert all[i] == log[i];
      UnresolvedBefore(log, more, i);
    }
  }

  lemma {:induction false} TurnKeeps(s: State, r: Run, calls: seq<Call>)
    requires Inv(s) && s.run == Some(r) && r.group == [] && r.later == [] && GoodCalls(calls)
    ensures Inv(State(s.log + Declarations(calls), Some(r.(later := calls))))
  {
    var more := Declarations(calls);
    DeclarationsOpen(s.log, calls);
    SafeBefore(s.log, more);
    ConsistentBefore(s.log, more);
    CoveredLater(s.log, more, r, r.(later := calls));
    assert GroupCalls([]) + calls == calls;
  }

  lemma TakeKeeps(s: State, r: Run, count: nat)
    requires Inv(s) && s.run == Some(r) && r.group == [] && 0 < count <= |r.later|
    requires count == 1 || forall i :: 0 <= i < count ==> r.later[i].signature.tool !in r.guard.mutating
    ensures Inv(s.(run := Some(r.(group := Items(r.later[..count]), later := r.later[count..]))))
  {
    var t := r.(group := Items(r.later[..count]), later := r.later[count..]);
    assert s.log + [] == s.log;
    CoveredLater(s.log, [], r, t);
    TakenItems(s.log, t, r.later[..count]);
    assert GroupCalls(t.group) + t.later == r.later;
    assert GroupCalls(r.group) + r.later == r.later;
  }

  lemma TakenItems(log: seq<Event>, t: Run, calls: seq<Call>)
    requires t.group == Items(calls)
        && (|calls| == 1 || forall i :: 0 <= i < |calls| ==> calls[i].signature.tool !in t.guard.mutating)
    requires forall k :: 0 <= k < |calls| ==> OpenAt(log, calls[k].id, calls[k].signature)
    ensures forall k :: 0 <= k < |t.group| ==> ItemOk(log, t, t.group[k])
    ensures GroupCalls(t.group) == calls
  {
    forall k | 0 <= k < |t.group| ensures ItemOk(log, t, t.group[k]) {
      assert t.group[k].call == calls[k];
    }
  }

  /** Considering a call changes neither the catalogue nor what is uncertain. */
  lemma ConsideredKeeps(r: Run, request: Request, g: Grounds, refusal: Outcome)
    requires refusal.Failed?
    ensures var t := Considered(r, request, g, refusal);
            && t.guard.mutating == r.guard.mutating && t.guard.uncertain == r.guard.uncertain
            && t == r.(guard := t.guard, acts := t.acts)
  {
    AskKeeps(r.guard, request);
    SeeKeeps(Told(r, Ask(request)).guard, request, refusal);
  }

  lemma AdmitKeeps(s: State, r: Run, k: nat, request: Request, grounds: Grounds, refusal: Outcome)
    requires Inv(s) && s.run == Some(r) && k < |r.group| && r.group[k].status.Waiting?
    requires request.signature == r.group[k].call.signature && refusal.Failed?
    ensures Inv(Set(s, Considered(r, request, grounds, refusal), k, Admission(Before(r.guard, request).1, grounds)))
  {
    var status := Admission(Before(r.guard, request).1, grounds);
    ConsideredKeeps(r, request, grounds, refusal);
    var t := Considered(r, request, grounds, refusal).(group := r.group[k := r.group[k].(status := status)]);
    assert s.log + [] == s.log;
    CoveredLater(s.log, [], r, t);
    forall n | 0 <= n < |t.group| ensures ItemOk(s.log, t, t.group[n]) {
      assert ItemOk(s.log, r, r.group[n]);
    }
    SameCalls(r.group, t.group);
  }

  lemma SameCalls(a: seq<Item>, b: seq<Item>)
    requires |a| == |b| && forall i :: 0 <= i < |a| ==> a[i].call == b[i].call
    ensures GroupCalls(a) == GroupCalls(b)
  {
  }

  lemma SendKeeps(s: State, r: Run, k: nat)
    requires Inv(s) && s.run == Some(r) && k < |r.group| && r.group[k].status.Cleared?
    ensures Inv(Set(s, r, k, Sent).(log := s.log + [Dispatch(r, r.group[k])]))
  {
    var item, e := r.group[k], Dispatch(r, r.group[k]);
    var t, all := r.(group := r.group[k := item.(status := Sent)]), s.log + [e];
    assert ItemOk(s.log, r, item);
    SendSafe(s, r, k);
    SendConsistent(s, r, k);
    SendCovered(s, r, k);
    TrackOne(s.log, e);
    forall n | 0 <= n < |t.group| ensures ItemOk(all, t, t.group[n]) {
      assert ItemOk(s.log, r, r.group[n]);
      assert GroupCalls(r.group)[n] == r.group[n].call && GroupCalls(r.group)[k] == item.call;
    }
    SameCalls(r.group, t.group);
  }

  lemma SendSafe(s: State, r: Run, k: nat)
    requires Inv(s) && s.run == Some(r) && k < |r.group| && r.group[k].status.Cleared?
    ensures Safe(s.log + [Dispatch(r, r.group[k])])
  {
    var item, e := r.group[k], Dispatch(r, r.group[k]);
    var all := s.log + [e];
    assert ItemOk(s.log, r, item);
    forall j | 0 <= j < |all| ensures SafeAt(all, j) {
      if j < |s.log| {
        SafePrefix(s.log, [e], j);
      } else if e.mutating {
        forall i | 0 <= i < j && Unresolved(all, i, j) && all[i].signature == e.signature
            && (all[i].mutating || all[i].run != e.run)
          ensures e.approved
        {
          assert all[i] == s.log[i];
          UnresolvedPrefix(s.log, [e], i, j);
          assert !InFlight(s.log, r, i);
        }
      }
    }
  }

  lemma SendConsistent(s: State, r: Run, k: nat)
    requires Inv(s) && s.run == Some(r) && k < |r.group| && r.group[k].status.Cleared?
    ensures Consistent(s.log + [Dispatch(r, r.group[k])])
  {
    var e := Dispatch(r, r.group[k]);
    var all := s.log + [e];
    assert ItemOk(s.log, r, r.group[k]);
    forall i | 0 <= i < |all| && all[i].Dispatched? ensures OpenAt(all[..i], all[i].id, all[i].signature) {
      if i < |s.log| {
        assert all[..i] == s.log[..i] && all[i] == s.log[i];
      } else {
        assert all[..i] == s.log;
      }
    }
  }

  lemma SendCovered(s: State, r: Run, k: nat)
    requires Inv(s) && s.run == Some(r) && k < |r.group| && r.group[k].status.Cleared?
    ensures Covered(s.log + [Dispatch(r, r.group[k])], r.(group := r.group[k := r.group[k].(status := Sent)]))
  {
    var item, e := r.group[k], Dispatch(r, r.group[k]);
    var all, t := s.log + [e], r.(group := r.group[k := item.(status := Sent)]);
    assert ItemOk(s.log, r, item);
    forall i | 0 <= i < |all| && Unresolved(all, i, |all|) && (all[i].mutating || all[i].run != t.id)
      ensures all[i].signature in t.guard.uncertain || InFlight(all, t, i)
    {
      if i < |s.log| {
        assert all[i] == s.log[i];
        UnresolvedBefore(s.log, [e], i);
        assert !InFlight(s.log, r, i);
      } else {
        assert InFlight(all, t, i);
      }
    }
  }

  lemma FinishKeeps(s: State, r: Run, k: nat, request: Request, outcome: Outcome)
    requires Inv(s) && s.run == Some(r) && k < |r.group| && r.group[k].status.Sent?
    requires request.signature == r.group[k].call.signature
    ensures Inv(Set(s, Told(r, See(request, outcome)), k, Ended(!outcome.Unknown?)))
  {
    var item := r.group[k];
    var t := Told(r, See(request, outcome)).(group := r.group[k := item.(status := Ended(!outcome.Unknown?))]);
    SeeKeeps(r.guard, request, outcome);
    assert ItemOk(s.log, r, item);
    assert s.log + [] == s.log;
    CoveredLater(s.log, [], r, t);
    forall n | 0 <= n < |t.group| ensures ItemOk(s.log, t, t.group[n]) {
      assert ItemOk(s.log, r, r.group[n]);
    }
    SameCalls(r.group, t.group);
  }

  lemma RecordKeeps(s: State, r: Run)
    requires Inv(s) && s.run == Some(r) && r.group != [] && AllEnded(r.group)
    ensures Inv(Next(s, Record))
  {
    var item := r.group[0];
    var e := if item.status.known then Resolved(item.call.id) else Noted(item.call.id);
    var t := r.(group := r.group[1..]);
    SafeBefore(s.log, [e]);
    ConsistentBefore(s.log, [e]);
    TrackOne(s.log, e);
    CoveredLater(s.log, [e], r, t);
    StayOpen(s, r, e);
    assert GroupCalls(t.group) + t.later == (GroupCalls(r.group) + r.later)[1..];
  }

  /** Closing the first call leaves the others open: their ids differ. */
  lemma StayOpen(s: State, r: Run, e: Event)
    requires Inv(s) && s.run == Some(r) && r.group != []
        && (e == Resolved(r.group[0].call.id) || e == Noted(r.group[0].call.id))
    ensures forall k :: 0 <= k < |r.group[1..]| ==> ItemOk(s.log + [e], r.(group := r.group[1..]), r.group[1..][k])
    ensures forall k :: 0 <= k < |r.later| ==> OpenAt(s.log + [e], r.later[k].id, r.later[k].signature)
  {
    TrackOne(s.log, e);
    var calls := GroupCalls(r.group) + r.later;
    assert calls[0] == r.group[0].call;
    forall k | 0 <= k < |r.group[1..]| ensures ItemOk(s.log + [e], r.(group := r.group[1..]), r.group[1..][k]) {
      assert ItemOk(s.log, r, r.group[k + 1]) && calls[k + 1] == r.group[k + 1].call;
    }
    forall k | 0 <= k < |r.later| ensures OpenAt(s.log + [e], r.later[k].id, r.later[k].signature) {
      assert calls[|r.group| + k] == r.later[k];
    }
  }

  lemma SkipKeeps(s: State, r: Run)
    requires Inv(s) && s.run == Some(r) && r.group == [] && r.later != []
    ensures Inv(Next(s, Skip))
  {
    var e, t := Resolved(r.later[0].id), r.(later := r.later[1..]);
    SafeBefore(s.log, [e]);
    ConsistentBefore(s.log, [e]);
    CoveredLater(s.log, [e], r, t);
    assert GroupCalls(r.group) + r.later == r.later && GroupCalls(t.group) + t.later == t.later;
    LaterStayOpen(s.log, r.later);
  }

  lemma LaterStayOpen(log: seq<Event>, calls: seq<Call>)
    requires calls != [] && GoodCalls(calls)
    requires forall k :: 0 <= k < |calls| ==> OpenAt(log, calls[k].id, calls[k].signature)
    ensures forall k ::
        0 <= k < |calls[1..]| ==> OpenAt(log + [Resolved(calls[0].id)], calls[1..][k].id, calls[1..][k].signature)
  {
    TrackOne(log, Resolved(calls[0].id));
    forall k | 0 <= k < |calls[1..]| ensures OpenAt(log
        + [Resolved(calls[0].id)], calls[1..][k].id, calls[1..][k].signature) {
      assert calls[1..][k] == calls[k + 1];
    }
  }

  lemma NextKeeps(s: State, a: Action)
    requires Inv(s)
    ensures Inv(Next(s, a))
  {
    if a.Begin? {
      if s.run.None? { BeginKeeps(s, a.id, a.mutating); }
    } else if s.run.Some? && Next(s, a) != s {
      var r := s.run.value;
      match a
      case Recatalog(mutating) => RecatalogKeeps(s, r, mutating);
      case Turn(calls) => TurnKeeps(s, r, calls);
      case Take(count) => TakeKeeps(s, r, count);
      case Admit(k, request, grounds, refusal) => AdmitKeeps(s, r, k, request, grounds, refusal);
      case Send(k) => SendKeeps(s, r, k);
      case Finish(k, request, outcome) => FinishKeeps(s, r, k, request, outcome);
      case Record => RecordKeeps(s, r);
      case Skip => SkipKeeps(s, r);
      case Die =>
      case _ =>
    }
  }

  lemma {:induction false} PlayKeeps(s: State, actions: seq<Action>)
    requires Inv(s)
    ensures Inv(Play(s, actions))
    decreases |actions|
  {
    if actions != [] {
      NextKeeps(s, actions[0]);
      PlayKeeps(Next(s, actions[0]), actions[1..]);
    }
  }

  /** Over any number of runs and crashes of a session: nothing of unknown outcome is sent again unasked. */
  lemma {:induction false} NeverResentUnasked(actions: seq<Action>)
    ensures Safe(Play(State([], None), actions).log)
  {
    PlayKeeps(State([], None), actions);
  }
}
