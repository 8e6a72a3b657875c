/** Executing the tool calls of a turn (src/harness/tools.go). */
module ToolRunner {
  import opened Basics
  import Approval
  import opened ToolRecovery
  import opened LoopGuard
  import opened ToolDispatch
  import opened DispatchRules

  // Cutting them into groups and taking one call from the guard over the approval and the record to the tool.

  // ---- Groups ----

  const MAX_PARALLEL := 8

  function Concat(groups: seq<seq<Call>>): seq<Call> {
    if groups == [] then [] else Concat(groups[..|groups| - 1]) + groups[|groups| - 1]
  }

  predicate Parallel(group: seq<Call>, parallel: set<string>) {
    forall i :: 0 <= i < |group| ==> group[i].signature.tool in parallel
  }

  predicate GoodGroup(group: seq<Call>, parallel: set<string>) {
    if |group| == 1 then true else 0 < |group| <= MAX_PARALLEL && Parallel(group, parallel)
  }

  /** Groups in the order of the calls; a group of parallel calls is followed by another only when it is full. */
  predicate WellCut(groups: seq<seq<Call>>, parallel: set<string>) {
    groups == [] ||
      var n := |groups| - 1;
      WellCut(groups[..n], parallel) && GoodGroup(groups[n], parallel)
          && (n > 0 ==> Follows(groups[n - 1], groups[n], parallel))
  }

  predicate MayFollow(groups: seq<seq<Call>>, parallel: set<string>) {
    groups != [] ==> Follows(groups[|groups| - 1], [], parallel)
  }

  predicate Follows(a: seq<Call>, b: seq<Call>, parallel: set<string>) {
    Parallel(a, parallel) && Parallel(b, parallel) ==> |a| == MAX_PARALLEL
  }

  /** Cuts the calls of a turn into groups. Only calls that may run in parallel share a group. */
  method GroupToolCalls(calls: seq<Call>, parallel: set<string>) returns (groups: seq<seq<Call>>)
    ensures Concat(groups) == calls && WellCut(groups, parallel)
  {
    groups := [];
    var current: seq<Call> := [];
    for i := 0 to |calls|
      invariant Concat(groups) + current == calls[..i] && WellCut(groups, parallel)
      invariant |current| < MAX_PARALLEL && Parallel(current, parallel)
      invariant MayFollow(groups, parallel)
    {
      assert calls[..i + 1] == calls[..i] + [calls[i]];
      groups, current := AddCall(groups, current, calls[i], parallel);
    }
    assert calls[..|calls|] == calls;
    groups := Flush(groups, current, parallel);
  }

  method AddCall(before: seq<seq<Call>>, open: seq<Call>, call: Call, parallel: set<string>)
    returns (groups: seq<seq<Call>>, current: seq<Call>)
    requires WellCut(before, parallel) && |open| < MAX_PARALLEL && Parallel(open, parallel)
        && MayFollow(before, parallel)
    ensures WellCut(groups, parallel) && |current| < MAX_PARALLEL && Parallel(current, parallel)
        && MayFollow(groups, parallel)
    ensures Concat(groups) + current == Concat(before) + open + [call]
  {
    groups, current := before, open;
    if call.signature.tool !in parallel {
      groups := Flush(groups, current, parallel);
      current := [];
      groups := Single(groups, call, parallel);
      return;
    }
    current := current + [call];
    if |current| == MAX_PARALLEL {
      groups := Flush(groups, current, parallel);
      current := [];
    }
  }

  method Single(groups: seq<seq<Call>>, call: Call, parallel: set<string>) returns (more: seq<seq<Call>>)
    requires WellCut(groups, parallel) && call.signature.tool !in parallel
    ensures WellCut(more, parallel) && Concat(more) == Concat(groups) + [call] && MayFollow(more, parallel)
  {
    assert [call][0].signature.tool !in parallel;
    GroupMore(groups, [call], parallel);
    more := groups + [[call]];
  }

  method Flush(groups: seq<seq<Call>>, current: seq<Call>, parallel: set<string>) returns (flushed: seq<seq<Call>>)
    requires WellCut(groups, parallel) && |current| <= MAX_PARALLEL && Parallel(current, parallel)
        && MayFollow(groups, parallel)
    ensures current == [] || |current| == MAX_PARALLEL ==> MayFollow(flushed, parallel)
    ensures WellCut(flushed, parallel) && Concat(flushed) == Concat(groups) + current
    ensures flushed == if current == [] then groups else groups + [current]
  {
    flushed := groups;
    if current != [] {
      GroupMore(groups, current, parallel);
      flushed := groups + [current];
    }
  }

  lemma {:induction false} GroupMore(groups: seq<seq<Call>>, group: seq<Call>, parallel: set<string>)
    requires WellCut(groups, parallel) && GoodGroup(group, parallel)
    requires groups != [] ==> Follows(groups[|groups| - 1], group, parallel)
    ensures WellCut(groups + [group], parallel) && Concat(groups + [group]) == Concat(groups) + group
  {
    var more := groups + [group];
    assert more[..|groups|] == groups && more[|groups|] == group;
    assert groups != [] ==> more[|groups| - 1] == groups[|groups| - 1];
  }

  lemma {:induction false} ConcatFirst(groups: seq<seq<Call>>)
    requires groups != []
    ensures Concat(groups) == groups[0] + Concat(groups[1..])
  {
    var n := |groups| - 1;
    if n > 0 {
      ConcatFirst(groups[..n]);
      assert groups[1..][..n - 1] == groups[..n][1..] && groups[1..][n - 1] == groups[n];
      assert groups[0] + (Concat(groups[..n][1..]) + groups[n]) == (groups[0] + Concat(groups[..n][1..])) + groups[n];
    } else {
      assert groups[1..] == [] && Concat(groups[..0]) == [];
      assert [] + groups[0] == groups[0] && groups[0] + [] == groups[0];
    }
  }

  /** The groups are what the machine of the session takes, one after the other: only read-only calls run in
      parallel. */
  lemma {:induction false} GroupIsTaken(s: State, r: Run, groups: seq<seq<Call>>, k: nat, parallel: set<string>)
    requires s.run == Some(r) && r.group == [] && k < |groups| && WellCut(groups, parallel)
        && parallel !! r.guard.mutating
    requires r.later == Concat(groups[k..])
    ensures ToolDispatch.Next(s, Take(|groups[k]|))
        == s.(run := Some(r.(group := Items(groups[k]), later := Concat(groups[k + 1..]))))
  {
    var group, back := groups[k], Concat(groups[k + 1..]);
    ConcatFirst(groups[k..]);
    assert groups[k..][1..] == groups[k + 1..] && r.later == group + back;
    GroupGood(groups, k, parallel);
    assert r.later[..|group|] == group && r.later[|group|..] == back;
    assert forall i :: 0 <= i < |group| ==> r.later[i] == group[i];
  }

  lemma {:induction false} GroupGood(groups: seq<seq<Call>>, k: nat, parallel: set<string>)
    requires k < |groups| && WellCut(groups, parallel)
    ensures GoodGroup(groups[k], parallel)
    decreases |groups|
  {
    if k < |groups| - 1 {
      assert groups[..|groups| - 1][k] == groups[k];
      GroupGood(groups[..|groups| - 1], k, parallel);
    }
  }

  // ---- One call ----

  /** What happens around a call that its grounds do not tell: writes and events that fail, a canceled context, and
      how the tool ends. */
  datatype Fate = Fate(
    askedEventOk: bool,
    resolvedEventOk: bool,
    refusal: Outcome,
    canceled: bool,
    recorded: bool,
    outcome: Outcome)

  /** Broken is an error that ends the run; Refusal is a result that says the call was not dispatched. */
  datatype End = Broken | Refusal | Executed(outcome: Outcome)

  /** The coordinator takes a request unless its id is in use or the run is already waiting. */
  predicate MayBegin(approvals: Approval.State, id: Approval.Id, run: Approval.Id) {
    id !in approvals.pending && run !in approvals.byRun
  }

  /** Asking somebody fails with an error. */
  predicate AskBreaks(mayBegin: bool, g: Grounds, fate: Fate) {
    !mayBegin || !fate.askedEventOk || (!g.decision.Interrupted? && !fate.resolvedEventOk)
  }

  /** How a call ends. */
  function EndOf(verdict: Verdict, mayBegin: bool, g: Grounds, fate: Fate): End {
    var admitted := Admission(verdict, g);
    if g.available && g.contractHolds && !Stopped(verdict, g) && !g.hookRefuses && MustAsk(verdict.OutcomeUnknown?, g)
       && AskBreaks(mayBegin, g, fate) then Broken
    else if !admitted.Cleared? then Refusal
    else if fate.canceled || !fate.recorded then Broken
    else Executed(fate.outcome)
  }

  /** Who is asked, in plain terms: a call is executed without an approval only if none is required of it, and then
      nothing that could happen while somebody is asked stands against it. */
  lemma EndExactly(verdict: Verdict, mayBegin: bool, g: Grounds, fate: Fate)
    ensures EndOf(verdict, mayBegin, g, fate).Executed? <==>
              && g.available && g.contractHolds && !g.hookRefuses && !fate.canceled && fate.recorded
              && (verdict.Proceed? || (verdict.OutcomeUnknown? && g.approvals))
              && (g.approvals && (verdict.OutcomeUnknown? || (g.required && !g.exempt && !g.permanent)) ==>
                    && g.decision.Approved? && mayBegin && fate.askedEventOk && fate.resolvedEventOk)
    ensures EndOf(verdict, mayBegin, g, fate).Executed? ==> EndOf(verdict, mayBegin, g, fate).outcome == fate.outcome
    ensures EndOf(verdict, mayBegin, g, fate).Broken? <==>
              && g.available && g.contractHolds && !g.hookRefuses
              && (verdict.Proceed? || (verdict.OutcomeUnknown? && g.approvals))
              && var asked := g.approvals && (verdict.OutcomeUnknown? || (g.required && !g.exempt && !g.permanent));
                 var heard := mayBegin && fate.askedEventOk && (g.decision.Interrupted? || fate.resolvedEventOk);
                 (asked && !heard) || ((asked ==> g.decision.Approved?) && (fate.canceled || !fate.recorded))
  {
  }

  /** What the guard has learned from a call: how it ended, unless the guard stopped it or an error ended the run. */
  function GuardAfter(before: Guard, r: Request, g: Grounds, fate: Fate, end: End): Guard {
    if !g.available || !g.contractHolds then before
    else
      var (asked, verdict) := Before(before, r);
      if end.Executed? then Observe(asked, r, end.outcome)
      else if end.Refusal? && !Stopped(verdict, g) then Observe(asked, r, fate.refusal)
      else asked
  }

  class Runner {
    const guard: ToolLoopGuard
    const approvals: Approval.Coordinator
    var log: seq<Event>
    var permanent: bool

    constructor (guard: ToolLoopGuard, approvals: Approval.Coordinator, log: seq<Event>, permanent: bool)
      ensures this.guard == guard && this.approvals == approvals && this.log == log && this.permanent == permanent
    {
      this.guard, this.approvals, this.log, this.permanent := guard, approvals, log, permanent;
    }

    /** Asks somebody about a call. The answer reaches the coordinator while the call waits there; however the
        asking ends, the coordinator holds no trace of it. */
    method Ask(id: Approval.Id, run: Approval.Id, g: Grounds, once: bool, fate: Fate)
        returns (broken: bool, approved: bool)
      requires Approval.Valid(approvals.View())
      modifies this`permanent, approvals
      ensures broken <==> AskBreaks(MayBegin(old(approvals.View()), id, run), g, fate)
      ensures approved <==> !broken && g.decision.Approved?
      ensures approvals.View() == old(approvals.View())
      ensures permanent
          == (old(permanent)
          || (!once && MayBegin(old(approvals.View()), id, run) && fate.askedEventOk && g.decision == Approved(true)))
    {
      broken, approved := false, false;
      var error := approvals.Begin(id, run);
      if error.Some? {
        return true, false;
      }
      if !fate.askedEventOk {
        approvals.Cancel(id);
        Forgotten(old(approvals.View()), id, run);
        return true, false;
      }
      if !g.decision.Interrupted? {
        var late := approvals.Decide(run, id, if g.decision.Denied? then Approval.Deny
            else Approval.Approve(g.decision.permanent));
      }
      var decision := approvals.Wait(id, g.decision.Interrupted?);
      Forgotten(old(approvals.View()), id, run);
      if decision.None? {
        return;
      }
      if decision.value.Approve? && decision.value.permanent && !once {
        permanent := true;
      }
      if !fate.resolvedEventOk {
        return true, false;
      }
      approved := decision.value.Approve?;
    }

    /** The hook and, where somebody has to be asked, the answer. */
    method AskIfNeeded(id: Approval.Id, run: Approval.Id, g: Grounds, unknown: bool, fate: Fate)
        returns (broken: bool, refused: bool)
      requires Approval.Valid(approvals.View())
      modifies this`permanent, approvals
      ensures broken <==>
          !g.hookRefuses && MustAsk(unknown, g) && AskBreaks(MayBegin(old(approvals.View()), id, run), g, fate)
      ensures !broken ==> (refused <==> g.hookRefuses || (MustAsk(unknown, g) && !g.decision.Approved?))
      ensures approvals.View() == old(approvals.View())
      ensures permanent ==
          (|| old(permanent)
           || (!g.hookRefuses && MustAsk(unknown, g) && !unknown && MayBegin(old(approvals.View()), id, run)
               && fate.askedEventOk && g.decision == Approved(true)))
    {
      broken, refused := false, g.hookRefuses;
      if !refused && MustAsk(unknown, g) {
        var approved;
        broken, approved := Ask(id, run, g, unknown, fate);
        refused := !approved;
      }
    }

    /** Asks the guard and, where that is needed, somebody. */
    method Consider(r: Request, run: Id, approval: Approval.Id, g: Grounds, fate: Fate)
        returns (broken: bool, stopped: bool, refused: bool, asked: bool)
      requires g.permanent == permanent && Approval.Valid(approvals.View()) && g.available && g.contractHolds
      modifies this`permanent, guard, approvals
      ensures var verdict := Before(old(guard.View()), r).1;
              var mayBegin := MayBegin(old(approvals.View()), approval, run);
              && stopped == Stopped(verdict, g)
              && broken
                  == (!stopped && !g.hookRefuses && MustAsk(verdict.OutcomeUnknown?, g) && AskBreaks(mayBegin, g, fate))
              && (!stopped && !broken ==> refused == !Admission(verdict, g).Cleared?)
              && (!stopped && !broken && !refused ==> asked == MustAsk(verdict.OutcomeUnknown?, g))
              && (verdict.OutcomeUnknown? || !NeedsApproval(g) ==> permanent == old(permanent))
      ensures guard.View() == Before(old(guard.View()), r).0 && approvals.View() == old(approvals.View())
    {
      var verdict := guard.Admit(r);
      var unknown := verdict.OutcomeUnknown?;
      if !verdict.Proceed? && (!unknown || !g.approvals) {
        return false, true, false, false;
      }
      stopped, asked := false, MustAsk(unknown, g);
      broken, refused := AskIfNeeded(approval, run, g, unknown, fate);
    }

    /** Records the dispatch and runs the tool. */
    method Dispatch(callId: Id, r: Request, run: Id, fate: Fate, asked: bool) returns (end: End)
      modifies this`log, guard
      ensures end == if fate.canceled || !fate.recorded then Broken else Executed(fate.outcome)
      ensures guard.View() == if end.Executed? then Observe(old(guard.View()), r, fate.outcome) else old(guard.View())
      ensures log == if !end.Executed? then old(log)
                     else old(log) + [Dispatched(callId, r.signature, run, r.signature.tool in guard.mutating, asked)]
    {
      if fate.canceled || !fate.recorded {
        return Broken;
      }
      log := log + [Dispatched(callId, r.signature, run, r.signature.tool in guard.mutating, asked)];
      guard.See(r, fate.outcome);
      return Executed(fate.outcome);
    }

    /** Executes one call. The record of the dispatch is written before the tool runs, and only for a call that is
        admitted; an operation of unknown outcome is admitted only by an approval that is given for this call and
        lasts no longer, and a call that requires approval only by that. */
    method ExecuteToolCall(callId: Id, r: Request, run: Id, approval: Approval.Id, g: Grounds, fate: Fate)
        returns (end: End)
      requires g.permanent == permanent && fate.refusal.Failed? && Approval.Valid(approvals.View())
      modifies this, guard, approvals
      ensures var verdict := Before(old(guard.View()), r).1;
              end == EndOf(verdict, MayBegin(old(approvals.View()), approval, run), g, fate)
      ensures end.Executed? && g.approvals && g.required && !g.exempt && !g.permanent ==> g.decision.Approved?
      ensures end.Executed? && Before(old(guard.View()), r).1.OutcomeUnknown? ==> g.approvals && g.decision.Approved?
      ensures Before(old(guard.View()), r).1.OutcomeUnknown? ==> permanent == old(permanent)
      ensures !g.approvals || !g.required || g.exempt || g.permanent ==> permanent == old(permanent)
      ensures approvals.View() == old(approvals.View())
          && guard.View() == GuardAfter(old(guard.View()), r, g, fate, end)
      ensures log == if !end.Executed? then old(log)
                     else old(log) + [Dispatched(callId, r.signature, run, r.signature.tool in guard.mutating,
                         Admission(Before(old(guard.View()), r).1, g).asked)]
    {
      ghost var verdict := Before(guard.View(), r).1;
      EndExactly(verdict, MayBegin(approvals.View(), approval, run), g, fate);
      if !g.available || !g.contractHolds {
        return Refusal;
      }
      var broken, stopped, refused, asked := Consider(r, run, approval, g, fate);
      if stopped {
        return Refusal;
      }
      if broken {
        return Broken;
      }
      if refused {
        guard.See(r, fate.refusal);
        return Refusal;
      }
      end := Dispatch(callId, r, run, fate, asked);
    }
  }

  /** A request that is begun and ended leaves the coordinator as it was, decided in between or not. */
  lemma Forgotten(s: Approval.State, id: Approval.Id, run: Approval.Id)
    requires MayBegin(s, id, run)
    ensures Approval.Canceled(Approval.Begun(s, id, run), id) == s
    ensures forall d :: Approval.Canceled(Approval.Decided(Approval.Begun(s, id, run), run, id, d), id) == s
  {
  }

  // ---- The call and the machine of the session ----

  /** The guard learns the outcome of a call that was executed and the refusal of one that it let through itself; a call
      that breaks off teaches it nothing. */
  lemma GuardLearns(before: Guard, r: Request, verdict: Verdict, mayBegin: bool, g: Grounds, fate: Fate)
    requires verdict == Before(before, r).1 && g.available && g.contractHolds
    ensures var end := EndOf(verdict, mayBegin, g, fate);
            var after := GuardAfter(before, r, g, fate, end);
            && (end.Executed? ==> after == Observe(Before(before, r).0, r, fate.outcome))
            && (end.Broken? ==> after == Before(before, r).0)
            && (end.Refusal? && verdict.Proceed? ==> after == Observe(Before(before, r).0, r, fate.refusal))
            && (verdict.Refused? || verdict.Skipped? ==> end.Refusal? && after == Before(before, r).0)
  {
  }

  /** The method does what the machine does with a call: one that is not admitted ends with a known result and
      leaves the record alone, one that is admitted is recorded first, and the guard learns the same from both. */
  lemma {:induction false} ExecutionIsPlayed(s: State, r: Run, call: Call, request: Request, g: Grounds, fate: Fate)
    requires s.run == Some(r) && r.group == [Item(call, Waiting)] && request.signature == call.signature
        && fate.refusal.Failed?
    ensures var admitted := Admission(Before(r.guard, request).1, g);
            var end := if admitted.Cleared? then Executed(fate.outcome) else Refusal;
            var played := Play(s, [Admit(0, request, g, fate.refusal), Send(0), Finish(0, request, fate.outcome)]);
            && played.run.Some? && played.run.value.guard == GuardAfter(r.guard, request, g, fate, end)
            && (if admitted.Cleared?
                then played.log
                    == s.log
                    + [Dispatched(call.id, call.signature, r.id, call.signature.tool in r.guard.mutating,
                    admitted.asked)]
                     && played.run.value.group == [Item(call, Ended(!fate.outcome.Unknown?))]
                else played.log == s.log && played.run.value.group == [Item(call, Ended(true))])
  {
    var admitted := Admission(Before(r.guard, request).1, g);
    var a, b, c := Admit(0, request, g, fate.refusal), Send(0), Finish(0, request, fate.outcome);
    ConsideredKeeps(r, request, g, fate.refusal);
    var considered := Considered(r, request, g, fate.refusal);
    SetOnly(s, considered, Item(call, Waiting), admitted);
    var r1 := considered.(group := [Item(call, admitted)]);
    var s1 := s.(run := Some(r1));
    assert ToolDispatch.Next(s, a) == s1;
    if admitted.Cleared? {
      SetOnly(s1, r1, Item(call, admitted), Sent);
      var r2 := r1.(group := [Item(call, Sent)]);
      var s2 := State(s.log + [Dispatch(r1, Item(call, admitted))], Some(r2));
      assert ToolDispatch.Next(s1, b) == s2;
      SetOnly(s2, Told(r2, See(request, fate.outcome)), Item(call, Sent), Ended(!fate.outcome.Unknown?));
      PlayThree(s, a, s1, b, s2, c);
    } else {
      assert ToolDispatch.Next(s1, b) == s1 && ToolDispatch.Next(s1, c) == s1;
      PlayThree(s, a, s1, b, s1, c);
    }
  }

  lemma {:induction false} PlayThree(s0: State, a: Action, s1: State, b: Action, s2: State, c: Action)
    requires ToolDispatch.Next(s0, a) == s1 && ToolDispatch.Next(s1, b) == s2
    ensures Play(s0, [a, b, c]) == ToolDispatch.Next(s2, c)
  {
    PlayOne(s0, a, [b, c]);
    PlayOne(s1, b, [c]);
    PlayOne(s2, c, []);
    assert [a] + [b, c] == [a, b, c] && [b] + [c] == [b, c] && [c] + [] == [c];
  }
}
