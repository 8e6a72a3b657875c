/** Who is asked and what is repeated (src/harness/tools.go, loop_guard.go). */
module DispatchRules {
  import opened Basics
  import opened ToolRecovery
  import opened LoopGuard
  import opened ToolDispatch

  // ---- The history of a run ----

  /** The guard has last let a call of this signature through. */
  predicate JustProceeded(first: Guard, acts: seq<Act>, signature: Signature) {
    acts != [] &&
      var n := |acts| - 1;
      acts[n].Ask? && acts[n].request.signature == signature && GuardedAt(first, acts, n)
          && VerdictAt(first, acts, n).Proceed?
  }

  /** The guard is what the acts of the run have made of it, starting from what the record left open. */
  predicate Remembers(r: Run, log: seq<Event>) {
    && Fresh(r.first) && r.guard == At(r.first, r.acts, |r.acts|)
    && r.began <= |log| && r.first.uncertain == Uncertain(log[..r.began])
  }

  /** The call has side effects and is about to be sent, and not as the approved retry of an unknown outcome. Whether
      somebody was asked about it for another reason does not matter. */
  predicate OrdinaryCall(item: Item, guard: Guard) {
    item.status.Cleared? && item.call.signature.tool in guard.mutating && item.call.signature !in guard.uncertain
  }

  predicate RunHistory(r: Run, log: seq<Event>) {
    && Remembers(r, log)
    && forall k :: 0 <= k < |r.group| && OrdinaryCall(r.group[k], r.guard) ==>
         JustProceeded(r.first, r.acts, r.group[k].call.signature)
  }

  predicate History(s: State) {
    s.run.Some? ==> RunHistory(s.run.value, s.log)
  }

  lemma {:induction false} AtPrefix(g: Guard, acts: seq<Act>, more: seq<Act>, n: nat)
    requires n <= |acts|
    ensures At(g, acts + more, n) == At(g, acts, n)
  {
    if n != 0 {
      AtPrefix(g, acts, more, n - 1);
      assert (acts + more)[n - 1] == acts[n - 1];
    }
  }

  lemma ToldRemembers(r: Run, a: Act, log: seq<Event>)
    requires Remembers(r, log)
    ensures Remembers(Told(r, a), log)
    ensures At(r.first, Told(r, a).acts, |r.acts|) == r.guard
  {
    AtPrefix(r.first, r.acts, [a], |r.acts|);
    assert (r.acts + [a])[|r.acts|] == a;
  }

  lemma ConsideredRemembers(r: Run, request: Request, g: Grounds, refusal: Outcome, log: seq<Event>)
    requires Remembers(r, log)
    ensures Remembers(Considered(r, request, g, refusal), log)
    ensures Admission(Before(r.guard, request).1, g).Cleared? && Guarded(r.guard, request)
            && request.signature !in r.guard.uncertain ==>
              JustProceeded(r.first, Considered(r, request, g, refusal).acts, request.signature)
  {
    ToldRemembers(r, Ask(request), log);
    var asked := Told(r, Ask(request));
    ToldRemembers(asked, See(request, refusal), log);
  }

  lemma LongerRemembers(r: Run, log: seq<Event>, more: seq<Event>)
    requires Remembers(r, log)
    ensures Remembers(r, log + more)
  {
    assert (log + more)[..r.began] == log[..r.began];
  }

  lemma AdmitRemembers(s: State, r: Run, k: nat, request: Request, grounds: Grounds, refusal: Outcome)
    requires Inv(s) && History(s) && s.run == Some(r) && k < |r.group| && refusal.Failed?
    requires request.signature == r.group[k].call.signature
    ensures History(Set(s, Considered(r, request, grounds, refusal), k, Admission(Before(r.guard, request).1, grounds)))
  {
    ConsideredRemembers(r, request, grounds, refusal, s.log);
    ConsideredKeeps(r, request, grounds, refusal);
    Alone(s, r, k);
  }

  /** A call with side effects is alone in its group. */
  lemma Alone(s: State, r: Run, k: nat)
    requires Inv(s) && s.run == Some(r) && k < |r.group|
    ensures forall n :: 0 <= n < |r.group| && r.group[n].call.signature.tool in r.guard.mutating ==> n == k
  {
    forall n | 0 <= n < |r.group| && r.group[n].call.signature.tool in r.guard.mutating ensures n == k {
      assert ItemOk(s.log, r, r.group[n]);
    }
  }

  lemma FinishRemembers(s: State, r: Run, k: nat, request: Request, outcome: Outcome)
    requires Inv(s) && History(s) && s.run == Some(r) && k < |r.group|
    ensures History(Set(s, Told(r, See(request, outcome)), k, Ended(!outcome.Unknown?)))
  {
    ToldRemembers(r, See(request, outcome), s.log);
    SeeKeeps(r.guard, request, outcome);
    Alone(s, r, k);
  }

  lemma HistoryKeeps(s: State, a: Action)
    requires Inv(s) && History(s)
    ensures History(ToolDispatch.Next(s, a))
  {
    if a.Begin? {
      assert s.log[..|s.log|] == s.log;
    } else if s.run.Some? && ToolDispatch.Next(s, a) != s {
      var r := s.run.value;
      match a
      case Recatalog(mutating) => ToldRemembers(r, Change(mutating), s.log);
      case Turn(calls) => LongerRemembers(r, s.log, Declarations(calls));
      case Take(count) =>
      case Admit(k, request, grounds, refusal) => AdmitRemembers(s, r, k, request, grounds, refusal);
      case Send(k) => LongerRemembers(r, s.log, [Dispatch(r, r.group[k])]);
      case Finish(k, request, outcome) => FinishRemembers(s, r, k, request, outcome);
      case Record =>
        LongerRemembers(r, s.log,
            [if r.group[0].status.known then Resolved(r.group[0].call.id) else Noted(r.group[0].call.id)]);
      case Skip => LongerRemembers(r, s.log, [Resolved(r.later[0].id)]);
      case Die =>
      case _ =>
    }
  }

  /** The states that sessions reach. */
  function Reached(actions: seq<Action>): State {
    Play(State([], None), actions)
  }

  lemma {:induction false} PlayRemembers(s: State, actions: seq<Action>)
    requires Inv(s) && History(s)
    ensures Inv(Play(s, actions)) && History(Play(s, actions))
    decreases |actions|
  {
    if actions != [] {
      ToolDispatch.NextKeeps(s, actions[0]);
      HistoryKeeps(s, actions[0]);
      PlayRemembers(ToolDispatch.Next(s, actions[0]), actions[1..]);
    }
  }

  // ---- Who is asked ----

  /** The operation may have happened before the run began, or has ended unknown in it while it had side effects. */
  ghost predicate InDoubt(s: State, r: Run, signature: Signature) {
    (r.began <= |s.log| && MayHaveHappened(s.log[..r.began], signature))
        || EndedUnknown(r.first, r.acts, |r.acts|, signature)
  }

  /** In every reachable state the guard takes exactly these operations for uncertain. */
  lemma UncertainExactly(actions: seq<Action>, signature: Signature)
    ensures var s := Reached(actions);
            s.run.Some? ==> (signature in s.run.value.guard.uncertain <==> InDoubt(s, s.run.value, signature))
  {
    var s := Reached(actions);
    PlayRemembers(State([], None), actions);
    if s.run.Some? {
      var r := s.run.value;
      ToolRecovery.UncertainExact(s.log[..r.began], signature);
      UncertainAt(r.first, r.acts, |r.acts|, signature);
    }
  }

  /** The call waits for its turn, and this is what the guard is asked about it. */
  predicate Awaits(s: State, k: nat, request: Request) {
    && s.run.Some? && k < |s.run.value.group| && s.run.value.group[k].status.Waiting?
    && request.signature == s.run.value.group[k].call.signature
  }

  function Considering(s: State, k: nat, request: Request, g: Grounds, refusal: Outcome): State {
    ToolDispatch.Next(ToolDispatch.Next(s, Admit(k, request, g, refusal)), Send(k))
  }

  /** The call is sent without anybody having been asked. */
  predicate SentUnasked(s: State, k: nat, request: Request, g: Grounds, refusal: Outcome)
    requires Awaits(s, k, request)
  {
    var r := s.run.value;
    Considering(s, k, request, g, refusal).log
    == s.log
        + [Dispatched(r.group[k].call.id, request.signature, r.id, request.signature.tool in r.guard.mutating, false)]
  }

  /** The call is sent after somebody was asked about it. */
  predicate SentAsked(s: State, k: nat, request: Request, g: Grounds, refusal: Outcome)
    requires Awaits(s, k, request)
  {
    var r := s.run.value;
    Considering(s, k, request, g, refusal).log
    == s.log
        + [Dispatched(r.group[k].call.id, request.signature, r.id, request.signature.tool in r.guard.mutating, true)]
  }

  /** Nothing but the guard and somebody's refusal could stop the call. */
  predicate Possible(g: Grounds) {
    g.available && g.contractHolds && !g.hookRefuses
  }

  /** Somebody has to approve the call: its tool requires that, and neither an exemption nor an earlier permanent
      approval lifts it. */
  predicate NeedsApproval(g: Grounds) {
    g.approvals && g.required && !g.exempt && !g.permanent
  }

  predicate Free(g: Grounds) {
    Possible(g) && !NeedsApproval(g)
  }

  lemma ConsideringLog(s: State, k: nat, request: Request, g: Grounds, refusal: Outcome)
    requires Awaits(s, k, request) && refusal.Failed?
    ensures var r := s.run.value;
            var admitted := Admission(Before(r.guard, request).1, g);
            Considering(s, k, request, g, refusal).log
            == if admitted.Cleared?
               then s.log
                   + [Dispatched(r.group[k].call.id, request.signature, r.id,
                   request.signature.tool in r.guard.mutating, admitted.asked)]
               else s.log
    ensures SentUnasked(s, k, request, g, refusal) <==>
        Admission(Before(s.run.value.guard, request).1, g) == Cleared(false)
    ensures SentAsked(s, k, request, g, refusal) <==>
        Admission(Before(s.run.value.guard, request).1, g) == Cleared(true)
  {
    var r := s.run.value;
    ConsideredKeeps(r, request, g, refusal);
    var admitted := Admission(Before(r.guard, request).1, g);
    var t := Considered(r, request, g, refusal);
    var u := t.(group := t.group[k := t.group[k].(status := admitted)]);
    assert ToolDispatch.Next(s, Admit(k, request, g, refusal)) == s.(run := Some(u));
    assert u.group[k] == r.group[k].(status := admitted);
    var sent := Dispatched(r.group[k].call.id, request.signature, r.id, request.signature.tool in r.guard.mutating,
        false);
    assert (s.log + [sent])[|s.log|] == sent && (s.log + [sent.(approved := true)])[|s.log|] == sent.(approved := true);
  }

  /** Which calls are admitted, unasked or after somebody was asked; every other one ends with the result that it
      was not dispatched. An operation of unknown outcome is asked about whatever was exempted or approved before. */
  lemma AdmissionExactly(verdict: Verdict, g: Grounds)
    ensures Admission(verdict, g) == Cleared(false) <==>
              && g.available && g.contractHolds && !g.hookRefuses && verdict.Proceed?
              && !(g.approvals && g.required && !g.exempt && !g.permanent)
    ensures Admission(verdict, g) == Cleared(true) <==>
              && g.available && g.contractHolds && !g.hookRefuses && g.approvals && g.decision.Approved?
              && (verdict.OutcomeUnknown? || (verdict.Proceed? && g.required && !g.exempt && !g.permanent))
    ensures !Admission(verdict, g).Cleared? ==> Admission(verdict, g) == Ended(true)
  {
  }

  /** A call with side effects that is in doubt is never sent unasked, and after an approval whatever was exempted
      or approved before. Any other call is sent, whenever the rules about repeating let it through: unasked exactly
      when its tool requires no approval or an exemption or a permanent approval lifts that, and otherwise exactly
      when somebody approves it. In every other case nothing is sent. */
  lemma AskedExactly(actions: seq<Action>, k: nat, request: Request)
    requires Awaits(Reached(actions), k, request)
    requires request.signature.tool in Reached(actions).run.value.guard.mutating
    ensures var s := Reached(actions);
            var verdict := Before(s.run.value.guard, request).1;
            var doubt := InDoubt(s, s.run.value, request.signature);
            && (verdict.OutcomeUnknown? <==> doubt)
            && (forall g, refusal: Outcome :: refusal.Failed? ==>
                  (SentUnasked(s, k, request, g, refusal) <==>
                     && !doubt && verdict.Proceed? && g.available && g.contractHolds && !g.hookRefuses
                     && !(g.approvals && g.required && !g.exempt && !g.permanent)))
            && (forall g, refusal: Outcome :: refusal.Failed? ==>
                  (SentAsked(s, k, request, g, refusal) <==>
                     && g.available && g.contractHolds && !g.hookRefuses && g.approvals && g.decision.Approved?
                     && (doubt || (verdict.Proceed? && g.required && !g.exempt && !g.permanent))))
            && (forall g, refusal: Outcome :: refusal.Failed? ==>
                  SentUnasked(s, k, request, g, refusal) || SentAsked(s, k, request, g, refusal)
                  || Considering(s, k, request, g, refusal).log == s.log)
  {
    var s := Reached(actions);
    UncertainExactly(actions, request.signature);
    var verdict := Before(s.run.value.guard, request).1;
    forall g, refusal: Outcome | refusal.Failed?
      ensures SentUnasked(s, k, request, g, refusal) <==> Admission(verdict, g) == Cleared(false)
      ensures SentAsked(s, k, request, g, refusal) <==> Admission(verdict, g) == Cleared(true)
      ensures SentUnasked(s, k, request, g, refusal) || SentAsked(s, k, request, g, refusal)
              || Considering(s, k, request, g, refusal).log == s.log
    {
      ConsideringLog(s, k, request, g, refusal);
      AdmissionExactly(verdict, g);
    }
  }

  /** What that means for a second dispatch: an operation whose earlier dispatch has no known result is in doubt
      unless that dispatch was made by this very run as a read-only call. Only then may it be sent again unasked,
      and it may exactly if nothing else has put it in doubt. */
  lemma EscapesOnlyReadOnly(actions: seq<Action>, k: nat, request: Request, i: nat)
    requires Awaits(Reached(actions), k, request)
    requires request.signature.tool in Reached(actions).run.value.guard.mutating
    requires var s := Reached(actions);
        i < |s.log| && Unresolved(s.log, i, |s.log|) && s.log[i].signature == request.signature
    ensures var s := Reached(actions);
        InDoubt(s, s.run.value, request.signature) || (!s.log[i].mutating && s.log[i].run == s.run.value.id)
  {
    var s := Reached(actions);
    PlayRemembers(State([], None), actions);
    UncertainExactly(actions, request.signature);
    var r := s.run.value;
    Alone(s, r, k);
    assert Covered(s.log, r);
    assert ItemOk(s.log, r, r.group[k]);
    assert !InFlight(s.log, r, i);
  }

  /** It does happen: a catalogue that takes away the read-only mark between two turns of one run lets a call whose
      outcome is unknown be sent again unasked, because the guard does not watch read-only calls. */
  lemma CatalogueChangeEscapes(request: Request, g: Grounds, refusal: Outcome)
    requires Free(g) && refusal.Failed?
    ensures var signature := request.signature;
            var log := Play(Play(State([], None), FirstTurn(request, g, refusal)), SecondTurn(request, g, refusal)).log;
            && |log| == 5 && log[1] == Dispatched(1, signature, 1, false, false) && Unresolved(log, 1, 4)
            && log[4] == Dispatched(2, signature, 1, true, false)
  {
    FirstTurnPlayed(request, g, refusal);
    SecondTurnPlayed(request, g, refusal);
  }

  function OneCall(call: Call, request: Request, g: Grounds, refusal: Outcome): seq<Action> {
    [Turn([call]), Take(1), Admit(0, request, g, refusal), Send(0)]
  }

  function FirstTurn(request: Request, g: Grounds, refusal: Outcome): seq<Action> {
    [Begin(1, {})] + (OneCall(Call(1, request.signature), request, g, refusal) + [Finish(0, request, Unknown), Record])
  }

  function SecondTurn(request: Request, g: Grounds, refusal: Outcome): seq<Action> {
    [Recatalog({request.signature.tool})] + OneCall(Call(2, request.signature), request, g, refusal)
  }

  function FirstLog(signature: Signature): seq<Event> {
    [Declared(1, signature), Dispatched(1, signature, 1, false, false), Noted(1)]
  }

  /** The run behind the first turn. */
  function FirstRun(request: Request): Run {
    Told(Told(NewRun([], 1, {}), Ask(request)), See(request, Unknown))
  }

  lemma {:induction false} PlayOne(s: State, a: Action, rest: seq<Action>)
    ensures Play(s, [a] + rest) == Play(ToolDispatch.Next(s, a), rest)
  {
    assert ([a] + rest)[1..] == rest;
  }

  lemma {:induction false} PlayAppend(s: State, a: seq<Action>, b: seq<Action>)
    ensures Play(s, a + b) == Play(Play(s, a), b)
    decreases |a|
  {
    if a == [] {
      assert a + b == b;
    } else {
      PlayAppend(ToolDispatch.Next(s, a[0]), a[1..], b);
      assert (a + b)[1..] == a[1..] + b && (a + b)[0] == a[0];
    }
  }

  lemma SetOnly(s: State, r: Run, item: Item, status: Status)
    requires r.group == [item]
    ensures Set(s, r, 0, status) == s.(run := Some(r.(group := [item.(status := status)])))
  {
    assert [item][0 := item.(status := status)] == [item.(status := status)];
  }

  /** One call of a turn from its declaration until it has been sent. */
  lemma {:induction false} CallSent(log: seq<Event>, r: Run, call: Call, request: Request, g: Grounds, refusal: Outcome)
    requires r.group == [] && r.later == [] && call.id != BLANK && call.signature == request.signature
        && refusal.Failed?
    requires Free(g) && Before(r.guard, request).1.Proceed?
    ensures Play(State(log, Some(r)), OneCall(call, request, g, refusal))
            == State(log
                + [Declared(call.id, call.signature),
                Dispatched(call.id, call.signature, r.id, call.signature.tool in r.guard.mutating, false)],
                     Some(Told(r, Ask(request)).(group := [Item(call, Sent)])))
  {
    var a, b, c, d := Turn([call]), Take(1), Admit(0, request, g, refusal), Send(0);
    var declared := Declared(call.id, call.signature);
    AdmissionExactly(Before(r.guard, request).1, g);
    assert Declarations([call]) == [declared] by { assert [call][..0] == []; }
    var s0, s1 := State(log, Some(r)), State(log + [declared], Some(r.(later := [call])));
    assert ToolDispatch.Next(s0, a) == s1;
    assert [call][..1] == [call] && [call][1..] == [] && Items([call]) == [Item(call, Waiting)];
    var s2 := s1.(run := Some(r.(group := [Item(call, Waiting)])));
    assert ToolDispatch.Next(s1, b) == s2;
    var told := Told(r.(group := [Item(call, Waiting)]), Ask(request));
    SetOnly(s2, told, Item(call, Waiting), Cleared(false));
    var cleared := told.(group := [Item(call, Cleared(false))]);
    var s3 := s2.(run := Some(cleared));
    assert ToolDispatch.Next(s2, c) == s3;
    CallGoes(s3, cleared, call);
    assert log + [declared] + [Dispatch(cleared, Item(call, Cleared(false)))]
        == log + [declared, Dispatch(cleared, Item(call, Cleared(false)))];
    PlayFour(s0, a, s1, b, s2, c, s3, d);
  }

  lemma {:induction false} PlayFour(s0: State, a: Action, s1: State, b: Action, s2: State, c: Action, s3: State,
      d: Action)
    requires ToolDispatch.Next(s0, a) == s1 && ToolDispatch.Next(s1, b) == s2 && ToolDispatch.Next(s2, c) == s3
    ensures Play(s0, [a, b, c, d]) == ToolDispatch.Next(s3, d)
  {
    PlayOne(s0, a, [b, c, d]);
    PlayOne(s1, b, [c, d]);
    PlayOne(s2, c, [d]);
    PlayOne(s3, d, []);
    assert [a] + [b, c, d] == [a, b, c, d] && [b] + [c, d] == [b, c, d] && [c] + [d] == [c, d] && [d] + [] == [d];
  }

  lemma CallGoes(s: State, r: Run, call: Call)
    requires s.run == Some(r) && r.group == [Item(call, Cleared(false))]
    ensures ToolDispatch.Next(s, Send(0))
        == State(s.log + [Dispatch(r, Item(call, Cleared(false)))], Some(r.(group := [Item(call, Sent)])))
  {
    SetOnly(s, r, Item(call, Cleared(false)), Sent);
  }

  lemma FirstTurnPlayed(request: Request, g: Grounds, refusal: Outcome)
    requires Free(g) && refusal.Failed?
    ensures Play(State([], None), FirstTurn(request, g, refusal))
        == State(FirstLog(request.signature), Some(FirstRun(request)))
  {
    var call, r := Call(1, request.signature), NewRun([], 1, {});
    var sent, asked := [Finish(0, request, Unknown), Record], Told(NewRun([], 1, {}), Ask(request));
    PlayOne(State([], None), Begin(1, {}), OneCall(call, request, g, refusal) + sent);
    PlayAppend(State([], Some(r)), OneCall(call, request, g, refusal), sent);
    CallSent([], r, call, request, g, refusal);
    var log := [] + [Declared(1, request.signature), Dispatched(1, request.signature, 1, false, false)];
    var s1 := State(log, Some(asked.(group := [Item(call, Sent)])));
    var told := FirstRun(request);
    SetOnly(s1, told.(group := [Item(call, Sent)]), Item(call, Sent), Ended(false));
    var s2 := State(log, Some(told.(group := [Item(call, Ended(false))])));
    assert ToolDispatch.Next(s1, Finish(0, request, Unknown)) == s2;
    assert [Item(call, Ended(false))][1..] == [];
    assert ToolDispatch.Next(s2, Record) == State(log + [Noted(1)], Some(told));
    PlayOne(s1, Finish(0, request, Unknown), [Record]);
    PlayOne(s2, Record, []);
    assert sent == [Finish(0, request, Unknown)] + [Record] && [Record] == [Record] + [];
    assert log + [Noted(1)] == FirstLog(request.signature);
  }

  lemma SecondTurnPlayed(request: Request, g: Grounds, refusal: Outcome)
    requires Free(g) && refusal.Failed?
    ensures Play(State(FirstLog(request.signature), Some(FirstRun(request))), SecondTurn(request, g, refusal)).log
            == FirstLog(request.signature)
                + [Declared(2, request.signature), Dispatched(2, request.signature, 1, true, false)]
  {
    var s, r := State(FirstLog(request.signature), Some(FirstRun(request))),
        Told(FirstRun(request), Change({request.signature.tool}));
    PlayOne(s, Recatalog({request.signature.tool}), OneCall(Call(2, request.signature), request, g, refusal));
    CallSent(FirstLog(request.signature), r, Call(2, request.signature), request, g, refusal);
  }

  // ---- Successes ----

  /** A success is not repeated: when an operation with side effects that has succeeded in this run is about to be sent
      again, asked about or not, another operation has succeeded on its resource in between. The one exception is the
      retry of an operation in doubt, and somebody has been asked about that very call. */
  lemma SuccessNotRepeated(actions: seq<Action>, k: nat, i: nat)
    requires Reached(actions).run.Some?
    requires var r := Reached(actions).run.value;
             && k < |r.group| && r.group[k].status.Cleared? && r.group[k].call.signature.tool in r.guard.mutating
             && i < |r.acts| && Success(r.first, r.acts, i) && r.acts[i].request.signature == r.group[k].call.signature
             && Coherent(r.acts)
    ensures var s := Reached(actions);
            var r := s.run.value;
            || ChangedBetween(r.first, r.acts, i, |r.acts|, r.acts[i].request)
            || (InDoubt(s, r, r.group[k].call.signature) && r.group[k].status.asked)
  {
    PlayRemembers(State([], None), actions);
    var s := Reached(actions);
    var r := s.run.value;
    if OrdinaryCall(r.group[k], r.guard) {
      RepeatNeedsChange(r.first, r.acts, i, |r.acts| - 1);
    } else {
      UncertainExactly(actions, r.group[k].call.signature);
      assert ItemOk(s.log, r, r.group[k]);
    }
  }
}
