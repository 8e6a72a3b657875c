/** Waiting for somebody's decision (src/approval/coordinator.go). */
module Approval {
  import opened Basics

  // Approvals by id, and for each run the one that may be decided. A decision is put into the slot of its approval
  // and taken out by the waiting call, which removes the approval.

  type Id = int

  datatype Decision = Deny | Approve(permanent: bool)

  datatype Error = Conflict | NotFound

  datatype Pending = Pending(run: Id, decision: Option<Decision>)

  datatype State = State(pending: map<Id, Pending>, byRun: map<Id, Id>)

  function Begun(s: State, id: Id, run: Id): State {
    State(s.pending[id := Pending(run, None)], s.byRun[run := id])
  }

  function Decided(s: State, run: Id, id: Id, decision: Decision): State
    requires id in s.pending
  {
    State(s.pending[id := s.pending[id].(decision := Some(decision))], s.byRun - {run})
  }

  function Canceled(s: State, id: Id): State {
    if id !in s.pending then s else State(s.pending - {id}, s.byRun - {s.pending[id].run})
  }

  /** A decision for this approval of this run would be accepted. */
  predicate Decidable(s: State, run: Id, id: Id) {
    run in s.byRun && s.byRun[run] == id && id in s.pending && s.pending[id].decision.None?
  }

  /** Every approval that still waits can be decided, and only those can. */
  predicate Valid(s: State) {
    && (forall id :: id in s.pending && s.pending[id].decision.None? ==> Decidable(s, s.pending[id].run, id))
    && (forall run :: run in s.byRun ==> s.byRun[run] in s.pending && s.pending[s.byRun[run]] == Pending(run, None))
  }

  /** No approval of the run is left, not even one whose decision is yet to be taken. */
  predicate NoneLeft(s: State, run: Id) {
    forall id :: id in s.pending ==> s.pending[id].run != run
  }

  /** Requests of a run must not overlap. A new approval survives the end of every other one exactly when no older
      approval of its run is left, decided or not: the end of the older one would make the new one undecidable. */
  lemma BeginSurvives(s: State, id: Id, run: Id)
    requires Valid(s) && id !in s.pending && run !in s.byRun
    ensures Valid(Begun(s, id, run))
    ensures (forall other :: other in s.pending ==> Decidable(Canceled(Begun(s, id, run), other), run, id)) <==>
        NoneLeft(s, run)
  {
    var t := Begun(s, id, run);
    forall other | other in s.pending ensures Decidable(Canceled(t, other), run, id) <==> s.pending[other].run != run {
    }
  }

  /** For example: a request is decided, its run makes another one before the answer is taken, and the end of the
      first then makes the second undecidable, though it still waits. */
  lemma OverlapLoses(first: Id, second: Id, run: Id, decision: Decision)
    requires first != second
    ensures var s := Decided(Begun(State(map[], map[]), first, run), run, first, decision);
            && second !in s.pending && run !in s.byRun
            && var t := Canceled(Begun(s, second, run), first);
               second in t.pending && t.pending[second].decision.None? && !Decidable(t, run, second)
  {
  }

  /** When they do not overlap, the end of an approval leaves every other one as it was. */
  lemma CancelKeeps(s: State, id: Id)
    requires Valid(s) && forall a, b ::
        a in s.pending && b in s.pending && s.pending[a].run == s.pending[b].run ==> a == b
    ensures Valid(Canceled(s, id))
  {
  }

  // ---- From a decision to the call that waits for it ----

  datatype Operation = Begin(id: Id, run: Id) | Decide(run: Id, id: Id, decision: Decision) | End(id: Id)

  /** What an operation does; refused ones do nothing. */
  function Next(s: State, o: Operation): State {
    match o
    case Begin(id, run) => if id in s.pending || run in s.byRun then s else Begun(s, id, run)
    case Decide(run, id, decision) => if Decidable(s, run, id) then Decided(s, run, id, decision) else s
    case End(id) => Canceled(s, id)
  }

  function Play(s: State, operations: seq<Operation>): State
    decreases |operations|
  {
    if operations == [] then s else Play(Next(s, operations[0]), operations[1..])
  }

  /** The decision lies ready for the call that waits. */
  predicate Ready(s: State, id: Id, run: Id, decision: Decision) {
    id in s.pending && s.pending[id] == Pending(run, Some(decision))
  }

  lemma ReadyStays(s: State, o: Operation, id: Id, run: Id, decision: Decision)
    requires Ready(s, id, run, decision) && o != End(id)
    ensures Ready(Next(s, o), id, run, decision)
  {
  }

  /** The decision that was accepted for an approval is the one that its call finds, whatever is requested, decided or
      ended for others in between, and nobody can change it. */
  lemma {:induction false} DecisionArrives(s: State, id: Id, run: Id, decision: Decision, operations: seq<Operation>)
    requires (Decidable(s, run, id) && s.pending[id].run == run) || Ready(s, id, run, decision)
    requires Decidable(s, run, id) ==> operations != [] && operations[0] == Decide(run, id, decision)
    requires End(id) !in operations
    ensures Ready(Play(s, operations), id, run, decision)
    decreases |operations|
  {
    if operations != [] {
      if Decidable(s, run, id) {
        assert Ready(Next(s, operations[0]), id, run, decision);
      } else {
        ReadyStays(s, operations[0], id, run, decision);
      }
      DecisionArrives(Next(s, operations[0]), id, run, decision, operations[1..]);
    }
  }

  class Coordinator {
    var pending: map<Id, Pending>
    var byRun: map<Id, Id>

    constructor ()
      ensures View() == State(map[], map[]) && Valid(View())
    {
      pending, byRun := map[], map[];
    }

    function View(): State
      reads this
    {
      State(pending, byRun)
    }

    method Begin(id: Id, run: Id) returns (error: Option<Error>)
      modifies this
      ensures error.None? <==> id !in old(pending) && run !in old(byRun)
      ensures View() == if error.None? then Begun(old(View()), id, run) else old(View())
      ensures error.None? ==> Decidable(View(), run, id)
      ensures old(Valid(View())) ==> Valid(View())
    {
      if id in pending || run in byRun {
        return Some(Conflict);
      }
      pending := pending[id := Pending(run, None)];
      byRun := byRun[run := id];
      return None;
    }

    /** Accepts one decision per approval, and only for the approval its run is waiting for. */
    method Decide(run: Id, id: Id, decision: Decision) returns (error: Option<Error>)
      requires Valid(View())
      modifies this
      ensures error.None? <==> Decidable(old(View()), run, id)
      ensures View() == if error.None? then Decided(old(View()), run, id, decision) else old(View())
      ensures Valid(View()) && !Decidable(View(), run, id)
    {
      if run !in byRun || byRun[run] !in pending || byRun[run] != id {
        return Some(NotFound);
      }
      if pending[id].decision.Some? {
        return Some(Conflict);
      }
      pending := pending[id := pending[id].(decision := Some(decision))];
      byRun := byRun - {run};
      return None;
    }

    method Cancel(id: Id)
      modifies this
      ensures View() == Canceled(old(View()), id)
    {
      if id in pending {
        byRun := byRun - {pending[id].run};
        pending := pending - {id};
      }
    }

    /** The waiting call: interrupted, or resumed with the decision made for this approval. Both remove the approval. */
    method Wait(id: Id, interrupted: bool) returns (decision: Option<Decision>)
      modifies this
      ensures View() == if decision.Some? || interrupted then Canceled(old(View()), id) else old(View())
      ensures decision.Some? <==> !interrupted && id in old(pending) && old(pending)[id].decision.Some?
      ensures decision.Some? ==> decision == old(pending)[id].decision
    {
      if id !in pending {
        return None;
      }
      if interrupted {
        Cancel(id);
        return None;
      }
      decision := pending[id].decision;
      if decision.Some? {
        Cancel(id);
      }
    }
  }
}
