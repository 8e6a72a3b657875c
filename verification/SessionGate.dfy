/** Who may work in a session (src/application/service.go). */
module SessionGate {
  import opened Basics

  // A run keeps its reservation while it waits for an approval without holding the token. Every step is one region
  // under the control lock or one move of the token; the executors of all runs of the session interleave between
  // steps.

  type Id = int

  /** Where the executor of a run is. `again` marks a run that comes back to the gate with its reservation.
      Look: about to read the reservation; Asleep: waiting for the session to change; AtGate: waiting for the token;
      Recheck: holding it and about to read the reservation again; Return: about to give it back; Hold: inside;
      HoldReserved: inside and reserved, about to give the token back; Reserved: waiting for a decision; Back: inside
      again, about to end the reservation; Leaving: out, about to end a reservation that may be left. */
  datatype Place =
    | Outside
    | Look(again: bool)
    | Asleep(again: bool, signal: nat)
    | AtGate(again: bool)
    | Recheck(again: bool)
    | Return(again: bool, signal: nat)
    | Hold
    | HoldReserved
    | Reserved
    | Back
    | Leaving

  /** Signals are channels, numbered as they are made; every one before the current one is closed. */
  datatype State = State(token: bool, reservedBy: Option<Id>, signal: nat, places: map<Id, Place>)

  datatype Action =
    | Enter(run: Id)
    | ReadReservation(run: Id)
    | WakeUp(run: Id)
    | GiveUp(run: Id)
    | TakeToken(run: Id)
    | ReadAgain(run: Id)
    | PutBack(run: Id)
    | PauseSession(run: Id)
    | Release(run: Id)
    | Decided(run: Id)
    | EndReservation(run: Id)
    | Leave(run: Id)
    | ClearLeft(run: Id)

  function PlaceOf(s: State, run: Id): Place {
    if run in s.places then s.places[run] else Outside
  }

  function Move(s: State, run: Id, place: Place): State {
    s.(places := s.places[run := place])
  }

  /** Reserved by another run. */
  predicate Foreign(s: State, run: Id) {
    s.reservedBy.Some? && s.reservedBy.value != run
  }

  /** Ends the run's own reservation, if it has one, and wakes everybody who waits for the session to change. */
  function Cleared(s: State, run: Id): State {
    if s.reservedBy == Some(run) then s.(reservedBy := None, signal := s.signal + 1) else s
  }

  function Next(s: State, a: Action): State {
    var place := PlaceOf(s, a.run);
    match a
    case Enter(run) => if place.Outside? then Move(s, run, Look(false)) else s
    case ReadReservation(run) =>
      if !place.Look? then s
      else if Foreign(s, run) then Move(s, run, Asleep(place.again, s.signal)) else Move(s, run, AtGate(place.again))
    case WakeUp(run) => if place.Asleep? && place.signal < s.signal then Move(s, run, Look(place.again)) else s
    case GiveUp(run) =>
      if place.Asleep? || place.AtGate? then Move(s, run, if place.again then Leaving else Outside)
      else if place.Reserved? then Move(s, run, Leaving)
      else s
    case TakeToken(run) => if place.AtGate? && s.token then Move(s, run, Recheck(place.again)).(token := false) else s
    case ReadAgain(run) =>
      if !place.Recheck? then s
      else if Foreign(s, run) then Move(s, run, Return(place.again, s.signal))
      else Move(s, run, if place.again then Back else Hold)
    case PutBack(run) => if place.Return? then Move(s, run, Asleep(place.again, place.signal)).(token := true) else s
    case PauseSession(run) => if place.Hold? then Move(s, run, HoldReserved).(reservedBy := Some(run),
        signal := s.signal + 1) else s
    case Release(run) => if place.HoldReserved? then Move(s, run, Reserved).(token := true) else s
    case Decided(run) => if place.Reserved? then Move(s, run, Look(true)) else s
    case EndReservation(run) => if place.Back? then Move(Cleared(s, run), run, Hold) else s
    case Leave(run) => if place.Hold? || place.HoldReserved? || place.Back? then Move(s, run, Leaving).(token := true)
        else s
    case ClearLeft(run) => if place.Leaving? then Move(Cleared(s, run), run, Outside) else s
  }

  function Play(s: State, actions: seq<Action>): State
    decreases |actions|
  {
    if actions == [] then s else Play(Next(s, actions[0]), actions[1..])
  }

  function Initial(): State {
    State(true, None, 0, map[])
  }

  // ---- The invariant ----

  predicate HasToken(place: Place) {
    place.Recheck? || place.Return? || place.Hold? || place.HoldReserved? || place.Back?
  }

  /** The run has passed the gate and not left yet, whether it holds the token or only its reservation. */
  predicate Inside(place: Place) {
    || place.Hold? || place.HoldReserved? || place.Reserved? || place.Back?
    || ((place.Look? || place.Asleep? || place.AtGate? || place.Recheck? || place.Return?) && place.again)
  }

  /** Places that only a run with a reservation can be in. */
  predicate Reserving(place: Place) {
    Inside(place) && !place.Hold?
  }

  predicate MayReserve(place: Place) {
    Reserving(place) || place.Leaving?
  }

  function Takers(s: State): set<Id> {
    set run | run in s.places && HasToken(s.places[run])
  }

  function Insiders(s: State): set<Id> {
    set run | run in s.places && Inside(s.places[run])
  }

  predicate TokenOk(s: State) {
    |Takers(s)| + (if s.token then 1 else 0) == 1
  }

  /** A reservation and the run that has it know of each other. */
  predicate ReservationOk(s: State) {
    && (forall run :: run in s.places && Reserving(s.places[run]) ==> s.reservedBy == Some(run))
    && (s.reservedBy.Some? ==> MayReserve(PlaceOf(s, s.reservedBy.value)))
    && (forall run :: run in s.places && s.places[run].Hold? ==> s.reservedBy.None?)
  }

  /** Whoever waits for a channel that is still open waits for another run's reservation. */
  predicate WaitOk(s: State) {
    forall run :: run in s.places && (s.places[run].Asleep? || s.places[run].Return?) ==>
      s.places[run].signal <= s.signal && (s.places[run].signal == s.signal ==> Foreign(s, run))
  }

  predicate Inv(s: State) {
    TokenOk(s) && ReservationOk(s) && WaitOk(s)
  }

  function TakersOf(places: map<Id, Place>): set<Id> {
    set run | run in places && HasToken(places[run])
  }

  lemma TakersMove(places: map<Id, Place>, run: Id, place: Place)
    ensures TakersOf(places[run := place]) == if HasToken(place) then TakersOf(places) + {run}
        else TakersOf(places) - {run}
  {
  }

  /** The token goes where the run's move says. */
  predicate TokenMoves(s: State, t: State, run: Id, place: Place) {
    && t.places == s.places[run := place]
    && (if HasToken(PlaceOf(s, run)) == HasToken(place) then t.token == s.token
        else if HasToken(place) then s.token && !t.token
        else t.token)
  }

  lemma TokenMoved(s: State, t: State, run: Id, place: Place)
    requires TokenOk(s) && TokenMoves(s, t, run, place)
    ensures TokenOk(t)
  {
    TakersMove(s.places, run, place);
    assert Takers(s) == TakersOf(s.places) && Takers(t) == TakersOf(t.places);
    assert run in Takers(s) <==> HasToken(PlaceOf(s, run));
  }

  lemma TokenKeeps(s: State, a: Action)
    requires TokenOk(s)
    ensures TokenOk(Next(s, a))
  {
    var t := Next(s, a);
    if t != s {
      assert TokenMoves(s, t, a.run, t.places[a.run]);
      TokenMoved(s, t, a.run, t.places[a.run]);
    }
  }

  lemma OneTaker(s: State, a: Id, b: Id)
    requires TokenOk(s) && a in Takers(s) && b in Takers(s)
    ensures a == b
  {
    assert |Takers(s)| == 1;
    if a != b {
      assert {a, b} <= Takers(s);
      SubsetSize({a, b}, Takers(s));
      assert false;
    }
  }

  lemma SubsetSize(a: set<Id>, b: set<Id>)
    requires a <= b
    ensures |a| <= |b|
  {
    assert b == a + (b - a);
  }

  /** A move that leaves the reservation alone, ends the run's own or makes one. */
  predicate KeepsReservation(s: State, t: State, run: Id, place: Place) {
    && t.reservedBy == s.reservedBy
    && (Reserving(place) ==> s.reservedBy == Some(run))
    && (s.reservedBy == Some(run) ==> MayReserve(place))
    && (place.Hold? ==> s.reservedBy.None?)
  }

  predicate MakesReservation(s: State, t: State, run: Id, place: Place) {
    s.reservedBy.None? && t.reservedBy == Some(run) && place.HoldReserved? && forall r ::
        r in s.places && s.places[r].Hold? ==> r == run
  }

  lemma ReservationMoved(s: State, t: State, run: Id, place: Place)
    requires ReservationOk(s) && t.places == s.places[run := place]
    requires KeepsReservation(s, t, run, place) || MakesReservation(s, t, run, place)
             || (s.reservedBy == Some(run) && t.reservedBy.None? && !Reserving(place))
    ensures ReservationOk(t)
  {
    forall r | r in t.places && Reserving(t.places[r]) ensures t.reservedBy == Some(r) {
      if r != run { assert Reserving(s.places[r]); }
    }
  }

  lemma ReservationKeeps(s: State, a: Action)
    requires Inv(s)
    ensures ReservationOk(Next(s, a))
  {
    var t := Next(s, a);
    if t != s {
      var place := t.places[a.run];
      if a.PauseSession? {
        forall run | run in s.places && s.places[run].Hold? ensures run == a.run {
          OneTaker(s, run, a.run);
        }
        assert MakesReservation(s, t, a.run, place);
      } else if t.reservedBy == s.reservedBy {
        assert KeepsReservation(s, t, a.run, place);
      }
      ReservationMoved(s, t, a.run, place);
    }
  }

  lemma WaitMoved(s: State, t: State, run: Id, place: Place)
    requires WaitOk(s) && t.places == s.places[run := place] && s.signal <= t.signal
    requires t.reservedBy != s.reservedBy ==> s.signal < t.signal
    requires place.Asleep? || place.Return? ==>
        place.signal <= t.signal && (place.signal == t.signal ==> Foreign(t, run))
    ensures WaitOk(t)
  {
  }

  lemma WaitKeeps(s: State, a: Action)
    requires Inv(s)
    ensures WaitOk(Next(s, a))
  {
    var t := Next(s, a);
    if t != s { WaitMoved(s, t, a.run, t.places[a.run]); }
  }

  lemma NextKeeps(s: State, a: Action)
    requires Inv(s)
    ensures Inv(Next(s, a))
  {
    TokenKeeps(s, a);
    ReservationKeeps(s, a);
    WaitKeeps(s, a);
  }

  lemma {:induction false} PlayKeeps(s: State, actions: seq<Action>)
    requires Inv(s)
    ensures Inv(Play(s, actions))
    decreases |actions|
  {
    if actions != [] {
      NextKeeps(s, actions[0]);
      PlayKeeps(Next(s, actions[0]), actions[1..]);
    }
  }

  lemma InitialKeeps()
    ensures Inv(Initial())
  {
    assert Takers(Initial()) == {};
  }

  // ---- What holds in every interleaving ----

  lemma OneInside(s: State, a: Id, b: Id)
    requires Inv(s) && a in Insiders(s) && b in Insiders(s)
    ensures a == b
  {
    if s.places[a].Hold? && s.places[b].Hold? { OneTaker(s, a, b); }
  }

  /** At any time at most one run of a session is past the gate, holding the token or a reservation, and the token is
      either in the gate or with exactly one run. */
  lemma {:induction false} AtMostOneInside(actions: seq<Action>)
    ensures var s := Play(Initial(), actions);
            && (forall a, b :: a in Insiders(s) && b in Insiders(s) ==> a == b)
            && |Takers(s)| + (if s.token then 1 else 0) == 1
  {
    InitialKeeps();
    PlayKeeps(Initial(), actions);
    var s := Play(Initial(), actions);
    forall a, b | a in Insiders(s) && b in Insiders(s) ensures a == b {
      OneInside(s, a, b);
    }
  }

  predicate Ends(a: Action, run: Id) {
    (a.EndReservation? || a.ClearLeft?) && a.run == run
  }

  lemma OnlyReserver(s: State, run: Id, other: Id)
    requires Inv(s) && s.reservedBy == Some(run) && other in Insiders(s)
    ensures other == run
  {
  }

  lemma ReservationStays(s: State, a: Action, run: Id)
    requires Inv(s) && s.reservedBy == Some(run) && !Ends(a, run)
    ensures Next(s, a).reservedBy == Some(run)
  {
  }

  /** From the moment a run reserves the session until it ends its own reservation no other run gets inside, however the
      token moves in between. */
  lemma {:induction false} ReservationHolds(s: State, actions: seq<Action>, run: Id)
    requires Inv(s) && s.reservedBy == Some(run)
    requires forall i :: 0 <= i < |actions| ==> !Ends(actions[i], run)
    ensures Play(s, actions).reservedBy == Some(run) && Insiders(Play(s, actions)) <= {run}
    decreases |actions|
  {
    if actions == [] {
      forall other | other in Insiders(s) ensures other == run {
        OnlyReserver(s, run, other);
      }
    } else {
      NextKeeps(s, actions[0]);
      ReservationStays(s, actions[0], run);
      ReservationHolds(Next(s, actions[0]), actions[1..], run);
    }
  }

  /** No wake-up is lost: a run that sleeps on a channel that is still open does so because another run has the session
      reserved, and that run is still there to end it. */
  lemma {:induction false} NoLostWakeUp(actions: seq<Action>, run: Id)
    ensures var s := Play(Initial(), actions);
            PlaceOf(s, run).Asleep? && PlaceOf(s, run).signal >= s.signal ==>
              Foreign(s, run) && MayReserve(PlaceOf(s, s.reservedBy.value))
  {
    InitialKeeps();
    PlayKeeps(Initial(), actions);
    var s := Play(Initial(), actions);
    if PlaceOf(s, run).Asleep? && PlaceOf(s, run).signal >= s.signal {
      SleepsForReason(s, run);
    }
  }

  lemma SleepsForReason(s: State, run: Id)
    requires Inv(s) && PlaceOf(s, run).Asleep? && PlaceOf(s, run).signal >= s.signal
    ensures Foreign(s, run) && MayReserve(PlaceOf(s, s.reservedBy.value))
  {
    assert run in s.places;
  }

  // ---- The source's own form ----

  /** The shared state of a session. Where the executors are is ghost; the methods are the regions under the control
      lock. */
  class Session {
    var token: bool
    var reservedBy: Option<Id>
    var signal: nat
    ghost var places: map<Id, Place>

    constructor ()
      ensures View() == Initial()
    {
      token, reservedBy, signal, places := true, None, 0, map[];
    }

    ghost function View(): State
      reads this
    {
      State(token, reservedBy, signal, places)
    }

    method NotifySessionStateLocked()
      modifies this`signal
      ensures signal == old(signal) + 1
    {
      signal := signal + 1;
    }

    method ReservePaused(run: Id)
      requires PlaceOf(View(), run).Hold?
      modifies this
      ensures View() == Next(old(View()), PauseSession(run))
    {
      reservedBy := Some(run);
      NotifySessionStateLocked();
      places := places[run := HoldReserved];
    }

    method ClearSessionPause(run: Id)
      modifies this`reservedBy, this`signal
      ensures View() == Cleared(old(View()), run)
    {
      if reservedBy == Some(run) {
        reservedBy := None;
        NotifySessionStateLocked();
      }
    }

    /** The first look of acquireSession: wait for the session to change, or go to the gate. */
    method LookBeforeGate(run: Id) returns (wait: bool, on: nat)
      requires PlaceOf(View(), run).Look?
      modifies this`places
      ensures View() == Next(old(View()), ReadReservation(run))
      ensures wait <==> Foreign(View(), run)
      ensures wait ==> places[run].Asleep? && places[run].signal == on
    {
      ghost var again := places[run].again;
      on := signal;
      wait := reservedBy.Some? && reservedBy.value != run;
      places := places[run := if wait then Asleep(again, on) else AtGate(again)];
    }

    /** Takes the token out of the gate if it is there. */
    method TryGate(run: Id) returns (taken: bool)
      requires PlaceOf(View(), run).AtGate?
      modifies this`token, this`places
      ensures View() == Next(old(View()), TakeToken(run))
      ensures taken <==> old(token)
      ensures taken ==> !token && HasToken(places[run])
    {
      taken := token;
      if taken {
        token, places := false, places[run := Recheck(places[run].again)];
      }
    }

    /** Puts the token into the gate: after a second look in vain, or when a reservation has been made. */
    method GiveBack(run: Id)
      requires PlaceOf(View(), run).Return? || PlaceOf(View(), run).HoldReserved?
      modifies this`token, this`places
      ensures View() == Next(old(View()), if PlaceOf(old(View()), run).Return? then PutBack(run) else Release(run))
      ensures token && !HasToken(places[run])
    {
      ghost var place := places[run];
      token, places := true, places[run := if place.Return? then Asleep(place.again, place.signal) else Reserved];
    }

    /** The second look, with the token in hand: a reservation may have been made just before it was taken. */
    method LookBehindGate(run: Id) returns (passed: bool, on: nat)
      requires PlaceOf(View(), run).Recheck?
      modifies this`places
      ensures View() == Next(old(View()), ReadAgain(run))
      ensures passed <==> !Foreign(View(), run)
      ensures passed ==> Inside(places[run])
      ensures !passed ==> places[run].Return? && places[run].signal == on
    {
      ghost var again := places[run].again;
      on := signal;
      passed := reservedBy.None? || reservedBy.value == run;
      places := places[run := if !passed then Return(again, on) else if again then Back else Hold];
    }
  }
}
