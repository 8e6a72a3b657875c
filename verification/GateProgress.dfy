/** Nobody is locked out of a session (src/application/service.go:1700-1767). */
module GateProgress {
  import opened Basics
  import opened SessionGate

  // ---- The way out ----

  /** How a run goes on when it is to leave. */
  function Outward(place: Place, run: Id): Action
    requires !place.Outside?
  {
    match place
    case Look(_) => ReadReservation(run)
    case Asleep(_, _) => GiveUp(run)
    case AtGate(_) => GiveUp(run)
    case Recheck(_) => ReadAgain(run)
    case Return(_, _) => PutBack(run)
    case Reserved => GiveUp(run)
    case Leaving => ClearLeft(run)
    case _ => Leave(run)
  }

  function StepsOut(place: Place): nat {
    match place
    case Outside => 0
    case Leaving => 1
    case Look(_) => 3
    case Return(_, _) => 3
    case Recheck(_) => 4
    case _ => 2
  }

  ghost predicate OnlyMoves(s: State, t: State, run: Id) {
    forall other :: other != run ==> PlaceOf(t, other) == PlaceOf(s, other)
  }

  lemma StepOut(s: State, run: Id)
    requires !PlaceOf(s, run).Outside?
    ensures var t := Next(s, Outward(PlaceOf(s, run), run));
            StepsOut(PlaceOf(t, run)) < StepsOut(PlaceOf(s, run)) && OnlyMoves(s, t, run)
  {
  }

  predicate By(actions: seq<Action>, run: Id) {
    forall a :: a in actions ==> a.run == run
  }

  lemma {:induction false} PlayFirst(s: State, a: Action, rest: seq<Action>)
    ensures Play(s, [a] + rest) == Play(Next(s, a), rest)
  {
    assert ([a] + rest)[1..] == rest;
  }

  /** Every run can leave, wherever it is, by steps of its own. */
  lemma {:induction false} WayOut(s: State, run: Id) returns (actions: seq<Action>)
    requires Inv(s)
    ensures var t := Play(s, actions);
            By(actions, run) && Inv(t) && PlaceOf(t, run).Outside? && OnlyMoves(s, t, run)
    decreases StepsOut(PlaceOf(s, run))
  {
    actions := [];
    if !PlaceOf(s, run).Outside? {
      var a := Outward(PlaceOf(s, run), run);
      StepOut(s, run);
      NextKeeps(s, a);
      var rest := WayOut(Next(s, a), run);
      actions := [a] + rest;
      PlayFirst(s, a, rest);
    }
  }

  // ---- The way in ----

  function Inward(place: Place, run: Id): Action {
    match place
    case Outside => Enter(run)
    case Look(_) => ReadReservation(run)
    case Asleep(_, _) => WakeUp(run)
    case AtGate(_) => TakeToken(run)
    case Recheck(_) => ReadAgain(run)
    case _ => PutBack(run)
  }

  function StepsIn(place: Place): nat {
    match place
    case Recheck(_) => 1
    case AtGate(_) => 2
    case Look(_) => 3
    case Return(_, _) => 5
    case _ => 4
  }

  /** The run is in front of the gate, and nobody has passed it. */
  predicate Clear(s: State, run: Id) {
    s.reservedBy.None? && (s.token <==> !HasToken(PlaceOf(s, run)))
  }

  predicate Before(place: Place) {
    !Inside(place) && !place.Leaving?
  }

  lemma StepIn(s: State, run: Id)
    requires Inv(s) && Clear(s, run) && Before(PlaceOf(s, run))
    ensures var t := Next(s, Inward(PlaceOf(s, run), run));
            && OnlyMoves(s, t, run)
            && (PlaceOf(t, run).Hold?
                || (Clear(t, run) && Before(PlaceOf(t, run)) && StepsIn(PlaceOf(t, run)) < StepsIn(PlaceOf(s, run))))
  {
  }

  lemma {:induction false} WayIn(s: State, run: Id) returns (actions: seq<Action>)
    requires Inv(s) && Clear(s, run) && Before(PlaceOf(s, run))
    ensures By(actions, run) && PlaceOf(Play(s, actions), run).Hold?
    decreases StepsIn(PlaceOf(s, run))
  {
    var a := Inward(PlaceOf(s, run), run);
    var t := Next(s, a);
    StepIn(s, run);
    NextKeeps(s, a);
    var rest := [];
    if !PlaceOf(t, run).Hold? { rest := WayIn(t, run); }
    actions := [a] + rest;
    PlayFirst(s, a, rest);
  }

  // ---- Nobody is locked out ----

  lemma NoTaker(s: State, run: Id)
    requires Inv(s) && forall other :: other != run ==> !HasToken(PlaceOf(s, other))
    ensures s.token <==> !HasToken(PlaceOf(s, run))
  {
    forall r | r in Takers(s) ensures r == run {
      assert HasToken(PlaceOf(s, r));
    }
    assert run in Takers(s) <==> HasToken(PlaceOf(s, run));
    assert Takers(s) == if HasToken(PlaceOf(s, run)) then {run} else {};
  }

  lemma TakerOf(s: State, run: Id) returns (taker: Id)
    requires Inv(s)
    ensures forall other :: other != run && other != taker ==> !HasToken(PlaceOf(s, other))
  {
    taker := run;
    if other :| other in Takers(s) && other != run {
      taker := other;
    }
    forall other | other != run && other != taker ensures !HasToken(PlaceOf(s, other)) {
      if HasToken(PlaceOf(s, other)) {
        assert other in Takers(s);
        OneTaker(s, other, taker);
      }
    }
  }

  lemma {:induction false} PlayBoth(s: State, a: seq<Action>, b: seq<Action>)
    ensures Play(s, a + b) == Play(Play(s, a), b)
    decreases |a|
  {
    if a == [] {
      assert a + b == b;
    } else {
      PlayBoth(Next(s, a[0]), a[1..], b);
      assert (a + b)[1..] == a[1..] + b && (a + b)[0] == a[0];
    }
  }

  predicate NotBy(actions: seq<Action>, run: Id) {
    forall a :: a in actions ==> a.run != run
  }

  /** The others can make way: the one who has the session reserved, and then the one who has the token. */
  lemma MakeWay(s: State, run: Id) returns (actions: seq<Action>)
    requires Inv(s) && Before(PlaceOf(s, run))
    ensures var t := Play(s, actions);
            NotBy(actions, run) && Inv(t) && Clear(t, run) && PlaceOf(t, run) == PlaceOf(s, run)
  {
    actions := [];
    var t := s;
    if s.reservedBy.Some? {
      actions := WayOut(s, s.reservedBy.value);
      t := Play(s, actions);
      OwnReservation(s, actions, s.reservedBy.value);
    }
    assert t == Play(s, actions);
    var taker := TakerOf(t, run);
    if taker != run {
      var more := WayOut(t, taker);
      PlayBoth(s, actions, more);
      OwnReservation(t, more, taker);
      actions := actions + more;
      t := Play(t, more);
    }
    NoTaker(t, run);
  }

  /** A run that is outside has nothing reserved, and nobody else has made a reservation meanwhile. */
  lemma {:induction false} OwnReservation(s: State, actions: seq<Action>, run: Id)
    requires Inv(s) && By(actions, run) && (s.reservedBy.None? || s.reservedBy == Some(run))
    requires PlaceOf(Play(s, actions), run).Outside?
    ensures Play(s, actions).reservedBy.None?
  {
    PlayKeeps(s, actions);
    OnlyOwn(s, actions, run);
  }

  lemma {:induction false} OnlyOwn(s: State, actions: seq<Action>, run: Id)
    requires By(actions, run) && (s.reservedBy.None? || s.reservedBy == Some(run))
    ensures Play(s, actions).reservedBy.None? || Play(s, actions).reservedBy == Some(run)
    decreases |actions|
  {
    if actions != [] {
      assert actions[0] in actions && forall a :: a in actions[1..] ==> a in actions;
      OnlyOwn(Next(s, actions[0]), actions[1..], run);
    }
  }

  /** In every sound state, whoever has the session and wherever everybody is, a run that is not inside gets in once the
      others make way: there is no deadlock. */
  lemma NobodyIsLockedOut(s: State, run: Id) returns (others: seq<Action>, own: seq<Action>)
    requires Inv(s) && Before(PlaceOf(s, run))
    ensures NotBy(others, run) && By(own, run) && PlaceOf(Play(Play(s, others), own), run).Hold?
  {
    others := MakeWay(s, run);
    own := WayIn(Play(s, others), run);
  }

  // ---- The way through an approval ----

  /** A run that is inside, reserves the session and waits for a decision comes back inside without anybody else moving,
      and may end its reservation then. */
  lemma ComesBack(s: State, run: Id)
    requires Inv(s) && PlaceOf(s, run).Hold?
    ensures var reserved := Next(Next(s, PauseSession(run)), Release(run));
            && reserved.reservedBy == Some(run) && reserved.token
            && var back := Next(Next(Next(Next(reserved, Decided(run)), ReadReservation(run)), TakeToken(run)),
                ReadAgain(run));
               && PlaceOf(back, run).Back? && PlaceOf(Next(back, EndReservation(run)), run).Hold?
               && Next(back, EndReservation(run)).reservedBy.None?
               && Next(back, EndReservation(run)).signal > reserved.signal
  {
  }

  /** While the session is reserved by another run nobody gets in: in front of the gate the run goes to sleep on the
      channel of the moment, and behind it it gives the token back and sleeps. */
  lemma SleepsWhileReserved(s: State, run: Id, other: Id)
    requires s.reservedBy == Some(other) && other != run
    ensures PlaceOf(s, run).Look? ==>
        PlaceOf(Next(s, ReadReservation(run)), run) == Asleep(PlaceOf(s, run).again, s.signal)
    ensures PlaceOf(s, run).Recheck? ==>
        var back := Next(Next(s, ReadAgain(run)), PutBack(run));
        PlaceOf(back, run) == Asleep(PlaceOf(s, run).again, s.signal) && back.token
  {
  }
}
