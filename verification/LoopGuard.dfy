/** The guard in front of tools with side effects (src/harness/loop_guard.go). */
module LoopGuard {
  import opened ToolRecovery

  // It refuses operations whose outcome is unknown, operations that have already succeeded and strategies that keep
  // failing. Digests are taken to be injective, so that a key is the thing it was computed from.

  /** A call with the keys the source derives from its definition and arguments. */
  datatype Request = Request(signature: Signature, resource: string, strategy: string, attempt: string)

  datatype Outcome = Unknown | Failed(payload: bool, fingerprint: string) | Succeeded

  datatype Verdict = Proceed | OutcomeUnknown | Refused | Skipped

  const MAX_FAILURES := 2
  const MAX_IDENTICAL_ERRORS := 4
  const MAX_BLOCKED_CALLS := 2

  /** `mutating` are the tools of the catalogue that are not read-only. `forced` says that a reason to finish was
      set. */
  datatype Guard = Guard(
    mutating: set<string>,
    successful: set<Signature>,
    latest: map<string, Signature>,
    failures: map<string, nat>,
    blocked: map<string, nat>,
    repeated: map<string, nat>,
    blockedErrors: set<string>,
    forced: bool,
    uncertain: set<Signature>)

  function NewGuard(mutating: set<string>, uncertain: set<Signature>): Guard {
    Guard(mutating, {}, map[], map[], map[], map[], {}, false, uncertain)
  }

  function Count(counts: map<string, nat>, key: string): nat {
    if key in counts then counts[key] else 0
  }

  predicate Guarded(g: Guard, r: Request) {
    r.signature.tool in g.mutating
  }

  function ErrorPrefix(r: Request): string {
    r.signature.tool + ":" + r.resource + ":"
  }

  predicate Blocks(r: Request, key: string) {
    ErrorPrefix(r) <= key
  }

  /** Blocks are found by prefix, so a block may also hit a resource whose name is continued by a colon. */
  predicate ErrorBlocked(g: Guard, r: Request) {
    r.resource != "" && exists key :: key in g.blockedErrors && Blocks(r, key)
  }

  /** The key a strategy is blocked under, the narrower one first. */
  function BlockKey(g: Guard, r: Request): string {
    if r.attempt in g.blocked then r.attempt else r.strategy
  }

  function Before(g: Guard, r: Request): (Guard, Verdict) {
    if !Guarded(g, r) then (g, Proceed)
    else if r.signature in g.uncertain then (g, OutcomeUnknown)
    else if g.forced || r.signature in g.successful then (g.(forced := true), Skipped)
    else if ErrorBlocked(g, r) then (g, Refused)
    else
      var key := BlockKey(g, r);
      if key !in g.blocked then (g, Proceed)
      else (g.(blocked := g.blocked[key := g.blocked[key] + 1], forced := MAX_BLOCKED_CALLS <= g.blocked[key] + 1),
          Refused)
  }

  /** A success lifts the blocks of its resource and forgets the errors that led to them. */
  function Unblocked(g: Guard, r: Request): set<string> {
    set key | key in g.blockedErrors && !Blocks(r, key)
  }

  function Unrepeated(g: Guard, r: Request): map<string, nat> {
    map key | key in g.repeated && !(key in g.blockedErrors && Blocks(r, key)) :: g.repeated[key]
  }

  function AfterSuccess(g: Guard, r: Request): Guard {
    var stale := if r.resource != "" && r.resource in g.latest
        && g.latest[r.resource] != r.signature then {g.latest[r.resource]} else {};
    var done := g.(successful := g.successful - stale + {r.signature});
    if r.resource == "" then done
    else
      done.(latest := g.latest[r.resource := r.signature],
            blockedErrors := Unblocked(g, r),
            repeated := Unrepeated(g, r),
            blocked := g.blocked - {r.strategy, r.attempt})
  }

  function AfterFailure(g: Guard, r: Request, payload: bool, fingerprint: string): Guard {
    var key := if payload then r.attempt else r.strategy;
    if r.resource == "" || key == "" then g
    else
      var failures := Count(g.failures, key + ":" + fingerprint) + 1;
      var error := ErrorPrefix(r) + fingerprint;
      var repeats := Count(g.repeated, error) + 1;
      g.(failures := g.failures[key + ":" + fingerprint := failures],
         repeated := g.repeated[error := repeats],
         blockedErrors := if MAX_IDENTICAL_ERRORS <= repeats then g.blockedErrors + {error} else g.blockedErrors,
         blocked := if MAX_FAILURES <= failures && key !in g.blocked then g.blocked[key := 0] else g.blocked)
  }

  function Observe(g: Guard, r: Request, outcome: Outcome): Guard {
    if !Guarded(g, r) then g
    else match outcome
      case Unknown => g.(uncertain := g.uncertain + {r.signature})
      case Failed(payload, fingerprint) => AfterFailure(g, r, payload, fingerprint)
      case Succeeded => AfterSuccess(g, r)
  }

  // ---- What a whole run can and cannot do ----

  /** What happens to the guard: it is asked before a call and told how the call ended, and the catalogue may change
      between turns. */
  datatype Act = Ask(request: Request) | See(request: Request, outcome: Outcome) | Change(mutating: set<string>)

  function Next(g: Guard, a: Act): Guard {
    match a
    case Ask(r) => Before(g, r).0
    case See(r, outcome) => Observe(g, r, outcome)
    case Change(mutating) => g.(mutating := mutating)
  }

  /** The guard after the first acts of a run. */
  function At(g: Guard, acts: seq<Act>, n: nat): Guard
    requires n <= |acts|
  {
    if n == 0 then g else Next(At(g, acts, n - 1), acts[n - 1])
  }

  /** The verdict on a question of the run. */
  function VerdictAt(g: Guard, acts: seq<Act>, n: nat): Verdict
    requires n < |acts| && acts[n].Ask?
  {
    Before(At(g, acts, n), acts[n].request).1
  }

  /** Within a run the resource of an operation does not change. */
  predicate Coherent(acts: seq<Act>) {
    forall i, j :: 0 <= i < |acts| && 0 <= j < |acts| && !acts[i].Change? && !acts[j].Change?
                   && acts[i].request.signature == acts[j].request.signature
                   ==> acts[i].request.resource == acts[j].request.resource
  }

  /** The act concerns a call that had side effects in the catalogue of the moment. */
  predicate GuardedAt(g: Guard, acts: seq<Act>, i: nat)
    requires i < |acts|
  {
    !acts[i].Change? && Guarded(At(g, acts, i), acts[i].request)
  }

  predicate Success(g: Guard, acts: seq<Act>, i: nat)
    requires i < |acts|
  {
    acts[i].See? && acts[i].outcome.Succeeded? && GuardedAt(g, acts, i)
  }

  predicate LeftUnknown(g: Guard, acts: seq<Act>, i: nat)
    requires i < |acts|
  {
    acts[i].See? && acts[i].outcome.Unknown? && GuardedAt(g, acts, i)
  }

  /** The resource was changed by another operation in between. */
  predicate ChangedBetween(g: Guard, acts: seq<Act>, i: nat, j: nat, r: Request)
    requires j <= |acts|
  {
    r.resource != "" && exists k :: i < k < j && Success(g, acts, k)
                             && acts[k].request.resource == r.resource && acts[k].request.signature != r.signature
  }

  lemma NextKeeps(g: Guard, a: Act)
    ensures Next(g, a).mutating == if a.Change? then a.mutating else g.mutating
    ensures g.forced ==> Next(g, a).forced
    ensures Next(g, a).uncertain
            == if a.See? && a.outcome.Unknown? && Guarded(g, a.request) then g.uncertain + {a.request.signature}
                else g.uncertain
  {
    match a
    case Ask(r) => AskKeeps(g, r);
    case See(r, outcome) => SeeKeeps(g, r, outcome);
    case Change(_) =>
  }

  lemma AskKeeps(g: Guard, r: Request)
    ensures var h := Before(g, r).0; h.mutating == g.mutating && (g.forced ==> h.forced) && h.uncertain == g.uncertain
  {
  }

  lemma SeeKeeps(g: Guard, r: Request, outcome: Outcome)
    ensures var h := Observe(g, r, outcome);
            && h.mutating == g.mutating && h.forced == g.forced
            && h.uncertain == if outcome.Unknown? && Guarded(g, r) then g.uncertain + {r.signature} else g.uncertain
  {
  }

  predicate Fresh(g: Guard) {
    g == NewGuard(g.mutating, g.uncertain)
  }

  /** The latest operation on a resource is one that succeeded on it. */
  lemma {:induction false} LatestSucceeded(g: Guard, acts: seq<Act>, n: nat, resource: string) returns (k: nat)
    requires n <= |acts| && Fresh(g) && resource in At(g, acts, n).latest
    ensures k < n && Success(g, acts, k) && acts[k].request.resource == resource
    ensures acts[k].request.signature == At(g, acts, n).latest[resource]
  {
    assert n != 0;
    NextLatest(At(g, acts, n - 1), acts[n - 1]);
    if Success(g, acts, n - 1) && acts[n - 1].request.resource == resource != "" {
      k := n - 1;
    } else {
      k := LatestSucceeded(g, acts, n - 1, resource);
    }
  }

  lemma NextLatest(g: Guard, a: Act)
    ensures Next(g, a).latest == if a.See? && a.outcome.Succeeded? && Guarded(g, a.request) && a.request.resource != ""
                                 then g.latest[a.request.resource := a.request.signature] else g.latest
  {
  }

  /** A success is remembered until another operation succeeds on the same resource. */
  lemma {:induction false} SuccessRemembered(g: Guard, acts: seq<Act>, i: nat, n: nat)
    requires i < n <= |acts| && Coherent(acts) && Fresh(g) && Success(g, acts, i)
    requires !ChangedBetween(g, acts, i, n, acts[i].request)
    ensures acts[i].request.signature in At(g, acts, n).successful
  {
    var wanted := acts[i].request;
    if n - 1 != i {
      assert !ChangedBetween(g, acts, i, n - 1, wanted);
      SuccessRemembered(g, acts, i, n - 1);
      var before := At(g, acts, n - 1);
      if Success(g, acts, n - 1) {
        var r := acts[n - 1].request;
        if r.resource in before.latest && before.latest[r.resource] == wanted.signature {
          var k := LatestSucceeded(g, acts, n - 1, r.resource);
          assert acts[k].request.resource == wanted.resource;
        }
      }
    }
  }

  /** Behind a success, and as long as no other operation succeeds on the resource, it is the latest there. */
  lemma {:induction false} LatestIs(g: Guard, acts: seq<Act>, i: nat, n: nat)
    requires i < n <= |acts| && Success(g, acts, i) && acts[i].request.resource != ""
    requires Coherent(acts) && !ChangedBetween(g, acts, i, n, acts[i].request)
    ensures acts[i].request.resource in At(g, acts, n).latest
    ensures At(g, acts, n).latest[acts[i].request.resource] == acts[i].request.signature
  {
    NextLatest(At(g, acts, n - 1), acts[n - 1]);
    if i < n - 1 {
      assert !ChangedBetween(g, acts, i, n - 1, acts[i].request);
      LatestIs(g, acts, i, n - 1);
    }
  }

  /** An operation succeeds on a resource on which another one, or itself, has succeeded. */
  predicate ReplacesLatest(g: Guard, a: Act) {
    && a.See? && a.outcome.Succeeded? && Guarded(g, a.request)
    && a.request.resource != "" && a.request.resource in g.latest
  }

  lemma NextSuccessful(g: Guard, a: Act, signature: Signature)
    requires signature in Next(g, a).successful
    ensures signature in g.successful || (a.See? && a.outcome.Succeeded? && a.request.signature == signature)
    ensures ReplacesLatest(g, a) && a.request.signature != signature ==> g.latest[a.request.resource] != signature
    ensures signature !in g.successful ==> Guarded(g, a.request)
  {
  }

  /** The operation succeeded here, and no other one has succeeded on its resource since. */
  predicate StillStands(g: Guard, acts: seq<Act>, i: nat, n: nat, signature: Signature)
    requires n <= |acts|
  {
    && i < n && Success(g, acts, i) && acts[i].request.signature == signature
    && !ChangedBetween(g, acts, i, n, acts[i].request)
  }

  /** What is remembered as a success has succeeded, and no other operation has succeeded on its resource since. */
  lemma {:induction false} RememberedSucceeded(g: Guard, acts: seq<Act>, n: nat, signature: Signature)
      returns (i: nat)
    requires n <= |acts| && Fresh(g) && Coherent(acts) && signature in At(g, acts, n).successful
    ensures StillStands(g, acts, i, n, signature)
  {
    assert n != 0;
    NextSuccessful(At(g, acts, n - 1), acts[n - 1], signature);
    i := n - 1;
    if !(Success(g, acts, i) && acts[i].request.signature == signature) {
      i := RememberedSucceeded(g, acts, n - 1, signature);
      if ChangedBetween(g, acts, i, n, acts[i].request) {
        LatestIs(g, acts, i, n - 1);
        assert false;
      }
    }
  }

  /** What the guard knows to have succeeded: exactly what has succeeded as the latest operation on its resource. */
  lemma {:induction false} SuccessfulExactly(g: Guard, acts: seq<Act>, n: nat, signature: Signature)
    requires n <= |acts| && Fresh(g) && Coherent(acts)
    ensures signature in At(g, acts, n).successful <==> exists i: nat :: StillStands(g, acts, i, n, signature)
  {
    if signature in At(g, acts, n).successful { var i := RememberedSucceeded(g, acts, n, signature); }
    forall i: nat | StillStands(g, acts, i, n, signature) ensures signature in At(g, acts, n).successful {
      SuccessRemembered(g, acts, i, n);
    }
  }

  /** A call proceeds exactly when nothing stands against it. */
  lemma ProceedsExactly(g: Guard, r: Request)
    requires r.signature.tool in g.mutating
    ensures var errors := set key | key in g.blockedErrors && r.signature.tool + ":" + r.resource + ":" <= key;
      Before(g, r).1.Proceed? <==>
        && r.signature !in g.uncertain && !g.forced && r.signature !in g.successful
        && r.strategy !in g.blocked && r.attempt !in g.blocked && (r.resource == "" || errors == {})
    ensures Before(g, r).1.OutcomeUnknown? <==> r.signature in g.uncertain
    ensures Before(g, r).1.Proceed? || Before(g, r).1.OutcomeUnknown? ==> Before(g, r).0 == g
  {
    var errors := set key | key in g.blockedErrors && r.signature.tool + ":" + r.resource + ":" <= key;
    if ErrorBlocked(g, r) {
      var key :| key in g.blockedErrors && Blocks(r, key);
      assert key in errors;
    }
    forall key | key in errors ensures Blocks(r, key) {
    }
  }

  /** Nothing takes back a reason to finish, and nothing makes an unknown outcome known. */
  lemma {:induction false} NeverTakenBack(g: Guard, acts: seq<Act>, m: nat, n: nat)
    requires m <= n <= |acts|
    ensures At(g, acts, m).forced ==> At(g, acts, n).forced
    ensures At(g, acts, m).uncertain <= At(g, acts, n).uncertain
  {
    if m < n {
      NeverTakenBack(g, acts, m, n - 1);
      NextKeeps(At(g, acts, n - 1), acts[n - 1]);
    }
  }

  predicate EndedUnknown(g: Guard, acts: seq<Act>, n: nat, signature: Signature)
    requires n <= |acts|
  {
    exists i :: 0 <= i < n && LeftUnknown(g, acts, i) && acts[i].request.signature == signature
  }

  /** The guard takes for uncertain what it was given at the start and what ended unknown since, and nothing else. */
  lemma {:induction false} UncertainAt(g: Guard, acts: seq<Act>, n: nat, signature: Signature)
    requires n <= |acts|
    ensures signature in At(g, acts, n).uncertain <==> signature in g.uncertain || EndedUnknown(g, acts, n, signature)
  {
    if n != 0 {
      UncertainAt(g, acts, n - 1, signature);
      NextKeeps(At(g, acts, n - 1), acts[n - 1]);
      var last := LeftUnknown(g, acts, n - 1) && acts[n - 1].request.signature == signature;
      assert EndedUnknown(g, acts, n, signature) <==> EndedUnknown(g, acts, n - 1, signature) || last;
    }
  }

  /** An operation that has succeeded proceeds again, as one with side effects, only if another operation has
      succeeded on its resource since. The first attempt to repeat it otherwise bars every operation with side
      effects for the rest of the run; only operations of unknown outcome are still told apart, for somebody to
      approve. */
  lemma RepeatNeedsChange(g: Guard, acts: seq<Act>, i: nat, j: nat)
    requires i < j < |acts| && Coherent(acts) && Fresh(g) && Success(g, acts, i)
    requires acts[j].Ask? && acts[j].request.signature == acts[i].request.signature && GuardedAt(g, acts, j)
    ensures VerdictAt(g, acts, j).Proceed? ==> ChangedBetween(g, acts, i, j, acts[i].request)
    ensures !ChangedBetween(g, acts, i, j, acts[i].request) && !VerdictAt(g, acts, j).OutcomeUnknown? ==>
              VerdictAt(g, acts, j).Skipped? && Barred(g, acts, j + 1)
  {
    if !ChangedBetween(g, acts, i, j, acts[i].request) {
      SuccessRemembered(g, acts, i, j);
      if !VerdictAt(g, acts, j).OutcomeUnknown? { ForcedBars(g, acts, j + 1); }
    }
  }

  predicate Barred(g: Guard, acts: seq<Act>, from: nat) {
    forall n: nat :: from <= n < |acts| && acts[n].Ask? && GuardedAt(g, acts, n) ==>
      VerdictAt(g, acts, n) == if acts[n].request.signature in At(g, acts, n).uncertain then OutcomeUnknown else Skipped
  }

  lemma {:induction false} ForcedBars(g: Guard, acts: seq<Act>, from: nat)
    requires from <= |acts| && At(g, acts, from).forced
    ensures Barred(g, acts, from)
  {
    forall n: nat | from <= n < |acts| && acts[n].Ask? && GuardedAt(g, acts, n)
      ensures VerdictAt(g, acts, n) == if acts[n].request.signature in At(g, acts, n).uncertain then OutcomeUnknown
          else Skipped
    {
      NeverTakenBack(g, acts, from, n);
    }
  }

  /** Once the outcome of an operation is unknown it never proceeds on its own again, as long as it has side effects. */
  lemma UnknownStays(g: Guard, acts: seq<Act>, i: nat, j: nat)
    requires i < j < |acts| && LeftUnknown(g, acts, i)
    requires acts[j].Ask? && acts[j].request.signature == acts[i].request.signature && GuardedAt(g, acts, j)
    ensures VerdictAt(g, acts, j).OutcomeUnknown?
  {
    NextKeeps(At(g, acts, i), acts[i]);
    NeverTakenBack(g, acts, i + 1, j);
  }

  // ---- The source's own form ----

  class ToolLoopGuard {
    var mutating: set<string>
    var successful: set<Signature>
    var latest: map<string, Signature>
    var failures: map<string, nat>
    var blocked: map<string, nat>
    var repeated: map<string, nat>
    var blockedErrors: set<string>
    var forced: bool
    var uncertain: set<Signature>

    constructor (mutating: set<string>)
      ensures View() == NewGuard(mutating, {})
    {
      this.mutating := mutating;
      successful, latest, failures, blocked := {}, map[], map[], map[];
      repeated, blockedErrors, forced, uncertain := map[], {}, false, {};
    }

    function View(): Guard
      reads this
    {
      Guard(mutating, successful, latest, failures, blocked, repeated, blockedErrors, forced, uncertain)
    }

    /** The catalogue has changed between two turns. */
    method ChangeCatalogue(mutating: set<string>)
      modifies this`mutating
      ensures View() == Next(old(View()), Change(mutating))
    {
      this.mutating := mutating;
    }

    /** Takes over what earlier runs of the session left open. */
    method Restore(repository: SessionRepository)
      requires Numbered(repository.entries)
      modifies this
      ensures View() == old(View()).(uncertain := old(uncertain) + Uncertain(Events(repository.entries)))
    {
      var found := RestoreUncertain(repository);
      uncertain := uncertain + found;
    }

    method BlockedByError(r: Request) returns (found: bool)
      ensures found <==> ErrorBlocked(View(), r)
    {
      if r.resource == "" {
        return false;
      }
      var rest := blockedErrors;
      while rest != {}
        invariant rest <= blockedErrors
        invariant forall key :: key in blockedErrors - rest ==> !Blocks(r, key)
        decreases rest
      {
        var key :| key in rest;
        if Blocks(r, key) {
          return true;
        }
        rest := rest - {key};
      }
      return false;
    }

    method Admit(r: Request) returns (verdict: Verdict)
      modifies this
      ensures (View(), verdict) == Before(old(View()), r)
    {
      if r.signature.tool !in mutating {
        return Proceed;
      }
      if r.signature in uncertain {
        return OutcomeUnknown;
      }
      if !forced && r.signature in successful {
        forced := true;
      }
      if !forced {
        var found := BlockedByError(r);
        if found {
          return Refused;
        }
      }
      if !forced {
        var key := r.attempt;
        if key !in blocked {
          key := r.strategy;
        }
        if key in blocked {
          blocked := blocked[key := blocked[key] + 1];
          if MAX_BLOCKED_CALLS <= blocked[key] {
            forced := true;
          }
          return Refused;
        }
      }
      if !forced {
        return Proceed;
      }
      return Skipped;
    }

    method See(r: Request, outcome: Outcome)
      modifies this
      ensures View() == Observe(old(View()), r, outcome)
    {
      if r.signature.tool !in mutating {
        return;
      }
      match outcome {
        case Unknown => uncertain := uncertain + {r.signature};
        case Failed(payload, fingerprint) => SeeFailure(r, payload, fingerprint);
        case Succeeded => SeeSuccess(r);
      }
    }

    method SeeFailure(r: Request, payload: bool, fingerprint: string)
      modifies this
      ensures View() == AfterFailure(old(View()), r, payload, fingerprint)
    {
      var key := r.strategy;
      if payload {
        key := r.attempt;
      }
      if r.resource == "" || key == "" {
        return;
      }
      CountFailure(key, key + ":" + fingerprint);
      CountError(ErrorPrefix(r) + fingerprint);
    }

    method CountFailure(key: string, failure: string)
      modifies this`failures, this`blocked
      ensures failures == old(failures)[failure := Count(old(failures), failure) + 1]
      ensures blocked == if MAX_FAILURES <= failures[failure] && key !in old(blocked) then old(blocked)[key := 0]
          else old(blocked)
    {
      failures := failures[failure := Count(failures, failure) + 1];
      if MAX_FAILURES <= failures[failure] && key !in blocked {
        blocked := blocked[key := 0];
      }
    }

    method CountError(error: string)
      modifies this`repeated, this`blockedErrors
      ensures repeated == old(repeated)[error := Count(old(repeated), error) + 1]
      ensures blockedErrors == if MAX_IDENTICAL_ERRORS <= repeated[error] then old(blockedErrors) + {error}
          else old(blockedErrors)
    {
      repeated := repeated[error := Count(repeated, error) + 1];
      if MAX_IDENTICAL_ERRORS <= repeated[error] && error !in blockedErrors {
        blockedErrors := blockedErrors + {error};
      }
    }

    method SeeSuccess(r: Request)
      modifies this
      ensures View() == AfterSuccess(old(View()), r)
    {
      if r.resource != "" && r.resource in latest && latest[r.resource] != r.signature {
        successful := successful - {latest[r.resource]};
      }
      successful := successful + {r.signature};
      if r.resource == "" {
        return;
      }
      latest := latest[r.resource := r.signature];
      Unblock(r);
      blocked := blocked - {r.strategy} - {r.attempt};
      assert blocked == old(blocked) - {r.strategy, r.attempt};
    }

    method Unblock(r: Request)
      modifies this`blockedErrors, this`repeated
      ensures blockedErrors == Unblocked(old(View()), r) && repeated == Unrepeated(old(View()), r)
    {
      var errors, counts := blockedErrors, repeated;
      var rest := errors;
      while rest != {}
        invariant rest <= errors
        invariant blockedErrors == set key | key in errors && (key in rest || !Blocks(r, key))
        invariant repeated == map key | key in counts && !(key in errors - rest && Blocks(r, key)) :: counts[key]
        decreases rest
      {
        var key :| key in rest;
        if Blocks(r, key) {
          blockedErrors := blockedErrors - {key};
          repeated := repeated - {key};
        }
        rest := rest - {key};
      }
    }
  }
}
