/** When the guard refuses a strategy (src/harness/loop_guard.go). */
module RepeatedFailures {
  import opened LoopGuard

  // ---- Failures of a run ----

  /** A call with side effects failed on a resource. */
  predicate FailureSeen(g: Guard, acts: seq<Act>, i: nat)
    requires i < |acts|
  {
    acts[i].See? && acts[i].outcome.Failed? && GuardedAt(g, acts, i) && acts[i].request.resource != ""
  }

  /** What is blamed for a failure: the whole attempt when the error is about its contents, otherwise the strategy. */
  predicate Blamed(a: Act, key: string) {
    a.See? && a.outcome.Failed? && key != "" && key == if a.outcome.payload then a.request.attempt
        else a.request.strategy
  }

  /** The act is a failure with this key and this error, as the guard writes them down. */
  predicate FailsWith(g: Guard, acts: seq<Act>, i: nat, text: string)
    requires i < |acts|
  {
    FailureSeen(g, acts, i) && var r, o := acts[i].request, acts[i].outcome;
    var key := if o.payload then r.attempt else r.strategy; key != "" && text == key + ":" + o.fingerprint
  }

  /** The act is a failure of this tool on this resource with this error, whatever was attempted. */
  predicate ErrsWith(g: Guard, acts: seq<Act>, i: nat, text: string)
    requires i < |acts|
  {
    FailureSeen(g, acts, i) && var r, o := acts[i].request, acts[i].outcome;
    (if o.payload then r.attempt else r.strategy) != ""
        && text == r.signature.tool + ":" + r.resource + ":" + o.fingerprint
  }

  function Failures(g: Guard, acts: seq<Act>, n: nat, text: string): nat
    requires n <= |acts|
  {
    if n == 0 then 0 else Failures(g, acts, n - 1, text) + if FailsWith(g, acts, n - 1, text) then 1 else 0
  }

  function Errors(g: Guard, acts: seq<Act>, m: nat, n: nat, text: string): nat
    requires m <= n <= |acts|
    decreases n
  {
    if n == m then 0 else Errors(g, acts, m, n - 1, text) + if ErrsWith(g, acts, n - 1, text) then 1 else 0
  }

  // ---- What one act does to the books ----

  lemma NextCounts(g: Guard, a: Act, text: string)
    ensures Count(Next(g, a).failures, text)
        == Count(g.failures, text) + if FailsWith(g, [a], 0, text) then 1 else 0
  {
    assert At(g, [a], 0) == g;
  }

  /** The success of a call that goes by this key, or whose tool and resource the error names. */
  predicate Lifts(g: Guard, a: Act, key: string) {
    && a.See? && a.outcome.Succeeded? && Guarded(g, a.request) && a.request.resource != ""
    && (a.request.strategy == key || a.request.attempt == key)
  }

  predicate LiftsError(g: Guard, a: Act, text: string) {
    && a.See? && a.outcome.Succeeded? && Guarded(g, a.request) && a.request.resource != ""
    && ErrorPrefix(a.request) <= text
  }

  lemma NextBlocked(g: Guard, a: Act, key: string)
    requires key in g.blocked && !Lifts(g, a, key)
    ensures key in Next(g, a).blocked
  {
  }

  /** A second equal failure blocks what is blamed for it. */
  lemma NextBlocks(g: Guard, a: Act, key: string)
    requires Blamed(a, key) && Guarded(g, a.request) && a.request.resource != ""
    requires 1 <= Count(g.failures, key + ":" + a.outcome.fingerprint)
    ensures key in Next(g, a).blocked
  {
  }

  /** Nothing else does. */
  lemma OnlyFailuresBlock(g: Guard, a: Act, key: string)
    requires key in Next(g, a).blocked && key !in g.blocked
    ensures Blamed(a, key) && Guarded(g, a.request) && a.request.resource != ""
    ensures 1 <= Count(g.failures, key + ":" + a.outcome.fingerprint)
  {
  }

  /** An error is blocked exactly when it was counted four times. */
  ghost predicate ErrorsFit(g: Guard) {
    forall text :: text in g.blockedErrors <==> MAX_IDENTICAL_ERRORS <= Count(g.repeated, text)
  }

  lemma ErrorsFitAfterFailure(g: Guard, r: Request, payload: bool, fingerprint: string)
    requires ErrorsFit(g)
    ensures ErrorsFit(AfterFailure(g, r, payload, fingerprint))
  {
  }

  lemma ErrorsFitAfterSuccess(g: Guard, r: Request)
    requires ErrorsFit(g)
    ensures ErrorsFit(AfterSuccess(g, r))
  {
  }

  lemma NextErrorsFit(g: Guard, a: Act)
    requires ErrorsFit(g)
    ensures ErrorsFit(Next(g, a))
  {
    if a.See? && a.outcome.Failed? { ErrorsFitAfterFailure(g, a.request, a.outcome.payload, a.outcome.fingerprint); }
    if a.See? && a.outcome.Succeeded? { ErrorsFitAfterSuccess(g, a.request); }
  }

  lemma NextErrors(g: Guard, a: Act, text: string)
    ensures !LiftsError(g, a, text) ==>
        Count(Next(g, a).repeated, text) == Count(g.repeated, text) + if ErrsWith(g, [a], 0, text) then 1 else 0
    ensures LiftsError(g, a, text) ==> Count(Next(g, a).repeated, text) <= Count(g.repeated, text)
  {
    assert At(g, [a], 0) == g;
  }

  // ---- Whole runs ----

  lemma {:induction false} SameFailure(g: Guard, acts: seq<Act>, i: nat, text: string)
    requires i < |acts|
    ensures FailsWith(At(g, acts, i), [acts[i]], 0, text) <==> FailsWith(g, acts, i, text)
    ensures ErrsWith(At(g, acts, i), [acts[i]], 0, text) <==> ErrsWith(g, acts, i, text)
  {
    assert At(At(g, acts, i), [acts[i]], 0) == At(g, acts, i);
  }

  lemma {:induction false} FailuresCounted(g: Guard, acts: seq<Act>, n: nat, text: string)
    requires n <= |acts| && Fresh(g)
    ensures Count(At(g, acts, n).failures, text) == Failures(g, acts, n, text)
  {
    if n != 0 {
      FailuresCounted(g, acts, n - 1, text);
      NextCounts(At(g, acts, n - 1), acts[n - 1], text);
      SameFailure(g, acts, n - 1, text);
    }
  }

  lemma {:induction false} FailuresGrow(g: Guard, acts: seq<Act>, i: nat, n: nat, text: string)
    requires i < n <= |acts| && FailsWith(g, acts, i, text)
    ensures 1 <= Failures(g, acts, n, text)
  {
    if i < n - 1 { FailuresGrow(g, acts, i, n - 1, text); }
  }

  predicate Unlifted(g: Guard, acts: seq<Act>, m: nat, n: nat, key: string)
    requires n <= |acts|
  {
    forall k: nat :: m <= k < n ==> !Lifts(At(g, acts, k), acts[k], key)
  }

  lemma {:induction false} BlockedStays(g: Guard, acts: seq<Act>, m: nat, n: nat, key: string)
    requires m <= n <= |acts| && key in At(g, acts, m).blocked && Unlifted(g, acts, m, n, key)
    ensures key in At(g, acts, n).blocked
    decreases n
  {
    if m < n {
      BlockedStays(g, acts, m, n - 1, key);
      NextBlocked(At(g, acts, n - 1), acts[n - 1], key);
    }
  }

  /** Two equal failures, however far apart, bar every call with that strategy, or with that attempt when the contents
      were to blame, until a call that goes by it succeeds. */
  lemma EqualFailuresBar(g: Guard, acts: seq<Act>, i: nat, j: nat, n: nat, key: string)
    requires i < j < n < |acts| && Fresh(g) && FailureSeen(g, acts, i) && FailureSeen(g, acts, j)
    requires Blamed(acts[i], key) && Blamed(acts[j], key)
    requires acts[i].outcome.fingerprint == acts[j].outcome.fingerprint
    requires acts[n].Ask? && GuardedAt(g, acts, n)
    requires acts[n].request.strategy == key || acts[n].request.attempt == key
    requires Unlifted(g, acts, j + 1, n, key)
    ensures !VerdictAt(g, acts, n).Proceed?
  {
    var text := key + ":" + acts[i].outcome.fingerprint;
    FailuresGrow(g, acts, i, j, text);
    FailuresCounted(g, acts, j, text);
    NextBlocks(At(g, acts, j), acts[j], key);
    BlockedStays(g, acts, j + 1, n, key);
  }

  predicate UnliftedError(g: Guard, acts: seq<Act>, m: nat, n: nat, text: string)
    requires n <= |acts|
  {
    forall k: nat :: m <= k < n ==> !LiftsError(At(g, acts, k), acts[k], text)
  }

  lemma {:induction false} ErrorsStayFit(g: Guard, acts: seq<Act>, n: nat)
    requires n <= |acts| && Fresh(g)
    ensures ErrorsFit(At(g, acts, n))
  {
    if n != 0 {
      ErrorsStayFit(g, acts, n - 1);
      NextErrorsFit(At(g, acts, n - 1), acts[n - 1]);
    }
  }

  /** The step of the count, read off the acts of the run. */
  lemma ErrorCount(g: Guard, acts: seq<Act>, n: nat, text: string, before: nat, after: nat)
    requires n < |acts|
    requires before == Count(At(g, acts, n).repeated, text) && after == Count(At(g, acts, n + 1).repeated, text)
    ensures !LiftsError(At(g, acts, n), acts[n], text) ==>
        after == before + if ErrsWith(g, acts, n, text) then 1 else 0
    ensures after <= before + if ErrsWith(g, acts, n, text) then 1 else 0
  {
    NextErrors(At(g, acts, n), acts[n], text);
    SameFailure(g, acts, n, text);
  }

  lemma {:induction false} ErrorsCounted(g: Guard, acts: seq<Act>, m: nat, n: nat, text: string)
    requires m <= n <= |acts| && UnliftedError(g, acts, m, n, text)
    ensures Count(At(g, acts, n).repeated, text)
        == Count(At(g, acts, m).repeated, text) + Errors(g, acts, m, n, text)
    decreases n
  {
    if m < n {
      var k: nat := n - 1;
      ErrorsCounted(g, acts, m, k, text);
      ErrorCount(g, acts, k, text, Count(At(g, acts, k).repeated, text), Count(At(g, acts, k + 1).repeated, text));
    }
  }

  lemma {:induction false} ErrorsAtMost(g: Guard, acts: seq<Act>, n: nat, text: string)
    requires n <= |acts| && Fresh(g)
    ensures Count(At(g, acts, n).repeated, text) <= Errors(g, acts, 0, n, text)
  {
    if n != 0 {
      var k: nat := n - 1;
      ErrorsAtMost(g, acts, k, text);
      ErrorCount(g, acts, k, text, Count(At(g, acts, k).repeated, text), Count(At(g, acts, k + 1).repeated, text));
    }
  }

  /** Four equal errors bar every call of the tool on that resource, whatever it attempts, until one succeeds. */
  lemma {:induction false} EqualErrorsBar(g: Guard, acts: seq<Act>, m: nat, n: nat, text: string)
    requires m <= n < |acts| && Fresh(g) && 4 <= Errors(g, acts, m, n, text) && UnliftedError(g, acts, m, n, text)
    requires acts[n].Ask? && GuardedAt(g, acts, n) && acts[n].request.resource != ""
    requires acts[n].request.signature.tool + ":" + acts[n].request.resource + ":" <= text
    ensures !VerdictAt(g, acts, n).Proceed?
  {
    ErrorsStayFit(g, acts, n);
    ErrorsCounted(g, acts, m, n, text);
    assert Blocks(acts[n].request, text);
  }

  /** What is blocked was blamed for two equal failures. */
  lemma {:induction false} BlockedForFailures(g: Guard, acts: seq<Act>, n: nat, key: string)
      returns (i: nat)
    requires n <= |acts| && Fresh(g) && key in At(g, acts, n).blocked
    ensures i < n && Blamed(acts[i], key) && FailureSeen(g, acts, i)
    ensures 2 <= Failures(g, acts, i + 1, key + ":" + acts[i].outcome.fingerprint)
  {
    assert n != 0;
    if key in At(g, acts, n - 1).blocked {
      i := BlockedForFailures(g, acts, n - 1, key);
    } else {
      i := n - 1;
      var text := key + ":" + acts[i].outcome.fingerprint;
      OnlyFailuresBlock(At(g, acts, i), acts[i], key);
      FailuresCounted(g, acts, i, text);
    }
  }

  /** Whoever is refused repeats what has failed: two equal failures of the strategy or the attempt, or four equal
      errors of the tool on the resource. */
  lemma RefusedForFailures(g: Guard, acts: seq<Act>, n: nat) returns (i: nat, text: string)
    requires n < |acts| && Fresh(g) && acts[n].Ask? && VerdictAt(g, acts, n).Refused?
    ensures var r := acts[n].request;
        || (r.resource != "" && r.signature.tool + ":" + r.resource + ":" <= text && 4 <= Errors(g, acts, 0, n, text))
        || (i < n && FailureSeen(g, acts, i) && (Blamed(acts[i], r.strategy) || Blamed(acts[i], r.attempt))
            && FailsWith(g, acts, i, text) && 2 <= Failures(g, acts, i + 1, text))
  {
    var h, r := At(g, acts, n), acts[n].request;
    i, text := 0, "";
    if ErrorBlocked(h, r) {
      text :| text in h.blockedErrors && Blocks(r, text);
      ErrorsStayFit(g, acts, n);
      ErrorsAtMost(g, acts, n, text);
    } else {
      i := BlockedForFailures(g, acts, n, BlockKey(h, r));
      text := BlockKey(h, r) + ":" + acts[i].outcome.fingerprint;
    }
  }

  // ---- What a success lifts ----

  lemma LiftedStep(g: Guard, a: Act, r: Request)
    requires !(a.See? && a.outcome.Failed? && Guarded(g, a.request))
    ensures r.strategy !in g.blocked ==> r.strategy !in Next(g, a).blocked
    ensures r.attempt !in g.blocked ==> r.attempt !in Next(g, a).blocked
    ensures !ErrorBlocked(g, r) ==> !ErrorBlocked(Next(g, a), r)
  {
  }

  /** A success lifts what stood against its strategy, its attempt and its tool on the resource, until the next
      failure. */
  lemma {:induction false} SuccessLifts(g: Guard, acts: seq<Act>, i: nat, n: nat)
    requires i < n <= |acts| && Success(g, acts, i) && acts[i].request.resource != ""
    requires forall k :: i < k < n && acts[k].See? && acts[k].outcome.Failed? ==> !GuardedAt(g, acts, k)
    ensures var r, h := acts[i].request, At(g, acts, n);
        r.strategy !in h.blocked && r.attempt !in h.blocked && !ErrorBlocked(h, r)
  {
    if i < n - 1 {
      SuccessLifts(g, acts, i, n - 1);
      LiftedStep(At(g, acts, n - 1), acts[n - 1], acts[i].request);
    }
  }

  // ---- Insisting on what is blocked ----

  lemma NextRefusals(g: Guard, a: Act, key: string)
    requires key in g.blocked && !Lifts(g, a, key)
    ensures key in Next(g, a).blocked && g.blocked[key] <= Next(g, a).blocked[key]
  {
  }

  lemma {:induction false} RefusalsStay(g: Guard, acts: seq<Act>, m: nat, n: nat, key: string)
    requires m <= n <= |acts| && key in At(g, acts, m).blocked && Unlifted(g, acts, m, n, key)
    ensures key in At(g, acts, n).blocked && At(g, acts, m).blocked[key] <= At(g, acts, n).blocked[key]
    decreases n
  {
    if m < n {
      RefusalsStay(g, acts, m, n - 1, key);
      NextRefusals(At(g, acts, n - 1), acts[n - 1], key);
    }
  }

  /** The call was refused for what it goes by, and not for an error of its resource. */
  predicate RefusedFor(g: Guard, acts: seq<Act>, n: nat, key: string)
    requires n < |acts|
  {
    && acts[n].Ask? && GuardedAt(g, acts, n) && VerdictAt(g, acts, n).Refused?
    && !ErrorBlocked(At(g, acts, n), acts[n].request) && BlockKey(At(g, acts, n), acts[n].request) == key
  }

  /** Who insists is stopped: after two refusals for the same reason nothing with side effects proceeds any more. */
  lemma TwoRefusalsEndAll(g: Guard, acts: seq<Act>, i: nat, j: nat, key: string)
    requires i < j < |acts| && RefusedFor(g, acts, i, key) && RefusedFor(g, acts, j, key)
    requires Unlifted(g, acts, i, j, key)
    ensures Barred(g, acts, j + 1)
  {
    RefusalsStay(g, acts, i + 1, j, key);
    ForcedBars(g, acts, j + 1);
  }
}
