/** What repair does with every transcript (src/harness/context.go). */
module RepairLaws {
  import opened Transcript

  // Also with one whose call ids repeat or are blank.

  // ---- Legality ----

  /** No assistant message calls twice under one id. */
  predicate DistinctCallers(messages: seq<Sequenced>) {
    forall m :: m in messages && Caller(m) ==> DistinctCalls(m.message.calls)
  }

  lemma {:induction false} IdsAtMost(calls: seq<Call>)
    ensures |CallIds(calls)| <= |calls|
    ensures |CallIds(calls)| == |calls| <==> DistinctCalls(calls)
  {
    if calls == [] {
      assert CallIds(calls) == {};
    } else {
      var rest := calls[1..];
      IdsAtMost(rest);
      HeadIds(calls);
      if calls[0].id in CallIds(rest) {
        var c :| c in rest && c.id == calls[0].id;
        var i :| 0 <= i < |rest| && rest[i] == c;
        assert calls[i + 1].id == calls[0].id;
        assert CallIds(calls) == CallIds(rest);
      } else {
        DistinctHead(calls);
      }
    }
  }

  lemma DistinctHead(calls: seq<Call>)
    requires calls != [] && calls[0].id !in CallIds(calls[1..])
    ensures DistinctCalls(calls) <==> DistinctCalls(calls[1..])
  {
    var rest := calls[1..];
    if DistinctCalls(rest) {
      forall i, j | 0 <= i < j < |calls| ensures calls[i].id != calls[j].id {
        assert rest[j - 1] == calls[j] && rest[j - 1] in rest;
        if i > 0 { assert rest[i - 1] == calls[i]; }
      }
    }
    if DistinctCalls(calls) {
      forall i, j | 0 <= i < j < |rest| ensures rest[i].id != rest[j].id {
        assert rest[i] == calls[i + 1] && rest[j] == calls[j + 1];
      }
    }
  }

  /** Only calls with distinct ids can be answered one by one. */
  lemma AnsweredAreDistinct(calls: seq<Call>, tools: seq<Sequenced>)
    requires Answers(calls, tools)
    ensures DistinctCalls(calls) && ResultIds(tools) == CallIds(calls)
  {
    IdsAtMost(calls);
    DistinctIds(tools);
    assert CallIds(calls) == ResultIds(tools) + (CallIds(calls) - ResultIds(tools));
    assert |CallIds(calls)| == |ResultIds(tools)| + |CallIds(calls) - ResultIds(tools)|;
  }

  /** The results of a repaired assistant message answer its calls exactly when these are distinct. */
  lemma ResultsAnswerExactly(caller: Sequenced, tools: seq<Sequenced>)
    requires AllTools(tools)
    ensures Answers(caller.message.calls, Results(caller, tools)) <==> DistinctCalls(caller.message.calls)
  {
    var calls := caller.message.calls;
    var kept := Kept(calls, tools, {});
    if DistinctCalls(calls) {
      var missing := Missing(caller, calls, ResultIds(kept));
      KeptProperties(calls, tools, {});
      MissingProperties(caller, calls, ResultIds(kept));
      ResultsCount(caller, calls, kept);
      DistinctAppend(kept, missing);
      ResultIdsAppend(kept, missing);
      AllToolsAppend(kept, missing);
    } else if Answers(calls, Results(caller, tools)) {
      AnsweredAreDistinct(calls, Results(caller, tools));
    }
  }

  /** A block is legal exactly when its results answer its calls and the rest is legal. */
  lemma {:induction false} LegalBlockExactly(m: Sequenced, tools: seq<Sequenced>, rest: seq<Sequenced>)
    requires Caller(m) && AllTools(tools) && (rest == [] || !IsTool(rest[0]))
    ensures Legal([m] + (tools + rest)) <==> Answers(m.message.calls, tools) && Legal(rest)
  {
    if Legal([m] + (tools + rest)) { LegalParts(m, tools, rest); }
    if Answers(m.message.calls, tools) { LegalBlock(m, tools, rest); }
  }

  lemma {:induction false} LegalParts(m: Sequenced, tools: seq<Sequenced>, rest: seq<Sequenced>)
    requires Caller(m) && AllTools(tools) && (rest == [] || !IsTool(rest[0])) && Legal([m] + (tools + rest))
    ensures Answers(m.message.calls, tools) && Legal(rest)
  {
    var all := [m] + (tools + rest);
    var more, other := LegalBlocks(all);
    assert all[0] == m && all[1..] == tools + rest && ([m] + (more + other))[1..] == more + other;
    SameBlock(more, other, tools, rest);
  }

  lemma {:induction false} RepairedHead(messages: seq<Sequenced>)
    ensures Repair(messages) == [] || !IsTool(Repair(messages)[0])
    decreases |messages|
  {
    if messages != [] && IsTool(messages[0]) { RepairedHead(messages[1..]); }
  }

  lemma DistinctBlock(m: Sequenced, tools: seq<Sequenced>, rest: seq<Sequenced>)
    requires AllTools(tools)
    ensures DistinctCallers([m] + (tools + rest)) <==>
        (Caller(m) ==> DistinctCalls(m.message.calls)) && DistinctCallers(rest)
  {
    var all := [m] + (tools + rest);
    assert forall x :: x in all <==> x == m || x in tools || x in rest;
  }

  /** Whatever the transcript, the repaired view is legal exactly when no assistant message calls twice under one id. */
  lemma {:induction false} LegalExactly(messages: seq<Sequenced>)
    ensures Legal(Repair(messages)) <==> DistinctCallers(messages)
    decreases |messages|
  {
    if messages != [] {
      var m := messages[0];
      if Caller(m) {
        var tools, rest := Blocks(messages);
        LegalExactly(rest);
        RepairBlock(m, tools, rest);
        ResultsAnswerExactly(m, tools);
        ResultsAreTools(m, tools);
        RepairedHead(rest);
        LegalBlockExactly(m, Results(m, tools), Repair(rest));
        DistinctBlock(m, tools, rest);
      } else {
        var rest := messages[1..];
        LegalExactly(rest);
        DistinctBlock(m, [], rest);
        assert messages == [m] + ([] + rest);
        if !IsTool(m) { LegalSpeech(m, Repair(rest)); }
      }
    }
  }

  // ---- Repairing again ----

  /** The calls that have no result yet. */
  function Unanswered(calls: seq<Call>, answered: set<Id>): seq<Call> {
    if calls == [] then []
    else if calls[0].id in answered then Unanswered(calls[1..], answered)
    else [calls[0]] + Unanswered(calls[1..], answered)
  }

  function SynthesizedAll(caller: Sequenced, calls: seq<Call>): seq<Sequenced> {
    if calls == [] then [] else [Synthesized(caller, calls[0])] + SynthesizedAll(caller, calls[1..])
  }

  /** The first call under every id that is not blank. */
  function Firsts(calls: seq<Call>, seen: set<Id>): seq<Call> {
    if calls == [] then []
    else if calls[0].id == BLANK || calls[0].id in seen then Firsts(calls[1..], seen)
    else [calls[0]] + Firsts(calls[1..], seen + {calls[0].id})
  }

  function Blanks(calls: seq<Call>): seq<Call> {
    if calls == [] then []
    else if calls[0].id == BLANK then [calls[0]] + Blanks(calls[1..])
    else Blanks(calls[1..])
  }

  predicate AllBlank(calls: seq<Call>) {
    forall c :: c in calls ==> c.id == BLANK
  }

  /** Calls under different ids, and behind them only calls under the blank one. */
  predicate Steady(calls: seq<Call>, seen: set<Id>) {
    calls == [] ||
      if calls[0].id == BLANK then AllBlank(calls)
      else calls[0].id !in seen && Steady(calls[1..], seen + {calls[0].id})
  }

  lemma {:induction false} FirstsAndBlanks(calls: seq<Call>, seen: set<Id>)
    ensures |Firsts(calls, seen)| + |Blanks(calls)| <= |calls|
    ensures forall c :: c in Firsts(calls, seen) ==> c.id != BLANK
    ensures AllBlank(calls) ==> Firsts(calls, seen) == [] && Blanks(calls) == calls
    ensures |Blanks(calls)| == |calls| ==> AllBlank(calls)
    decreases |calls|
  {
    if calls != [] {
      var rest := calls[1..];
      assert calls == [calls[0]] + rest;
      FirstsAndBlanks(rest, seen);
      FirstsAndBlanks(rest, seen + {calls[0].id});
    }
  }

  lemma {:induction false} SteadyBlank(calls: seq<Call>, seen: set<Id>)
    requires calls != [] && calls[0].id == BLANK
    ensures Firsts(calls, seen) + Blanks(calls) == calls <==> AllBlank(calls)
  {
    var firsts := Firsts(calls, seen);
    FirstsAndBlanks(calls, seen);
    if firsts == [] {
      assert [] + Blanks(calls) == Blanks(calls);
    } else {
      assert (firsts + Blanks(calls))[0] == firsts[0] && firsts[0] in firsts;
    }
  }

  lemma {:induction false} SteadyExactly(calls: seq<Call>, seen: set<Id>)
    ensures Firsts(calls, seen) + Blanks(calls) == calls <==> Steady(calls, seen)
    decreases |calls|
  {
    if calls != [] {
      var first, rest := calls[0], calls[1..];
      if first.id == BLANK {
        SteadyBlank(calls, seen);
      } else if first.id in seen {
        FirstsAndBlanks(rest, seen);
      } else {
        SteadyExactly(rest, seen + {first.id});
        SteadyHead(first, Firsts(rest, seen + {first.id}), Blanks(rest), calls);
      }
    }
  }

  lemma SteadyHead(first: Call, firsts: seq<Call>, blanks: seq<Call>, calls: seq<Call>)
    requires calls != [] && calls[0] == first
    ensures ([first] + firsts) + blanks == calls <==> firsts + blanks == calls[1..]
  {
    assert ([first] + firsts) + blanks == [first] + (firsts + blanks);
    assert ([first] + (firsts + blanks))[1..] == firsts + blanks && calls == [first] + calls[1..];
  }

  lemma {:induction false} MissingIsSynthesized(caller: Sequenced, calls: seq<Call>, answered: set<Id>)
    ensures Missing(caller, calls, answered) == SynthesizedAll(caller, Unanswered(calls, answered))
    decreases |calls|
  {
    if calls != [] { MissingIsSynthesized(caller, calls[1..], answered); }
  }

  lemma {:induction false} KeptAppend(calls: seq<Call>, a: seq<Sequenced>, b: seq<Sequenced>, answered: set<Id>)
    ensures Kept(calls, a + b, answered)
        == Kept(calls, a, answered) + Kept(calls, b, answered + ResultIds(Kept(calls, a, answered)))
    decreases |a|
  {
    if a == [] {
      assert a + b == b && answered + ResultIds([]) == answered;
    } else {
      var id := a[0].message.callId;
      assert (a + b)[1..] == a[1..] + b && (a + b)[0] == a[0];
      if id !in answered && HasToolCall(calls, id) {
        KeptAppend(calls, a[1..], b, answered + {id});
        HeadResultIds(Kept(calls, a, answered));
        assert Kept(calls, a, answered)[1..] == Kept(calls, a[1..], answered + {id});
        assert answered + {id} + ResultIds(Kept(calls, a[1..], answered + {id}))
            == answered + ResultIds(Kept(calls, a, answered));
      } else {
        KeptAppend(calls, a[1..], b, answered);
      }
    }
  }

  lemma {:induction false} KeptNotBlank(calls: seq<Call>, tools: seq<Sequenced>, answered: set<Id>)
    ensures BLANK !in ResultIds(Kept(calls, tools, answered))
    decreases |tools|
  {
    if tools != [] {
      var id := tools[0].message.callId;
      KeptNotBlank(calls, tools[1..], answered + {id});
      KeptNotBlank(calls, tools[1..], answered);
    }
  }

  /** Of synthesized results the first under every id is kept. */
  lemma {:induction false} KeptSynthesized(caller: Sequenced, calls: seq<Call>, some: seq<Call>, answered: set<Id>)
    requires forall c :: c in some ==> c in calls
    ensures Kept(calls, SynthesizedAll(caller, some), answered) == SynthesizedAll(caller, Firsts(some, answered))
    decreases |some|
  {
    if some != [] {
      var id := some[0].id;
      assert SynthesizedAll(caller, some)[1..] == SynthesizedAll(caller, some[1..]);
      KeptSynthesized(caller, calls, some[1..], answered + {id});
      KeptSynthesized(caller, calls, some[1..], answered);
      assert some[0] in calls;
    }
  }

  lemma {:induction false} SynthesizedIds(caller: Sequenced, calls: seq<Call>)
    ensures ResultIds(SynthesizedAll(caller, calls)) == CallIds(calls)
    decreases |calls|
  {
    if calls != [] {
      SynthesizedIds(caller, calls[1..]);
      HeadIds(calls);
      HeadResultIds(SynthesizedAll(caller, calls));
      assert SynthesizedAll(caller, calls)[1..] == SynthesizedAll(caller, calls[1..]);
    }
  }

  lemma {:induction false} SynthesizedAppend(caller: Sequenced, a: seq<Call>, b: seq<Call>)
    ensures SynthesizedAll(caller, a + b) == SynthesizedAll(caller, a) + SynthesizedAll(caller, b)
    decreases |a|
  {
    if a == [] {
      assert a + b == b;
    } else {
      SynthesizedAppend(caller, a[1..], b);
      assert (a + b)[1..] == a[1..] + b && (a + b)[0] == a[0];
    }
  }

  lemma {:induction false} SynthesizedInjective(caller: Sequenced, a: seq<Call>, b: seq<Call>)
    requires SynthesizedAll(caller, a) == SynthesizedAll(caller, b)
    ensures a == b
    decreases |a|
  {
    if a != [] && b != [] {
      var x, y := SynthesizedAll(caller, a), SynthesizedAll(caller, b);
      assert x[0] == y[0] && x[1..] == SynthesizedAll(caller, a[1..]) && y[1..] == SynthesizedAll(caller, b[1..]);
      SynthesizedInjective(caller, a[1..], b[1..]);
      assert a == [a[0]] + a[1..] && b == [b[0]] + b[1..];
    }
  }

  lemma {:induction false} FirstsCover(calls: seq<Call>, seen: set<Id>)
    ensures CallIds(Firsts(calls, seen)) == CallIds(calls) - seen - {BLANK}
    decreases |calls|
  {
    if calls == [] {
      assert CallIds(calls) == {};
    } else {
      HeadIds(calls);
      if calls[0].id == BLANK || calls[0].id in seen {
        FirstsCover(calls[1..], seen);
      } else {
        FirstsCover(calls[1..], seen + {calls[0].id});
        HeadIds(Firsts(calls, seen));
        assert Firsts(calls, seen)[1..] == Firsts(calls[1..], seen + {calls[0].id});
      }
    }
  }

  lemma {:induction false} OnlyBlanksLeft(calls: seq<Call>, answered: set<Id>, more: set<Id>)
    requires answered <= more && BLANK !in more && CallIds(Unanswered(calls, answered)) - {BLANK} <= more
    ensures Unanswered(calls, more) == Blanks(Unanswered(calls, answered))
    decreases |calls|
  {
    if calls != [] {
      var rest := Unanswered(calls[1..], answered);
      if calls[0].id !in answered {
        HeadIds(Unanswered(calls, answered));
        assert Unanswered(calls, answered)[1..] == rest;
      }
      OnlyBlanksLeft(calls[1..], answered, more);
    }
  }

  lemma {:induction false} UnansweredIds(calls: seq<Call>, answered: set<Id>)
    ensures CallIds(Unanswered(calls, answered)) == CallIds(calls) - answered
    ensures forall c :: c in Unanswered(calls, answered) ==> c in calls
    decreases |calls|
  {
    if calls == [] {
      assert CallIds(calls) == {};
    } else {
      UnansweredIds(calls[1..], answered);
      HeadIds(calls);
      if calls[0].id !in answered {
        HeadIds(Unanswered(calls, answered));
        assert Unanswered(calls, answered)[1..] == Unanswered(calls[1..], answered);
      }
    }
  }

  /** The calls of an assistant message for which results are synthesized. */
  function Unsettled(m: Sequenced, tools: seq<Sequenced>): seq<Call> {
    Unanswered(m.message.calls, ResultIds(Kept(m.message.calls, tools, {})))
  }

  /** Of the results of a repaired message the kept ones and the first synthesized ones are kept again. */
  lemma {:induction false} KeptAgain(m: Sequenced, kept: seq<Sequenced>, some: seq<Call>)
    requires kept == Kept(m.message.calls, kept, {}) && (forall c :: c in some ==> c in m.message.calls)
    requires CallIds(some) !! ResultIds(kept)
    ensures Kept(m.message.calls, kept + SynthesizedAll(m, some), {}) == kept + SynthesizedAll(m, Firsts(some, {}))
  {
    KeptAppend(m.message.calls, kept, SynthesizedAll(m, some), {});
    assert {} + ResultIds(kept) == ResultIds(kept);
    KeptSynthesized(m, m.message.calls, some, ResultIds(kept));
    SameFirsts(some, ResultIds(kept), {});
  }

  /** Only what has the blank id is then missing again. */
  lemma {:induction false} MissingAgain(m: Sequenced, kept: seq<Sequenced>, some: seq<Call>)
    requires some == Unanswered(m.message.calls, ResultIds(kept)) && BLANK !in ResultIds(kept)
    ensures Missing(m, m.message.calls, ResultIds(kept + SynthesizedAll(m, Firsts(some, {}))))
        == SynthesizedAll(m, Blanks(some))
  {
    var firsts := Firsts(some, {});
    SynthesizedIds(m, firsts);
    ResultIdsAppend(kept, SynthesizedAll(m, firsts));
    FirstsCover(some, {});
    OnlyBlanksLeft(m.message.calls, ResultIds(kept), ResultIds(kept) + CallIds(firsts));
    MissingIsSynthesized(m, m.message.calls, ResultIds(kept) + CallIds(firsts));
  }

  /** The results of the results. */
  lemma {:induction false} ResultsAgain(m: Sequenced, tools: seq<Sequenced>)
    ensures var kept, some := Kept(m.message.calls, tools, {}), Unsettled(m, tools);
            && Results(m, tools) == kept + SynthesizedAll(m, some)
            && Results(m, Results(m, tools)) == kept + SynthesizedAll(m, Firsts(some, {}) + Blanks(some))
  {
    var calls, kept, some := m.message.calls, Kept(m.message.calls, tools, {}), Unsettled(m, tools);
    MissingIsSynthesized(m, calls, ResultIds(kept));
    KeptProperties(calls, tools, {});
    KeptNotBlank(calls, tools, {});
    KeepsAll(calls, kept, {});
    UnansweredIds(calls, ResultIds(kept));
    KeptAgain(m, kept, some);
    MissingAgain(m, kept, some);
    AgainTogether(m, kept, Firsts(some, {}), Blanks(some));
  }

  lemma {:induction false} AgainTogether(m: Sequenced, kept: seq<Sequenced>, firsts: seq<Call>, blanks: seq<Call>)
    ensures (kept + SynthesizedAll(m, firsts)) + SynthesizedAll(m, blanks) == kept + SynthesizedAll(m, firsts + blanks)
  {
    SynthesizedAppend(m, firsts, blanks);
    assert (kept + SynthesizedAll(m, firsts)) + SynthesizedAll(m, blanks)
        == kept + (SynthesizedAll(m, firsts) + SynthesizedAll(m, blanks));
  }

  lemma {:induction false} SameFirsts(calls: seq<Call>, seen: set<Id>, less: set<Id>)
    requires CallIds(calls) * seen <= less <= seen
    ensures Firsts(calls, seen) == Firsts(calls, less)
    decreases |calls|
  {
    if calls != [] {
      HeadIds(calls);
      SameFirsts(calls[1..], seen, less);
      SameFirsts(calls[1..], seen + {calls[0].id}, less + {calls[0].id});
    }
  }

  lemma ResultsSteady(m: Sequenced, tools: seq<Sequenced>)
    ensures Results(m, Results(m, tools)) == Results(m, tools) <==> Steady(Unsettled(m, tools), {})
  {
    var kept, some := Kept(m.message.calls, tools, {}), Unsettled(m, tools);
    ResultsAgain(m, tools);
    SteadyExactly(some, {});
    var a, b := SynthesizedAll(m, Firsts(some, {}) + Blanks(some)), SynthesizedAll(m, some);
    if kept + a == kept + b {
      assert a == (kept + a)[|kept|..] && b == (kept + b)[|kept|..];
      SynthesizedInjective(m, Firsts(some, {}) + Blanks(some), some);
    }
  }

  /** In every block the calls without a result have distinct ids, and behind them there are only blank ones. */
  predicate SteadyCallers(messages: seq<Sequenced>)
    decreases |messages|
  {
    if messages == [] then true
    else if Caller(messages[0]) then
      var n := 1 + ToolRun(messages[1..]);
      Steady(Unsettled(messages[0], messages[1..n]), {}) && SteadyCallers(messages[n..])
    else SteadyCallers(messages[1..])
  }

  lemma {:induction false} SteadyBlock(m: Sequenced, tools: seq<Sequenced>, rest: seq<Sequenced>)
    requires Caller(m) && AllTools(tools) && (rest == [] || !IsTool(rest[0]))
    ensures SteadyCallers([m] + (tools + rest)) <==> Steady(Unsettled(m, tools), {}) && SteadyCallers(rest)
  {
    var all := [m] + (tools + rest);
    ToolRunOf(tools, rest);
    assert all[1..] == tools + rest && all[1..1 + |tools|] == tools && all[1 + |tools|..] == rest;
  }

  lemma SameBlock(a: seq<Sequenced>, x: seq<Sequenced>, b: seq<Sequenced>, y: seq<Sequenced>)
    requires AllTools(a) && AllTools(b) && (x == [] || !IsTool(x[0])) && (y == [] || !IsTool(y[0]))
    ensures a + x == b + y <==> a == b && x == y
  {
    ToolRunOf(a, x);
    ToolRunOf(b, y);
    if a + x == b + y {
      assert a == (a + x)[..|a|] && x == (a + x)[|a|..];
    }
  }

  /** Whatever the transcript, repairing again changes nothing exactly when its unanswered calls are steady. */
  lemma {:induction false} IdempotentExactly(messages: seq<Sequenced>)
    ensures Repair(Repair(messages)) == Repair(messages) <==> SteadyCallers(messages)
    decreases |messages|
  {
    if messages != [] {
      var m := messages[0];
      if Caller(m) {
        var tools, rest := Blocks(messages);
        IdempotentExactly(rest);
        BlockAgain(m, tools, rest);
        SteadyBlock(m, tools, rest);
      } else {
        var rest := messages[1..];
        IdempotentExactly(rest);
        if !IsTool(m) {
          RepairSpeech(m, Repair(rest));
          assert ([m] + Repair(rest))[1..] == Repair(rest) && ([m] + Repair(Repair(rest)))[1..] == Repair(Repair(rest));
        }
      }
    }
  }

  lemma {:induction false} BlockAgain(m: Sequenced, tools: seq<Sequenced>, rest: seq<Sequenced>)
    requires Caller(m) && AllTools(tools) && (rest == [] || !IsTool(rest[0]))
    ensures var once := Repair([m] + (tools + rest));
            Repair(once) == once <==> Steady(Unsettled(m, tools), {}) && Repair(Repair(rest)) == Repair(rest)
  {
    var results, fixed := Results(m, tools), Repair(rest);
    RepairBlock(m, tools, rest);
    ResultsAreTools(m, tools);
    RepairedHead(rest);
    RepairBlock(m, results, fixed);
    ResultsAreTools(m, results);
    RepairedHead(fixed);
    ResultsSteady(m, tools);
    var again := Results(m, results) + Repair(fixed);
    SameBlock(Results(m, results), Repair(fixed), results, fixed);
    assert ([m] + again)[1..] == again && ([m] + (results + fixed))[1..] == results + fixed;
  }

  // ---- Legal views ----

  /** A recorded result under the blank id is thrown away and made anew, which shows unless it is what would be made. */
  predicate BlankLast(m: Sequenced, tools: seq<Sequenced>) {
    forall c :: c in m.message.calls && c.id == BLANK ==> tools != [] && tools[|tools| - 1] == Synthesized(m, c)
  }

  /** Kept leaves out what has the blank id. */
  lemma {:induction false} KeptWithoutBlank(calls: seq<Call>, tools: seq<Sequenced>, answered: set<Id>)
    requires ResultIds(tools) <= CallIds(calls) - answered && DistinctResults(tools)
    ensures BLANK !in ResultIds(tools) ==> Kept(calls, tools, answered) == tools
    ensures BLANK in ResultIds(tools) ==> |Kept(calls, tools, answered)| < |tools|
    ensures tools != [] && tools[|tools| - 1].message.callId == BLANK ==>
        Kept(calls, tools, answered) == tools[..|tools| - 1]
    decreases |tools|
  {
    if tools != [] {
      var id, rest := tools[0].message.callId, tools[1..];
      HeadResultIds(tools);
      if id == BLANK {
        KeptWithoutBlank(calls, rest, answered);
        if rest != [] { LastId(rest); }
      } else {
        KeptWithoutBlank(calls, rest, answered + {id});
        assert tools == [tools[0]] + rest;
        if rest != [] { assert tools[..|tools| - 1] == [tools[0]] + rest[..|rest| - 1]; }
      }
    }
  }

  lemma LastId(tools: seq<Sequenced>)
    requires tools != []
    ensures tools[|tools| - 1].message.callId in ResultIds(tools)
  {
    assert tools[|tools| - 1] in tools;
  }

  lemma {:induction false} KeptIds(calls: seq<Call>, tools: seq<Sequenced>, answered: set<Id>)
    requires ResultIds(tools) <= CallIds(calls) - answered && DistinctResults(tools)
    ensures ResultIds(Kept(calls, tools, answered)) == ResultIds(tools) - {BLANK}
    decreases |tools|
  {
    if tools == [] {
      assert ResultIds(tools) == {};
    } else {
      var id, rest := tools[0].message.callId, tools[1..];
      HeadResultIds(tools);
      if id == BLANK {
        KeptIds(calls, rest, answered);
      } else {
        KeptIds(calls, rest, answered + {id});
        HeadResultIds(Kept(calls, tools, answered));
        assert Kept(calls, tools, answered)[1..] == Kept(calls, rest, answered + {id});
      }
    }
  }

  /** Only the blank call is left without a result. */
  lemma {:induction false} OnlyBlankMissing(m: Sequenced, calls: seq<Call>, answered: set<Id>, c: Call)
    requires DistinctCalls(calls) && CallIds(calls) - {BLANK} <= answered && BLANK !in answered && c.id == BLANK
    requires forall d :: d in calls && d.id == BLANK ==> d == c
    ensures Missing(m, calls, answered) == if c in calls then [Synthesized(m, c)] else []
    decreases |calls|
  {
    if calls != [] {
      var rest := calls[1..];
      HeadIds(calls);
      DistinctHead(calls);
      OnlyBlankMissing(m, rest, answered, c);
      assert calls == [calls[0]] + rest;
    }
  }

  lemma OneBlank(calls: seq<Call>, c: Call)
    requires DistinctCalls(calls) && c in calls && c.id == BLANK
    ensures forall d :: d in calls && d.id == BLANK ==> d == c
  {
    forall d | d in calls && d.id == BLANK ensures d == c {
      var i :| 0 <= i < |calls| && calls[i] == c;
      var j :| 0 <= j < |calls| && calls[j] == d;
      assert i == j;
    }
  }

  lemma ResultsOfLegal(m: Sequenced, tools: seq<Sequenced>)
    requires Answers(m.message.calls, tools)
    ensures Results(m, tools) == tools <==> BlankLast(m, tools)
  {
    var calls := m.message.calls;
    AnsweredAreDistinct(calls, tools);
    KeptWithoutBlank(calls, tools, {});
    KeptIds(calls, tools, {});
    if BLANK in CallIds(calls) {
      var c :| c in calls && c.id == BLANK;
      var kept, last := Kept(calls, tools, {}), tools[|tools| - 1];
      OneBlank(calls, c);
      OnlyBlankMissing(m, calls, ResultIds(kept), c);
      assert Results(m, tools) == kept + [Synthesized(m, c)];
      assert tools == tools[..|tools| - 1] + [last];
      assert (kept + [Synthesized(m, c)])[|kept|] == Synthesized(m, c);
    } else {
      NothingMissing(m, calls, ResultIds(tools));
    }
  }

  predicate BlanksLast(messages: seq<Sequenced>)
    decreases |messages|
  {
    if messages == [] then true
    else if Caller(messages[0]) then
      var n := 1 + ToolRun(messages[1..]);
      BlankLast(messages[0], messages[1..n]) && BlanksLast(messages[n..])
    else BlanksLast(messages[1..])
  }

  lemma {:induction false} BlanksBlock(m: Sequenced, tools: seq<Sequenced>, rest: seq<Sequenced>)
    requires Caller(m) && AllTools(tools) && (rest == [] || !IsTool(rest[0]))
    ensures BlanksLast([m] + (tools + rest)) <==> BlankLast(m, tools) && BlanksLast(rest)
  {
    var all := [m] + (tools + rest);
    ToolRunOf(tools, rest);
    assert all[1..] == tools + rest && all[1..1 + |tools|] == tools && all[1 + |tools|..] == rest;
  }

  /** A legal view is left alone exactly when nothing but a synthesized result stands under the blank id. */
  lemma {:induction false} FixedExactly(messages: seq<Sequenced>)
    requires Legal(messages)
    ensures Repair(messages) == messages <==> BlanksLast(messages)
    decreases |messages|
  {
    if messages != [] {
      var m := messages[0];
      var tools, rest := LegalBlocks(messages);
      FixedExactly(rest);
      if Caller(m) {
        FixedBlock(m, tools, rest);
        BlanksBlock(m, tools, rest);
      } else {
        assert tools + rest == rest && messages[1..] == rest;
        RepairSpeech(m, rest);
        assert ([m] + Repair(rest))[1..] == Repair(rest);
      }
    }
  }

  lemma {:induction false} FixedBlock(m: Sequenced, tools: seq<Sequenced>, rest: seq<Sequenced>)
    requires Caller(m) && Answers(m.message.calls, tools) && (rest == [] || !IsTool(rest[0]))
    ensures Repair([m] + (tools + rest)) == [m] + (tools + rest) <==> BlankLast(m, tools) && Repair(rest) == rest
  {
    RepairBlock(m, tools, rest);
    ResultsOfLegal(m, tools);
    ResultsAreTools(m, tools);
    RepairedHead(rest);
    SameBlock(Results(m, tools), Repair(rest), tools, rest);
    var again := Results(m, tools) + Repair(rest);
    assert ([m] + again)[1..] == again && ([m] + (tools + rest))[1..] == tools + rest;
  }

  // ---- What goes wrong with ids that repeat or are blank ----

  /** Two calls under one id, neither answered: the repaired view is not legal, and repairing it again changes it. */
  lemma TwiceUnderOneId(m: Sequenced, c: Call)
    requires m.message.role == Assistant && m.message.calls == [c, c] && c.id != BLANK
    ensures !Legal(Repair([m])) && Repair(Repair([m])) != Repair([m])
  {
    var calls := m.message.calls;
    assert !DistinctCalls(calls) by { assert calls[0].id == calls[1].id; }
    assert !DistinctCallers([m]);
    LegalExactly([m]);
    assert [m] == [m] + ([] + []);
    SteadyBlock(m, [], []);
    assert calls[1..] == [c] && [c][1..] == [];
    assert Kept(calls, [], {}) == [] && ResultIds([]) == {};
    assert Unanswered([c], {}) == [c];
    assert Unanswered(calls, {}) == [calls[0]] + Unanswered(calls[1..], {});
    assert Unsettled(m, []) == calls;
    assert !Steady([c], {c.id});
    IdempotentExactly([m]);
  }

  /** A recorded result under the blank id: the view is legal, but it is not left alone. */
  lemma BlankNotLeftAlone(m: Sequenced, c: Call, t: Sequenced)
    requires m.message.role == Assistant && m.message.calls == [c] && c.id == BLANK
    requires IsTool(t) && t.message.callId == BLANK && t != Synthesized(m, c)
    ensures Legal([m, t]) && Repair([m, t]) != [m, t]
  {
    assert [t][1..] == [] && ResultIds([t]) == {BLANK} && ResultIds([]) == {};
    assert CallIds([c]) == {BLANK} by { assert c in [c]; }
    assert Answers([c], [t]);
    assert [m, t] == [m] + ([t] + []);
    LegalBlock(m, [t], []);
    BlanksBlock(m, [t], []);
    assert c in m.message.calls;
    FixedExactly([m, t]);
  }

  /** The call ids that normalizeToolCalls provides rule out all of this. */
  lemma {:induction false} NormalRulesOut(messages: seq<Sequenced>)
    requires Normal(messages)
    ensures DistinctCallers(messages) && SteadyCallers(messages) && (Legal(messages) ==> BlanksLast(messages))
  {
    RepairIsLegal(messages);
    LegalExactly(messages);
    RepairIdempotent(messages);
    IdempotentExactly(messages);
    if Legal(messages) {
      RepairOfLegal(messages);
      FixedExactly(messages);
    }
  }
}
