/** The model's view of a transcript (src/harness/context.go): replay and repair. */
module Transcript {
  // Identifiers are numbers, 0 being the blank one; only their equality and blankness matter. Identifiers the source
  // draws at random for synthesized messages are never read: they are GENERATED.

  type Id = int

  const BLANK: Id := 0
  const GENERATED: Id := 0

  datatype Role = Assistant | Tool | Other

  datatype Call = Call(id: Id, name: Id)

  /** Recorded stands for everything a stored message carries besides the fields below;
      Interrupted for the fixed text and metadata of a synthesized result. */
  datatype Body = Recorded(data: nat) | Interrupted

  datatype Message = Message(id: Id, role: Role, calls: seq<Call>, callId: Id, toolName: Id, body: Body)

  datatype Sequenced = Sequenced(sequence: nat, message: Message)

  // ---- Replaying the log ----

  /** The text of a summary matters only for being blank or not. */
  datatype Summary = Blank | Text(data: nat)

  datatype EntryBody = Said(message: Message) | Retracted(from: Id) | Compacted(summary: Summary,
      through: nat) | Unrelated

  datatype Entry = Entry(sequence: nat, body: EntryBody)

  /** The first position of a message, or the length when it is absent. */
  function IndexOf(messages: seq<Sequenced>, id: Id): (n: nat)
    ensures n <= |messages|
    ensures n < |messages| ==> messages[n].message.id == id
    ensures forall i :: 0 <= i < n ==> messages[i].message.id != id
  {
    if messages == [] || messages[0].message.id == id then 0 else 1 + IndexOf(messages[1..], id)
  }

  function Apply(messages: seq<Sequenced>, entry: Entry): seq<Sequenced> {
    match entry.body
    case Said(message) => messages + [Sequenced(entry.sequence, message)]
    case Retracted(from) => if from == BLANK then messages else messages[..IndexOf(messages, from)]
    case _ => messages
  }

  function Replay(messages: seq<Sequenced>, entries: seq<Entry>): seq<Sequenced>
    decreases |entries|
  {
    if entries == [] then messages else Replay(Apply(messages, entries[0]), entries[1..])
  }

  // ---- Repairing tool calls ----

  predicate Caller(m: Sequenced) {
    m.message.role == Assistant && m.message.calls != []
  }

  predicate IsTool(m: Sequenced) {
    m.message.role == Tool
  }

  function CallIds(calls: seq<Call>): set<Id> {
    set c | c in calls :: c.id
  }

  predicate HasToolCall(calls: seq<Call>, id: Id) {
    id != BLANK && id in CallIds(calls)
  }

  /** How many tool messages a list starts with. */
  function ToolRun(messages: seq<Sequenced>): (n: nat)
    ensures n <= |messages|
    ensures forall i :: 0 <= i < n ==> IsTool(messages[i])
    ensures n < |messages| ==> !IsTool(messages[n])
  {
    if messages != [] && IsTool(messages[0]) then 1 + ToolRun(messages[1..]) else 0
  }

  /** The first result of each call among some tool messages. */
  function Kept(calls: seq<Call>, tools: seq<Sequenced>, answered: set<Id>): seq<Sequenced>
    decreases |tools|
  {
    if tools == [] then []
    else
      var id := tools[0].message.callId;
      if id !in answered && HasToolCall(calls, id)
      then [tools[0]] + Kept(calls, tools[1..], answered + {id})
      else Kept(calls, tools[1..], answered)
  }

  function ResultIds(tools: seq<Sequenced>): set<Id> {
    set t | t in tools :: t.message.callId
  }

  function Synthesized(caller: Sequenced, call: Call): Sequenced {
    Sequenced(caller.sequence, Message(GENERATED, Tool, [], call.id, call.name, Interrupted))
  }

  /** A synthesized result for each call that has none. */
  function Missing(caller: Sequenced, calls: seq<Call>, answered: set<Id>): seq<Sequenced>
    decreases |calls|
  {
    if calls == [] then []
    else
      (if calls[0].id in answered then [] else [Synthesized(caller, calls[0])])
      + Missing(caller, calls[1..], answered)
  }

  /** The results that follow an assistant message in the repaired view. */
  function Results(caller: Sequenced, tools: seq<Sequenced>): seq<Sequenced> {
    var kept := Kept(caller.message.calls, tools, {});
    kept + Missing(caller, caller.message.calls, ResultIds(kept))
  }

  function Repair(messages: seq<Sequenced>): seq<Sequenced>
    decreases |messages|
  {
    if messages == [] then []
    else if Caller(messages[0]) then
      var n := 1 + ToolRun(messages[1..]);
      [messages[0]] + (Results(messages[0], messages[1..n]) + Repair(messages[n..]))
    else if IsTool(messages[0]) then Repair(messages[1..])
    else [messages[0]] + Repair(messages[1..])
  }

  // ---- The tool-call protocol ----

  predicate DistinctCalls(calls: seq<Call>) {
    forall i, j :: 0 <= i < j < |calls| ==> calls[i].id != calls[j].id
  }

  /** What normalizeToolCalls guarantees of every assistant message: call ids are unique and not blank. */
  predicate NormalCalls(calls: seq<Call>) {
    DistinctCalls(calls) && forall i :: 0 <= i < |calls| ==> calls[i].id != BLANK
  }

  predicate Normal(messages: seq<Sequenced>) {
    forall m :: m in messages ==> NormalCalls(m.message.calls)
  }

  predicate AllTools(messages: seq<Sequenced>) {
    forall t :: t in messages ==> IsTool(t)
  }

  predicate DistinctResults(tools: seq<Sequenced>) {
    tools == [] || (tools[0].message.callId !in ResultIds(tools[1..]) && DistinctResults(tools[1..]))
  }

  /** Exactly one result per call. */
  predicate Answers(calls: seq<Call>, tools: seq<Sequenced>) {
    AllTools(tools) && |tools| == |calls| && ResultIds(tools) <= CallIds(calls) && DistinctResults(tools)
  }

  /** Every assistant message with calls is followed by exactly one result per call,
      and there are no other tool messages. */
  predicate Legal(messages: seq<Sequenced>)
    decreases |messages|
  {
    if messages == [] then true
    else if IsTool(messages[0]) then false
    else
      var n := if Caller(messages[0]) then |messages[0].message.calls| else 0;
      n < |messages| && Answers(if n == 0 then [] else messages[0].message.calls, messages[1..1 + n])
          && Legal(messages[1 + n..])
  }

  function DropTools(messages: seq<Sequenced>): seq<Sequenced> {
    messages[ToolRun(messages)..]
  }

  function Speech(messages: seq<Sequenced>): seq<Sequenced> {
    if messages == [] then []
    else SpeechOf(messages[0]) + Speech(messages[1..])
  }

  // ---- Facts about blocks ----

  lemma HeadResultIds(tools: seq<Sequenced>)
    requires tools != []
    ensures ResultIds(tools) == {tools[0].message.callId} + ResultIds(tools[1..])
  {
    assert tools == [tools[0]] + tools[1..];
  }

  lemma ResultIdsAppend(a: seq<Sequenced>, b: seq<Sequenced>)
    ensures ResultIds(a + b) == ResultIds(a) + ResultIds(b)
  {
  }

  lemma {:induction false} KeptProperties(calls: seq<Call>, tools: seq<Sequenced>, answered: set<Id>)
    ensures var kept := Kept(calls, tools, answered);
            && (forall t :: t in kept ==> t in tools)
            && ResultIds(kept) <= CallIds(calls) - answered
            && DistinctResults(kept)
    decreases |tools|
  {
    if tools != [] {
      var id := tools[0].message.callId;
      if id !in answered && HasToolCall(calls, id) {
        KeptProperties(calls, tools[1..], answered + {id});
        var kept := Kept(calls, tools, answered);
        HeadResultIds(kept);
        assert kept[1..] == Kept(calls, tools[1..], answered + {id});
      } else {
        KeptProperties(calls, tools[1..], answered);
      }
    }
  }

  lemma {:induction false} MissingProperties(caller: Sequenced, calls: seq<Call>, answered: set<Id>)
    requires DistinctCalls(calls)
    ensures var missing := Missing(caller, calls, answered);
            && (forall t :: t in missing ==> IsTool(t) && t.sequence == caller.sequence && t.message.calls == [])
            && ResultIds(missing) == CallIds(calls) - answered
            && DistinctResults(missing)
    decreases |calls|
  {
    if calls != [] {
      MissingProperties(caller, calls[1..], answered);
      HeadIds(calls);
      if calls[0].id !in answered {
        var missing := Missing(caller, calls, answered);
        HeadResultIds(missing);
        assert missing[1..] == Missing(caller, calls[1..], answered);
      } else {
        assert Missing(caller, calls, answered) == Missing(caller, calls[1..], answered);
      }
    }
  }

  lemma {:induction false} MissingAreTools(caller: Sequenced, calls: seq<Call>, answered: set<Id>)
    ensures AllTools(Missing(caller, calls, answered))
    decreases |calls|
  {
    if calls != [] { MissingAreTools(caller, calls[1..], answered); }
  }

  lemma ResultsAreTools(caller: Sequenced, tools: seq<Sequenced>)
    requires AllTools(tools)
    ensures AllTools(Results(caller, tools))
  {
    var kept := Kept(caller.message.calls, tools, {});
    KeptProperties(caller.message.calls, tools, {});
    MissingAreTools(caller, caller.message.calls, ResultIds(kept));
  }

  lemma {:induction false} DistinctAppend(a: seq<Sequenced>, b: seq<Sequenced>)
    requires DistinctResults(a) && DistinctResults(b) && ResultIds(a) !! ResultIds(b)
    ensures DistinctResults(a + b)
  {
    if a == [] {
      assert a + b == b;
    } else {
      HeadResultIds(a);
      DistinctAppend(a[1..], b);
      ResultIdsAppend(a[1..], b);
      assert (a + b)[1..] == a[1..] + b && (a + b)[0] == a[0];
    }
  }

  lemma HeadIds(calls: seq<Call>)
    requires calls != []
    ensures CallIds(calls) == {calls[0].id} + CallIds(calls[1..])
    ensures DistinctCalls(calls) ==> calls[0].id !in CallIds(calls[1..])
  {
    assert calls == [calls[0]] + calls[1..];
    assert forall i :: 0 <= i < |calls[1..]| ==> calls[1..][i] == calls[i + 1];
  }

  /** Together the kept and the synthesized results are as many as the calls. */
  lemma {:induction false} MissingLength(caller: Sequenced, calls: seq<Call>, answered: set<Id>)
    requires DistinctCalls(calls)
    ensures |Missing(caller, calls, answered)| + |answered * CallIds(calls)| == |calls|
    decreases |calls|
  {
    if calls == [] {
      assert answered * CallIds(calls) == {};
    } else {
      HeadIds(calls);
      MissingLength(caller, calls[1..], answered);
      var rest := answered * CallIds(calls[1..]);
      if calls[0].id in answered {
        assert answered * CallIds(calls) == rest + {calls[0].id};
      } else {
        assert answered * CallIds(calls) == rest;
      }
    }
  }

  lemma {:induction false} DistinctIds(tools: seq<Sequenced>)
    requires DistinctResults(tools)
    ensures |ResultIds(tools)| == |tools|
  {
    if tools == [] {
      assert ResultIds(tools) == {};
    } else {
      DistinctIds(tools[1..]);
      HeadResultIds(tools);
    }
  }

  lemma {:induction false} DistinctCallIds(calls: seq<Call>)
    requires DistinctCalls(calls)
    ensures |CallIds(calls)| == |calls|
  {
    if calls == [] {
      assert CallIds(calls) == {};
    } else {
      HeadIds(calls);
      DistinctCallIds(calls[1..]);
    }
  }

  lemma {:induction false} ResultsCount(caller: Sequenced, calls: seq<Call>, kept: seq<Sequenced>)
    requires DistinctCalls(calls) && DistinctResults(kept) && ResultIds(kept) <= CallIds(calls)
    ensures |kept| + |Missing(caller, calls, ResultIds(kept))| == |calls|
  {
    DistinctIds(kept);
    MissingLength(caller, calls, ResultIds(kept));
    assert ResultIds(kept) * CallIds(calls) == ResultIds(kept);
  }

  lemma AllToolsAppend(a: seq<Sequenced>, b: seq<Sequenced>)
    requires AllTools(a) && AllTools(b)
    ensures AllTools(a + b)
  {
  }

  /** The results a repaired assistant message gets answer its calls exactly. */
  lemma ResultsAnswer(caller: Sequenced, tools: seq<Sequenced>)
    requires NormalCalls(caller.message.calls) && AllTools(tools)
    ensures Answers(caller.message.calls, Results(caller, tools))
  {
    var calls := caller.message.calls;
    var kept := Kept(calls, tools, {});
    var missing := Missing(caller, calls, ResultIds(kept));
    KeptProperties(calls, tools, {});
    MissingProperties(caller, calls, ResultIds(kept));
    ResultsCount(caller, calls, kept);
    DistinctAppend(kept, missing);
    ResultIdsAppend(kept, missing);
    AllToolsAppend(kept, missing);
  }

  /** Results that already answer the calls are kept as they are and nothing is added. */
  lemma AnswersKept(caller: Sequenced, tools: seq<Sequenced>)
    requires NormalCalls(caller.message.calls) && Answers(caller.message.calls, tools)
    ensures Results(caller, tools) == tools
  {
    var calls := caller.message.calls;
    forall id | id in CallIds(calls) ensures id != BLANK {
      var c :| c in calls && c.id == id;
    }
    KeepsAll(calls, tools, {});
    DistinctIds(tools);
    DistinctCallIds(calls);
    SubsetOfSameSize(ResultIds(tools), CallIds(calls));
    NothingMissing(caller, calls, ResultIds(tools));
  }

  lemma {:induction false} KeepsAll(calls: seq<Call>, tools: seq<Sequenced>, answered: set<Id>)
    requires ResultIds(tools) <= CallIds(calls) - answered - {BLANK} && DistinctResults(tools)
    ensures Kept(calls, tools, answered) == tools
    decreases |tools|
  {
    if tools != [] {
      HeadResultIds(tools);
      KeepsAll(calls, tools[1..], answered + {tools[0].message.callId});
    }
  }

  lemma SubsetOfSameSize(a: set<Id>, b: set<Id>)
    requires a <= b && |a| == |b|
    ensures a == b
  {
    assert b == a + (b - a);
    assert |b| == |a| + |b - a|;
  }

  lemma {:induction false} NothingMissing(caller: Sequenced, calls: seq<Call>, answered: set<Id>)
    requires CallIds(calls) <= answered
    ensures Missing(caller, calls, answered) == []
    decreases |calls|
  {
    if calls != [] {
      HeadIds(calls);
      NothingMissing(caller, calls[1..], answered);
    }
  }

  // ---- Repair yields legal views ----

  lemma {:induction false} ToolRunOf(tools: seq<Sequenced>, rest: seq<Sequenced>)
    requires AllTools(tools) && (rest == [] || !IsTool(rest[0]))
    ensures ToolRun(tools + rest) == |tools|
  {
    if tools == [] {
      assert tools + rest == rest;
    } else {
      ToolRunOf(tools[1..], rest);
      assert (tools + rest)[1..] == tools[1..] + rest && (tools + rest)[0] == tools[0];
    }
  }

  lemma {:induction false} RunIsTools(messages: seq<Sequenced>)
    ensures AllTools(messages[..ToolRun(messages)])
  {
  }

  lemma {:induction false} LegalBlock(m: Sequenced, tools: seq<Sequenced>, rest: seq<Sequenced>)
    requires Caller(m) && Answers(m.message.calls, tools)
    ensures Legal([m] + (tools + rest)) == Legal(rest)
  {
    var all := [m] + (tools + rest);
    assert all[1..1 + |tools|] == tools && all[1 + |tools|..] == rest;
  }

  lemma {:induction false} LegalSpeech(m: Sequenced, rest: seq<Sequenced>)
    requires !Caller(m) && !IsTool(m)
    ensures Legal([m] + rest) == Legal(rest)
  {
    var all := [m] + rest;
    assert all[1..1] == [] && all[1..] == rest;
  }

  lemma {:induction false} RepairBlock(m: Sequenced, tools: seq<Sequenced>, rest: seq<Sequenced>)
    requires Caller(m) && AllTools(tools) && (rest == [] || !IsTool(rest[0]))
    ensures Repair([m] + (tools + rest)) == [m] + (Results(m, tools) + Repair(rest))
  {
    var all := [m] + (tools + rest);
    ToolRunOf(tools, rest);
    assert all[1..] == tools + rest && all[1..1 + |tools|] == tools && all[1 + |tools|..] == rest;
  }

  lemma {:induction false} RepairSpeech(m: Sequenced, rest: seq<Sequenced>)
    requires !Caller(m) && !IsTool(m)
    ensures Repair([m] + rest) == [m] + Repair(rest)
  {
    assert ([m] + rest)[1..] == rest;
  }

  /** The list as repair sees it: an assistant message, the tool messages behind it and the rest. */
  lemma Blocks(messages: seq<Sequenced>) returns (tools: seq<Sequenced>, rest: seq<Sequenced>)
    requires messages != []
    ensures messages == [messages[0]] + (tools + rest)
    ensures AllTools(tools) && (rest == [] || !IsTool(rest[0]))
  {
    var n := ToolRun(messages[1..]);
    tools, rest := messages[1..][..n], messages[1..][n..];
    RunIsTools(messages[1..]);
  }

  /** The same for a legal list, where the tool messages answer the calls. */
  lemma LegalBlocks(messages: seq<Sequenced>) returns (tools: seq<Sequenced>, rest: seq<Sequenced>)
    requires messages != [] && Legal(messages)
    ensures messages == [messages[0]] + (tools + rest) && !IsTool(messages[0])
    ensures Answers(if Caller(messages[0]) then messages[0].message.calls else [], tools)
    ensures Legal(rest) && (rest == [] || !IsTool(rest[0]))
  {
    var n := if Caller(messages[0]) then |messages[0].message.calls| else 0;
    tools, rest := messages[1..1 + n], messages[1 + n..];
  }

  /** A legal list is left as it is. */
  lemma {:induction false} RepairOfLegal(messages: seq<Sequenced>)
    requires Normal(messages) && Legal(messages)
    ensures Repair(messages) == messages
    decreases |messages|
  {
    if messages != [] {
      var m := messages[0];
      var tools, rest := LegalBlocks(messages);
      RepairOfLegal(rest);
      if Caller(m) {
        RepairBlock(m, tools, rest);
        AnswersKept(m, tools);
      } else {
        assert tools + rest == rest;
        RepairSpeech(m, rest);
      }
    }
  }

  lemma {:induction false} RepairIsLegal(messages: seq<Sequenced>)
    requires Normal(messages)
    ensures Legal(Repair(messages))
    decreases |messages|
  {
    if messages != [] {
      var m := messages[0];
      if Caller(m) {
        var tools, rest := Blocks(messages);
        RepairIsLegal(rest);
        RepairBlock(m, tools, rest);
        ResultsAnswer(m, tools);
        LegalBlock(m, Results(m, tools), Repair(rest));
      } else {
        RepairIsLegal(messages[1..]);
        if !IsTool(m) {
          LegalSpeech(m, Repair(messages[1..]));
        }
      }
    }
  }

  lemma ResultsNormal(caller: Sequenced, tools: seq<Sequenced>)
    requires Normal(tools) && NormalCalls(caller.message.calls)
    ensures Normal(Results(caller, tools))
  {
    var kept := Kept(caller.message.calls, tools, {});
    KeptProperties(caller.message.calls, tools, {});
    MissingProperties(caller, caller.message.calls, ResultIds(kept));
  }

  lemma NormalAppend(m: Sequenced, a: seq<Sequenced>, b: seq<Sequenced>)
    ensures Normal([m] + (a + b)) <==> NormalCalls(m.message.calls) && Normal(a) && Normal(b)
  {
    var all := [m] + (a + b);
    assert forall x :: x in all <==> x == m || x in a || x in b;
  }

  lemma {:induction false} RepairIsNormal(messages: seq<Sequenced>)
    requires Normal(messages)
    ensures Normal(Repair(messages))
    decreases |messages|
  {
    if messages != [] {
      var m := messages[0];
      if Caller(m) {
        var tools, rest := Blocks(messages);
        NormalAppend(m, tools, rest);
        RepairIsNormal(rest);
        RepairBlock(m, tools, rest);
        ResultsNormal(m, tools);
        NormalAppend(m, Results(m, tools), Repair(rest));
      } else {
        RepairIsNormal(messages[1..]);
      }
    }
  }

  /** Repairing twice is repairing once. */
  lemma {:induction false} RepairIdempotent(messages: seq<Sequenced>)
    requires Normal(messages)
    ensures Repair(Repair(messages)) == Repair(messages)
  {
    RepairIsLegal(messages);
    RepairIsNormal(messages);
    RepairOfLegal(Repair(messages));
  }

  function SpeechOf(m: Sequenced): seq<Sequenced> {
    if IsTool(m) then [] else [m]
  }

  lemma {:induction false} SpeechCons(m: Sequenced, rest: seq<Sequenced>)
    ensures Speech([m] + rest) == SpeechOf(m) + Speech(rest)
  {
    assert ([m] + rest)[1..] == rest;
  }

  lemma {:induction false} SpeechAppend(a: seq<Sequenced>, b: seq<Sequenced>)
    ensures Speech(a + b) == Speech(a) + Speech(b)
  {
    if a == [] {
      assert a + b == b;
    } else {
      var m, rest := a[0], a[1..];
      SpeechAppend(rest, b);
      assert a + b == [m] + (rest + b);
      SpeechCons(m, rest + b);
      AssociateMessages(SpeechOf(m), Speech(rest), Speech(b));
    }
  }

  lemma {:induction false} NoSpeech(tools: seq<Sequenced>)
    requires AllTools(tools)
    ensures Speech(tools) == []
  {
    if tools != [] { NoSpeech(tools[1..]); }
  }

  lemma {:induction false} SpeechBlock(m: Sequenced, tools: seq<Sequenced>, rest: seq<Sequenced>)
    requires !IsTool(m) && AllTools(tools)
    ensures Speech([m] + (tools + rest)) == [m] + Speech(rest)
  {
    NoSpeech(tools);
    SpeechAppend(tools, rest);
    SpeechCons(m, tools + rest);
  }

  /** Everything that is not a tool message survives, in order. */
  lemma {:induction false} RepairKeepsSpeech(messages: seq<Sequenced>)
    ensures Speech(Repair(messages)) == Speech(messages)
    decreases |messages|
  {
    if messages != [] {
      var m := messages[0];
      if Caller(m) {
        var tools, rest := Blocks(messages);
        RepairKeepsSpeech(rest);
        RepairBlock(m, tools, rest);
        ResultsAreTools(m, tools);
        SpeechBlock(m, tools, rest);
        SpeechBlock(m, Results(m, tools), Repair(rest));
      } else {
        RepairKeepsSpeech(messages[1..]);
        if !IsTool(m) { assert Repair(messages)[1..] == Repair(messages[1..]); }
      }
    }
  }

  // ---- Suffixes ----

  lemma {:induction false} RepairDropsTools(tools: seq<Sequenced>, rest: seq<Sequenced>)
    requires AllTools(tools)
    ensures Repair(tools + rest) == Repair(rest)
    decreases |tools|
  {
    if tools == [] {
      assert tools + rest == rest;
    } else {
      RepairDropsTools(tools[1..], rest);
      assert (tools + rest)[1..] == tools[1..] + rest && (tools + rest)[0] == tools[0];
    }
  }

  lemma {:induction false} LegalHeadNotTool(messages: seq<Sequenced>)
    requires Legal(messages)
    ensures messages == [] || !IsTool(messages[0])
  {
  }

  /** A cut inside a block leaves some of its tool messages in front of the rest. */
  lemma {:induction false} RepairInBlock(tools: seq<Sequenced>, rest: seq<Sequenced>)
    requires AllTools(tools) && Normal(rest) && Legal(rest)
    ensures Repair(tools + rest) == rest && DropTools(tools + rest) == rest
  {
    LegalHeadNotTool(rest);
    RepairDropsTools(tools, rest);
    RepairOfLegal(rest);
    ToolRunOf(tools, rest);
    assert (tools + rest)[|tools|..] == rest;
  }

  lemma SuffixOfBlock(m: Sequenced, tools: seq<Sequenced>, rest: seq<Sequenced>, k: nat)
    requires 0 < k <= 1 + |tools| + |rest|
    ensures ([m] + (tools + rest))[k..] == if k <= 1 + |tools| then tools[k - 1..] + rest else rest[k - 1 - |tools|..]
  {
  }

  /** On any suffix of a legal list repair only drops the leading tool messages, and what remains is legal. */
  lemma {:induction false} RepairOfSuffix(messages: seq<Sequenced>, k: nat)
    requires Normal(messages) && Legal(messages) && k <= |messages|
    ensures Repair(messages[k..]) == DropTools(messages[k..])
    ensures Legal(DropTools(messages[k..]))
    decreases |messages|
  {
    if k == 0 {
      assert messages[0..] == messages;
      RepairInBlock([], messages);
      assert [] + messages == messages;
    } else {
      var tools, rest := LegalBlocks(messages);
      NormalAppend(messages[0], tools, rest);
      SuffixOfBlock(messages[0], tools, rest, k);
      if k <= 1 + |tools| {
        RepairInBlock(tools[k - 1..], rest);
      } else {
        RepairOfSuffix(rest, k - 1 - |tools|);
      }
    }
  }

  /** A cut that is not in front of a tool message does not divide a block. */
  lemma Peel(front: seq<Sequenced>, back: seq<Sequenced>, m: Sequenced, tools: seq<Sequenced>, rest: seq<Sequenced>)
    returns (middle: seq<Sequenced>)
    requires front != [] && front + back == [m] + (tools + rest)
    requires AllTools(tools) && (back == [] || !IsTool(back[0]))
    ensures front == [m] + (tools + middle) && rest == middle + back
  {
    var all := front + back;
    var n := |front|;
    assert forall i :: n <= i < |all| ==> all[i] == back[i - n];
    if n <= |tools| {
      assert false;
    }
    middle := rest[..n - 1 - |tools|];
    assert front == all[..n] && back == all[n..];
  }

  /** Cutting a legal list in front of a message that is no tool result leaves two legal lists. */
  lemma {:induction false} LegalSplit(front: seq<Sequenced>, back: seq<Sequenced>)
    requires Legal(front + back) && (back == [] || !IsTool(back[0]))
    ensures Legal(front) && Legal(back)
    decreases |front|
  {
    if front == [] {
      assert front + back == back;
    } else {
      var m := front[0];
      assert (front + back)[0] == m;
      var tools, rest := LegalBlocks(front + back);
      var middle := Peel(front, back, m, tools, rest);
      LegalSplit(middle, back);
      if Caller(m) {
        LegalBlock(m, tools, middle);
      } else {
        assert tools + middle == middle;
        LegalSpeech(m, middle);
      }
    }
  }

  // ---- The loops of the source ----

  method MessagesFromEntries(entries: seq<Entry>) returns (messages: seq<Sequenced>)
    ensures messages == Replay([], entries)
  {
    messages := [];
    assert entries[0..] == entries;
    for i := 0 to |entries|
      invariant Replay([], entries) == Replay(messages, entries[i..])
    {
      assert entries[i..][1..] == entries[i + 1..];
      var entry := entries[i];
      if entry.body.Retracted? && entry.body.from != BLANK {
        var index := 0;
        while index < |messages| && messages[index].message.id != entry.body.from
          invariant 0 <= index <= |messages|
          invariant forall j :: 0 <= j < index ==> messages[j].message.id != entry.body.from
        {
          index := index + 1;
        }
        messages := messages[..index];
      } else if entry.body.Said? {
        messages := messages + [Sequenced(entry.sequence, entry.body.message)];
      }
    }
  }

  /** Kept over the tool messages a list starts with. */
  function KeptOfRun(calls: seq<Call>, messages: seq<Sequenced>, answered: set<Id>): seq<Sequenced>
    decreases |messages|
  {
    if messages == [] || !IsTool(messages[0]) then []
    else
      var id := messages[0].message.callId;
      if id !in answered && HasToolCall(calls, id)
      then [messages[0]] + KeptOfRun(calls, messages[1..], answered + {id})
      else KeptOfRun(calls, messages[1..], answered)
  }

  lemma {:induction false} KeptOfRunIsKept(calls: seq<Call>, messages: seq<Sequenced>, answered: set<Id>)
    ensures KeptOfRun(calls, messages, answered) == Kept(calls, messages[..ToolRun(messages)], answered)
    decreases |messages|
  {
    if messages != [] && IsTool(messages[0]) {
      var id := messages[0].message.callId;
      assert messages[..ToolRun(messages)][1..] == messages[1..][..ToolRun(messages[1..])];
      if id !in answered && HasToolCall(calls, id) {
        KeptOfRunIsKept(calls, messages[1..], answered + {id});
      } else {
        KeptOfRunIsKept(calls, messages[1..], answered);
      }
    }
  }

  /** The inner loop over the tool messages behind an assistant message. */
  method CollectAnswers(messages: seq<Sequenced>, index: nat)
      returns (kept: seq<Sequenced>, answered: set<Id>, next: nat)
    requires index < |messages|
    ensures next == index + 1 + ToolRun(messages[index + 1..])
    ensures kept == Kept(messages[index].message.calls, messages[index + 1..next], {})
    ensures answered == ResultIds(kept)
  {
    var calls := messages[index].message.calls;
    kept, answered, next := [], {}, index + 1;
    while next < |messages| && IsTool(messages[next])
      invariant index < next <= |messages|
      invariant ToolRun(messages[index + 1..]) == next - (index + 1) + ToolRun(messages[next..])
      invariant answered == ResultIds(kept)
      invariant KeptOfRun(calls, messages[index + 1..], {}) == kept + KeptOfRun(calls, messages[next..], answered)
      decreases |messages| - next
    {
      var candidate := messages[next];
      assert messages[next..][0] == candidate && messages[next..][1..] == messages[next + 1..];
      next := next + 1;
      if candidate.message.callId in answered {
        continue;
      }
      if !HasToolCall(calls, candidate.message.callId) {
        continue;
      }
      AppendKept(kept, candidate, KeptOfRun(calls, messages[next..], answered + {candidate.message.callId}));
      answered := answered + {candidate.message.callId};
      kept := kept + [candidate];
    }
    KeptOfRunIsKept(calls, messages[index + 1..], {});
    assert messages[index + 1..next] == messages[index + 1..][..next - (index + 1)];
  }

  lemma AppendKept(kept: seq<Sequenced>, one: Sequenced, rest: seq<Sequenced>)
    ensures kept + ([one] + rest) == (kept + [one]) + rest
    ensures ResultIds(kept + [one]) == ResultIds(kept) + {one.message.callId}
  {
    assert forall t :: t in kept + [one] <==> t in kept || t == one;
  }

  lemma AssociateMessages(a: seq<Sequenced>, b: seq<Sequenced>, c: seq<Sequenced>)
    ensures a + (b + c) == (a + b) + c
  {
  }

  lemma {:induction false} MissingStep(caller: Sequenced, calls: seq<Call>, answered: set<Id>)
    requires calls != []
    ensures Missing(caller, calls, answered)
            == if calls[0].id in answered then Missing(caller, calls[1..], answered)
               else [Synthesized(caller, calls[0])] + Missing(caller, calls[1..], answered)
  {
  }

  lemma AppendBlock(result: seq<Sequenced>, a: seq<Sequenced>, b: seq<Sequenced>, c: seq<Sequenced>,
      rest: seq<Sequenced>)
    ensures result + (a + ((b + c) + rest)) == (((result + a) + b) + c) + rest
  {
    AssociateMessages(result, a, b + c + rest);
    AssociateMessages(result + a, b + c, rest);
    AssociateMessages(result + a, b, c);
  }

  method SynthesizeMissing(caller: Sequenced, answered: set<Id>) returns (missing: seq<Sequenced>)
    ensures missing == Missing(caller, caller.message.calls, answered)
  {
    var calls := caller.message.calls;
    missing := [];
    assert calls[0..] == calls;
    for i := 0 to |calls|
      invariant Missing(caller, calls, answered) == missing + Missing(caller, calls[i..], answered)
    {
      assert calls[i..][0] == calls[i] && calls[i..][1..] == calls[i + 1..];
      MissingStep(caller, calls[i..], answered);
      if calls[i].id in answered {
        continue;
      }
      AssociateMessages(missing, [Synthesized(caller, calls[i])], Missing(caller, calls[i + 1..], answered));
      missing := missing + [Synthesized(caller, calls[i])];
    }
  }

  lemma SliceOfSuffix(messages: seq<Sequenced>, index: nat, next: nat)
    requires index < next <= |messages|
    ensures messages[index..][1..next - index] == messages[index + 1..next]
    ensures messages[index..][next - index..] == messages[next..]
  {
  }

  method RepairToolCallPairs(messages: seq<Sequenced>) returns (result: seq<Sequenced>)
    ensures result == Repair(messages)
  {
    result := [];
    var index := 0;
    assert messages[0..] == messages;
    while index < |messages|
      invariant 0 <= index <= |messages|
      invariant Repair(messages) == result + Repair(messages[index..])
    {
      var current := messages[index];
      assert messages[index..][0] == current && messages[index..][1..] == messages[index + 1..];
      if !Caller(current) {
        if !IsTool(current) {
          AssociateMessages(result, [current], Repair(messages[index + 1..]));
          result := result + [current];
        }
        index := index + 1;
        continue;
      }
      var kept, answered, next := CollectAnswers(messages, index);
      var missing := SynthesizeMissing(current, answered);
      SliceOfSuffix(messages, index, next);
      ghost var rest := Repair(messages[next..]);
      AppendBlock(result, [current], kept, missing, rest);
      result := result + [current];
      result := result + kept;
      result := result + missing;
      index := next;
    }
  }

  /** The calls of a response with a drawn id where the provider sent none. */
  function Filled(input: seq<Call>, drawn: seq<Id>): (calls: seq<Call>)
    requires |drawn| == |input|
    ensures |calls| == |input|
  {
    seq(|input|, i requires 0 <= i < |input| => if input[i].id == BLANK then Call(drawn[i], input[i].name)
        else input[i])
  }

  /** normalizeToolCalls: nameless calls and repeated ids are refused, exactly. */
  method NormalizeToolCalls(input: seq<Call>, drawn: seq<Id>) returns (ok: bool, calls: seq<Call>)
    requires |drawn| == |input| && forall i :: 0 <= i < |drawn| ==> drawn[i] != BLANK
    ensures ok <==> DistinctCalls(Filled(input, drawn)) && forall i :: 0 <= i < |input| ==> input[i].name != BLANK
    ensures ok ==> calls == Filled(input, drawn) && NormalCalls(calls)
  {
    ghost var target := Filled(input, drawn);
    calls := [];
    var seen: set<Id> := {};
    for i := 0 to |input|
      invariant calls == target[..i] && NormalCalls(calls)
      invariant forall j :: 0 <= j < i ==> input[j].name != BLANK && target[j].id in seen
      invariant forall id :: id in seen ==> exists j :: 0 <= j < i && target[j].id == id
    {
      var call := input[i];
      if call.name == BLANK {
        return false, [];
      }
      if call.id == BLANK {
        call := Call(drawn[i], call.name);
      }
      assert call == target[i];
      if call.id in seen {
        ghost var j :| 0 <= j < i && target[j].id == call.id;
        assert target[j].id == target[i].id;
        return false, [];
      }
      seen := seen + {call.id};
      calls := calls + [call];
    }
    assert target[..|input|] == target;
    ok := true;
  }
}
