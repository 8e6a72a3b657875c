/** Context compaction (src/harness/context.go): a summary and a cursor. */
module Compaction {
  import opened Basics
  import opened Transcript

  // The older part of the repaired view is replaced by a summary, and a stored cursor tells the next turn where to
  // start reading the log again. Summaries, token counts and message sizes come from code that is not modelled: they
  // are parameters, and everything is proved for all of them.

  // ---- What the next turn reads ----

  /** Sequence numbers grow along the log and start above the initial cursor 0. */
  predicate Ascending(log: seq<Entry>) {
    log == []
        || (0 < log[0].sequence && (forall e :: e in log[1..] ==> log[0].sequence < e.sequence) && Ascending(log[1..]))
  }

  function After(log: seq<Entry>, through: nat): seq<Entry> {
    if log == [] then []
    else AfterOne(log[0], through) + After(log[1..], through)
  }

  function AfterOne(entry: Entry, through: nat): seq<Entry> {
    if through < entry.sequence then [entry] else []
  }

  lemma {:induction false} AfterCons(entry: Entry, rest: seq<Entry>, through: nat)
    ensures After([entry] + rest, through) == AfterOne(entry, through) + After(rest, through)
  {
    assert ([entry] + rest)[1..] == rest;
  }

  lemma AssociateEntries(a: seq<Entry>, b: seq<Entry>, c: seq<Entry>)
    ensures a + (b + c) == (a + b) + c
  {
  }

  /** The summary and cursor of the latest compaction entry; one with a blank summary is as good as none. */
  function LatestCompaction(log: seq<Entry>): (Summary, nat) {
    if log == [] then (Blank, 0)
    else
      var last := log[|log| - 1];
      if !last.body.Compacted? then LatestCompaction(log[..|log| - 1])
      else if last.body.summary.Blank? then (Blank, 0)
      else (last.body.summary, last.body.through)
  }

  /** The messages a turn works with. */
  function CurrentView(log: seq<Entry>): seq<Sequenced> {
    Repair(Replay([], After(log, LatestCompaction(log).1)))
  }

  // ---- Replaying from a cursor ----

  lemma {:induction false} ReplayAppend(messages: seq<Sequenced>, a: seq<Entry>, b: seq<Entry>)
    ensures Replay(messages, a + b) == Replay(Replay(messages, a), b)
    decreases |a|
  {
    if a == [] {
      assert a + b == b;
    } else {
      ReplayAppend(Apply(messages, a[0]), a[1..], b);
      assert (a + b)[1..] == a[1..] + b && (a + b)[0] == a[0];
    }
  }

  lemma {:induction false} AfterAppend(a: seq<Entry>, b: seq<Entry>, through: nat)
    ensures After(a + b, through) == After(a, through) + After(b, through)
  {
    if a == [] {
      assert a + b == b;
    } else {
      var entry, rest := a[0], a[1..];
      AfterAppend(rest, b, through);
      assert a + b == [entry] + (rest + b);
      AfterCons(entry, rest + b, through);
      AssociateEntries(AfterOne(entry, through), After(rest, through), After(b, through));
    }
  }

  lemma {:induction false} AfterEverything(log: seq<Entry>, through: nat)
    requires forall e :: e in log ==> through < e.sequence
    ensures After(log, through) == log
  {
    if log != [] { AfterEverything(log[1..], through); }
  }

  lemma {:induction false} AfterAgain(log: seq<Entry>, first: nat, second: nat)
    requires first <= second
    ensures After(After(log, first), second) == After(log, second)
  {
    if log != [] {
      var entry, rest := log[0], log[1..];
      AfterAgain(rest, first, second);
      if first < entry.sequence {
        AfterCons(entry, After(rest, first), second);
      } else {
        assert After(log, first) == After(rest, first);
        assert After(log, second) == After(rest, second);
      }
    }
  }

  lemma {:induction false} AfterAscending(log: seq<Entry>, through: nat)
    requires Ascending(log)
    ensures Ascending(After(log, through))
    ensures forall e :: e in After(log, through) ==> e in log && through < e.sequence
  {
    if log != [] {
      AfterAscending(log[1..], through);
      if through < log[0].sequence {
        assert After(log, through)[1..] == After(log[1..], through);
      } else {
        assert After(log, through) == After(log[1..], through);
      }
    }
  }

  /** Entries on either side of a message of the log. */
  lemma {:induction false} CutAt(log: seq<Entry>, at: nat)
    requires Ascending(log) && at < |log|
    ensures After(log, log[at].sequence) == log[at + 1..]
    ensures forall e :: e in log[..at] ==> e.sequence < log[at].sequence
    ensures forall e :: e in log[at + 1..] ==> log[at].sequence < e.sequence
    decreases |log|
  {
    if at == 0 {
      AfterEverything(log[1..], log[0].sequence);
    } else {
      CutAt(log[1..], at - 1);
      assert log[..at] == [log[0]] + log[1..][..at - 1];
      assert log[at + 1..] == log[1..][at..];
      assert log[at] in log[1..] by { assert log[at] == log[1..][at - 1]; }
    }
  }

  predicate AllBelow(messages: seq<Sequenced>, t: nat) {
    forall m :: m in messages ==> m.sequence < t
  }

  predicate Mentions(messages: seq<Sequenced>, t: nat) {
    exists m :: m in messages && m.sequence == t
  }

  /** Every message of a replay was there before or is an entry. */
  lemma {:induction false} Origin(messages: seq<Sequenced>, entries: seq<Entry>, m: Sequenced)
    requires m in Replay(messages, entries)
    ensures m in messages || exists i :: 0 <= i < |entries| && entries[i] == Entry(m.sequence, Said(m.message))
    decreases |entries|
  {
    if entries != [] {
      Origin(Apply(messages, entries[0]), entries[1..], m);
      if m in Apply(messages, entries[0]) {
        if m !in messages { assert entries[0] == Entry(m.sequence, Said(m.message)); }
      } else {
        var i :| 0 <= i < |entries[1..]| && entries[1..][i] == Entry(m.sequence, Said(m.message));
        assert entries[i + 1] == Entry(m.sequence, Said(m.message));
      }
    }
  }

  lemma {:induction false} NotBefore(messages: seq<Sequenced>, entries: seq<Entry>, t: nat)
    requires !Mentions(messages, t) && forall e :: e in entries ==> t < e.sequence
    ensures !Mentions(Replay(messages, entries), t)
  {
    if Mentions(Replay(messages, entries), t) {
      var m :| m in Replay(messages, entries) && m.sequence == t;
      Origin(messages, entries, m);
      assert false;
    }
  }

  lemma {:induction false} IndexOfAppend(a: seq<Sequenced>, b: seq<Sequenced>, id: Id)
    ensures IndexOf(a + b, id) == if IndexOf(a, id) < |a| then IndexOf(a, id) else |a| + IndexOf(b, id)
  {
    if a == [] {
      assert a + b == b;
    } else {
      IndexOfAppend(a[1..], b, id);
      assert (a + b)[1..] == a[1..] + b && (a + b)[0] == a[0];
    }
  }

  /** An entry either works behind a front part or cuts into it. */
  lemma ApplyBehind(front: seq<Sequenced>, tail: seq<Sequenced>, entry: Entry) returns (at: nat)
    ensures at < |front| ==> Apply(front + tail, entry) == front[..at]
    ensures |front| <= at ==> Apply(front + tail, entry) == front + Apply(tail, entry)
  {
    at := |front|;
    match entry.body
    case Said(message) =>
      AssociateMessages(front, tail, [Sequenced(entry.sequence, message)]);
    case Retracted(from) =>
      if from != BLANK {
        IndexOfAppend(front, tail, from);
        at := IndexOf(front + tail, from);
        CutBehind(front, tail, at);
      }
    case _ =>
  }

  lemma CutBehind(front: seq<Sequenced>, tail: seq<Sequenced>, at: nat)
    requires at <= |front| + |tail|
    ensures (front + tail)[..at] == if at < |front| then front[..at] else front + tail[..at - |front|]
  {
  }

  /** As long as the last message of a part survives, nothing that follows touches the part. */
  lemma {:induction false} PartSurvives(part: seq<Sequenced>, last: Sequenced, tail: seq<Sequenced>,
      entries: seq<Entry>)
    requires AllBelow(part, last.sequence)
    requires forall e :: e in entries ==> last.sequence < e.sequence
    requires Mentions(Replay((part + [last]) + tail, entries), last.sequence)
    ensures Replay((part + [last]) + tail, entries) == (part + [last]) + Replay(tail, entries)
    decreases |entries|
  {
    if entries != [] {
      var front := part + [last];
      var at := ApplyBehind(front, tail, entries[0]);
      if at < |front| {
        assert front[..at] == part[..at];
        NotBefore(part[..at], entries[1..], last.sequence);
      } else {
        PartSurvives(part, last, Apply(tail, entries[0]), entries[1..]);
      }
    }
  }

  lemma SaidReplay(entries: seq<Entry>, at: nat) returns (part: seq<Sequenced>)
    requires at < |entries| && entries[at].body.Said?
    requires forall e :: e in entries[..at] ==> e.sequence < entries[at].sequence
    ensures AllBelow(part, entries[at].sequence)
    ensures Replay([], entries)
        == Replay(part + [Sequenced(entries[at].sequence, entries[at].body.message)], entries[at + 1..])
  {
    part := Replay([], entries[..at]);
    forall m | m in part ensures m.sequence < entries[at].sequence {
      Origin([], entries[..at], m);
      var i :| 0 <= i < |entries[..at]| && entries[..at][i] == Entry(m.sequence, Said(m.message));
      assert entries[..at][i] in entries[..at];
    }
    assert entries == entries[..at] + entries[at..] && entries[at..][1..] == entries[at + 1..];
    ReplayAppend([], entries[..at], entries[at..]);
  }

  /** Replaying only what follows a message that the whole replay contains gives exactly what stands
      behind that message, whatever retractions the log holds. */
  lemma ReplayFromCursor(log: seq<Entry>, k: nat)
    requires Ascending(log) && 0 < k <= |Replay([], log)|
    ensures Replay([], After(log, Replay([], log)[k - 1].sequence)) == Replay([], log)[k..]
  {
    var all := Replay([], log);
    var m := all[k - 1];
    Origin([], log, m);
    var at :| 0 <= at < |log| && log[at] == Entry(m.sequence, Said(m.message));
    CutAt(log, at);
    var part := SaidReplay(log, at);
    var front, rest := part + [m], log[at + 1..];
    assert front + [] == front;
    assert Mentions(all, m.sequence);
    PartSurvives(part, m, [], rest);
    assert all == front + Replay([], rest);
    NotBefore([], rest, m.sequence);
    assert forall i :: 0 <= i < |part| ==> part[i] in part;
    assert forall i :: 0 <= i < |Replay([], rest)| ==> Replay([], rest)[i] in Replay([], rest);
    assert k == |front|;
  }

  // ---- Cutting the repaired view ----

  /** Every cut through the repaired view has a cut through the messages behind it, at a message with the
      same sequence number, that leaves the same view. A synthesized result stands for the message that called. */
  lemma {:induction false} RepairCut(messages: seq<Sequenced>, k: nat) returns (j: nat)
    requires Normal(messages) && 0 < k <= |Repair(messages)|
    ensures SameCut(messages, j, k)
    decreases |messages|
  {
    var m, rest := messages[0], messages[1..];
    if Caller(m) {
      var tools, rest := Blocks(messages);
      NormalAppend(m, tools, rest);
      j := RepairCutBlock(m, tools, rest, k);
    } else {
      assert messages == [m] + rest;
      j := RepairCutSingle(m, rest, k);
    }
  }

  lemma {:induction false} RepairCutBlock(m: Sequenced, tools: seq<Sequenced>, rest: seq<Sequenced>, k: nat)
      returns (j: nat)
    requires Caller(m) && AllTools(tools) && (rest == [] || !IsTool(rest[0])) && Normal(rest)
        && NormalCalls(m.message.calls)
    requires 0 < k <= |Repair([m] + (tools + rest))|
    ensures SameCut([m] + (tools + rest), j, k)
    decreases 1 + |tools| + |rest|, 0
  {
    RepairBlock(m, tools, rest);
    if k <= 1 + |Results(m, tools)| {
      j := CutInBlock(m, tools, k);
      CutNear(m, tools, rest, j, k);
    } else {
      var at := k - 1 - |Results(m, tools)|;
      var inner := RepairCut(rest, at);
      j := 1 + |tools| + inner;
      CutFar(m, tools, rest, inner, at, j, k);
    }
  }

  lemma {:induction false} RepairCutSingle(m: Sequenced, rest: seq<Sequenced>, k: nat) returns (j: nat)
    requires !Caller(m) && Normal(rest) && 0 < k <= |Repair([m] + rest)|
    ensures SameCut([m] + rest, j, k)
    decreases 1 + |rest|, 0
  {
    if IsTool(m) {
      assert ([m] + rest)[1..] == rest;
      var inner := RepairCut(rest, k);
      j := 1 + inner;
      CutTool(m, rest, inner, j, k);
    } else if k == 1 {
      j := 1;
      CutHead(m, rest);
    } else {
      RepairSpeech(m, rest);
      var inner := RepairCut(rest, k - 1);
      j := 1 + inner;
      CutSpeech(m, rest, inner, j, k);
    }
  }

  /** A cut of the messages and a cut of their repaired view that agree in the cursor and in what remains. */
  predicate SameCut(messages: seq<Sequenced>, j: nat, k: nat) {
    && 0 < j <= |messages| && 0 < k <= |Repair(messages)|
    && CursorAt(messages, j) == CursorAt(Repair(messages), k)
    && ViewBehind(messages, j) == ViewBehind(Repair(messages), k)
  }

  /** The cursor of a cut: the sequence number of the last message in front of it. */
  function CursorAt(messages: seq<Sequenced>, j: nat): nat
    requires 0 < j <= |messages|
  {
    messages[j - 1].sequence
  }

  function ViewBehind(messages: seq<Sequenced>, j: nat): seq<Sequenced>
    requires j <= |messages|
  {
    Repair(messages[j..])
  }

  lemma CutTool(m: Sequenced, rest: seq<Sequenced>, inner: nat, j: nat, k: nat)
    requires IsTool(m) && SameCut(rest, inner, k) && j == 1 + inner
    ensures SameCut([m] + rest, j, k)
  {
    BehindOne(m, rest, inner, j);
    assert ([m] + rest)[1..] == rest;
  }

  lemma CutHead(m: Sequenced, rest: seq<Sequenced>)
    requires !Caller(m) && !IsTool(m) && Normal(rest)
    ensures SameCut([m] + rest, 1, 1)
  {
    RepairSpeech(m, rest);
    RepairIdempotent(rest);
    assert ([m] + rest)[1..] == rest && ([m] + Repair(rest))[1..] == Repair(rest);
  }

  lemma CutSpeech(m: Sequenced, rest: seq<Sequenced>, inner: nat, j: nat, k: nat)
    requires !Caller(m) && !IsTool(m) && j == 1 + inner && 0 < k && SameCut(rest, inner, k - 1)
    ensures SameCut([m] + rest, j, k)
  {
    RepairSpeech(m, rest);
    BehindOne(m, rest, inner, j);
    BehindOne(m, Repair(rest), k - 1, k);
  }

  lemma CutFar(m: Sequenced, tools: seq<Sequenced>, rest: seq<Sequenced>, inner: nat, at: nat, j: nat, k: nat)
    requires Caller(m) && AllTools(tools) && (rest == [] || !IsTool(rest[0])) && SameCut(rest, inner, at)
    requires j == 1 + |tools| + inner && k == 1 + |Results(m, tools)| + at
    ensures SameCut([m] + (tools + rest), j, k)
  {
    RepairBlock(m, tools, rest);
    BehindBlock(m, tools, rest, inner, j);
    BehindBlock(m, Results(m, tools), Repair(rest), at, k);
  }

  lemma CutNear(m: Sequenced, tools: seq<Sequenced>, rest: seq<Sequenced>, j: nat, k: nat)
    requires Caller(m) && AllTools(tools) && (rest == [] || !IsTool(rest[0])) && Normal(rest)
        && NormalCalls(m.message.calls)
    requires 0 < j <= 1 + |tools| && 0 < k <= 1 + |Results(m, tools)|
    requires ([m] + tools)[j - 1].sequence == ([m] + Results(m, tools))[k - 1].sequence
    ensures SameCut([m] + (tools + rest), j, k)
  {
    var results := Results(m, tools);
    RepairBlock(m, tools, rest);
    ResultsAnswer(m, tools);
    ViewBehindBlock(m, results, rest, k);
    MessagesBehindBlock(m, tools, rest, j);
    AssociateMessages([m], tools, rest);
    AssociateMessages([m], results, Repair(rest));
  }

  lemma BehindOne(m: Sequenced, rest: seq<Sequenced>, inner: nat, j: nat)
    requires 0 < inner <= |rest| && j == 1 + inner
    ensures ([m] + rest)[j..] == rest[inner..] && ([m] + rest)[j - 1] == rest[inner - 1]
  {
  }

  lemma BehindBlock(m: Sequenced, tools: seq<Sequenced>, rest: seq<Sequenced>, inner: nat, j: nat)
    requires 0 < inner <= |rest| && j == 1 + |tools| + inner
    ensures ([m] + (tools + rest))[j..] == rest[inner..] && ([m] + (tools + rest))[j - 1] == rest[inner - 1]
  {
    assert ([m] + (tools + rest))[1 + |tools|..] == rest;
  }

  lemma {:induction false} ViewBehindBlock(m: Sequenced, results: seq<Sequenced>, rest: seq<Sequenced>, k: nat)
    requires AllTools(results) && Normal(rest) && 0 < k <= 1 + |results|
    ensures Repair(([m] + (results + Repair(rest)))[k..]) == Repair(rest)
  {
    var tail := results[k - 1..];
    assert ([m] + (results + Repair(rest)))[k..] == tail + Repair(rest);
    RepairDropsTools(tail, Repair(rest));
    RepairIdempotent(rest);
  }

  lemma {:induction false} MessagesBehindBlock(m: Sequenced, tools: seq<Sequenced>, rest: seq<Sequenced>, j: nat)
    requires AllTools(tools) && 0 < j <= 1 + |tools|
    ensures Repair(([m] + (tools + rest))[j..]) == Repair(rest)
  {
    var tail := tools[j - 1..];
    assert ([m] + (tools + rest))[j..] == tail + rest;
    RepairDropsTools(tail, rest);
  }

  /** Each message of a repaired block has the sequence number of a message of the block. */
  lemma CutInBlock(m: Sequenced, tools: seq<Sequenced>, k: nat) returns (j: nat)
    requires NormalCalls(m.message.calls) && 0 < k <= 1 + |Results(m, tools)|
    ensures 0 < j <= 1 + |tools|
    ensures ([m] + tools)[j - 1].sequence == ([m] + Results(m, tools))[k - 1].sequence
  {
    var kept := Kept(m.message.calls, tools, {});
    KeptProperties(m.message.calls, tools, {});
    var missing := Missing(m, m.message.calls, ResultIds(kept));
    MissingProperties(m, m.message.calls, ResultIds(kept));
    if k == 1 {
      j := 1;
    } else {
      var x := (kept + missing)[k - 2];
      if k - 2 < |kept| {
        assert x in kept;
        var i :| 0 <= i < |tools| && tools[i] == x;
        j := i + 2;
      } else {
        assert x in missing;
        j := 1;
      }
    }
  }

  // ---- What compaction keeps ----

  predicate NormalLog(log: seq<Entry>) {
    forall e :: e in log && e.body.Said? ==> NormalCalls(e.body.message.calls)
  }

  lemma {:induction false} NormalReplay(log: seq<Entry>)
    requires NormalLog(log)
    ensures Normal(Replay([], log))
  {
    forall m | m in Replay([], log) ensures NormalCalls(m.message.calls) {
      Origin([], log, m);
      var i :| 0 <= i < |log| && log[i] == Entry(m.sequence, Said(m.message));
      assert log[i] in log;
    }
  }

  lemma {:induction false} ReplayAscends(messages: seq<Sequenced>, entries: seq<Entry>, bound: nat)
    requires forall m :: m in messages ==> bound < m.sequence
    requires forall e :: e in entries ==> bound < e.sequence
    ensures forall m :: m in Replay(messages, entries) ==> bound < m.sequence
    decreases |entries|
  {
    if entries != [] {
      ReplayAscends(Apply(messages, entries[0]), entries[1..], bound);
    }
  }

  /** The heart of compaction: with the cursor set to the sequence number of the last message that is
      cut off, the next turn rebuilds exactly the view of what was retained. */
  lemma {:induction false} CutIsFaithful(log: seq<Entry>, from: nat, view: seq<Sequenced>, k: nat)
    requires Ascending(log) && NormalLog(log)
    requires view == Repair(Replay([], After(log, from))) && 0 < k <= |view|
    ensures Repair(Replay([], After(log, view[k - 1].sequence))) == Repair(view[k..])
    ensures from < view[k - 1].sequence
  {
    var entries := After(log, from);
    AfterAscending(log, from);
    NormalReplay(entries);
    var messages := Replay([], entries);
    var j := RepairCut(messages, k);
    ReplayFromCursor(entries, j);
    var t := messages[j - 1].sequence;
    ReplayAscends([], entries, from);
    assert messages[j - 1] in messages;
    AfterAgain(log, from, t);
  }

  lemma {:induction false} RecordingIsUnseen(log: seq<Entry>, entry: Entry, from: nat)
    requires !entry.body.Said? && !entry.body.Retracted?
    ensures Replay([], After(log + [entry], from)) == Replay([], After(log, from))
  {
    AfterAppend(log, [entry], from);
    var tail := After([entry], from);
    ReplayAppend([], After(log, from), tail);
  }

  /** The view the turn after a compaction works with. */
  lemma {:induction false} NextView(log: seq<Entry>, from: nat, view: seq<Sequenced>, k: nat, sequence: nat,
      summary: Summary)
    requires Ascending(log) && NormalLog(log)
    requires view == Repair(Replay([], After(log, from))) && 0 < k <= |view|
    ensures CurrentView(log + [Entry(sequence, Compacted(summary, view[k - 1].sequence))])
            == if summary.Text? then Repair(view[k..]) else Repair(Replay([], After(log, 0)))
  {
    var entry := Entry(sequence, Compacted(summary, view[k - 1].sequence));
    assert (log + [entry])[|log|] == entry;
    RecordingIsUnseen(log, entry, LatestCompaction(log + [entry]).1);
    CutIsFaithful(log, from, view, k);
  }

  /** A summary that was cut down to nothing undoes the compaction: the first compaction of a log
      leaves the retained messages in view if and only if its summary is not blank. */
  lemma {:induction false} BlankSummaryLosesCut(log: seq<Entry>, k: nat, sequence: nat, summary: Summary)
    requires Ascending(log) && NormalLog(log) && LatestCompaction(log).1 == 0
    requires 0 < k <= |CurrentView(log)|
    ensures summary.Text? <==>
              CurrentView(log + [Entry(sequence, Compacted(summary, CurrentView(log)[k - 1].sequence))])
              == Repair(CurrentView(log)[k..])
  {
    var view := CurrentView(log);
    NextView(log, 0, view, k, sequence, summary);
    AfterAscending(log, 0);
    NormalReplay(After(log, 0));
    var messages := Replay([], After(log, 0));
    RepairIsLegal(messages);
    RepairIsNormal(messages);
    RepairOfSuffix(view, k);
    assert |Repair(view[k..])| < |view|;
  }

  // ---- A retraction that goes too far ----

  const QUESTION := Message(1, Other, [], BLANK, BLANK, Recorded(1))
  const ANSWER := Message(2, Assistant, [], BLANK, BLANK, Recorded(2))

  /** A question and its answer, the question compacted away and then asked again. */
  function AskedAgain(): seq<Entry> {
    (([Entry(1, Said(QUESTION))] + [Entry(2, Said(ANSWER))]) + [Entry(3, Compacted(Text(1), 1))])
        + [Entry(4, Retracted(1))]
  }

  lemma {:induction false} ReplayLast(log: seq<Entry>, entry: Entry, from: nat)
    ensures Replay([], After(log + [entry], from))
            == if from < entry.sequence then Apply(Replay([], After(log, from)), entry)
                else Replay([], After(log, from))
  {
    AfterAppend(log, [entry], from);
    ReplayAppend([], After(log, from), After([entry], from));
    assert After([entry], from) == AfterOne(entry, from);
  }

  lemma AskedAgainReplays(from: nat)
    requires from <= 1
    ensures Replay([], After(AskedAgain(), from)) == if from == 0 then [] else [Sequenced(2, ANSWER)]
  {
    var a, b, c, d := Entry(1, Said(QUESTION)), Entry(2, Said(ANSWER)), Entry(3, Compacted(Text(1), 1)),
        Entry(4, Retracted(1));
    ReplayLast([], a, from);
    assert [] + [a] == [a];
    ReplayLast([a], b, from);
    ReplayLast([a] + [b], c, from);
    ReplayLast(([a] + [b]) + [c], d, from);
  }

  /** For example: the transcript is empty again, but the model is still shown the answer. */
  lemma RetractedQuestionLeavesAnswer()
    ensures Ascending(AskedAgain())
    ensures Repair(Replay([], AskedAgain())) == [] && CurrentView(AskedAgain()) == [Sequenced(2, ANSWER)]
  {
    var a, b, c, d := Entry(1, Said(QUESTION)), Entry(2, Said(ANSWER)), Entry(3, Compacted(Text(1), 1)),
        Entry(4, Retracted(1));
    AscendingAppend([a], b);
    AscendingAppend([a] + [b], c);
    AscendingAppend(([a] + [b]) + [c], d);
    AfterEverything(AskedAgain(), 0);
    AskedAgainReplays(0);
    AskedAgainReplays(1);
    assert AskedAgain()[..3] == ([a] + [b]) + [c];
    assert LatestCompaction(AskedAgain()) == LatestCompaction(([a] + [b]) + [c]);
    RepairSpeech(Sequenced(2, ANSWER), []);
    assert [Sequenced(2, ANSWER)] + [] == [Sequenced(2, ANSWER)];
  }

  // ---- Splitting and shrinking ----

  /** There is a cut that leaves enough messages and is not in front of a tool message. */
  predicate Splittable(messages: seq<Sequenced>, retainCount: nat) {
    exists i :: 0 < i && i + retainCount <= |messages| && i < |messages| && !IsTool(messages[i])
  }

  /** The latest such cut, or 0 when there is none. */
  predicate SplitAt(messages: seq<Sequenced>, retainCount: nat, cutoff: nat) {
    && (cutoff == 0 || (cutoff + retainCount <= |messages| && cutoff < |messages| && !IsTool(messages[cutoff])))
    && forall i :: cutoff < i && i + retainCount <= |messages| && i < |messages| ==> IsTool(messages[i])
  }

  lemma SplitMeans(messages: seq<Sequenced>, retainCount: nat, cutoff: nat)
    requires 0 < retainCount && SplitAt(messages, retainCount, cutoff)
    ensures Splittable(messages, retainCount) <==> 0 < cutoff
  {
  }

  method SplitForCompaction(messages: seq<Sequenced>, retainCount: int) returns (cutoff: nat)
    ensures cutoff <= |messages|
    ensures 0 < retainCount ==> SplitAt(messages, retainCount, cutoff)
    ensures retainCount <= 0 ==> cutoff == |messages|
    ensures 0 < retainCount ==> cutoff + retainCount <= |messages| || cutoff == 0
    ensures 0 < retainCount && 0 < cutoff ==> !IsTool(messages[cutoff])
    ensures 0 < retainCount ==> forall i :: cutoff < i && i + retainCount <= |messages| ==> IsTool(messages[i])
    ensures Legal(messages) ==> Legal(messages[..cutoff]) && Legal(messages[cutoff..])
  {
    if |messages| == 0 {
      return 0;
    }
    if retainCount <= 0 {
      assert messages[..|messages|] == messages;
      return |messages|;
    }
    if |messages| <= retainCount {
      assert messages[0..] == messages;
      return 0;
    }
    cutoff := |messages| - retainCount;
    while 0 < cutoff && IsTool(messages[cutoff])
      invariant cutoff + retainCount <= |messages|
      invariant forall i :: cutoff < i && i + retainCount <= |messages| ==> IsTool(messages[i])
    {
      cutoff := cutoff - 1;
    }
    assert messages == messages[..cutoff] + messages[cutoff..];
    if Legal(messages) && 0 < cutoff {
      LegalSplit(messages[..cutoff], messages[cutoff..]);
    }
  }

  /** Everything the messages of a list cost, under any measure of a single message. */
  function Total(cost: Sequenced -> nat, messages: seq<Sequenced>): nat {
    if messages == [] then 0 else cost(messages[0]) + Total(cost, messages[1..])
  }

  /** What some messages cost is what each costs, and no more. */
  lemma {:induction false} TotalExactly(cost: Sequenced -> nat, a: seq<Sequenced>, b: seq<Sequenced>)
    ensures Total(cost, []) == 0 && forall m :: Total(cost, [m]) == cost(m)
    ensures Total(cost, a + b) == Total(cost, a) + Total(cost, b)
  {
    if a == [] {
      assert a + b == b;
    } else {
      TotalExactly(cost, a[1..], b);
      assert (a + b)[1..] == a[1..] + b;
    }
  }

  /** As many of the latest messages as fit, but at least one. */
  predicate FittingCount(messages: seq<Sequenced>, limit: nat, cost: Sequenced -> nat, count: nat) {
    && 1 <= count && (messages != [] ==> count <= |messages|)
    && (messages != [] && 1 < count ==> Total(cost, messages[|messages| - count..]) <= limit)
    && (count < |messages| ==> limit < Total(cost, messages[|messages| - count - 1..]))
  }

  method RetainCountWithinCharacters(messages: seq<Sequenced>, limit: nat, cost: Sequenced -> nat) returns (count: nat)
    ensures FittingCount(messages, limit, cost, count)
    ensures 1 <= count && (messages != [] ==> count <= |messages|)
    ensures messages != [] && 1 < count ==> Total(cost, messages[|messages| - count..]) <= limit
    ensures count < |messages| ==> limit < Total(cost, messages[|messages| - count - 1..])
  {
    var total := 0;
    count := 0;
    var index := |messages|;
    while 0 < index
      invariant 0 <= index <= |messages| && count == |messages| - index
      invariant total == Total(cost, messages[index..])
      invariant total <= limit || count <= 1
    {
      index := index - 1;
      assert messages[index..][1..] == messages[index + 1..];
      total := total + cost(messages[index]);
      if limit < total && 0 < count {
        return;
      }
      count := count + 1;
    }
    if count < 1 {
      count := 1;
    }
  }

  predicate Fits(cost: Sequenced -> nat, messages: seq<Sequenced>, limit: int) {
    Total(cost, messages) <= limit
  }

  /** One message more would exceed the limit. */
  predicate LatestCut(messages: seq<Sequenced>, k: nat, limit: int, cost: Sequenced -> nat) {
    0 < k < |messages| && !Fits(cost, messages[k - 1..], limit)
  }

  /** The last resort of the turn loop: messages are dropped from the front until the rest fits. */
  method EnforceHistoryCharacterLimit(messages: seq<Sequenced>, limit: int, cost: Sequenced -> nat)
      returns (trimmed: seq<Sequenced>)
    requires Normal(messages) && Legal(messages)
    ensures Legal(trimmed)
    ensures exists k: nat :: k <= |messages| && trimmed == messages[k..]
    ensures 0 < limit ==> Fits(cost, trimmed, limit) || |trimmed| <= 1
    ensures limit <= 0 || Fits(cost, messages, limit) || |messages| <= 1 ==> trimmed == messages
    ensures trimmed == messages || exists k: nat ::
        LatestCut(messages, k, limit, cost) && trimmed == DropTools(messages[k..])
  {
    var total := TotalOf(messages, cost);
    if limit <= 0 || total <= limit || |messages| <= 1 {
      assert messages[0..] == messages;
      return messages;
    }
    var kept := RetainCountWithinCharacters(messages, limit, cost);
    var k := |messages| - kept;
    assert messages[0..] == messages;
    trimmed := RepairToolCallPairs(messages[k..]);
    RepairOfSuffix(messages, k);
    assert LatestCut(messages, k, limit, cost);
    var run := ToolRun(messages[k..]);
    assert messages[k..][run..] == messages[k + run..];
    TotalOfSuffix(cost, messages[k..], run);
  }

  method TotalOf(messages: seq<Sequenced>, cost: Sequenced -> nat) returns (total: nat)
    ensures total == Total(cost, messages)
  {
    total := 0;
    assert messages[0..] == messages;
    for i := 0 to |messages|
      invariant Total(cost, messages) == total + Total(cost, messages[i..])
    {
      assert messages[i..][1..] == messages[i + 1..];
      total := total + cost(messages[i]);
    }
  }

  lemma {:induction false} TotalOfSuffix(cost: Sequenced -> nat, messages: seq<Sequenced>, k: nat)
    requires k <= |messages|
    ensures Total(cost, messages[k..]) <= Total(cost, messages)
    decreases k
  {
    if k == 0 {
      assert messages[0..] == messages;
    } else {
      assert messages[1..][k - 1..] == messages[k..];
      TotalOfSuffix(cost, messages[1..], k - 1);
    }
  }

  // ---- Compacting ----

  /** The summary after some messages were folded into it one at a time, oldest first. */
  function Folded(fold: (Summary, Message) -> Summary, summary: Summary, messages: seq<Sequenced>): Summary {
    if messages == [] then summary
    else fold(Folded(fold, summary, messages[..|messages| - 1]), messages[|messages| - 1].message)
  }

  /** The code around compaction that is not modelled: how summaries are made, shortened and counted. */
  datatype Summarizer = Summarizer(
    summarize: (Summary, seq<Sequenced>) -> Summary,
    fold: (Summary, Message) -> Summary,
    fit: (Summary, seq<Sequenced>) -> Summary,
    tokens: (Summary, seq<Sequenced>) -> nat)

  class ContextManager {
    var log: seq<Entry>
    const via: Summarizer
    const budget: nat

    constructor (log: seq<Entry>, via: Summarizer, budget: nat)
      ensures this.log == log && this.via == via && this.budget == budget
    {
      this.log, this.via, this.budget := log, via, budget;
    }

    ghost predicate Valid()
      reads this
    {
      Ascending(log) && NormalLog(log)
    }

    /** Compacts the view of the log, exactly if there is a cut that leaves enough messages and, where a reduction is
        required, the outcome is smaller. Whatever is not retained went through the summary exactly once and in order,
        no more is given up than the budget asks for, and the next turn sees what was retained. */
    method CompactMessages(previous: Summary, through: nat, messages: seq<Sequenced>, retainCount: int, estimated: nat,
                           requireReduction: bool, sequence: nat)
      returns (summary: Summary, retained: seq<Sequenced>, tokens: nat, compacted: bool, ghost first: nat,
          ghost cut: nat, ghost outcome: Summary, ghost after: nat)
      requires Valid() && messages == Repair(Replay([], After(log, through)))
      requires forall e :: e in log ==> e.sequence < sequence
      requires 0 < sequence
      modifies this
      ensures Valid()
      ensures first <= |messages| && (0 < retainCount ==> SplitAt(messages, retainCount, first))
      ensures retainCount <= 0 ==> first == |messages|
      ensures 0 < first ==> first <= cut <= |messages| && Shrunk(previous, messages, first, cut, outcome, after)
      ensures compacted <==> 0 < first && (requireReduction ==> after < estimated)
      ensures 0 < retainCount ==>
                (compacted <==> Splittable(messages, retainCount) && (requireReduction ==> after < estimated))
      ensures !compacted ==> log == old(log) && summary == previous && retained == messages && tokens == estimated
      ensures compacted ==> retained == messages[cut..] && summary == outcome && tokens == after
      ensures compacted ==> log == old(log) + [Entry(sequence, Compacted(summary, messages[cut - 1].sequence))]
      ensures compacted && summary.Text? ==> CurrentView(log) == Repair(retained)
      ensures compacted && summary.Blank? ==> CurrentView(log) == Repair(Replay([], After(old(log), 0)))
    {
      var from, at, made, size := Consider(previous, messages, retainCount);
      first, cut, outcome, after := from, at, made, size;
      if from == 0 || (requireReduction && estimated <= size) {
        return previous, messages, estimated, false, first, cut, outcome, after;
      }
      summary, retained, tokens, compacted := made, messages[at..], size, true;
      RecordCompaction(through, messages, at, summary, sequence);
    }

    /** What a compaction would do. */
    method Consider(previous: Summary, messages: seq<Sequenced>, retainCount: int)
        returns (from: nat, at: nat, summary: Summary, tokens: nat)
      ensures from <= |messages| && (0 < retainCount ==> SplitAt(messages, retainCount, from))
      ensures retainCount <= 0 ==> from == |messages|
      ensures 0 < retainCount ==> (Splittable(messages, retainCount) <==> 0 < from)
      ensures 0 < from ==> from <= at <= |messages| && Shrunk(previous, messages, from, at, summary, tokens)
    {
      from := SplitForCompaction(messages, retainCount);
      at, summary, tokens := from, previous, 0;
      if 0 < retainCount { SplitMeans(messages, retainCount, from); }
      if 0 < from {
        summary, at, tokens := Condense(previous, messages, from);
      }
    }

    /** Folds messages into the summary and shortens it if it is still too long. */
    method Condense(previous: Summary, messages: seq<Sequenced>, from: nat)
        returns (summary: Summary, at: nat, tokens: nat)
      requires 0 < from <= |messages|
      ensures from <= at <= |messages| && Shrunk(previous, messages, from, at, summary, tokens)
    {
      summary, at, tokens := Shrink(previous, messages, from);
      if budget < tokens && summary.Text? {
        summary := via.fit(summary, messages[at..]);
        tokens := via.tokens(summary, messages[at..]);
      }
    }

    method RecordCompaction(ghost through: nat, view: seq<Sequenced>, at: nat, summary: Summary, sequence: nat)
      requires Valid() && view == Repair(Replay([], After(log, through))) && 0 < at <= |view|
      requires 0 < sequence && forall e :: e in log ==> e.sequence < sequence
      modifies this
      ensures Valid()
      ensures log == old(log) + [Entry(sequence, Compacted(summary, view[at - 1].sequence))]
      ensures CurrentView(log) == if summary.Text? then Repair(view[at..]) else Repair(Replay([], After(old(log), 0)))
    {
      var entry := Entry(sequence, Compacted(summary, view[at - 1].sequence));
      NextView(log, through, view, at, sequence, summary);
      AscendingAppend(log, entry);
      log := log + [entry];
    }

    /** Folds retained messages into the summary, oldest first, while the budget is exceeded and more than one is
        left. */
    method Shrink(previous: Summary, messages: seq<Sequenced>, from: nat)
        returns (summary: Summary, at: nat, tokens: nat)
      requires 0 < from <= |messages|
      ensures from <= at <= |messages| && summary == Gathered(previous, messages, from, at)
      ensures tokens == via.tokens(summary, messages[at..])
      ensures tokens <= budget || |messages| - at <= 1
      ensures Needed(previous, messages, from, at)
    {
      at := from;
      summary := via.summarize(previous, messages[..at]);
      var retained := messages[at..];
      tokens := via.tokens(summary, retained);
      assert messages[from..at] == [];
      while budget < tokens && 1 < |retained|
        invariant from <= at <= |messages| && retained == messages[at..]
        invariant summary == Gathered(previous, messages, from, at) && tokens == via.tokens(summary, retained)
        invariant Needed(previous, messages, from, at)
        decreases |messages| - at
      {
        GatherOne(previous, messages, from, at);
        summary := via.fold(summary, retained[0].message);
        retained := retained[1..];
        at := at + 1;
        tokens := via.tokens(summary, retained);
      }
    }

    /** No earlier cut would have done. */
    predicate Needed(previous: Summary, messages: seq<Sequenced>, first: nat, cut: nat)
      requires first <= cut <= |messages|
    {
      forall k :: first <= k < cut ==> budget < via.tokens(Gathered(previous, messages, first, k), messages[k..])
    }

    /** What is given up: the messages before the first cut at once and the others one by one, as few as make the
        rest fit the budget or leave a single message. A summary that is still too long is shortened. */
    predicate Shrunk(previous: Summary, messages: seq<Sequenced>, first: nat, cut: nat, summary: Summary, tokens: nat)
      requires first <= cut <= |messages|
    {
      var retained, folded := messages[cut..], Gathered(previous, messages, first, cut);
      && (via.tokens(folded, retained) <= budget || |retained| <= 1)
      && Needed(previous, messages, first, cut)
      && summary
          == (if budget < via.tokens(folded, retained) && folded.Text? then via.fit(folded, retained) else folded)
      && tokens == via.tokens(summary, retained)
    }

    /** The summary that has taken in the messages before one cut at once and those up to another one by one. */
    function Gathered(previous: Summary, messages: seq<Sequenced>, first: nat, cut: nat): Summary
      requires first <= cut <= |messages|
    {
      Folded(via.fold, via.summarize(previous, messages[..first]), messages[first..cut])
    }

    lemma GatherOne(previous: Summary, messages: seq<Sequenced>, first: nat, cut: nat)
      requires first <= cut < |messages|
      ensures Gathered(previous, messages, first, cut + 1)
          == via.fold(Gathered(previous, messages, first, cut), messages[cut].message)
      ensures messages[cut..][1..] == messages[cut + 1..]
    {
      var more := messages[first..cut + 1];
      assert more[..|more| - 1] == messages[first..cut];
    }

    /** How many messages a turn wants to retain: the configured number, or as many as fit when the characters exceed
        their limit and that is less. */
    function Wanted(characters: nat, limit: nat, retain: nat, fitting: nat): nat {
      if limit < characters && fitting < retain then fitting else retain
    }

    /** Compaction is due exactly if a gate is exceeded and there is a cut that leaves the wanted number of messages or,
        failing that, half of them; the first of the two that has a cut is the number to retain. */
    predicate Decided(messages: seq<Sequenced>, exceeded: bool, wanted: nat, due: bool, count: nat) {
      var half := Max(1, |messages| / 2);
      && (due <==> exceeded && (Splittable(messages, wanted) || (1 < |messages| && Splittable(messages, half))))
      && (due ==> 0 < count && count == if Splittable(messages, wanted) then wanted else half)
    }

    /** Building the context of a turn. It compacts exactly if a gate is exceeded and there is a cut that leaves the
        wanted number of messages or, failing that, half of them; the turn works with a suffix of the view, which is
        also what the next turn will rebuild. */
    method Build(reported: nat, threshold: nat, characters: nat, limit: nat, cost: Sequenced -> nat, retain: nat,
        sequence: nat)
      returns (summary: Summary, messages: seq<Sequenced>, compacted: bool, ghost cut: nat, ghost fitting: nat,
          ghost count: nat, ghost first: nat, ghost after: nat)
      requires Valid() && 0 < retain && 0 < sequence
      requires forall e :: e in log ==> e.sequence < sequence
      modifies this
      ensures Valid()
      ensures limit < characters ==> FittingCount(CurrentView(old(log)), limit, cost, fitting)
      ensures var view := CurrentView(old(log));
              var tokens := Max(reported, via.tokens(LatestCompaction(old(log)).0, view));
              Decided(view, threshold <= tokens
                  || limit < characters, Wanted(characters, limit, retain, fitting), compacted, count)
      ensures compacted ==> var view := CurrentView(old(log));
                && first <= cut <= |view| && SplitAt(view, count, first)
                && Shrunk(LatestCompaction(old(log)).0, view, first, cut, summary, after)
      ensures cut <= |CurrentView(old(log))| && messages == CurrentView(old(log))[cut..]
      ensures !compacted ==> log == old(log) && cut == 0 && summary == LatestCompaction(log).0
      ensures compacted ==>
          0 < cut && log == old(log) + [Entry(sequence, Compacted(summary, CurrentView(old(log))[cut - 1].sequence))]
      ensures compacted && summary.Text? ==> CurrentView(log) == Repair(messages)
      ensures compacted && summary.Blank? ==> CurrentView(log) == Repair(Replay([], After(old(log), 0)))
    {
      var through;
      summary, through, messages := ReadView();
      assert messages[0..] == messages;
      compacted, cut, first, after := false, 0, 0, 0;
      var estimated := via.tokens(summary, messages);
      var due, retained;
      due, retained, fitting := Gates(messages, threshold <= Max(estimated, reported), characters, limit, cost, retain);
      count := retained;
      if due {
        var tokens;
        ghost var outcome;
        summary, messages, tokens, compacted, first, cut, outcome, after :=
          CompactMessages(summary, through, messages, retained, estimated, false, sequence);
      }
    }

    /** The latest summary, its cursor and the messages behind it. */
    method ReadView() returns (summary: Summary, through: nat, messages: seq<Sequenced>)
      ensures (summary, through) == LatestCompaction(log) && messages == CurrentView(log)
      ensures messages == Repair(Replay([], After(log, through)))
    {
      var latest := LatestCompaction(log);
      summary, through := latest.0, latest.1;
      var replayed := MessagesFromEntries(After(log, through));
      messages := RepairToolCallPairs(replayed);
    }

    /** Whether compaction is due, and how many messages it is to retain. */
    method Gates(messages: seq<Sequenced>, overTokens: bool, characters: nat, limit: nat, cost: Sequenced -> nat,
        retain: nat)
      returns (due: bool, count: nat, fitting: nat)
      requires 0 < retain
      ensures limit < characters ==> FittingCount(messages, limit, cost, fitting)
      ensures Decided(messages, overTokens
          || limit < characters, Wanted(characters, limit, retain, fitting), due, count)
    {
      var reached := overTokens;
      count, fitting := retain, 0;
      var older := SplitForCompaction(messages, count);
      if limit < characters {
        reached := true;
        fitting := RetainCountWithinCharacters(messages, limit, cost);
        if fitting < count {
          count := fitting;
          older := SplitForCompaction(messages, count);
        }
      }
      assert Splittable(messages, count) <==> 0 < older;
      if reached && older == 0 && 1 < |messages| {
        count := Max(1, |messages| / 2);
        older := SplitForCompaction(messages, count);
        assert Splittable(messages, count) <==> 0 < older;
      }
      due := reached && 0 < older;
    }
  }

  lemma {:induction false} AscendingAppend(log: seq<Entry>, entry: Entry)
    requires Ascending(log) && 0 < entry.sequence && forall e :: e in log ==> e.sequence < entry.sequence
    ensures Ascending(log + [entry])
  {
    if log != [] {
      AscendingAppend(log[1..], entry);
      assert (log + [entry])[1..] == log[1..] + [entry];
    }
  }
}
