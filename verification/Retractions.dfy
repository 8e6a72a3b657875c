/** Retractions behind a compaction (src/agents/harness/agent.go). */
module Retractions {
  import opened Transcript
  import opened Compaction

  // Exactly when the next turn still works with what stands behind the cursor in the transcript that a reader sees
  // (src/harness/context.go).

  /** The transcript as a reader sees it. */
  function Read(log: seq<Entry>): seq<Sequenced> {
    Replay([], log)
  }

  /** What the next turn replays from a cursor. */
  function Replayed(log: seq<Entry>, through: nat): seq<Sequenced> {
    Replay([], After(log, through))
  }

  function Earlier(messages: seq<Sequenced>, through: nat): seq<Sequenced> {
    if messages == [] then []
    else if messages[0].sequence <= through then [messages[0]] + Earlier(messages[1..], through)
    else Earlier(messages[1..], through)
  }

  function Later(messages: seq<Sequenced>, through: nat): seq<Sequenced> {
    if messages == [] then []
    else if messages[0].sequence <= through then Later(messages[1..], through)
    else [messages[0]] + Later(messages[1..], through)
  }

  /** The next turn works with exactly what stands behind the cursor. */
  predicate Sees(log: seq<Entry>, through: nat) {
    Replayed(log, through) == Later(Read(log), through)
  }

  /** The entry retracts a message in front of the cursor, and something else stands first behind it. */
  predicate Loses(log: seq<Entry>, entry: Entry, through: nat) {
    && entry.body.Retracted? && entry.body.from != BLANK && through < entry.sequence
    && var front, behind := Earlier(Read(log), through), Later(Read(log), through);
       IndexOf(front, entry.body.from) < |front| && behind != [] && behind[0].message.id != entry.body.from
  }

  // ---- The two parts of a transcript ----

  lemma {:induction false} EarlierAppend(a: seq<Sequenced>, b: seq<Sequenced>, through: nat)
    ensures Earlier(a + b, through) == Earlier(a, through) + Earlier(b, through)
  {
    if a == [] {
      assert a + b == b;
    } else {
      EarlierAppend(a[1..], b, through);
      assert (a + b)[1..] == a[1..] + b && (a + b)[0] == a[0];
      AssociateMessages([a[0]], Earlier(a[1..], through), Earlier(b, through));
    }
  }

  lemma {:induction false} LaterAppend(a: seq<Sequenced>, b: seq<Sequenced>, through: nat)
    ensures Later(a + b, through) == Later(a, through) + Later(b, through)
  {
    if a == [] {
      assert a + b == b;
    } else {
      LaterAppend(a[1..], b, through);
      assert (a + b)[1..] == a[1..] + b && (a + b)[0] == a[0];
      AssociateMessages([a[0]], Later(a[1..], through), Later(b, through));
    }
  }

  lemma {:induction false} AllEarlier(messages: seq<Sequenced>, through: nat)
    requires forall m :: m in messages ==> m.sequence <= through
    ensures Earlier(messages, through) == messages && Later(messages, through) == []
  {
    if messages != [] {
      AllEarlier(messages[1..], through);
      assert messages == [messages[0]] + messages[1..];
    }
  }

  lemma {:induction false} AllLater(messages: seq<Sequenced>, through: nat)
    requires forall m :: m in messages ==> through < m.sequence
    ensures Earlier(messages, through) == [] && Later(messages, through) == messages
  {
    if messages != [] {
      AllLater(messages[1..], through);
      assert messages == [messages[0]] + messages[1..];
    }
  }

  lemma {:induction false} PartSequences(messages: seq<Sequenced>, through: nat)
    ensures forall m :: m in Earlier(messages, through) ==> m.sequence <= through && m in messages
    ensures forall m :: m in Later(messages, through) ==> through < m.sequence && m in messages
  {
    if messages != [] { PartSequences(messages[1..], through); }
  }

  predicate Parted(messages: seq<Sequenced>, through: nat) {
    messages == Earlier(messages, through) + Later(messages, through)
  }

  lemma PartedBy(front: seq<Sequenced>, behind: seq<Sequenced>, through: nat)
    requires forall m :: m in front ==> m.sequence <= through
    requires forall m :: m in behind ==> through < m.sequence
    ensures Parted(front + behind, through)
    ensures Earlier(front + behind, through) == front && Later(front + behind, through) == behind
  {
    EarlierAppend(front, behind, through);
    LaterAppend(front, behind, through);
    AllEarlier(front, through);
    AllLater(behind, through);
    assert front + [] == front && [] + behind == behind;
  }

  // ---- The log ----

  lemma {:induction false} AscendingFront(log: seq<Entry>, entry: Entry)
    requires Ascending(log + [entry])
    ensures Ascending(log) && forall e :: e in log ==> e.sequence < entry.sequence
  {
    if log != [] {
      assert (log + [entry])[1..] == log[1..] + [entry] && (log + [entry])[0] == log[0];
      AscendingFront(log[1..], entry);
      assert entry in log[1..] + [entry];
      assert forall e :: e in log[1..] ==> e in log[1..] + [entry];
      assert log == [log[0]] + log[1..];
    }
  }

  lemma {:induction false} AscendingPrefix(log: seq<Entry>, n: nat)
    requires Ascending(log) && n <= |log|
    ensures Ascending(log[..n])
    decreases |log| - n
  {
    if n < |log| {
      AscendingPrefix(log, n + 1);
      assert log[..n + 1] == log[..n] + [log[n]];
      AscendingFront(log[..n], log[n]);
    } else {
      assert log[..n] == log;
    }
  }

  /** Messages carry the numbers of their entries. */
  lemma ReadBelow(log: seq<Entry>, bound: nat)
    requires forall e :: e in log ==> e.sequence < bound
    ensures forall m :: m in Read(log) ==> m.sequence < bound
  {
    forall m | m in Read(log) ensures m.sequence < bound {
      Origin([], log, m);
      var i :| 0 <= i < |log| && log[i] == Entry(m.sequence, Said(m.message));
      assert log[i] in log;
    }
  }

  lemma ReadLast(log: seq<Entry>, entry: Entry)
    ensures Read(log + [entry]) == Apply(Read(log), entry)
  {
    ReplayAppend([], log, [entry]);
    assert [entry][1..] == [];
  }

  lemma ApplySequences(messages: seq<Sequenced>, entry: Entry)
    ensures forall m :: m in Apply(messages, entry) ==> m in messages || m.sequence == entry.sequence
  {
  }

  /** One more entry: what a reader sees behind the cursor, and what the next turn works with. */
  lemma {:induction false} SeesStep(log: seq<Entry>, entry: Entry, through: nat)
    requires Ascending(log + [entry]) && Parted(Read(log), through) && Sees(log, through)
    ensures Parted(Read(log + [entry]), through)
    ensures Sees(log + [entry], through) <==> !Loses(log, entry, through)
  {
    AscendingFront(log, entry);
    ReadBelow(log, entry.sequence);
    ReadLast(log, entry);
    ReplayLast(log, entry, through);
    PartSequences(Read(log), through);
    ApplySequences(Read(log), entry);
    if entry.sequence <= through {
      AllEarlier(Read(log), through);
      AllEarlier(Read(log + [entry]), through);
    } else {
      LaterStep(Read(log), Earlier(Read(log), through), Later(Read(log), through), entry, through);
    }
  }

  lemma {:induction false} LaterStep(all: seq<Sequenced>, front: seq<Sequenced>, behind: seq<Sequenced>, entry: Entry,
      through: nat)
    requires all == front + behind && through < entry.sequence
    requires forall m :: m in front ==> m.sequence <= through
    requires forall m :: m in behind ==> through < m.sequence
    ensures Parted(Apply(all, entry), through)
    ensures var hit := entry.body.Retracted? && entry.body.from != BLANK && IndexOf(front, entry.body.from) < |front|;
            Later(Apply(all, entry), through) == if hit then [] else Apply(behind, entry)
  {
    var at := ApplyBehind(front, behind, entry);
    if entry.body.Retracted? { IndexOfAppend(front, behind, entry.body.from); }
    ApplySequences(behind, entry);
    if at < |front| {
      PartedBy(front[..at], [], through);
      assert front[..at] + [] == front[..at];
    } else {
      PartedBy(front, Apply(behind, entry), through);
    }
  }

  predicate LosesAt(log: seq<Entry>, i: nat, through: nat)
    requires i < |log|
  {
    Loses(log[..i], log[i], through)
  }

  lemma {:induction false} SeesUntil(log: seq<Entry>, n: nat, through: nat)
    requires Ascending(log) && n <= |log|
    requires forall i :: 0 <= i < n ==> !LosesAt(log, i, through)
    ensures Parted(Read(log[..n]), through) && Sees(log[..n], through)
  {
    if n != 0 {
      SeesUntil(log, n - 1, through);
      AscendingPrefix(log, n);
      assert !LosesAt(log, n - 1, through);
      assert log[..n] == log[..n - 1] + [log[n - 1]];
      SeesStep(log[..n - 1], log[n - 1], through);
    }
  }

  /** The next turn sees what stands behind the cursor, at every point of the log, exactly when no entry loses it. */
  lemma {:induction false} SeesExactly(log: seq<Entry>, through: nat)
    requires Ascending(log)
    ensures (forall n :: 0 <= n <= |log| ==> Sees(log[..n], through)) <==>
        (forall i :: 0 <= i < |log| ==> !LosesAt(log, i, through))
  {
    if forall i :: 0 <= i < |log| ==> !LosesAt(log, i, through) {
      forall n | 0 <= n <= |log| ensures Sees(log[..n], through) {
        SeesUntil(log, n, through);
      }
    } else {
      var i := FirstLoss(log, through);
      SeesUntil(log, i, through);
      AscendingPrefix(log, i + 1);
      assert log[..i + 1] == log[..i] + [log[i]];
      SeesStep(log[..i], log[i], through);
      assert !Sees(log[..i + 1], through);
    }
  }

  lemma FirstLoss(log: seq<Entry>, through: nat) returns (i: nat)
    requires exists i :: 0 <= i < |log| && LosesAt(log, i, through)
    ensures i < |log| && LosesAt(log, i, through) && forall k :: 0 <= k < i ==> !LosesAt(log, k, through)
  {
    i := 0;
    while !LosesAt(log, i, through)
      invariant i < |log| && forall k :: 0 <= k < i ==> !LosesAt(log, k, through)
      invariant exists k :: i <= k < |log| && LosesAt(log, k, through)
      decreases |log| - i
    {
      i := i + 1;
    }
  }

  // ---- The view of the next turn ----

  /** As long as nothing was lost, the model is shown the repaired transcript behind the cursor of the latest
      compaction. */
  lemma {:induction false} ShownBehindCursor(log: seq<Entry>)
    requires Ascending(log) && forall i :: 0 <= i < |log| ==> !LosesAt(log, i, LatestCompaction(log).1)
    ensures CurrentView(log) == Repair(Later(Read(log), LatestCompaction(log).1))
  {
    SeesUntil(log, |log|, LatestCompaction(log).1);
    assert log[..|log|] == log;
  }

  lemma {:induction false} RepairsToNothing(messages: seq<Sequenced>)
    ensures Repair(messages) == [] <==> AllTools(messages)
    decreases |messages|
  {
    if messages != [] {
      var rest := messages[1..];
      assert messages == [messages[0]] + rest;
      if Caller(messages[0]) { assert messages[0] in messages; } else { RepairsToNothing(rest); }
    }
  }

  lemma {:induction false} ToolsUpTo(messages: seq<Sequenced>, n: nat)
    requires n <= |messages|
    ensures AllTools(messages[..n]) <==> n <= ToolRun(messages)
  {
    if ToolRun(messages) < n { assert messages[..n][ToolRun(messages)] in messages[..n]; }
  }

  /** A retraction after a compaction: the model is shown what it should be if and only if the message to retract is
      not in front of the cursor, or the transcript behind the cursor, up to a message of that id, holds only tool
      messages. */
  lemma {:induction false} RetractionShown(log: seq<Entry>, entry: Entry)
    requires Ascending(log + [entry]) && entry.body.Retracted? && entry.body.from != BLANK
    requires LatestCompaction(log).1 < entry.sequence
    requires forall i :: 0 <= i < |log| ==> !LosesAt(log, i, LatestCompaction(log).1)
    ensures var through, from := LatestCompaction(log).1, entry.body.from;
            var front, behind := Earlier(Read(log), through), Later(Read(log), through);
            CurrentView(log + [entry]) == Repair(Later(Read(log + [entry]), through))
            <==> IndexOf(front, from) == |front| || IndexOf(behind, from) <= ToolRun(behind)
  {
    var through := LatestCompaction(log).1;
    var front, behind := Earlier(Read(log), through), Later(Read(log), through);
    assert (log + [entry])[..|log|] == log && (log + [entry])[|log|] == entry && log[..|log|] == log;
    AscendingFront(log, entry);
    SeesUntil(log, |log|, through);
    PartSequences(Read(log), through);
    ReadLast(log, entry);
    ReplayLast(log, entry, through);
    LaterStep(Read(log), front, behind, entry, through);
    ToolsUpTo(behind, IndexOf(behind, entry.body.from));
    RepairsToNothing(Apply(behind, entry));
    RepairsToNothing([]);
  }

  // ---- Blank summaries ----

  /** Cutting a legal view anywhere behind its start and repairing the rest loses what was said in front. */
  lemma {:induction false} CutLosesSpeech(view: seq<Sequenced>, k: nat)
    requires Normal(view) && Legal(view) && 0 < k <= |view|
    ensures |Speech(Repair(view[k..]))| < |Speech(view)|
  {
    RepairKeepsSpeech(view[k..]);
    assert view == view[..k] + view[k..];
    SpeechAppend(view[..k], view[k..]);
    LegalHeadNotTool(view);
    assert view[..k] == [view[0]] + view[1..k];
    SpeechCons(view[0], view[1..k]);
  }

  lemma {:induction false} SpeechBehind(log: seq<Entry>, through: nat)
    requires Parted(Read(log), through)
    ensures |Speech(Later(Read(log), through))| <= |Speech(Repair(Read(log)))|
  {
    RepairKeepsSpeech(Read(log));
    SpeechAppend(Earlier(Read(log), through), Later(Read(log), through));
  }

  /** Whatever was compacted before: a compaction keeps its cut if and only if its summary is not blank. With a
      blank one it undoes the earlier compactions as well, and the whole transcript is in view again. */
  lemma {:induction false} BlankSummaryExactly(log: seq<Entry>, k: nat, sequence: nat, summary: Summary)
    requires Ascending(log) && NormalLog(log) && 0 < k <= |CurrentView(log)|
    requires forall i :: 0 <= i < |log| ==> !LosesAt(log, i, LatestCompaction(log).1)
    ensures var view := CurrentView(log);
            var next := CurrentView(log + [Entry(sequence, Compacted(summary, view[k - 1].sequence))]);
            (next == Repair(view[k..]) <==> summary.Text?) && (summary.Blank? ==> next == Repair(Read(log)))
  {
    var through, view := LatestCompaction(log).1, CurrentView(log);
    NextView(log, through, view, k, sequence, summary);
    AscendingPositive(log);
    AfterEverything(log, 0);
    SeesUntil(log, |log|, through);
    assert log[..|log|] == log;
    AfterAscending(log, through);
    NormalReplay(After(log, through));
    RepairIsLegal(Replayed(log, through));
    RepairIsNormal(Replayed(log, through));
    RepairKeepsSpeech(Replayed(log, through));
    CutLosesSpeech(view, k);
    SpeechBehind(log, through);
  }

  lemma {:induction false} AscendingPositive(log: seq<Entry>)
    requires Ascending(log)
    ensures forall e :: e in log ==> 0 < e.sequence
  {
    if log != [] {
      AscendingPositive(log[1..]);
      assert log == [log[0]] + log[1..];
    }
  }
}
