/** The write-ahead record of tool calls (src/harness/tool_recovery.go). */
module ToolRecovery {
  // Which operations may have happened without anybody knowing how they ended, read off the transcript after a
  // crash.

  type Id = nat

  const BLANK: Id := 0

  /** What identifies an operation: the tool and its arguments. */
  datatype Signature = Signature(tool: string, arguments: Id)

  datatype Call = Call(id: Id, signature: Signature)

  /** What the record of a session says about a call id, in order. A dispatch also notes who made it and on what
      grounds; recovery does not read that. */
  datatype Event =
    | Declared(id: Id, signature: Signature)
    | Dispatched(id: Id, signature: Signature, run: Id, mutating: bool, approved: bool)
    | Resolved(id: Id)
    | Noted(id: Id)

  /** `pending` are the operations under way, `settled` those that were given up without a known result. */
  datatype Tracked = Tracked(pending: map<Id, Signature>, settled: set<Signature>)

  function Update(t: Tracked, e: Event): Tracked {
    match e
    case Declared(id, signature) =>
      Tracked(t.pending[id := signature], if id in t.pending then t.settled + {t.pending[id]} else t.settled)
    case Dispatched(id, signature, _, _, _) => if id == BLANK then t else t.(pending := t.pending[id := signature])
    case Resolved(id) => t.(pending := t.pending - {id})
    case Noted(id) => t
  }

  function Track(log: seq<Event>): Tracked {
    if log == [] then Tracked(map[], {}) else Update(Track(log[..|log| - 1]), log[|log| - 1])
  }

  function Uncertain(log: seq<Event>): set<Signature> {
    Track(log).settled + Track(log).pending.Values
  }

  // ---- What is uncertain, exactly ----

  predicate Introduces(e: Event, id: Id, signature: Signature) {
    e == Declared(id, signature) || (e.Dispatched? && e.id == id != BLANK && e.signature == signature)
  }

  /** The event changes what is known about the call id. */
  predicate Concerns(e: Event, id: Id) {
    match e
    case Declared(i, _) => i == id
    case Dispatched(i, _, _, _, _) => i == id != BLANK
    case Resolved(i) => i == id
    case Noted(_) => false
  }

  predicate Quiet(log: seq<Event>, from: nat, to: nat, id: Id)
    requires to <= |log|
  {
    forall k :: from < k < to ==> !Concerns(log[k], id)
  }

  /** The operation was introduced under some call id, and the next thing said about that id, if anything, is
      that it is declared again. */
  predicate LeftOpen(log: seq<Event>, i: nat, n: nat, id: Id, signature: Signature) {
    && i < n <= |log| && Introduces(log[i], id, signature) && Quiet(log, i, n, id)
    && (n < |log| ==> log[n].Declared? && log[n].id == id)
  }

  ghost predicate MayHaveHappened(log: seq<Event>, signature: Signature) {
    exists i: nat, n: nat, id :: LeftOpen(log, i, n, id, signature)
  }

  lemma {:induction false} PendingExact(log: seq<Event>, id: Id, signature: Signature)
    ensures id in Track(log).pending && Track(log).pending[id] == signature <==> exists i: nat ::
        LeftOpen(log, i, |log|, id, signature)
  {
    if log != [] {
      var front, last := log[..|log| - 1], log[|log| - 1];
      PendingExact(front, id, signature);
      if Concerns(last, id) {
        if Introduces(last, id, signature) {
          assert LeftOpen(log, |front|, |log|, id, signature);
        }
        forall i: nat | i < |front| ensures !LeftOpen(log, i, |log|, id, signature) {
          assert Concerns(log[|front|], id);
        }
      } else {
        forall i: nat | i < |front| ensures LeftOpen(log, i, |log|, id, signature) <==>
            LeftOpen(front, i, |front|, id, signature) {
          assert forall k :: 0 <= k < |front| ==> front[k] == log[k];
        }
      }
    }
  }

  lemma {:induction false} SettledExact(log: seq<Event>, signature: Signature)
    ensures signature in Track(log).settled <==> exists i: nat, n: nat, id ::
        n < |log| && LeftOpen(log, i, n, id, signature)
  {
    if log != [] {
      var front, last := log[..|log| - 1], log[|log| - 1];
      SettledExact(front, signature);
      forall i: nat, n: nat, id | n < |front| ensures LeftOpen(log, i, n, id, signature) <==>
          LeftOpen(front, i, n, id, signature) {
        assert forall k :: 0 <= k < |front| ==> front[k] == log[k];
      }
      if last.Declared? {
        PendingExact(front, last.id, signature);
        forall i: nat ensures LeftOpen(log, i, |front|, last.id, signature) <==>
            LeftOpen(front, i, |front|, last.id, signature) {
          assert forall k :: 0 <= k < |front| ==> front[k] == log[k];
        }
      }
    }
  }

  /** Recovery finds exactly the operations that may have happened. */
  lemma UncertainExact(log: seq<Event>, signature: Signature)
    ensures signature in Uncertain(log) <==> MayHaveHappened(log, signature)
  {
    SettledExact(log, signature);
    if signature in Track(log).pending.Values {
      var id :| id in Track(log).pending && Track(log).pending[id] == signature;
      PendingExact(log, id, signature);
      var i: nat :| LeftOpen(log, i, |log|, id, signature);
    }
    forall i: nat, id | LeftOpen(log, i, |log|, id, signature) ensures signature in Uncertain(log) {
      PendingExact(log, id, signature);
    }
  }

  // ---- The paged scan ----

  datatype Body =
    | Said(calls: seq<Call>)
    | Answered(callId: Id, known: bool)
    | DispatchRecord(callId: Id, signature: Signature, run: Id, mutating: bool, approved: bool)
    | Unrelated

  datatype Entry = Entry(sequence: nat, body: Body)

  function Declarations(calls: seq<Call>): seq<Event> {
    if calls == [] then []
        else Declarations(calls[..|calls| - 1]) + [Declared(calls[|calls| - 1].id, calls[|calls| - 1].signature)]
  }

  function EventsOf(entry: Entry): seq<Event> {
    match entry.body
    case Said(calls) => Declarations(calls)
    case Answered(id, known) => if known then [Resolved(id)] else [Noted(id)]
    case DispatchRecord(id, signature, run, mutating, approved) => [Dispatched(id, signature, run, mutating, approved)]
    case Unrelated => []
  }

  function Events(entries: seq<Entry>): seq<Event> {
    if entries == [] then [] else Events(entries[..|entries| - 1]) + EventsOf(entries[|entries| - 1])
  }

  /** A call that is recorded is pending, whatever was recorded before, until its result is recorded; a result that does
      not say how the call ended leaves it pending, and so does anything else. */
  lemma {:induction false} AnswerCloses(t: Tracked, call: Call, said: Entry, answer: Entry, other: Entry)
    requires said.body == Said([call]) || (call.id != BLANK && said.body.DispatchRecord? && said.body.callId == call.id
        && said.body.signature == call.signature)
    requires answer.body.Answered? && answer.body.callId == call.id && other.body.Unrelated?
    ensures var open := Fold(t, EventsOf(said));
            && call.id in open.pending && open.pending[call.id] == call.signature
            && Fold(open, EventsOf(other)) == open
            && Fold(open, EventsOf(answer)) == if answer.body.known then open.(pending := open.pending - {call.id})
                else open
  {
    assert [call][..0] == [];
  }

  function Fold(t: Tracked, events: seq<Event>): Tracked {
    if events == [] then t else Update(Fold(t, events[..|events| - 1]), events[|events| - 1])
  }

  lemma {:induction false} TrackAppend(a: seq<Event>, b: seq<Event>)
    ensures Track(a + b) == Fold(Track(a), b)
  {
    if b == [] {
      assert a + b == a;
    } else {
      TrackAppend(a, b[..|b| - 1]);
      assert (a + b)[..|a + b| - 1] == a + b[..|b| - 1];
    }
  }

  predicate Ascending(entries: seq<Entry>) {
    forall i, j :: 0 <= i < j < |entries| ==> entries[i].sequence < entries[j].sequence
  }

  /** The store of the entries of a session. A page holds the next entries behind the cursor, as many as fit, and
      says whether there are more. */
  class SessionRepository {
    var entries: seq<Entry>

    constructor (entries: seq<Entry>)
      ensures this.entries == entries
    {
      this.entries := entries;
    }

    method ListEntriesPage(cursor: nat, limit: nat, ghost read: nat) returns (page: seq<Entry>, more: bool)
      requires 0 < limit && Numbered(entries)
      requires CursorAt(entries, read, cursor)
      ensures read + |page| <= |entries| && page == entries[read..read + |page|] && |page| <= limit
      ensures more <==> read + |page| < |entries|
      ensures more ==> page != []
    {
      var from := 0;
      CursorBehind(entries, read, cursor);
      while from < |entries| && entries[from].sequence <= cursor
        invariant 0 <= from <= read
      {
        from := from + 1;
      }
      var to := if |entries| - from < limit then |entries| else from + limit;
      page, more := entries[from..to], to < |entries|;
    }
  }

  /** The cursor is the sequence number of the last entry read. */
  predicate CursorAt(entries: seq<Entry>, read: nat, cursor: nat) {
    read <= |entries| && cursor == if read == 0 then 0 else entries[read - 1].sequence
  }

  predicate Numbered(entries: seq<Entry>) {
    Ascending(entries) && forall i :: 0 <= i < |entries| ==> 0 < entries[i].sequence
  }

  lemma CursorBehind(entries: seq<Entry>, read: nat, cursor: nat)
    requires Numbered(entries) && CursorAt(entries, read, cursor)
    ensures forall i :: 0 <= i < |entries| ==> (i < read <==> entries[i].sequence <= cursor)
  {
  }

  const PAGE_SIZE := 256

  const START := Tracked(map[], {})

  /** The scan over some entries. */
  function Scanned(t: Tracked, entries: seq<Entry>): Tracked
    decreases |entries|
  {
    if entries == [] then t else Scanned(Fold(t, EventsOf(entries[0])), entries[1..])
  }

  lemma {:induction false} ScannedAppend(t: Tracked, a: seq<Entry>, b: seq<Entry>)
    ensures Scanned(t, a + b) == Scanned(Scanned(t, a), b)
    decreases |a|
  {
    if a == [] {
      assert a + b == b;
    } else {
      ScannedAppend(Fold(t, EventsOf(a[0])), a[1..], b);
      assert (a + b)[1..] == a[1..] + b && (a + b)[0] == a[0];
    }
  }

  lemma {:induction false} ScannedIsTrack(entries: seq<Entry>)
    ensures Scanned(START, entries) == Track(Events(entries))
  {
    if entries != [] {
      var n := |entries| - 1;
      ScannedIsTrack(entries[..n]);
      ScannedAppend(START, entries[..n], [entries[n]]);
      assert entries == entries[..n] + [entries[n]] && [entries[n]][1..] == [];
      TrackAppend(Events(entries[..n]), EventsOf(entries[n]));
    }
  }

  lemma {:induction false} ScanStep(t: Tracked, entries: seq<Entry>, k: nat)
    requires k < |entries|
    ensures Scanned(t, entries[k..]) == Scanned(Fold(t, EventsOf(entries[k])), entries[k + 1..])
  {
    assert entries[k..][1..] == entries[k + 1..];
  }

  lemma PageScanned(all: seq<Entry>, read: nat, page: seq<Entry>)
    requires read + |page| <= |all| && page == all[read..read + |page|]
    ensures Scanned(START, all[..read + |page|]) == Scanned(Scanned(START, all[..read]), page)
  {
    ScannedAppend(START, all[..read], page);
    assert all[..read] + page == all[..read + |page|];
  }

  lemma CursorMoves(all: seq<Entry>, read: nat, from: nat, page: seq<Entry>, to: nat)
    requires CursorAt(all, read, from) && read + |page| <= |all| && page == all[read..read + |page|]
    requires to == if page == [] then from else page[|page| - 1].sequence
    ensures CursorAt(all, read + |page|, to)
  {
  }

  lemma AllScanned(all: seq<Entry>)
    ensures Scanned(START, all[..|all|]) == Track(Events(all))
  {
    ScannedIsTrack(all);
    assert all[..|all|] == all;
  }

  /** What the scan has after some entries of the record. */
  predicate ScannedTo(all: seq<Entry>, read: nat, cursor: nat, tracked: Tracked) {
    CursorAt(all, read, cursor) && tracked == Scanned(START, all[..read])
  }

  lemma NothingScanned(all: seq<Entry>)
    ensures ScannedTo(all, 0, 0, START)
  {
  }

  method ReadPage(repository: SessionRepository, before: Tracked, from: nat, ghost read: nat)
    returns (tracked: Tracked, cursor: nat, more: bool, ghost next: nat)
    requires Numbered(repository.entries) && ScannedTo(repository.entries, read, from, before)
    ensures read <= next && ScannedTo(repository.entries, next, cursor, tracked)
    ensures more ==> read < next < |repository.entries|
    ensures !more ==> next == |repository.entries|
  {
    var page;
    page, more := repository.ListEntriesPage(from, PAGE_SIZE, read);
    PageScanned(repository.entries, read, page);
    tracked, cursor := ScanPage(page, before, from);
    CursorMoves(repository.entries, read, from, page, cursor);
    next := read + |page|;
  }

  /** Reads the whole record page by page. The pages do not matter: the result is what is uncertain in the record. */
  method RestoreUncertain(repository: SessionRepository) returns (uncertain: set<Signature>)
    requires Numbered(repository.entries)
    ensures uncertain == Uncertain(Events(repository.entries))
  {
    var tracked, cursor, more := START, 0, true;
    ghost var read := 0;
    NothingScanned(repository.entries);
    while more
      invariant ScannedTo(repository.entries, read, cursor, tracked)
      invariant !more ==> read == |repository.entries|
      decreases |repository.entries| - read + if more then 1 else 0
    {
      tracked, cursor, more, read := ReadPage(repository, tracked, cursor, read);
    }
    AllScanned(repository.entries);
    uncertain := tracked.settled + tracked.pending.Values;
  }

  method ScanPage(page: seq<Entry>, before: Tracked, from: nat) returns (tracked: Tracked, cursor: nat)
    ensures tracked == Scanned(before, page)
    ensures cursor == if page == [] then from else page[|page| - 1].sequence
  {
    tracked, cursor := before, from;
    assert page[0..] == page;
    for k := 0 to |page|
      invariant Scanned(tracked, page[k..]) == Scanned(before, page)
      invariant cursor == if k == 0 then from else page[k - 1].sequence
    {
      ScanStep(tracked, page, k);
      cursor := page[k].sequence;
      tracked := Scan(tracked, page[k]);
    }
  }

  /** What one entry does to the scan. */
  method Scan(before: Tracked, entry: Entry) returns (after: Tracked)
    ensures after == Fold(before, EventsOf(entry))
  {
    var pending: map<Id, Signature> := before.pending;
    var settled := before.settled;
    match entry.body {
      case Said(calls) =>
        for i := 0 to |calls|
          invariant Tracked(pending, settled) == Fold(before, Declarations(calls[..i]))
        {
          DeclarationsStep(before, calls, i);
          var call := calls[i];
          if call.id in pending {
            settled := settled + {pending[call.id]};
          }
          pending := pending[call.id := call.signature];
        }
        assert calls[..|calls|] == calls;
      case Answered(id, known) =>
        FoldOne(before, if known then Resolved(id) else Noted(id));
        if known {
          pending := pending - {id};
        }
      case DispatchRecord(id, signature, run, mutating, approved) =>
        FoldOne(before, Dispatched(id, signature, run, mutating, approved));
        if id != BLANK {
          pending := pending[id := signature];
        }
      case Unrelated =>
    }
    after := Tracked(pending, settled);
  }

  lemma {:induction false} FoldOne(t: Tracked, e: Event)
    ensures Fold(t, [e]) == Update(t, e)
  {
    assert Fold(t, [e][..0]) == t;
  }

  lemma {:induction false} DeclarationsStep(t: Tracked, calls: seq<Call>, i: nat)
    requires i < |calls|
    ensures Fold(t, Declarations(calls[..i + 1]))
        == Update(Fold(t, Declarations(calls[..i])), Declared(calls[i].id, calls[i].signature))
  {
    var more := calls[..i + 1];
    assert more[..|more| - 1] == calls[..i];
    var d := Declarations(calls[..i]);
    assert (d + [Declared(calls[i].id, calls[i].signature)])[..|d|] == d;
  }
}
