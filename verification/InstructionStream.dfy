/** The streaming filter of model answers (src/harness/instruction_stream.go). */
module InstructionStream {
  import opened Text

  // An answer arrives in pieces. Ordinary text is forwarded at once; text that may turn out to be a tool instruction
  // is held back, and the text from a tool instruction on is never shown. `Spec` says what has to have happened
  // after a whole text, `Advance` what one piece does; `AnySplit` proves that the pieces do not matter.

  // ---- Characters ----

  const LOWER_LETTERS := "abcdefghijklmnopqrstuvwxyz"

  /** Simple case folding, restricted to the code points whose lower case is ASCII:
      no other letter can ever equal a character of a marker. */
  function ToLower(c: char): char {
    if 'A' <= c <= 'Z' then LOWER_LETTERS[(c - 'A') as int]
    else if c == '\U{130}' then 'i'
    else if c == '\U{212A}' then 'k'
    else c
  }

  function Lower(value: string): string {
    if value == "" then "" else [ToLower(value[0])] + Lower(value[1..])
  }

  /** The text without white space, in lower case. */
  function Compact(value: string): string {
    if value == "" then ""
    else if IsSpace(value[0]) then Compact(value[1..])
    else [ToLower(value[0])] + Compact(value[1..])
  }

  const MARKERS: seq<string> := ["{\"type\":\"tool_use\"", "{\"type\":\"tool_call\"", "{\"type\":\"tool\""]

  const OPENERS: seq<string> := ["{", "```", "~~~", "<tool_call", "<tool_use", "[tool_call", "[tool_use", "to="]

  /** The text, white space and case apart, begins with a tool marker. */
  predicate StartsMarker(value: string) {
    exists i :: 0 <= i < |MARKERS| && MARKERS[i] <= Compact(value)
  }

  /** The text, white space and case apart, is the beginning of a tool marker. */
  predicate MayBecomeMarker(value: string) {
    exists i :: 0 <= i < |MARKERS| && Compact(value) <= MARKERS[i]
  }

  predicate MarkerAt(text: string, i: nat) {
    i < |text| && text[i] == '{' && StartsMarker(text[i..])
  }

  predicate FirstMarkerAt(text: string, i: nat) {
    MarkerAt(text, i) && forall j :: 0 <= j < i ==> !MarkerAt(text, j)
  }

  /** The opening of an answer that may still be a tool instruction. */
  predicate MayBeTool(value: string) {
    var trimmed := Lower(TrimLeft(value));
    trimmed == "" || exists i :: 0 <= i < |OPENERS| && (OPENERS[i] <= trimmed || trimmed <= OPENERS[i])
  }

  // ---- The batch specification ----

  /** `shown` has been forwarded, `held` waits, `stopped` says that a marker was met. */
  datatype Filtered = Filtered(shown: string, held: string, stopped: bool)

  function Filter(text: string): Filtered {
    if text == "" then Filtered("", "", false)
    else if text[0] == '{' && StartsMarker(text) then Filtered("", "", true)
    else if text[0] == '{' && MayBecomeMarker(text) then Filtered("", text, false)
    else
      var rest := Filter(text[1..]);
      rest.(shown := [text[0]] + rest.shown)
  }

  datatype View = View(buffer: string, candidate: string, released: bool, suppressing: bool, shown: string)

  const UNTOUCHED := View("", "", false, false, "")

  /** What must have happened once `text` has arrived, in whatever pieces. */
  function Spec(text: string): View {
    if MayBeTool(text) then View(text, "", false, false, "")
    else var f := Filter(text); View("", f.held, true, f.stopped, f.shown)
  }

  function Resume(view: View, delta: string): View {
    if view.suppressing || delta == "" then view
    else
      var f := Filter(view.candidate + delta);
      view.(candidate := f.held, suppressing := f.stopped, shown := view.shown + f.shown)
  }

  /** What one piece does. */
  function Advance(view: View, delta: string): View {
    if delta == "" then view
    else if view.released then Resume(view, delta)
    else if MayBeTool(view.buffer + delta) then view.(buffer := view.buffer + delta)
    else Resume(view.(buffer := "", released := true), view.buffer + delta)
  }

  function AdvanceAll(view: View, deltas: seq<string>): View
    decreases |deltas|
  {
    if deltas == [] then view else AdvanceAll(Advance(view, deltas[0]), deltas[1..])
  }

  function Concat(deltas: seq<string>): string {
    if deltas == [] then "" else deltas[0] + Concat(deltas[1..])
  }

  /** What the end of the answer adds: the held text, or the adapter's own final text when nothing was released. */
  function Ending(view: View, final: string): string {
    if view.released then (if view.suppressing then "" else view.candidate) else final
  }

  // ---- Properties of the specification ----

  lemma {:induction false} CompactAppend(a: string, b: string)
    ensures Compact(a + b) == Compact(a) + Compact(b)
  {
    if a == "" {
      assert a + b == b;
    } else {
      CompactAppend(a[1..], b);
      assert (a + b)[1..] == a[1..] + b;
    }
  }

  lemma {:induction false} LowerAppend(a: string, b: string)
    ensures Lower(a + b) == Lower(a) + Lower(b)
  {
    if a == "" {
      assert a + b == b;
    } else {
      LowerAppend(a[1..], b);
      assert (a + b)[1..] == a[1..] + b && (a + b)[0] == a[0];
    }
  }

  lemma {:induction false} TrimLeftAppend(a: string, b: string)
    requires TrimLeft(a) != ""
    ensures TrimLeft(a + b) == TrimLeft(a) + b
  {
    if IsSpace(a[0]) {
      TrimLeftAppend(a[1..], b);
      assert (a + b)[1..] == a[1..] + b;
    }
  }

  /** A marker has its only brace at the front. */
  lemma MarkerBraces(i: nat, k: nat)
    requires i < |MARKERS| && 0 < k < |MARKERS[i]|
    ensures MARKERS[i][k] != '{'
  {
    assert MARKERS[0] == "{\"type\":\"tool_use\"";
    assert MARKERS[1] == "{\"type\":\"tool_call\"";
    assert MARKERS[2] == "{\"type\":\"tool\"";
  }

  /** Once it starts with a marker it stays so. */
  lemma StartsMarkerGrows(a: string, b: string)
    ensures StartsMarker(a) ==> StartsMarker(a + b)
    ensures !StartsMarker(a) && !MayBecomeMarker(a) ==> !StartsMarker(a + b) && !MayBecomeMarker(a + b)
  {
    CompactAppend(a, b);
    if i :| 0 <= i < |MARKERS| && MARKERS[i] <= Compact(a) {
      assert MARKERS[i] <= Compact(a + b);
    }
    if i :| 0 <= i < |MARKERS| && (MARKERS[i] <= Compact(a + b) || Compact(a + b) <= MARKERS[i]) {
      assert Compact(a) <= Compact(a + b);
      assert MARKERS[i] <= Compact(a) || Compact(a) <= MARKERS[i];
    }
  }

  /** Text that may still become a marker holds no second brace, hence no later marker. */
  lemma HeldHasNoLaterMarker(text: string, i: nat)
    requires text != "" && text[0] == '{' && MayBecomeMarker(text) && 0 < i < |text|
    ensures text[i] != '{'
  {
    if text[i] == '{' {
      var m :| 0 <= m < |MARKERS| && Compact(text) <= MARKERS[m];
      CompactAppend(text[..i], text[i..]);
      assert text == text[..i] + text[i..];
      assert Compact(text[..i]) == [ToLower(text[0])] + Compact(text[..i][1..]);
      var k := |Compact(text[..i])|;
      assert Compact(text[i..]) == ['{'] + Compact(text[i..][1..]);
      assert Compact(text)[k] == '{';
      MarkerBraces(m, k);
    }
  }

  function Prepend(prefix: string, f: Filtered): Filtered {
    f.(shown := prefix + f.shown)
  }

  lemma PrependTwice(a: string, b: string, f: Filtered)
    ensures Prepend(a, Prepend(b, f)) == Prepend(a + b, f)
  {
    assert a + (b + f.shown) == (a + b) + f.shown;
  }

  lemma MarkerAtTail(text: string, i: nat)
    requires 0 < i <= |text|
    ensures MarkerAt(text, i) <==> MarkerAt(text[1..], i - 1)
  {
    assert i < |text| ==> text[i..] == text[1..][i - 1..];
  }

  /** Where the filter stops there is a marker, the first one. */
  lemma {:induction false} StopIsFirstMarker(text: string)
    requires Filter(text).stopped
    ensures var n := |Filter(text).shown|; FirstMarkerAt(text, n) && Filter(text) == Filtered(text[..n], "", true)
  {
    assert text[0..] == text;
    if !(text[0] == '{' && StartsMarker(text)) {
      StopIsFirstMarker(text[1..]);
      var n := |Filter(text[1..]).shown|;
      MarkerAtTail(text, n + 1);
      forall j: nat | j < n + 1 ensures !MarkerAt(text, j) {
        if j > 0 { MarkerAtTail(text, j); }
      }
      assert text[..n + 1] == [text[0]] + text[1..][..n];
    }
  }

  /** The filter passes no marker by. */
  lemma {:induction false} NoMarkerPassed(text: string, i: nat)
    requires !Filter(text).stopped
    ensures !MarkerAt(text, i)
  {
    if text != "" {
      assert text[0..] == text;
      if 0 < i < |text| {
        if text[0] == '{' && MayBecomeMarker(text) {
          HeldHasNoLaterMarker(text, i);
        } else {
          MarkerAtTail(text, i);
          NoMarkerPassed(text[1..], i - 1);
        }
      }
    }
  }

  /** The filter stops exactly when the text holds a marker, having shown what precedes the first one. */
  lemma {:induction false} FilterStops(text: string)
    ensures Filter(text).stopped <==> exists i: nat :: MarkerAt(text, i)
    ensures forall i: nat :: FirstMarkerAt(text, i) ==> Filter(text) == Filtered(text[..i], "", true)
  {
    if Filter(text).stopped {
      StopIsFirstMarker(text);
    } else {
      forall i: nat ensures !MarkerAt(text, i) { NoMarkerPassed(text, i); }
    }
  }

  /** Without a marker nothing is lost: what is not shown is held. */
  lemma {:induction false} FilterKeeps(text: string)
    requires !Filter(text).stopped
    ensures Filter(text).shown + Filter(text).held == text
  {
    if text != "" && !(text[0] == '{' && MayBecomeMarker(text)) {
      FilterKeeps(text[1..]);
      var r := Filter(text[1..]);
      assert ([text[0]] + r.shown) + r.held == [text[0]] + (r.shown + r.held) == text;
    }
  }

  /** Text is held from the first brace on that may still open a marker, and never without need. */
  lemma {:induction false} FilterHolds(text: string)
    requires !Filter(text).stopped
    ensures var held := Filter(text).held; held != "" ==> held[0] == '{' && MayBecomeMarker(held)
    ensures |Filter(text).shown| <= |text|
    ensures forall i :: 0 <= i < |Filter(text).shown| && text[i] == '{' ==> !MayBecomeMarker(text[i..])
  {
    if text != "" && !(text[0] == '{' && MayBecomeMarker(text)) {
      var tail := text[1..];
      FilterHolds(tail);
      assert text[0..] == text;
      forall i | 0 < i < |Filter(text).shown| && text[i] == '{' ensures !MayBecomeMarker(text[i..]) {
        assert text[i..] == tail[i - 1..] && text[i] == tail[i - 1];
      }
    }
  }

  /** Filtering is resumable: what was held is all that later text needs. */
  lemma {:induction false} FilterAppend(a: string, b: string)
    ensures var f := Filter(a);
            Filter(a + b) ==
            if f.stopped then f
            else Prepend(f.shown, Filter(f.held + b))
  {
    if a == "" {
      assert a + b == b;
    } else if a[0] == '{' && StartsMarker(a) {
      StartsMarkerGrows(a, b);
    } else if a[0] == '{' && MayBecomeMarker(a) {
    } else {
      FilterAppend(a[1..], b);
      assert (a + b)[1..] == a[1..] + b;
      if a[0] == '{' { StartsMarkerGrows(a, b); }
      var f := Filter(a[1..]);
      assert Filter(a + b) == Prepend([a[0]], Filter(a[1..] + b));
      PrependTwice([a[0]], f.shown, Filter(f.held + b));
    }
  }

  /** A decision to release is never undone by more text. */
  lemma ReleaseIsFinal(a: string, b: string)
    ensures MayBeTool(a + b) ==> MayBeTool(a)
  {
    var trimmed := TrimLeft(a);
    if trimmed != "" {
      TrimLeftAppend(a, b);
      LowerAppend(trimmed, b);
      if i :| 0 <= i < |OPENERS| && (OPENERS[i] <= Lower(trimmed + b) || Lower(trimmed + b) <= OPENERS[i]) {
        assert OPENERS[i] <= Lower(trimmed) || Lower(trimmed) <= OPENERS[i];
      }
    }
  }

  lemma SpecAdvance(text: string, delta: string)
    ensures Advance(Spec(text), delta) == Spec(text + delta)
  {
    if delta == "" {
      assert text + delta == text;
    } else {
      ReleaseIsFinal(text, delta);
      FilterAppend(text, delta);
      assert "" + (text + delta) == text + delta;
    }
  }

  lemma {:induction false} AdvanceAllSpec(text: string, deltas: seq<string>)
    ensures AdvanceAll(Spec(text), deltas) == Spec(text + Concat(deltas))
    decreases |deltas|
  {
    if deltas == [] {
      assert text + Concat(deltas) == text;
    } else {
      SpecAdvance(text, deltas[0]);
      AdvanceAllSpec(text + deltas[0], deltas[1..]);
      assert (text + deltas[0]) + Concat(deltas[1..]) == text + Concat(deltas);
    }
  }

  /** However a text is cut into pieces, the machine ends as the batch specification says;
      in particular whether and what it released depends on the whole text only. */
  lemma {:induction false} AnySplit(deltas: seq<string>)
    ensures AdvanceAll(UNTOUCHED, deltas) == Spec(Concat(deltas))
  {
    AdvanceAllSpec("", deltas);
    assert "" + Concat(deltas) == Concat(deltas);
  }

  /** The text a reader has seen once the answer is over, for every split. */
  lemma {:induction false} WholeAnswer(deltas: seq<string>, final: string)
    ensures var text := Concat(deltas);
            var view := AdvanceAll(UNTOUCHED, deltas);
            var seen := view.shown + Ending(view, final);
            if MayBeTool(text) then seen == final
            else (forall i: nat :: FirstMarkerAt(text, i) ==> seen == text[..i])
                 && ((forall i: nat :: !MarkerAt(text, i)) ==> seen == text)
  {
    AnySplit(deltas);
    var text := Concat(deltas);
    FilterStops(text);
    if !Filter(text).stopped { FilterKeeps(text); }
    forall i: nat | FirstMarkerAt(text, i) ensures text[..i] + "" == text[..i] {}
  }

  /** Nothing is held without need: for every split, as long as no marker has occurred in a released answer, what is
      held begins with the first brace of the text that may still open a marker, and everything in front of it, or
      everything if there is none, has been shown. */
  lemma {:induction false} HeldWithNeed(deltas: seq<string>)
    requires var view := AdvanceAll(UNTOUCHED, deltas); view.released && !view.suppressing
    ensures var text := Concat(deltas);
            var view := AdvanceAll(UNTOUCHED, deltas);
            && view.shown + view.candidate == text
            && (view.candidate != "" ==> view.candidate[0] == '{' && MayBecomeMarker(view.candidate))
            && (forall i :: 0 <= i < |view.shown| && text[i] == '{' ==> !MayBecomeMarker(text[i..]))
  {
    AnySplit(deltas);
    FilterKeeps(Concat(deltas));
    FilterHolds(Concat(deltas));
  }

  // ---- The machine ----

  /** The caller's `emit`: it collects text and may refuse a piece. */
  class Sink {
    var text: string
    var credit: nat

    constructor (credit: nat)
      ensures text == "" && this.credit == credit
    {
      text := "";
      this.credit := credit;
    }

    method Emit(value: string) returns (ok: bool)
      modifies this
      ensures ok == (old(credit) > 0)
      ensures text == if ok then old(text) + value else old(text)
    {
      ok := credit > 0;
      if ok {
        text := text + value;
        credit := credit - 1;
      }
    }
  }

  method EmbeddedInstructionToolPrefix(value: string) returns (possible: bool, matched: bool)
    ensures matched == StartsMarker(value)
    ensures possible == (StartsMarker(value) || MayBecomeMarker(value))
  {
    var prefix := "";
    var index := 0;
    while index < |value|
      invariant 0 <= index <= |value|
      invariant prefix == Compact(value[..index])
    {
      CompactAppend(value[..index], [value[index]]);
      assert value[..index + 1] == value[..index] + [value[index]];
      assert [value[index]][1..] == "";
      if !IsSpace(value[index]) {
        prefix := prefix + [ToLower(value[index])];
      }
      index := index + 1;
    }
    assert value[..index] == value;
    possible := false;
    var m := 0;
    while m < |MARKERS|
      invariant 0 <= m <= |MARKERS|
      invariant possible <==> exists i :: 0 <= i < m && prefix <= MARKERS[i]
      invariant forall i :: 0 <= i < m ==> !(MARKERS[i] <= prefix)
    {
      if prefix <= MARKERS[m] {
        possible := true;
      }
      if MARKERS[m] <= prefix {
        return true, true;
      }
      m := m + 1;
    }
    matched := false;
  }

  method InstructionPrefixMayBeTool(value: string) returns (may: bool)
    ensures may == MayBeTool(value)
  {
    var lower := Lower(TrimLeft(value));
    if lower == "" {
      return true;
    }
    var m := 0;
    while m < |OPENERS|
      invariant 0 <= m <= |OPENERS|
      invariant forall i :: 0 <= i < m ==> !(OPENERS[i] <= lower || lower <= OPENERS[i])
    {
      if lower <= OPENERS[m] || OPENERS[m] <= lower {
        return true;
      }
      m := m + 1;
    }
    may := false;
  }

  /** strings.IndexByte(value, '{') */
  method IndexBrace(value: string) returns (brace: int)
    ensures brace < 0 ==> '{' !in value
    ensures brace >= 0 ==> brace < |value| && value[brace] == '{' && '{' !in value[..brace]
  {
    brace := 0;
    while brace < |value|
      invariant 0 <= brace <= |value|
      invariant '{' !in value[..brace]
    {
      if value[brace] == '{' {
        return;
      }
      brace := brace + 1;
    }
    assert value[..brace] == value;
    brace := -1;
  }

  lemma Associate(a: string, b: string, c: string)
    ensures (a + b) + c == a + (b + c)
    ensures a + b <= a + (b + c)
  {
  }

  /** Text before a brace is shown whatever follows. */
  lemma {:induction false} FilterPlain(plain: string, rest: string)
    requires '{' !in plain
    ensures Filter(plain + rest) == Prepend(plain, Filter(rest))
  {
    if plain == "" {
      assert plain + rest == rest;
    } else {
      FilterPlain(plain[1..], rest);
      assert (plain + rest)[1..] == plain[1..] + rest;
    }
  }

  class InstructionTextStream {
    var buffer: string
    var candidate: string
    var released: bool
    var suppressing: bool

    constructor ()
      ensures buffer == "" && candidate == "" && !released && !suppressing
    {
      buffer, candidate := "", "";
      released, suppressing := false, false;
    }

    ghost function ViewWith(sink: Sink): View
      reads this, sink
    {
      View(buffer, candidate, released, suppressing, sink.text)
    }

    /** One turn of the forwarding loop: `emitted` is what it added to the sink. */
    method ForwardOnce(sink: Sink) returns (ok: bool, more: bool, ghost emitted: string)
      requires !suppressing && candidate != ""
      modifies this, sink
      ensures unchanged(`buffer) && unchanged(`released)
      ensures sink.text == old(sink.text) + emitted
      ensures ok && more ==> !suppressing && |candidate| < old(|candidate|)
                             && old(Filter(candidate)) == Prepend(emitted, Filter(candidate))
      ensures ok && !more ==> old(Filter(candidate)) == Filtered(emitted, candidate, suppressing)
      ensures !ok ==> emitted <= old(Filter(candidate).shown)
    {
      var value := candidate;
      emitted, more := "", false;
      var brace := IndexBrace(value);
      if brace < 0 {
        FilterPlain(value, "");
        assert value + "" == value;
        candidate := "";
        ok := sink.Emit(value);
        emitted := if ok then value else "";
        return;
      }
      if brace > 0 {
        FilterPlain(value[..brace], value[brace..]);
        assert value[..brace] + value[brace..] == value;
        ok := sink.Emit(value[..brace]);
        if !ok {
          return;
        }
        emitted := value[..brace];
        value := value[brace..];
        candidate := value;
      }
      var possible, matched := EmbeddedInstructionToolPrefix(candidate);
      if matched {
        candidate := "";
        suppressing := true;
        return true, false, emitted;
      }
      if possible {
        return true, false, emitted;
      }
      PrependTwice(emitted, "{", Filter(candidate[1..]));
      ok := sink.Emit("{");
      if !ok {
        return;
      }
      emitted := emitted + "{";
      candidate := candidate[1..];
      more := true;
    }

    method PushReleased(delta: string, sink: Sink) returns (ok: bool)
      requires released
      modifies this, sink
      ensures unchanged(`buffer) && unchanged(`released)
      ensures ok ==> ViewWith(sink) == old(Resume(ViewWith(sink), delta))
      // A refused piece stops the forwarding: only text the filter lets through was emitted, in order.
      ensures !ok ==> old(sink.text) <= sink.text <= old(Resume(ViewWith(sink), delta)).shown
    {
      if suppressing || delta == "" {
        return true;
      }
      candidate := candidate + delta;
      ghost var whole := Filter(candidate);
      ghost var total := "";
      var more := true;
      ok := true;
      while more && |candidate| > 0
        invariant unchanged(`buffer) && unchanged(`released) && ok
        invariant sink.text == old(sink.text) + total
        invariant more ==> !suppressing && whole == Prepend(total, Filter(candidate))
        invariant !more ==> whole == Filtered(total, candidate, suppressing)
        decreases more, |candidate|
      {
        ghost var emitted;
        ghost var before := Filter(candidate);
        ok, more, emitted := ForwardOnce(sink);
        Associate(old(sink.text), total, emitted);
        if !ok {
          Associate(old(sink.text), total + emitted, before.shown[|emitted|..]);
          Associate(total, emitted, before.shown[|emitted|..]);
          return;
        }
        PrependTwice(total, emitted, Filter(candidate));
        total := total + emitted;
      }
    }

    method Push(delta: string, sink: Sink) returns (ok: bool)
      modifies this, sink
      ensures ok ==> ViewWith(sink) == old(Advance(ViewWith(sink), delta))
      ensures !ok ==> old(sink.text) <= sink.text <= old(Advance(ViewWith(sink), delta)).shown
    {
      if delta == "" {
        return true;
      }
      if released {
        ok := PushReleased(delta, sink);
        return;
      }
      buffer := buffer + delta;
      var may := InstructionPrefixMayBeTool(buffer);
      if may {
        return true;
      }
      released := true;
      var buffered := buffer;
      buffer := "";
      ok := PushReleased(buffered, sink);
    }

    method Finish(finalContent: string, sink: Sink) returns (ok: bool)
      modifies this, sink
      ensures ok ==> sink.text == old(sink.text + Ending(ViewWith(sink), finalContent))
      ensures !ok ==> sink.text == old(sink.text)
      ensures released == (old(released) || finalContent != "") && candidate == old(if released then "" else candidate)
    {
      if released {
        if suppressing || |candidate| == 0 {
          candidate := "";
          return true;
        }
        var pending := candidate;
        candidate := "";
        ok := sink.Emit(pending);
        return;
      }
      if finalContent == "" {
        return true;
      }
      buffer := "";
      released := true;
      ok := sink.Emit(finalContent);
    }
  }
}
