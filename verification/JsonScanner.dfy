/** The scanner for JSON objects in a text (src/harness/tool_protocol.go). */
module JsonScanner {
  // `Scan` is the scanner as a fold over characters; the concrete syntax trees below print every JSON object text
  // there is (sections 4 and 7 of RFC 8259).

  // ---- The scanner as a fold ----

  datatype Mode = Mode(depth: int, inString: bool, escaped: bool)

  /** Open: the text ended inside; Closed(n): the object is the first n characters. */
  datatype Outcome = Open(mode: Mode) | Closed(length: nat) | Broken

  const START := Mode(0, false, false)

  function Step(m: Mode, c: char): Mode {
    if m.inString then
      if m.escaped then m.(escaped := false)
      else if c == '\\' then m.(escaped := true)
      else if c == '"' then m.(inString := false)
      else m
    else if c == '"' then m.(inString := true)
    else if c == '{' then m.(depth := m.depth + 1)
    else if c == '}' then m.(depth := m.depth - 1)
    else m
  }

  function Scan(m: Mode, text: string): Outcome
    decreases |text|
  {
    if text == "" then Open(m)
    else
      var next := Step(m, text[0]);
      if !m.inString && text[0] == '}' && next.depth == 0 then Closed(1)
      else if !m.inString && text[0] == '}' && next.depth < 0 then Broken
      else Later(1, Scan(next, text[1..]))
  }

  function Later(n: nat, outcome: Outcome): Outcome {
    if outcome.Closed? then Closed(n + outcome.length) else outcome
  }

  /** The complete object the text starts with, or "". */
  function Balanced(content: string): (found: string)
    ensures found <= content
  {
    if content == "" || content[0] != '{' then ""
    else
      ScanLength(START, content);
      match Scan(START, content)
      case Closed(n) => content[..n]
      case _ => ""
  }

  /** At every position, the length of the complete object that starts there, or 0. */
  function Lengths(content: string): (lens: seq<nat>)
    ensures |lens| == |content|
  {
    if content == "" then [] else [|Balanced(content)|] + Lengths(content[1..])
  }

  predicate HitAt(lens: seq<nat>, i: nat) {
    i < |lens| && 0 < lens[i] <= |lens| - i
  }

  /** Taking objects from a position on: after a hit go on behind it, otherwise one further. */
  function Collect(content: string, lens: seq<nat>, offset: nat): seq<string>
    requires offset <= |content| == |lens|
    decreases |lens| - offset
  {
    if offset == |lens| then []
    else if HitAt(lens, offset) then
      [content[offset..offset + lens[offset]]] + Collect(content, lens, offset + lens[offset])
    else Collect(content, lens, offset + 1)
  }

  /** All complete, disjoint objects of a text. */
  function Objects(content: string): seq<string> {
    Collect(content, Lengths(content), 0)
  }

  // ---- Laws of the scanner ----

  lemma {:induction false} ScanLength(m: Mode, text: string)
    ensures Scan(m, text).Closed? ==> 0 < Scan(m, text).length <= |text|
    decreases |text|
  {
    if text != "" { ScanLength(Step(m, text[0]), text[1..]); }
  }

  /** Scanning in two parts. */
  lemma {:induction false} ScanAppend(m: Mode, a: string, b: string)
    ensures Scan(m, a + b) ==
            match Scan(m, a)
            case Open(next) => Later(|a|, Scan(next, b))
            case other => other
    decreases |a|
  {
    if a == "" {
      assert a + b == b;
    } else {
      assert (a + b)[0] == a[0] && (a + b)[1..] == a[1..] + b;
      ScanAppend(Step(m, a[0]), a[1..], b);
    }
  }

  // ---- Printed JSON ----

  /** One character of a string literal: itself, or a backslash and a character
      (the hexadecimal digits of a \u escape are plain characters). */
  datatype Glyph = Plain(c: char) | Escape(c: char)

  /** A concrete syntax tree; `gap` fields are white space, `text` is a number or a literal name. */
  datatype Value =
    | Atom(text: string)
    | Literal(glyphs: seq<Glyph>)
    | Array(gap: string, items: Items)
    | Object(gap: string, members: Members)

  datatype Items = NoItems | Item(value: Value, gap: string, before: string, rest: Items)

  datatype Members =
    | NoMembers
    | Member(key: seq<Glyph>, gap1: string, gap2: string, value: Value, gap: string, before: string, rest: Members)

  function PrintGlyphs(glyphs: seq<Glyph>): string {
    if glyphs == [] then ""
    else (match glyphs[0] case Plain(c) => [c] case Escape(c) => ['\\', c]) + PrintGlyphs(glyphs[1..])
  }

  function Quote(glyphs: seq<Glyph>): string {
    "\"" + PrintGlyphs(glyphs) + "\""
  }

  function Print(v: Value): string {
    match v
    case Atom(text) => text
    case Literal(glyphs) => Quote(glyphs)
    case Array(gap, items) => "[" + (gap + (PrintItems(items) + "]"))
    case Object(gap, members) => "{" + ((gap + PrintMembers(members)) + "}")
  }

  function PrintItems(items: Items): string {
    match items
    case NoItems => ""
    case Item(value, gap, before, rest) =>
      Print(value) + (gap + ((if rest.NoItems? then "" else "," + before) + PrintItems(rest)))
  }

  function PrintMembers(members: Members): string {
    match members
    case NoMembers => ""
    case Member(key, gap1, gap2, value, gap, before, rest) =>
      Quote(key)
          + ((gap1 + ":" + gap2)
          + (Print(value) + (gap + ((if rest.NoMembers? then "" else "," + before) + PrintMembers(rest)))))
  }

  /** Neither white space, numbers, literal names nor punctuation other than braces touch the scanner. */
  predicate Neutral(text: string) {
    forall i :: 0 <= i < |text| ==> text[i] != '"' && text[i] != '{' && text[i] != '}'
  }

  predicate GlyphsOk(glyphs: seq<Glyph>) {
    forall i :: 0 <= i < |glyphs| ==> glyphs[i].Plain? ==> glyphs[i].c != '"' && glyphs[i].c != '\\'
  }

  predicate ValueOk(v: Value) {
    match v
    case Atom(text) => Neutral(text)
    case Literal(glyphs) => GlyphsOk(glyphs)
    case Array(gap, items) => Neutral(gap) && ItemsOk(items)
    case Object(gap, members) => Neutral(gap) && MembersOk(members)
  }

  predicate ItemsOk(items: Items) {
    match items
    case NoItems => true
    case Item(value, gap, before, rest) => ValueOk(value) && Neutral(gap) && Neutral(before) && ItemsOk(rest)
  }

  predicate MembersOk(members: Members) {
    match members
    case NoMembers => true
    case Member(key, gap1, gap2, value, gap, before, rest) =>
      GlyphsOk(key) && Neutral(gap1) && Neutral(gap2) && ValueOk(value) && Neutral(gap) && Neutral(before)
          && MembersOk(rest)
  }

  /** A mode outside of strings, inside some object. */
  predicate Inside(m: Mode) {
    m.depth > 0 && !m.inString && !m.escaped
  }

  lemma {:induction false} ScanNeutral(m: Mode, text: string)
    requires Inside(m) && Neutral(text)
    ensures Scan(m, text) == Open(m)
  {
    if text != "" {
      assert Neutral(text[1..]) by { assert forall i :: 0 <= i < |text[1..]| ==> text[1..][i] == text[i + 1]; }
      ScanNeutral(m, text[1..]);
    }
  }

  lemma {:induction false} ScanGlyphs(m: Mode, glyphs: seq<Glyph>)
    requires m.inString && !m.escaped && GlyphsOk(glyphs)
    ensures Scan(m, PrintGlyphs(glyphs)) == Open(m)
  {
    if glyphs != [] {
      var rest := PrintGlyphs(glyphs[1..]);
      ScanGlyphs(m, glyphs[1..]);
      match glyphs[0]
      case Plain(c) =>
        assert ([c] + rest)[1..] == rest;
      case Escape(c) =>
        var text := ['\\', c] + rest;
        assert text[1..] == [c] + rest && ([c] + rest)[1..] == rest;
    }
  }

  lemma {:induction false} ScanQuote(m: Mode, glyphs: seq<Glyph>)
    requires Inside(m) && GlyphsOk(glyphs)
    ensures Scan(m, Quote(glyphs)) == Open(m)
  {
    var inner := m.(inString := true);
    var body := PrintGlyphs(glyphs);
    ScanGlyphs(inner, glyphs);
    ScanAppend(inner, body, "\"");
    assert Scan(inner, "\"") == Open(m) by { assert "\""[1..] == ""; }
    assert Quote(glyphs)[1..] == body + "\"";
  }

  /** Two texts that leave the mode alone do so one after the other. */
  lemma {:induction false} ScanBoth(m: Mode, a: string, b: string)
    requires Scan(m, a) == Open(m) && Scan(m, b) == Open(m)
    ensures Scan(m, a + b) == Open(m)
  {
    ScanAppend(m, a, b);
  }

  /** Braces around text that leaves the scanner alone: they close the object if it is the outermost one. */
  lemma ScanBraced(m: Mode, body: string)
    requires m.depth >= 0 && !m.inString && !m.escaped
    requires Scan(m.(depth := m.depth + 1), body) == Open(m.(depth := m.depth + 1))
    ensures Scan(m, "{" + (body + "}")) == if m.depth == 0 then Closed(|body| + 2) else Open(m)
  {
    var inner := m.(depth := m.depth + 1);
    ScanAppend(inner, body, "}");
    assert "}"[1..] == "";
    assert ("{" + (body + "}"))[1..] == body + "}";
  }

  /** A complete value inside an object leaves the scanner where it was. */
  lemma {:induction false} ScanValue(m: Mode, v: Value)
    requires Inside(m) && ValueOk(v)
    ensures Scan(m, Print(v)) == Open(m)
    decreases v
  {
    match v
    case Atom(text) => ScanNeutral(m, text);
    case Literal(glyphs) => ScanQuote(m, glyphs);
    case Array(gap, items) =>
      ScanItems(m, items);
      ScanNeutral(m, gap);
      ScanNeutral(m, "]");
      ScanNeutral(m, "[");
      ScanBoth(m, PrintItems(items), "]");
      ScanBoth(m, gap, PrintItems(items) + "]");
      ScanBoth(m, "[", gap + (PrintItems(items) + "]"));
    case Object(gap, members) =>
      var inner := m.(depth := m.depth + 1);
      ScanMembers(inner, members);
      ScanNeutral(inner, gap);
      ScanBoth(inner, gap, PrintMembers(members));
      ScanBraced(m, gap + PrintMembers(members));
  }

  lemma {:induction false} ScanItems(m: Mode, items: Items)
    requires Inside(m) && ItemsOk(items)
    ensures Scan(m, PrintItems(items)) == Open(m)
    decreases items
  {
    match items
    case NoItems =>
    case Item(value, gap, before, rest) =>
      var comma := if rest.NoItems? then "" else "," + before;
      ScanValue(m, value);
      ScanNeutral(m, gap);
      ScanNeutral(m, comma);
      ScanItems(m, rest);
      ScanBoth(m, comma, PrintItems(rest));
      ScanBoth(m, gap, comma + PrintItems(rest));
      ScanBoth(m, Print(value), gap + (comma + PrintItems(rest)));
  }

  lemma {:induction false} ScanMembers(m: Mode, members: Members)
    requires Inside(m) && MembersOk(members)
    ensures Scan(m, PrintMembers(members)) == Open(m)
    decreases members
  {
    match members
    case NoMembers =>
    case Member(key, gap1, gap2, value, gap, before, rest) =>
      var comma := if rest.NoMembers? then "" else "," + before;
      ScanQuote(m, key);
      ScanNeutral(m, gap1 + ":" + gap2);
      ScanValue(m, value);
      ScanNeutral(m, gap);
      ScanNeutral(m, comma);
      ScanMembers(m, rest);
      ScanBoth(m, comma, PrintMembers(rest));
      ScanBoth(m, gap, comma + PrintMembers(rest));
      ScanBoth(m, Print(value), gap + (comma + PrintMembers(rest)));
      var tail := Print(value) + (gap + (comma + PrintMembers(rest)));
      ScanBoth(m, gap1 + ":" + gap2, tail);
      ScanBoth(m, Quote(key), (gap1 + ":" + gap2) + tail);
  }

  lemma {:induction false} ScanObject(v: Value)
    requires v.Object? && ValueOk(v)
    ensures Scan(START, Print(v)) == Closed(|Print(v)|)
  {
    var inner := Mode(1, false, false);
    ScanMembers(inner, v.members);
    ScanNeutral(inner, v.gap);
    ScanBoth(inner, v.gap, PrintMembers(v.members));
    ScanBraced(START, v.gap + PrintMembers(v.members));
  }

  // ---- Main results ----

  /** The scanner undoes the printer, whatever follows. */
  lemma {:induction false} BalancedPrinted(v: Value, tail: string)
    requires v.Object? && ValueOk(v)
    ensures Balanced(Print(v) + tail) == Print(v)
  {
    ScanObject(v);
    ScanAppend(START, Print(v), tail);
    assert (Print(v) + tail)[..|Print(v)|] == Print(v);
  }

  /** A printed object that was cut off is never taken for a complete one. */
  lemma {:induction false} TruncatedIsUnbalanced(v: Value, n: nat)
    requires v.Object? && ValueOk(v) && n < |Print(v)|
    ensures Balanced(Print(v)[..n]) == ""
  {
    ScanObject(v);
    ScanAppend(START, Print(v)[..n], Print(v)[n..]);
    assert Print(v)[..n] + Print(v)[n..] == Print(v);
    ScanLength(START, Print(v)[..n]);
  }

  predicate BraceFree(text: string) {
    '{' !in text
  }

  predicate BraceFreeBetween(content: string, from: nat, to: nat) {
    to <= |content| && forall k :: from <= k < to ==> content[k] != '{'
  }

  lemma {:induction false} LengthAt(content: string, i: nat)
    requires i < |content|
    ensures Lengths(content)[i] == |Balanced(content[i..])|
  {
    if i == 0 {
      assert content[0..] == content;
    } else {
      LengthAt(content[1..], i - 1);
      assert content[1..][i - 1..] == content[i..];
    }
  }

  lemma {:induction false} CollectSkip(content: string, lens: seq<nat>, from: nat, to: nat)
    requires from <= to <= |content| == |lens| && forall k :: from <= k < to ==> lens[k] == 0
    ensures Collect(content, lens, from) == Collect(content, lens, to)
    decreases |lens| - from
  {
    if from < to {
      CollectSkip(content, lens, from + 1, to);
    }
  }

  /** Only the text ahead matters. */
  lemma {:induction false} CollectShift(prefix: string, text: string, longer: seq<nat>, lens: seq<nat>, i: nat)
    requires i <= |text| == |lens| && |longer| == |prefix| + |text| && longer[|prefix|..] == lens
    ensures Collect(prefix + text, longer, |prefix| + i) == Collect(text, lens, i)
    decreases |lens| - i
  {
    var p := |prefix|;
    if i < |lens| {
      assert longer[p + i] == longer[p..][i] == lens[i];
      if HitAt(lens, i) {
        CollectShift(prefix, text, longer, lens, i + lens[i]);
        SliceAhead(prefix, text, i, i + lens[i]);
      } else {
        CollectShift(prefix, text, longer, lens, i + 1);
      }
    }
  }

  lemma SliceAhead(prefix: string, text: string, i: nat, j: nat)
    requires i <= j <= |text|
    ensures (prefix + text)[|prefix| + i..|prefix| + j] == text[i..j]
  {
  }

  lemma {:induction false} LengthsAhead(prefix: string, text: string)
    ensures Lengths(prefix + text)[|prefix|..] == Lengths(text)
  {
    if prefix == "" {
      assert prefix + text == text;
    } else {
      LengthsAhead(prefix[1..], text);
      assert (prefix + text)[1..] == prefix[1..] + text;
    }
  }

  lemma {:induction false} LengthsOfNoise(content: string, from: nat, to: nat)
    requires BraceFreeBetween(content, from, to)
    ensures forall k :: from <= k < to ==> Lengths(content)[k] == 0
  {
    forall k | from <= k < to ensures Lengths(content)[k] == 0 {
      LengthAt(content, k);
      assert content[k..][0] == content[k];
    }
  }

  /** A complete object in front of a text. */
  lemma ObjectsStep(text: string, rest: string)
    requires text != "" && Balanced(text + rest) == text
    ensures Objects(text + rest) == [text] + Objects(rest)
  {
    var all := text + rest;
    assert all[0..] == all;
    LengthAt(all, 0);
    LengthsAhead(text, rest);
    CollectShift(text, rest, Lengths(all), Lengths(rest), 0);
    assert all[0..|text|] == text;
  }

  /** Brace-free prose in front of a text. */
  lemma ObjectsNoise(noise: string, text: string)
    requires BraceFree(noise)
    ensures Objects(noise + text) == Objects(text)
  {
    var all := noise + text;
    LengthsOfNoise(all, 0, |noise|);
    CollectSkip(all, Lengths(all), 0, |noise|);
    LengthsAhead(noise, text);
    CollectShift(noise, text, Lengths(all), Lengths(text), 0);
  }

  /** Printed objects embedded in prose. */
  function Weave(noises: seq<string>, values: seq<Value>, last: string): string
    requires |noises| == |values|
    decreases |values|
  {
    if values == [] then last
    else noises[0] + (Print(values[0]) + Weave(noises[1..], values[1..], last))
  }

  /** Objects, each with brace-free prose in front of it. */
  predicate Embedded(noises: seq<string>, values: seq<Value>) {
    && |noises| == |values|
    && (forall i :: 0 <= i < |noises| ==> BraceFree(noises[i]))
    && (forall i :: 0 <= i < |values| ==> values[i].Object? && ValueOk(values[i]))
  }

  function Printed(values: seq<Value>): seq<string>
    decreases |values|
  {
    if values == [] then [] else [Print(values[0])] + Printed(values[1..])
  }

  /** Every object embedded in brace-free prose is found, whole, in order, and nothing else is. */
  lemma {:induction false} ObjectsWoven(noises: seq<string>, values: seq<Value>, last: string)
    requires Embedded(noises, values) && BraceFree(last)
    ensures Objects(Weave(noises, values, last)) == Printed(values)
    decreases |values|
  {
    if values == [] {
      ObjectsNoise(last, "");
      assert last + "" == last;
    } else {
      var rest := Weave(noises[1..], values[1..], last);
      ObjectsWoven(noises[1..], values[1..], last);
      BalancedPrinted(values[0], rest);
      ObjectsStep(Print(values[0]), rest);
      ObjectsNoise(noises[0], Print(values[0]) + rest);
    }
  }

  /** Where the objects lie: half-open intervals of positions. */
  function Spans(lens: seq<nat>, offset: nat): seq<(nat, nat)>
    requires offset <= |lens|
    decreases |lens| - offset
  {
    if offset == |lens| then []
    else if HitAt(lens, offset) then [(offset, offset + lens[offset])] + Spans(lens, offset + lens[offset])
    else Spans(lens, offset + 1)
  }

  ghost predicate OrderedSpans(spans: seq<(nat, nat)>, low: nat, high: nat) {
    && (forall i :: 0 <= i < |spans| ==> low <= spans[i].0 < spans[i].1 <= high)
    && (forall i, j :: 0 <= i < j < |spans| ==> spans[i].1 <= spans[j].0)
  }

  lemma {:induction false} CollectedSpans(content: string, lens: seq<nat>, offset: nat)
    requires offset <= |content| == |lens|
    ensures var spans := Spans(lens, offset);
            && OrderedSpans(spans, offset, |content|)
            && |Collect(content, lens, offset)| == |spans|
            && forall i :: 0 <= i < |spans| ==> Collect(content, lens, offset)[i] == content[spans[i].0..spans[i].1]
    decreases |lens| - offset
  {
    if offset < |lens| {
      CollectedSpans(content, lens, offset + (if HitAt(lens, offset) then lens[offset] else 1));
    }
  }

  /** For every text whatsoever the results are disjoint pieces of it, in order. */
  lemma {:induction false} ObjectsAreSpans(content: string)
    ensures var spans := Spans(Lengths(content), 0);
            && OrderedSpans(spans, 0, |content|)
            && |Objects(content)| == |spans|
            && forall i :: 0 <= i < |spans| ==> Objects(content)[i] == content[spans[i].0..spans[i].1]
  {
    CollectedSpans(content, Lengths(content), 0);
  }

  // ---- Cut-off instructions ----

  predicate IsGap(c: char) {
    c == ' ' || c == '\t' || c == '\n' || c == '\r' || c == '\U{C}'
  }

  function SkipGap(text: string): string {
    if text != "" && IsGap(text[0]) then SkipGap(text[1..]) else text
  }

  function LowerAscii(text: string): string {
    if text == "" then ""
    else
      [if 'A' <= text[0] <= 'Z' then "abcdefghijklmnopqrstuvwxyz"[(text[0] - 'A') as int] else text[0]]
      + LowerAscii(text[1..])
  }

  const DIRECTIVE_KEYS: seq<string> := ["type", "tool", "tool_name", "action"]

  /** `"key"\s*:\s*"[^"]*"` at the start of the text */
  predicate DirectiveField(text: string, key: string) {
    var n := |key| + 2;
    && |text| >= n
    && text[0] == '"' && LowerAscii(text[1..n - 1]) == key && text[n - 1] == '"'
    && var colon := SkipGap(text[n..]);
    && colon != "" && colon[0] == ':'
    && var value := SkipGap(colon[1..]);
    && value != "" && value[0] == '"' && '"' in value[1..]
  }

  /** toolInstructionPrefixPattern */
  predicate LooksLikeInstruction(text: string) {
    text != "" && text[0] == '{'
    && exists i :: 0 <= i < |DIRECTIVE_KEYS| && DirectiveField(SkipGap(text[1..]), DIRECTIVE_KEYS[i])
  }

  function Suspicions(content: string): (flags: seq<bool>)
    ensures |flags| == |content|
  {
    if content == "" then [] else [LooksLikeInstruction(content)] + Suspicions(content[1..])
  }

  lemma {:induction false} SuspicionAt(content: string, i: nat)
    requires i < |content|
    ensures Suspicions(content)[i] == LooksLikeInstruction(content[i..])
  {
    if i == 0 {
      assert content[0..] == content;
    } else {
      SuspicionAt(content[1..], i - 1);
      assert content[1..][i - 1..] == content[i..];
    }
  }

  /** Whether some miss of the search from a position on is suspicious. */
  predicate Missed(lens: seq<nat>, flags: seq<bool>, offset: nat)
    requires offset <= |lens| == |flags|
    decreases |lens| - offset
  {
    if offset == |lens| then false
    else if HitAt(lens, offset) then Missed(lens, flags, offset + lens[offset])
    else flags[offset] || Missed(lens, flags, offset + 1)
  }

  predicate Unterminated(content: string) {
    Missed(Lengths(content), Suspicions(content), 0)
  }

  lemma {:induction false} MissedSkip(lens: seq<nat>, flags: seq<bool>, from: nat, to: nat)
    requires from <= to <= |lens| == |flags|
    requires forall k :: from <= k < to ==> lens[k] == 0 && !flags[k]
    ensures Missed(lens, flags, from) == Missed(lens, flags, to)
    decreases |lens| - from
  {
    if from < to {
      MissedSkip(lens, flags, from + 1, to);
    }
  }

  lemma {:induction false} MissedShift(longer: seq<nat>, flags': seq<bool>, lens: seq<nat>, flags: seq<bool>, i: nat)
    requires i <= |lens| == |flags| && |lens| <= |longer| == |flags'|
    requires longer[|longer| - |lens|..] == lens && flags'[|longer| - |lens|..] == flags
    ensures Missed(longer, flags', |longer| - |lens| + i) == Missed(lens, flags, i)
    decreases |lens| - i
  {
    var p := |longer| - |lens|;
    if i < |lens| {
      assert longer[p + i] == lens[i] && flags'[p + i] == flags[i];
      MissedShift(longer, flags', lens, flags, i + (if HitAt(lens, i) then lens[i] else 1));
    }
  }

  lemma {:induction false} SuspicionsAhead(prefix: string, text: string)
    ensures Suspicions(prefix + text)[|prefix|..] == Suspicions(text)
  {
    if prefix == "" {
      assert prefix + text == text;
    } else {
      SuspicionsAhead(prefix[1..], text);
      assert (prefix + text)[1..] == prefix[1..] + text;
    }
  }

  lemma {:induction false} SuspicionsOfNoise(content: string, from: nat, to: nat)
    requires BraceFreeBetween(content, from, to)
    ensures forall k :: from <= k < to ==> !Suspicions(content)[k]
  {
    forall k | from <= k < to ensures !Suspicions(content)[k] {
      SuspicionAt(content, k);
      assert content[k..][0] == content[k];
    }
  }

  /** Brace-free prose in front changes nothing. */
  lemma UnterminatedNoise(noise: string, text: string)
    requires BraceFree(noise)
    ensures Unterminated(noise + text) == Unterminated(text)
  {
    var all := noise + text;
    LengthsOfNoise(all, 0, |noise|);
    SuspicionsOfNoise(all, 0, |noise|);
    MissedSkip(Lengths(all), Suspicions(all), 0, |noise|);
    LengthsAhead(noise, text);
    SuspicionsAhead(noise, text);
    MissedShift(Lengths(all), Suspicions(all), Lengths(text), Suspicions(text), 0);
  }

  /** A complete object in front changes nothing. */
  lemma UnterminatedObject(text: string, rest: string)
    requires text != "" && Balanced(text + rest) == text
    ensures Unterminated(text + rest) == Unterminated(rest)
  {
    var all := text + rest;
    assert all[0..] == all;
    LengthAt(all, 0);
    LengthsAhead(text, rest);
    SuspicionsAhead(text, rest);
    MissedShift(Lengths(all), Suspicions(all), Lengths(rest), Suspicions(rest), 0);
  }

  /** Complete objects and brace-free prose in front of a text do not change whether it is cut off. */
  lemma {:induction false} UnterminatedWoven(noises: seq<string>, values: seq<Value>, last: string)
    requires Embedded(noises, values)
    ensures Unterminated(Weave(noises, values, last)) == Unterminated(last)
    decreases |values|
  {
    if values != [] {
      var rest := Weave(noises[1..], values[1..], last);
      UnterminatedWoven(noises[1..], values[1..], last);
      BalancedPrinted(values[0], rest);
      UnterminatedObject(Print(values[0]), rest);
      UnterminatedNoise(noises[0], Print(values[0]) + rest);
    }
  }

  /** Text made of complete objects and brace-free prose is never reported as cut off. */
  lemma {:induction false} CompleteIsTerminated(noises: seq<string>, values: seq<Value>, last: string)
    requires Embedded(noises, values) && BraceFree(last)
    ensures !Unterminated(Weave(noises, values, last))
  {
    UnterminatedWoven(noises, values, last);
    UnterminatedNoise(last, "");
    assert last + "" == last;
  }

  predicate CutOff(v: Value, cut: string) {
    v.Object? && ValueOk(v) && cut < Print(v) && LooksLikeInstruction(cut)
  }

  /** An instruction cut off anywhere after its directive field is reported when complete objects and brace-free prose
      precede it. */
  lemma {:induction false} CutOffIsReported(noises: seq<string>, values: seq<Value>, last: string, v: Value,
      cut: string)
    requires Embedded(noises, values) && BraceFree(last)
    requires CutOff(v, cut)
    ensures Unterminated(Weave(noises, values, last + cut))
  {
    UnterminatedWoven(noises, values, last + cut);
    UnterminatedNoise(last, cut);
    CutOffAlone(v, cut);
  }

  lemma CutOffAlone(v: Value, cut: string)
    requires CutOff(v, cut)
    ensures Unterminated(cut)
  {
    assert cut == Print(v)[..|cut|];
    TruncatedIsUnbalanced(v, |cut|);
    assert cut[0..] == cut;
  }

  // ---- The loops of the source ----

  method BalancedJSONObject(content: string) returns (found: string)
    ensures found == Balanced(content)
  {
    if content == "" || content[0] != '{' {
      return "";
    }
    ScanLength(START, content);
    var depth, inString, escaped := 0, false, false;
    var index := 0;
    assert content[0..] == content;
    while index < |content|
      invariant 0 <= index <= |content|
      invariant escaped ==> inString
      invariant Scan(START, content) == Later(index, Scan(Mode(depth, inString, escaped), content[index..]))
    {
      var character := content[index];
      assert content[index..][1..] == content[index + 1..];
      if inString {
        if escaped {
          escaped := false;
        } else if character == '\\' {
          escaped := true;
        } else if character == '"' {
          inString := false;
        }
      } else if character == '"' {
        inString := true;
      } else if character == '{' {
        depth := depth + 1;
      } else if character == '}' {
        depth := depth - 1;
        if depth == 0 {
          return content[..index + 1];
        }
        if depth < 0 {
          return "";
        }
      }
      index := index + 1;
    }
    found := "";
  }

  /** strings.Index(content[offset:], "{") */
  method NextBrace(content: string, offset: nat) returns (start: int)
    requires offset <= |content|
    ensures start < 0 ==> BraceFreeBetween(content, offset, |content|)
    ensures start >= 0 ==>
        offset <= start < |content| && content[start] == '{' && BraceFreeBetween(content, offset, start)
  {
    start := offset;
    while start < |content|
      invariant offset <= start <= |content|
      invariant BraceFreeBetween(content, offset, start)
    {
      if content[start] == '{' {
        return;
      }
      start := start + 1;
    }
    start := -1;
  }

  lemma Associate(a: seq<string>, b: seq<string>, c: seq<string>)
    ensures (a + b) + c == a + (b + c)
  {
  }

  /** What is left to find behind an offset completes the result. */
  predicate Completes(content: string, objects: seq<string>, offset: nat)
    requires offset <= |content|
  {
    Objects(content) == objects + Collect(content, Lengths(content), offset)
  }

  /** One turn of the search: `start` is the next brace, n the length of the object there or 0. */
  lemma {:induction false} CollectStep(content: string, lens: seq<nat>, offset: nat, start: nat, next: nat,
      piece: string)
    requires lens == Lengths(content) && offset <= start < next <= |content| && BraceFreeBetween(content, offset, start)
    requires if lens[start] == 0 then next == start + 1
        else next == start + lens[start] && piece == content[start..next]
    ensures Collect(content, lens, offset) ==
            if lens[start] == 0 then Collect(content, lens, next) else [piece] + Collect(content, lens, next)
  {
    LengthsOfNoise(content, offset, start);
    CollectSkip(content, lens, offset, start);
  }

  lemma {:induction false} CollectTurn(content: string, objects: seq<string>, offset: nat, start: nat, next: nat,
      piece: string)
    requires offset <= start < next <= |content| && BraceFreeBetween(content, offset, start)
    requires var n := Lengths(content)[start];
        if n == 0 then next == start + 1 else next == start + n && piece == content[start..next]
    requires Completes(content, objects, offset)
    ensures Completes(content, if Lengths(content)[start] == 0 then objects else objects + [piece], next)
  {
    var lens := Lengths(content);
    CollectStep(content, lens, offset, start, next, piece);
    Associate(objects, [piece], Collect(content, lens, next));
  }

  lemma CollectEnd(content: string, objects: seq<string>, offset: nat)
    requires offset <= |content| && BraceFreeBetween(content, offset, |content|)
    requires Completes(content, objects, offset)
    ensures objects == Objects(content)
  {
    LengthsOfNoise(content, offset, |content|);
    CollectSkip(content, Lengths(content), offset, |content|);
    assert objects + [] == objects;
  }

  /** What is missed behind an offset decides. */
  predicate Decides(content: string, offset: nat)
    requires offset <= |content|
  {
    Unterminated(content) == Missed(Lengths(content), Suspicions(content), offset)
  }

  lemma {:induction false} MissedStep(lens: seq<nat>, flags: seq<bool>, offset: nat, start: nat, next: nat)
    requires offset <= start < next <= |lens| == |flags| && next == if lens[start] == 0 then start + 1
        else start + lens[start]
    requires forall k :: offset <= k < start ==> lens[k] == 0 && !flags[k]
    ensures Missed(lens, flags, offset) == ((lens[start] == 0 && flags[start]) || Missed(lens, flags, next))
  {
    MissedSkip(lens, flags, offset, start);
  }

  lemma {:induction false} MissedTurn(content: string, offset: nat, start: nat, next: nat)
    requires offset <= start < next <= |content| && BraceFreeBetween(content, offset, start)
    requires var n := Lengths(content)[start]; next == if n == 0 then start + 1 else start + n
    requires Decides(content, offset)
    ensures if Lengths(content)[start] == 0 && Suspicions(content)[start] then Unterminated(content)
        else Decides(content, next)
  {
    LengthsOfNoise(content, offset, start);
    SuspicionsOfNoise(content, offset, start);
    MissedStep(Lengths(content), Suspicions(content), offset, start, next);
  }

  lemma MissedEnd(content: string, offset: nat)
    requires offset <= |content| && BraceFreeBetween(content, offset, |content|)
    requires Decides(content, offset)
    ensures !Unterminated(content)
  {
    LengthsOfNoise(content, offset, |content|);
    SuspicionsOfNoise(content, offset, |content|);
    MissedSkip(Lengths(content), Suspicions(content), offset, |content|);
  }

  /** What the search does at a brace. */
  method ObjectAt(content: string, start: nat) returns (n: nat)
    requires start < |content|
    ensures n == Lengths(content)[start] <= |content| - start
  {
    var found := BalancedJSONObject(content[start..]);
    LengthAt(content, start);
    n := |found|;
  }

  method InstructionAt(content: string, start: nat) returns (suspicious: bool)
    requires start < |content|
    ensures suspicious == Suspicions(content)[start]
  {
    suspicious := LooksLikeInstruction(content[start..]);
    SuspicionAt(content, start);
  }

  method JsonObjects(content: string) returns (objects: seq<string>)
    ensures objects == Objects(content)
  {
    objects := [];
    var offset := 0;
    assert Completes(content, objects, offset);
    while offset < |content|
      invariant 0 <= offset <= |content|
      invariant Completes(content, objects, offset)
      decreases |content| - offset
    {
      var start := NextBrace(content, offset);
      if start < 0 {
        CollectEnd(content, objects, offset);
        return;
      }
      var n := ObjectAt(content, start);
      if n > 0 {
        var found := content[start..start + n];
        CollectTurn(content, objects, offset, start, start + n, found);
        objects := objects + [found];
        offset := start + n;
      } else {
        CollectTurn(content, objects, offset, start, start + 1, "");
        offset := start + 1;
      }
    }
    CollectEnd(content, objects, offset);
  }

  method UnterminatedToolInstruction(content: string) returns (incomplete: bool)
    ensures incomplete == Unterminated(content)
  {
    var offset := 0;
    while offset < |content|
      invariant 0 <= offset <= |content|
      invariant Decides(content, offset)
      decreases |content| - offset
    {
      var start := NextBrace(content, offset);
      if start < 0 {
        MissedEnd(content, offset);
        return false;
      }
      var n := ObjectAt(content, start);
      if n > 0 {
        MissedTurn(content, offset, start, start + n);
        offset := start + n;
      } else {
        MissedTurn(content, offset, start, start + 1);
        var suspicious := InstructionAt(content, start);
        if suspicious {
          return true;
        }
        offset := start + 1;
      }
    }
    MissedEnd(content, offset);
    incomplete := false;
  }
}
