/** What a text in front of an object does (src/harness/tool_protocol.go). */
module Surroundings {
  import opened JsonScanner

  // The search goes from brace to brace and jumps over every object it finds. It comes by a position unless it jumps
  // over it, which unbalanced quotes and braces in front can bring about.

  function NextOf(lens: seq<nat>, i: nat): nat
    requires i < |lens|
  {
    if HitAt(lens, i) then i + lens[i] else i + 1
  }

  /** The first position from a bound on that the search comes by. */
  function Landing(lens: seq<nat>, offset: nat, bound: nat): (n: nat)
    requires offset <= |lens| && bound <= |lens|
    ensures bound <= n <= |lens| && offset <= n
    decreases |lens| - offset
  {
    if bound <= offset then offset else Landing(lens, NextOf(lens, offset), bound)
  }

  predicate MissedBefore(lens: seq<nat>, flags: seq<bool>, offset: nat, bound: nat)
    requires offset <= |lens| == |flags| && bound <= |lens|
    decreases |lens| - offset
  {
    if bound <= offset then false
    else (!HitAt(lens, offset) && flags[offset]) || MissedBefore(lens, flags, NextOf(lens, offset), bound)
  }

  function CollectBefore(content: string, lens: seq<nat>, offset: nat, bound: nat): seq<string>
    requires offset <= |content| == |lens| && bound <= |lens|
    decreases |lens| - offset
  {
    if bound <= offset then []
    else
      var rest := CollectBefore(content, lens, NextOf(lens, offset), bound);
      if HitAt(lens, offset) then [content[offset..offset + lens[offset]]] + rest else rest
  }

  lemma {:induction false} MissedSplit(lens: seq<nat>, flags: seq<bool>, offset: nat, bound: nat)
    requires offset <= |lens| == |flags| && bound <= |lens|
    ensures Missed(lens, flags, offset) <==>
              MissedBefore(lens, flags, offset, bound) || Missed(lens, flags, Landing(lens, offset, bound))
    decreases |lens| - offset
  {
    if offset < bound { MissedSplit(lens, flags, NextOf(lens, offset), bound); }
  }

  lemma {:induction false} CollectSplit(content: string, lens: seq<nat>, offset: nat, bound: nat)
    requires offset <= |content| == |lens| && bound <= |lens|
    ensures Collect(content, lens, offset)
            == CollectBefore(content, lens, offset, bound) + Collect(content, lens, Landing(lens, offset, bound))
    decreases |lens| - offset
  {
    var behind := Collect(content, lens, Landing(lens, offset, bound));
    if bound <= offset {
      assert [] + behind == behind;
    } else {
      CollectSplit(content, lens, NextOf(lens, offset), bound);
      if HitAt(lens, offset) {
        var rest := CollectBefore(content, lens, NextOf(lens, offset), bound);
        Associate([content[offset..offset + lens[offset]]], rest, behind);
      }
    }
  }

  /** An object that the search finds reaches over the position. */
  predicate Swallowed(content: string, at: nat) {
    exists span :: span in Spans(Lengths(content), 0) && span.0 < at < span.1
  }

  lemma {:induction false} SpansFrom(lens: seq<nat>, offset: nat)
    requires offset <= |lens|
    ensures forall span :: span in Spans(lens, offset) ==> offset <= span.0 < span.1
    decreases |lens| - offset
  {
    if offset < |lens| { SpansFrom(lens, NextOf(lens, offset)); }
  }

  lemma {:induction false} LandsExactly(lens: seq<nat>, offset: nat, at: nat)
    requires offset <= at <= |lens|
    ensures Landing(lens, offset, at) == at <==> forall span :: span in Spans(lens, offset) ==> !(span.0 < at < span.1)
    decreases |lens| - offset
  {
    SpansFrom(lens, offset);
    if offset < at {
      var next := NextOf(lens, offset);
      SpansFrom(lens, next);
      if HitAt(lens, offset) {
        var first := (offset, next);
        assert Spans(lens, offset) == [first] + Spans(lens, next);
        assert first in Spans(lens, offset);
      }
      if next <= at { LandsExactly(lens, next, at); }
    }
  }

  lemma {:induction false} FindsExactly(lens: seq<nat>, offset: nat, at: nat)
    requires offset <= at < |lens| && HitAt(lens, at)
    ensures (at, at + lens[at]) in Spans(lens, offset) <==> Landing(lens, offset, at) == at
    decreases |lens| - offset
  {
    SpansFrom(lens, offset);
    if offset < at {
      var next := NextOf(lens, offset);
      SpansFrom(lens, next);
      if next <= at { FindsExactly(lens, next, at); }
    }
  }

  /** Where the search goes on behind a text in front. */
  function Onward(front: string, text: string): (k: nat)
    ensures k <= |text|
  {
    Landing(Lengths(front + text), 0, |front|) - |front|
  }

  lemma LandsOnText(front: string, text: string)
    ensures Onward(front, text) == 0 <==> !Swallowed(front + text, |front|)
  {
    LandsExactly(Lengths(front + text), 0, |front|);
  }

  lemma CollectOn(front: string, text: string, longer: seq<nat>, lens: seq<nat>, k: nat)
    requires |text| == |lens| && |longer| == |front| + |text| && longer[|front|..] == lens
    requires Landing(longer, 0, |front|) == |front| + k
    ensures Collect(front + text, longer, 0)
            == CollectBefore(front + text, longer, 0, |front|) + Collect(text, lens, k)
  {
    CollectSplit(front + text, longer, 0, |front|);
    CollectShift(front, text, longer, lens, k);
  }

  lemma CollectsOn(front: string, text: string, all: string)
    requires all == front + text
    ensures Objects(all)
            == CollectBefore(all, Lengths(all), 0, |front|) + Collect(text, Lengths(text), Onward(front, text))
  {
    LengthsAhead(front, text);
    CollectOn(front, text, Lengths(all), Lengths(text), Onward(front, text));
  }

  lemma {:induction false} MissedOn(longer: seq<nat>, flags': seq<bool>, lens: seq<nat>, flags: seq<bool>, n: nat,
      k: nat)
    requires |lens| == |flags| && |longer| == |flags'| == n + |lens| && longer[n..] == lens && flags'[n..] == flags
    requires Landing(longer, 0, n) == n + k
    ensures Missed(longer, flags', 0) <==> MissedBefore(longer, flags', 0, n) || Missed(lens, flags, k)
  {
    MissedSplit(longer, flags', 0, n);
    MissedShift(longer, flags', lens, flags, k);
  }

  lemma MissesOn(front: string, text: string, all: string)
    requires all == front + text
    ensures Unterminated(all) <==>
              || MissedBefore(Lengths(all), Suspicions(all), 0, |front|)
              || Missed(Lengths(text), Suspicions(text), Onward(front, text))
  {
    LengthsAhead(front, text);
    SuspicionsAhead(front, text);
    MissedOn(Lengths(all), Suspicions(all), Lengths(text), Suspicions(text), |front|, Onward(front, text));
  }

  /** For every text and everything in front of it: what the search does before it gets there, and what it does from the
      place where it then goes on, which is the start of the text unless something in front swallows that. */
  lemma SearchedOn(front: string, text: string, all: string)
    requires all == front + text
    ensures Onward(front, text) == 0 <==> !Swallowed(all, |front|)
    ensures Objects(all)
            == CollectBefore(all, Lengths(all), 0, |front|) + Collect(text, Lengths(text), Onward(front, text))
    ensures Unterminated(all) <==>
              || MissedBefore(Lengths(all), Suspicions(all), 0, |front|)
              || Missed(Lengths(text), Suspicions(text), Onward(front, text))
  {
    LandsOnText(front, text);
    CollectsOn(front, text, all);
    MissesOn(front, text, all);
  }

  /** An instruction that is cut off behind its directive field is reported exactly when something is missed in front of
      it, or nothing in front swallows its beginning, or something is missed behind what swallowed it. */
  lemma ReportedExactly(front: string, v: Value, cut: string, all: string)
    requires CutOff(v, cut) && all == front + cut
    ensures Unterminated(all) <==>
              || MissedBefore(Lengths(all), Suspicions(all), 0, |front|)
              || !Swallowed(all, |front|)
              || Missed(Lengths(cut), Suspicions(cut), Onward(front, cut))
  {
    SearchedOn(front, cut, all);
    CutOffAlone(v, cut);
  }

  lemma {:induction false} FindsText(front: string, text: string, all: string, n: nat)
    requires all == front + text && text != "" && n == |Balanced(text)| && 0 < n
    ensures (|front|, |front| + n) in Spans(Lengths(all), 0) <==> !Swallowed(all, |front|)
  {
    var lens := Lengths(all);
    LengthsAhead(front, text);
    assert lens[|front|] == lens[|front|..][0];
    FindsAt(lens, |front|, n);
  }

  lemma {:induction false} FindsAt(lens: seq<nat>, at: nat, n: nat)
    requires at < |lens| && lens[at] == n && 0 < n <= |lens| - at
    ensures (at, at + n) in Spans(lens, 0) <==> !exists span :: span in Spans(lens, 0) && span.0 < at < span.1
  {
    FindsExactly(lens, 0, at);
    LandsExactly(lens, 0, at);
  }

  /** An object is found where it stands exactly when nothing in front swallows its beginning. */
  lemma {:induction false} FoundExactly(front: string, v: Value, rest: string, all: string)
    requires v.Object? && ValueOk(v) && all == front + (Print(v) + rest)
    ensures (|front|, |front| + |Print(v)|) in Spans(Lengths(all), 0) <==> !Swallowed(all, |front|)
  {
    BalancedPrinted(v, rest);
    FindsText(front, Print(v) + rest, all, |Print(v)|);
  }

  /** What follows such an object is then found as if it stood alone. */
  lemma FoundRest(front: string, v: Value, rest: string, all: string)
    requires v.Object? && ValueOk(v) && all == front + (Print(v) + rest) && !Swallowed(all, |front|)
    ensures Objects(all) == CollectBefore(all, Lengths(all), 0, |front|) + ([Print(v)] + Objects(rest))
  {
    BalancedPrinted(v, rest);
    ObjectsStep(Print(v), rest);
    LandsOnText(front, Print(v) + rest);
    CollectsOn(front, Print(v) + rest, all);
  }

  // ---- An opening that swallows what follows ----

  // A brace and a quote in front turn the inside of every string into its outside.

  const OPENING := "{\""

  /** An instruction whose value is a closing brace. */
  const INSTRUCTION := Object("", Member(KEY, "", "", Literal([Plain('}')]), "", "", NoMembers))

  const WHOLE := "{\"tool\":\"}\"}"
  const CUT := "{\"tool\":\"}\""
  const FOUND := "{\"{\"tool\":\"}"

  const KEY := [Plain('t'), Plain('o'), Plain('o'), Plain('l')]

  lemma KeyPrinted()
    ensures GlyphsOk(KEY) && Quote(KEY) == "\"tool\""
  {
    var o, l := [Plain('o'), Plain('o'), Plain('l')], [Plain('l')];
    assert KEY[1..] == o && o[1..] == [Plain('o'), Plain('l')] && o[1..][1..] == l;
    assert PrintGlyphs(l) == "l" && PrintGlyphs(o) == "ool" && PrintGlyphs(KEY) == "tool";
  }

  lemma ValuePrinted()
    ensures GlyphsOk([Plain('}')]) && Quote([Plain('}')]) == "\"}\""
  {
    assert PrintGlyphs([Plain('}')]) == "}";
  }

  lemma InstructionPrinted()
    ensures ValueOk(INSTRUCTION) && Print(INSTRUCTION) == WHOLE
  {
    KeyPrinted();
    ValuePrinted();
    var value := Literal([Plain('}')]);
    var members := Member(KEY, "", "", value, "", "", NoMembers);
    assert Print(value) == "\"}\"";
    assert PrintMembers(members) == "\"tool\"" + ("" + ":" + "" + (Print(value) + ("" + ("" + ""))));
    assert PrintMembers(members) == "\"tool\":\"}\"";
    assert INSTRUCTION == Object("", members);
  }

  lemma ToolIsLower()
    ensures LowerAscii("tool") == "tool"
  {
    assert "tool"[1..] == "ool" && "ool"[1..] == "ol" && "ol"[1..] == "l" && "l"[1..] == "";
  }

  lemma FieldBehindKey()
    ensures SkipGap(":\"}\"") == ":\"}\"" && SkipGap("\"}\"") == "\"}\"" && '"' in "\"}\""[1..]
  {
    assert "\"}\""[1..] == "}\"" && "}\""[1] == '"';
  }

  lemma CutLooksLikeInstruction()
    ensures LooksLikeInstruction(CUT)
  {
    var text := CUT[1..];
    ToolIsLower();
    FieldBehindKey();
    assert text == "\"tool\":\"}\"" && SkipGap(text) == text;
    assert text[1..5] == "tool" && text[6..] == ":\"}\"" && text[6..][1..] == "\"}\"";
    assert DirectiveField(text, DIRECTIVE_KEYS[1]);
  }

  lemma OpeningScanned()
    ensures Scan(START, "{\"{\"") == Open(Mode(1, false, false))
  {
    var a := "{\"{\"";
    assert a[1..] == "\"{\"" && a[1..][1..] == "{\"" && a[1..][1..][1..] == "\"" && a[1..][1..][1..][1..] == "";
  }

  lemma ColonScanned()
    ensures Scan(Mode(1, false, false), "\":\"") == Open(Mode(1, false, false))
  {
    var a := "\":\"";
    assert a[1..] == ":\"" && a[1..][1..] == "\"" && a[1..][1..][1..] == "";
  }

  lemma FoundParts(rest: string)
    ensures FOUND + rest == "{\"{\"" + ("tool" + ("\":\"" + ("}" + rest)))
    ensures (FOUND + rest)[0] == '{' && (FOUND + rest)[..|FOUND|] == FOUND && |FOUND| == 12
  {
    assert FOUND == "{\"{\"" + ("tool" + ("\":\"" + "}"));
  }

  lemma {:induction false} ScanThrough(m: Mode, a: string, n: Mode, b: string)
    requires Scan(m, a) == Open(n)
    ensures Scan(m, a + b) == Later(|a|, Scan(n, b))
  {
    ScanAppend(m, a, b);
  }

  lemma {:induction false} ClosingScanned(rest: string)
    ensures Scan(Mode(1, false, false), "}" + rest) == Closed(1)
  {
    assert ("}" + rest)[0] == '}';
  }

  lemma {:induction false} FoundScanned(rest: string)
    ensures Scan(START, "{\"{\"" + ("tool" + ("\":\"" + ("}" + rest)))) == Closed(12)
  {
    var inside, last := Mode(1, false, false), "}" + rest;
    var colon := "\":\"" + last;
    OpeningScanned();
    ScanNeutral(inside, "tool");
    ColonScanned();
    ClosingScanned(rest);
    ScanThrough(inside, "\":\"", inside, last);
    ScanThrough(inside, "tool", inside, colon);
    ScanThrough(START, "{\"{\"", inside, "tool" + colon);
  }

  /** The opening and the instruction together are taken for one object that ends inside the value. */
  lemma FoundIsBalanced(rest: string)
    ensures Balanced(FOUND + rest) == FOUND
  {
    FoundParts(rest);
    FoundScanned(rest);
  }

  lemma OpeningAlone(rest: string)
    requires BraceFree(rest) && rest != ""
    ensures Objects(FOUND + rest) == [FOUND] && !Unterminated(FOUND + rest) && Swallowed(FOUND + rest, |OPENING|)
  {
    var all := FOUND + rest;
    FoundIsBalanced(rest);
    ObjectsStep(FOUND, rest);
    ObjectsNoise(rest, "");
    UnterminatedObject(FOUND, rest);
    UnterminatedNoise(rest, "");
    assert rest + "" == rest && [FOUND] + [] == [FOUND];
    assert all[0..] == all;
    LengthAt(all, 0);
    assert HitAt(Lengths(all), 0) && NextOf(Lengths(all), 0) == |FOUND|;
    var first := (0, |FOUND|);
    assert Spans(Lengths(all), 0)[0] == first && first in Spans(Lengths(all), 0);
  }

  lemma CutIsCutOff()
    ensures CutOff(INSTRUCTION, CUT)
  {
    InstructionPrinted();
    CutLooksLikeInstruction();
    assert CUT + "}" == WHOLE;
  }

  lemma OpeningRuns()
    ensures OPENING + CUT == FOUND + "\"" && OPENING + WHOLE == FOUND + "\"}" && FOUND[2] != WHOLE[2]
  {
  }

  /** A cut-off instruction that is not reported. */
  lemma CutOffUnreported()
    ensures CutOff(INSTRUCTION, CUT) && !Unterminated(OPENING + CUT) && Swallowed(OPENING + CUT, |OPENING|)
  {
    CutIsCutOff();
    OpeningRuns();
    OpeningAlone("\"");
  }

  /** A complete instruction that is not found. */
  lemma CompleteNotFound()
    ensures ValueOk(INSTRUCTION) && Objects(OPENING + Print(INSTRUCTION)) == [FOUND] && Print(INSTRUCTION) != FOUND
  {
    InstructionPrinted();
    OpeningRuns();
    OpeningAlone("\"}");
  }
}
