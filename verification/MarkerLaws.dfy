/** What the filter takes for an instruction (src/harness/instruction_stream.go). */
module MarkerLaws {
  import opened Text
  import opened InstructionStream

  // ---- Characters ----

  lemma LetterAt(k: nat)
    requires k < 26
    ensures LOWER_LETTERS[k] == ('a' as int + k) as char
  {
    assert LOWER_LETTERS == "abcdefghijklmnopqrstuvwxyz";
    assert |LOWER_LETTERS| == 26;
  }

  /** The capital letters of the alphabet, the dotted I and the Kelvin sign are read as small letters. */
  predicate OtherCase(c: char, lower: char) {
    || ('A' <= c <= 'Z' && lower as int == c as int + 32)
    || (c == '\U{130}' && lower == 'i') || (c == '\U{212A}' && lower == 'k')
  }

  lemma Folded(c: char, lower: char)
    requires OtherCase(c, lower)
    ensures ToLower(c) == lower && ToLower(lower) == lower && !IsSpace(c) && !IsSpace(lower)
  {
    if 'A' <= c <= 'Z' { LetterAt(c as int - 'A' as int); }
  }

  /** The character is neither white space nor a letter with another case to be read as. */
  predicate Plain(c: char) {
    !IsSpace(c) && !('A' <= c <= 'Z') && c != '\U{130}' && c != '\U{212A}'
  }

  // ---- The markers inside an answer ----

  lemma {:induction false} SameMarkers(a: string, b: string)
    requires Compact(a) == Compact(b)
    ensures (StartsMarker(a) <==> StartsMarker(b)) && (MayBecomeMarker(a) <==> MayBecomeMarker(b))
  {
  }

  lemma {:induction false} CompactMiddle(a: string, c: string, b: string)
    ensures Compact(a + c + b) == Compact(a) + Compact(c) + Compact(b)
  {
    CompactAppend(a + c, b);
    CompactAppend(a, c);
  }

  lemma CompactOne(c: char)
    ensures Compact([c]) == if IsSpace(c) then "" else [ToLower(c)]
  {
    assert [c][1..] == "";
  }

  /** White space is no part of a marker, wherever it stands and however much there is of it. */
  lemma SpaceApart(a: string, c: char, b: string)
    requires IsSpace(c)
    ensures StartsMarker(a + [c] + b) <==> StartsMarker(a + b)
    ensures MayBecomeMarker(a + [c] + b) <==> MayBecomeMarker(a + b)
  {
    CompactMiddle(a, [c], b);
    CompactOne(c);
    CompactAppend(a, b);
    assert Compact(a) + "" == Compact(a);
    SameMarkers(a + [c] + b, a + b);
  }

  /** Nor does the case of a letter matter. */
  lemma CaseApart(a: string, c: char, lower: char, b: string)
    requires OtherCase(c, lower)
    ensures StartsMarker(a + [c] + b) <==> StartsMarker(a + [lower] + b)
    ensures MayBecomeMarker(a + [c] + b) <==> MayBecomeMarker(a + [lower] + b)
  {
    Folded(c, lower);
    CompactMiddle(a, [c], b);
    CompactMiddle(a, [lower], b);
    CompactOne(c);
    CompactOne(lower);
    SameMarkers(a + [c] + b, a + [lower] + b);
  }

  lemma {:induction false} CompactPlain(value: string)
    requires forall c :: c in value ==> Plain(c)
    ensures Compact(value) == value
  {
    if value != "" {
      assert Plain(value[0]);
      CompactPlain(value[1..]);
    }
  }

  lemma ThreeMarkers(i: nat)
    requires i < |MARKERS|
    ensures MARKERS[i] == "{\"type\":\"tool_use\"" || MARKERS[i] == "{\"type\":\"tool_call\""
        || MARKERS[i] == "{\"type\":\"tool\""
  {
  }

  /** A plain text starts with a marker if and only if one of these three is its beginning, and may become one if and
      only if it is the beginning of one of them. */
  lemma PlainMarkers(value: string)
    requires forall c :: c in value ==> Plain(c)
    ensures StartsMarker(value) <==>
        "{\"type\":\"tool_use\"" <= value || "{\"type\":\"tool_call\"" <= value || "{\"type\":\"tool\"" <= value
    ensures MayBecomeMarker(value) <==>
        value <= "{\"type\":\"tool_use\"" || value <= "{\"type\":\"tool_call\"" || value <= "{\"type\":\"tool\""
  {
    CompactPlain(value);
    assert |MARKERS| == 3 && MARKERS[0] == "{\"type\":\"tool_use\"" && MARKERS[1] == "{\"type\":\"tool_call\""
        && MARKERS[2] == "{\"type\":\"tool\"";
    if StartsMarker(value) {
      var i :| 0 <= i < |MARKERS| && MARKERS[i] <= Compact(value);
      ThreeMarkers(i);
    }
    if MayBecomeMarker(value) {
      var i :| 0 <= i < |MARKERS| && Compact(value) <= MARKERS[i];
      ThreeMarkers(i);
    }
  }

  // ---- The opening of an answer ----

  lemma {:induction false} SameOpening(a: string, b: string)
    requires Lower(TrimLeft(a)) == Lower(TrimLeft(b))
    ensures MayBeTool(a) <==> MayBeTool(b)
  {
  }

  /** White space in front of an answer says nothing about it. */
  lemma OpeningSpace(c: char, b: string)
    requires IsSpace(c)
    ensures MayBeTool([c] + b) <==> MayBeTool(b)
  {
    assert ([c] + b)[1..] == b;
  }

  lemma {:induction false} LowerMiddle(a: string, c: char, lower: char, b: string)
    requires OtherCase(c, lower)
    ensures Lower(a + [c] + b) == Lower(a + [lower] + b)
  {
    Folded(c, lower);
    LowerAppend(a + [c], b);
    LowerAppend(a, [c]);
    LowerAppend(a + [lower], b);
    LowerAppend(a, [lower]);
    assert [c][1..] == "" && [lower][1..] == "";
  }

  lemma {:induction false} TrimLeftMiddle(a: string, c: char, lower: char, b: string)
    requires OtherCase(c, lower)
    ensures Lower(TrimLeft(a + [c] + b)) == Lower(TrimLeft(a + [lower] + b))
  {
    Folded(c, lower);
    if a != "" && IsSpace(a[0]) {
      TrimLeftMiddle(a[1..], c, lower, b);
      assert (a + [c] + b)[1..] == a[1..] + [c] + b && (a + [lower] + b)[1..] == a[1..] + [lower] + b;
    } else {
      LowerMiddle(a, c, lower, b);
    }
  }

  /** Nor does its case. */
  lemma OpeningCase(a: string, c: char, lower: char, b: string)
    requires OtherCase(c, lower)
    ensures MayBeTool(a + [c] + b) <==> MayBeTool(a + [lower] + b)
  {
    TrimLeftMiddle(a, c, lower, b);
    SameOpening(a + [c] + b, a + [lower] + b);
  }

  lemma {:induction false} LowerFixed(value: string)
    requires forall c :: c in value ==> Plain(c) || IsSpace(c)
    ensures Lower(value) == value
  {
    if value != "" {
      assert value[0] in value;
      LowerFixed(value[1..]);
    }
  }

  predicate Opens(value: string, opener: string) {
    opener <= value || value <= opener
  }

  lemma EightOpeners(i: nat)
    requires i < |OPENERS|
    ensures OPENERS[i] in {"{", "```", "~~~", "<tool_call", "<tool_use", "[tool_call", "[tool_use", "to="}
  {
  }

  /** A text that begins with ink and has only small letters may be an instruction if and only if it begins with one of
      these, or is the beginning of one; and so may a blank text. */
  lemma PlainOpening(value: string)
    requires forall c :: c in value ==> Plain(c) || IsSpace(c)
    requires value == "" || !IsSpace(value[0])
    ensures MayBeTool(value) <==>
        || value == "" || Opens(value, "{") || Opens(value, "```") || Opens(value, "~~~")
        || Opens(value, "<tool_call") || Opens(value, "<tool_use") || Opens(value, "[tool_call")
        || Opens(value, "[tool_use") || Opens(value, "to=")
  {
    LowerFixed(value);
    assert |OPENERS| == 8 && OPENERS[0] == "{" && OPENERS[1] == "```" && OPENERS[2] == "~~~";
    assert OPENERS[3] == "<tool_call" && OPENERS[4] == "<tool_use" && OPENERS[5] == "[tool_call";
    assert OPENERS[6] == "[tool_use" && OPENERS[7] == "to=";
    if MayBeTool(value) && value != "" {
      var i :| 0 <= i < |OPENERS| && (OPENERS[i] <= value || value <= OPENERS[i]);
      EightOpeners(i);
    }
  }

  /** So an instruction is told by its shape: with blanks or capital letters between and in its parts. */
  lemma {:induction false} Spread(blank: string, value: string)
    requires Blank(blank)
    ensures StartsMarker(blank + value) <==> StartsMarker(value)
    ensures MayBeTool(blank + value) <==> MayBeTool(value)
    decreases |blank|
  {
    if blank == "" {
      assert blank + value == value;
    } else {
      Spread(blank[1..], value);
      assert blank + value == "" + [blank[0]] + (blank[1..] + value);
      assert blank + value == [blank[0]] + (blank[1..] + value);
      SpaceApart("", blank[0], blank[1..] + value);
      OpeningSpace(blank[0], blank[1..] + value);
      assert "" + (blank[1..] + value) == blank[1..] + value;
    }
  }
}
