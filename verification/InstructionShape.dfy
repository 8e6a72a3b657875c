/** What the beginning of a tool instruction looks like (src/harness/tool_protocol.go:288-323). */
module InstructionShape {
  import opened JsonScanner

  // ---- The shape ----

  /** White space as the pattern knows it. */
  predicate Gap(text: string) {
    forall c :: c in text ==> c == ' ' || c == '\t' || c == '\n' || c == '\r' || c == '\U{C}'
  }

  /** The letter, or its capital. */
  predicate Reads(c: char, letter: char) {
    c == letter || ('A' <= c <= 'Z' && c as int + 32 == letter as int)
  }

  /** The key, whatever the case of its letters. */
  predicate Spells(text: string, key: string) {
    |text| == |key| && forall i :: 0 <= i < |key| ==> Reads(text[i], key[i])
  }

  predicate SpellsKey(text: string) {
    Spells(text, "type") || Spells(text, "tool") || Spells(text, "tool_name") || Spells(text, "action")
  }

  /** An opened object whose first field has such a name and a text for its value. */
  datatype Shape = Shape(open: string, key: string, before: string, after: string, value: string, rest: string)

  function ValuePart(s: Shape): string {
    "\"" + s.value + "\"" + s.rest
  }

  function ColonPart(s: Shape): string {
    ":" + (s.after + ValuePart(s))
  }

  function KeyPart(s: Shape): string {
    ("\"" + s.key + "\"") + (s.before + ColonPart(s))
  }

  function Written(s: Shape): string {
    "{" + (s.open + KeyPart(s))
  }

  predicate Sound(s: Shape) {
    Gap(s.open) && Gap(s.before) && Gap(s.after) && SpellsKey(s.key) && '"' !in s.value
  }

  // ---- Letters and gaps ----

  lemma {:induction false} LowerSpells(text: string, key: string)
    requires forall c :: c in key ==> !('A' <= c <= 'Z')
    ensures LowerAscii(text) == key <==> Spells(text, key)
  {
    if text != "" && key != "" {
      assert key == [key[0]] + key[1..] && key[0] in key && forall c :: c in key[1..] ==> c in key;
      LowerSpells(text[1..], key[1..]);
      LetterReads(text[0], key[0]);
      assert text == [text[0]] + text[1..] && key == [key[0]] + key[1..];
      if Spells(text, key) {
        assert Reads(text[0], key[0]);
        assert forall i :: 0 <= i < |key| - 1 ==> text[1..][i] == text[i + 1] && key[1..][i] == key[i + 1];
      }
      if Spells(text[1..], key[1..]) && Reads(text[0], key[0]) {
        forall i | 0 <= i < |key| ensures Reads(text[i], key[i]) {
          assert i > 0 ==> text[i] == text[1..][i - 1] && key[i] == key[1..][i - 1];
        }
      }
    }
  }

  lemma LetterReads(c: char, letter: char)
    requires !('A' <= letter <= 'Z')
    ensures (if 'A' <= c <= 'Z' then "abcdefghijklmnopqrstuvwxyz"[(c - 'A') as int] else c) == letter
        <==> Reads(c, letter)
  {
    if 'A' <= c <= 'Z' {
      var letters := "abcdefghijklmnopqrstuvwxyz";
      assert letters[(c - 'A') as int] == (c as int + 32) as char;
    }
  }

  lemma {:induction false} SkipGapTakes(text: string) returns (gap: string)
    ensures text == gap + SkipGap(text) && Gap(gap)
    ensures SkipGap(text) != "" ==> !IsGap(SkipGap(text)[0])
  {
    gap := "";
    if text != "" && IsGap(text[0]) {
      var rest := SkipGapTakes(text[1..]);
      gap := [text[0]] + rest;
    }
  }

  lemma {:induction false} SkipGapLeaves(gap: string, rest: string)
    requires Gap(gap) && rest != "" && !IsGap(rest[0])
    ensures SkipGap(gap + rest) == rest
  {
    if gap == "" {
      assert gap + rest == rest;
    } else {
      assert gap[0] in gap && (gap + rest)[1..] == gap[1..] + rest && forall c :: c in gap[1..] ==> c in gap;
      SkipGapLeaves(gap[1..], rest);
    }
  }

  lemma KeysAre(i: nat)
    requires i < |DIRECTIVE_KEYS|
    ensures DIRECTIVE_KEYS[i] == "type" || DIRECTIVE_KEYS[i] == "tool" || DIRECTIVE_KEYS[i] == "tool_name"
        || DIRECTIVE_KEYS[i] == "action"
    ensures forall c :: c in DIRECTIVE_KEYS[i] ==> !('A' <= c <= 'Z')
  {
  }

  lemma KeyAt(key: string) returns (i: nat)
    requires SpellsKey(key)
    ensures i < |DIRECTIVE_KEYS| && Spells(key, DIRECTIVE_KEYS[i])
  {
    assert |DIRECTIVE_KEYS| == 4 && DIRECTIVE_KEYS[0] == "type" && DIRECTIVE_KEYS[1] == "tool";
    assert DIRECTIVE_KEYS[2] == "tool_name" && DIRECTIVE_KEYS[3] == "action";
    i := if Spells(key, "type") then 0 else if Spells(key, "tool") then 1 else if Spells(key, "tool_name") then 2
        else 3;
  }

  // ---- Both directions ----

  /** Whatever is written in that shape looks like an instruction. */
  lemma ShapeLooks(s: Shape)
    requires Sound(s)
    ensures LooksLikeInstruction(Written(s))
  {
    var i := KeyAt(s.key);
    KeysAre(i);
    var text := KeyPart(s);
    assert Written(s)[1..] == s.open + text;
    SkipGapLeaves(s.open, text);
    LowerSpells(s.key, DIRECTIVE_KEYS[i]);
    FieldOf(s, DIRECTIVE_KEYS[i]);
    assert DirectiveField(SkipGap(Written(s)[1..]), DIRECTIVE_KEYS[i]);
  }

  lemma FieldOf(s: Shape, key: string)
    requires Sound(s) && LowerAscii(s.key) == key && |s.key| == |key|
    ensures DirectiveField(KeyPart(s), key)
  {
    var text, n := KeyPart(s), |key| + 2;
    var head := "\"" + s.key + "\"";
    assert |head| == n && text[..n] == head && text[n..] == s.before + ColonPart(s);
    assert text[1..n - 1] == head[1..n - 1] == s.key && text[n - 1] == head[n - 1];
    SkipGapLeaves(s.before, ColonPart(s));
    assert ColonPart(s)[1..] == s.after + ValuePart(s);
    SkipGapLeaves(s.after, ValuePart(s));
    assert ValuePart(s)[0] == '"' && ValuePart(s)[1 + |s.value|] == '"';
    assert ValuePart(s)[1..][|s.value|] == '"';
  }

  function QuoteAt(text: string): (n: nat)
    requires '"' in text
    ensures n < |text| && text[n] == '"' && '"' !in text[..n]
  {
    if text[0] == '"' then 0
    else
      var n := 1 + QuoteAt(text[1..]);
      assert text[..n] == [text[0]] + text[1..][..n - 1];
      n
  }

  /** Whatever looks like an instruction is written in that shape. */
  lemma LooksHasShape(text: string) returns (s: Shape)
    requires LooksLikeInstruction(text)
    ensures Sound(s) && Written(s) == text
  {
    var i :| 0 <= i < |DIRECTIVE_KEYS| && DirectiveField(SkipGap(text[1..]), DIRECTIVE_KEYS[i]);
    KeysAre(i);
    var open := SkipGapTakes(text[1..]);
    var field := SkipGap(text[1..]);
    s := ShapeOf(field, DIRECTIVE_KEYS[i]);
    s := Opened(text, open, s);
  }

  lemma Opened(text: string, open: string, s: Shape) returns (t: Shape)
    requires Sound(s) && Gap(open) && text != "" && text[0] == '{' && text[1..] == open + KeyPart(s)
    ensures Sound(t) && Written(t) == text
  {
    t := s.(open := open);
    assert text == "{" + text[1..];
  }

  lemma ShapeOf(text: string, key: string) returns (s: Shape)
    requires DirectiveField(text, key) && (forall c :: c in key ==> !('A' <= c <= 'Z'))
    requires key == "type" || key == "tool" || key == "tool_name" || key == "action"
    ensures Sound(s) && s.open == "" && KeyPart(s) == text
  {
    var n := |key| + 2;
    var name := text[1..n - 1];
    LowerSpells(name, key);
    var before := SkipGapTakes(text[n..]);
    var colon := SkipGap(text[n..]);
    var after := SkipGapTakes(colon[1..]);
    var value := SkipGap(colon[1..]);
    var m := QuoteAt(value[1..]);
    s := Shape("", name, before, after, value[1..][..m], value[1..][m + 1..]);
    assert value == "\"" + value[1..][..m] + "\"" + value[1..][m + 1..];
    assert colon == ":" + colon[1..];
    assert text == ("\"" + name + "\"") + text[n..];
  }

  /** A text looks like an instruction if and only if it is written in that shape. */
  ghost predicate HasShape(text: string) {
    exists s :: Sound(s) && Written(s) == text
  }

  lemma LooksExactly(text: string)
    ensures LooksLikeInstruction(text) <==> HasShape(text)
  {
    if LooksLikeInstruction(text) { var s := LooksHasShape(text); }
    if HasShape(text) {
      var s :| Sound(s) && Written(s) == text;
      ShapeLooks(s);
    }
  }
}
