/** What the source asks of Go's strings package. */
module Text {

  /** The Unicode White_Space property. */
  predicate IsSpace(c: char) {
    || '\t' <= c <= '\r' || c == ' ' || c == '\U{85}' || c == '\U{A0}' || c == '\U{1680}'
    || '\U{2000}' <= c <= '\U{200A}' || c == '\U{2028}' || c == '\U{2029}' || c == '\U{202F}'
    || c == '\U{205F}' || c == '\U{3000}'
  }

  /** These twenty-five characters are white space. */
  lemma SpacesAre(c: char)
    ensures var spaces := {9, 10, 11, 12, 13, 32, 133, 160, 5760, 8192, 8193, 8194, 8195, 8196, 8197, 8198, 8199, 8200,
            8201, 8202, 8232, 8233, 8239, 8287, 12288};
        IsSpace(c) <==> c as int in spaces
  {
  }

  function TrimLeft(value: string): string {
    if value != "" && IsSpace(value[0]) then TrimLeft(value[1..]) else value
  }

  function TrimRight(value: string): string {
    if value != "" && IsSpace(value[|value| - 1]) then TrimRight(value[..|value| - 1]) else value
  }

  function Trim(value: string): string {
    TrimRight(TrimLeft(value))
  }

  predicate Blank(value: string) {
    value == "" || (IsSpace(value[0]) && Blank(value[1..]))
  }

  lemma {:induction false} TrimRightEnds(value: string)
    ensures TrimRight(value) != "" ==> !IsSpace(TrimRight(value)[|TrimRight(value)| - 1])
    ensures TrimRight(value) <= value
  {
    if value != "" && IsSpace(value[|value| - 1]) { TrimRightEnds(value[..|value| - 1]); }
  }

  lemma {:induction false} TrimLeftStarts(value: string)
    ensures TrimLeft(value) != "" ==> !IsSpace(TrimLeft(value)[0])
  {
    if value != "" && IsSpace(value[0]) { TrimLeftStarts(value[1..]); }
  }

  /** What is trimmed to nothing is blank, and trimming again changes nothing. */
  lemma {:induction false} TrimTwice(value: string)
    ensures Trim(Trim(value)) == Trim(value)
    ensures Trim(value) == "" <==> Blank(value)
    ensures Blank(Trim(value)) <==> Blank(value)
  {
    TrimLeftStarts(value);
    TrimRightEnds(TrimLeft(value));
    TrimLeftBlank(value);
    if TrimLeft(value) != "" { TrimRightStays(TrimLeft(value)); }
  }

  lemma {:induction false} TrimLeftBlank(value: string)
    ensures TrimLeft(value) == "" <==> Blank(value)
  {
    if value != "" && IsSpace(value[0]) { TrimLeftBlank(value[1..]); }
  }

  lemma {:induction false} TrimRightStays(value: string)
    requires value != "" && !IsSpace(value[0])
    ensures TrimRight(value) != ""
  {
    if IsSpace(value[|value| - 1]) { TrimRightStays(value[..|value| - 1]); }
  }

  lemma {:induction false} BlankMeans(value: string)
    ensures Blank(value) <==> forall c :: c in value ==> IsSpace(c)
  {
    if value != "" {
      assert value == [value[0]] + value[1..];
      BlankMeans(value[1..]);
    }
  }

  lemma {:induction false} TrimLeftTakes(value: string) returns (before: string)
    ensures value == before + TrimLeft(value) && Blank(before)
  {
    before := "";
    if value != "" && IsSpace(value[0]) {
      var rest := TrimLeftTakes(value[1..]);
      before := [value[0]] + rest;
      assert before[1..] == rest;
    }
  }

  lemma {:induction false} TrimRightTakes(value: string) returns (after: string)
    ensures value == TrimRight(value) + after && Blank(after)
  {
    after := "";
    if value != "" && IsSpace(value[|value| - 1]) {
      var rest := TrimRightTakes(value[..|value| - 1]);
      after := rest + [value[|value| - 1]];
      BlankMeans(rest);
      BlankMeans(after);
    }
  }

  /** Trimming takes white space away from both ends, and all of it. */
  lemma TrimMeans(value: string) returns (before: string, after: string)
    ensures value == before + Trim(value) + after && Blank(before) && Blank(after)
    ensures Trim(value) != "" ==> !IsSpace(Trim(value)[0]) && !IsSpace(Trim(value)[|Trim(value)| - 1])
  {
    before := TrimLeftTakes(value);
    after := TrimRightTakes(TrimLeft(value));
    TrimLeftStarts(value);
    TrimRightEnds(TrimLeft(value));
    Rejoin(before, Trim(value), after);
  }

  lemma Rejoin(a: string, b: string, c: string)
    ensures a + (b + c) == (a + b) + c
  {
  }
}
