/** The running estimate of a streamed answer (src/harness/model_budget.go). */
module OutputEstimate {
  // Text is settled in blocks of a fixed size, so that the estimate does not depend on how the answer was cut into
  // pieces.

  const BLOCK := 1024

  /** What the settled blocks cost, and the text that does not fill a block yet. */
  datatype Estimate = Estimate(settled: int, pending: string)

  /** The whole text cut into blocks from its start. */
  function Cut(count: string -> int, text: string): Estimate
    decreases |text|
  {
    if |text| < BLOCK then Estimate(0, text)
    else
      var rest := Cut(count, text[BLOCK..]);
      Estimate(count(text[..BLOCK]) + rest.settled, rest.pending)
  }

  /** One more character. */
  function Push(count: string -> int, e: Estimate, c: char): Estimate {
    if |e.pending| + 1 == BLOCK then Estimate(e.settled + count(e.pending + [c]), "")
        else e.(pending := e.pending + [c])
  }

  lemma {:induction false} PushIsCut(count: string -> int, text: string, c: char)
    ensures Cut(count, text + [c]) == Push(count, Cut(count, text), c)
    ensures |Cut(count, text).pending| < BLOCK
    decreases |text|
  {
    var more := text + [c];
    if |text| < BLOCK {
      if |more| == BLOCK {
        assert more[..BLOCK] == more && more[BLOCK..] == "";
      }
    } else {
      PushIsCut(count, text[BLOCK..], c);
      assert more[..BLOCK] == text[..BLOCK] && more[BLOCK..] == text[BLOCK..] + [c];
    }
  }

  function Joined(blocks: seq<string>): string {
    if blocks == [] then "" else blocks[0] + Joined(blocks[1..])
  }

  function Costs(count: string -> int, blocks: seq<string>): int {
    if blocks == [] then 0 else count(blocks[0]) + Costs(count, blocks[1..])
  }

  /** Whole blocks of 1024 characters are settled one by one, and what is left is pending. */
  lemma {:induction false} BlocksSettle(count: string -> int, blocks: seq<string>, rest: string)
    requires (forall i :: 0 <= i < |blocks| ==> |blocks[i]| == 1024) && |rest| < 1024
    ensures Cut(count, Joined(blocks) + rest) == Estimate(Costs(count, blocks), rest)
  {
    if blocks == [] {
      assert Joined(blocks) + rest == rest;
    } else {
      var text := Joined(blocks) + rest;
      assert text[..BLOCK] == blocks[0] && text[BLOCK..] == Joined(blocks[1..]) + rest;
      BlocksSettle(count, blocks[1..], rest);
    }
  }

  /** Cutting loses and doubles nothing: for a counter that adds up, the estimate is what the whole text costs. */
  lemma {:induction false} NothingLost(count: string -> int, text: string)
    requires forall a, b :: count(a + b) == count(a) + count(b)
    ensures Cut(count, text).settled + count(Cut(count, text).pending) == count(text)
    decreases |text|
  {
    if |text| >= BLOCK {
      NothingLost(count, text[BLOCK..]);
      assert text == text[..BLOCK] + text[BLOCK..];
    }
  }

  class BudgetOutputEstimate {
    var settled: int
    var pending: string
    var runes: nat
    ghost var text: string

    constructor ()
      ensures text == "" && settled == 0 && pending == "" && runes == 0
    {
      settled, pending, runes, text := 0, "", 0, "";
    }

    /** The state is that of the whole text, however it came in. */
    ghost predicate Valid(count: string -> int)
      reads this
    {
      Estimate(settled, pending) == Cut(count, text) && runes == |pending| < BLOCK
    }

    method Append(count: string -> int, value: string)
      requires Valid(count)
      modifies this
      ensures Valid(count) && text == old(text) + value
    {
      assert value[..0] == "" && text + "" == text;
      for i := 0 to |value|
        invariant Valid(count) && text == old(text) + value[..i]
      {
        PushIsCut(count, text, value[i]);
        assert value[..i + 1] == value[..i] + [value[i]];
        assert old(text) + value[..i + 1] == text + [value[i]];
        text := text + [value[i]];
        pending := pending + [value[i]];
        runes := runes + 1;
        if runes == BLOCK {
          settled := settled + count(pending);
          pending, runes := "", 0;
        }
      }
      assert value[..|value|] == value;
    }

    method Total(count: string -> int) returns (total: int)
      requires Valid(count)
      ensures total == Cut(count, text).settled + count(Cut(count, text).pending)
    {
      total := settled + count(pending);
    }
  }
}
