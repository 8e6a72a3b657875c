/** The usage ledger of a run (src/harness/model_budget.go). */
module Usage {
  import opened Basics

  // Token counts are integers as in the source; costs are exact reals.

  /** A provider together with a model. */
  type Key = int

  datatype Tokens = Tokens(input: int, output: int, total: int)

  /** The three counts of a usage. */
  datatype Field = Input | Output | Whole

  /** The total of a report that may leave it out. */
  function Total(u: Tokens): int {
    if u.total > 0 then u.total else u.input + u.output
  }

  function Of(u: Tokens, field: Field): int {
    match field
    case Input => u.input
    case Output => u.output
    case Whole => Total(u)
  }

  predicate NonNegative(u: Tokens) {
    0 <= u.input && 0 <= u.output && 0 <= u.total
  }

  datatype Report = Report(key: Key, tokens: Tokens)

  function Sum(reports: seq<Report>, field: Field): int {
    if reports == [] then 0 else Of(reports[0].tokens, field) + Sum(reports[1..], field)
  }

  function Share(r: Report, key: Key, field: Field): int {
    if r.key == key then Of(r.tokens, field) else 0
  }

  function SumOf(reports: seq<Report>, key: Key, field: Field): int {
    if reports == [] then 0 else Share(reports[0], key, field) + SumOf(reports[1..], key, field)
  }

  predicate AllNonNegative(reports: seq<Report>) {
    forall r :: r in reports ==> NonNegative(r.tokens)
  }

  // ---- Sums by key ----

  function SumOver(reports: seq<Report>, keys: seq<Key>, field: Field): int {
    if keys == [] then 0 else SumOf(reports, keys[0], field) + SumOver(reports, keys[1..], field)
  }

  predicate Distinct(keys: seq<Key>) {
    forall i, j :: 0 <= i < j < |keys| ==> keys[i] != keys[j]
  }

  /** Reports under other keys are empty. */
  predicate Covers(keys: seq<Key>, reports: seq<Report>) {
    forall r :: r in reports && r.key !in keys ==> Empty(r.tokens)
  }

  predicate Empty(u: Tokens) {
    u.input == 0 && u.output == 0 && Total(u) == 0
  }

  lemma {:induction false} SumOverNothing(keys: seq<Key>, field: Field)
    ensures SumOver([], keys, field) == 0
  {
    if keys != [] { SumOverNothing(keys[1..], field); }
  }

  /** One more report counts under exactly one of some distinct keys, if under any. */
  lemma {:induction false} SumOverHead(reports: seq<Report>, keys: seq<Key>, field: Field)
    requires reports != [] && Distinct(keys)
    ensures SumOver(reports, keys, field)
            == (if reports[0].key in keys then Of(reports[0].tokens, field) else 0) + SumOver(reports[1..], keys, field)
    decreases |keys|
  {
    if keys != [] {
      assert keys == [keys[0]] + keys[1..];
      SumOverHead(reports, keys[1..], field);
    }
  }

  /** Adding up key by key is adding up. */
  lemma {:induction false} SumByKeys(reports: seq<Report>, keys: seq<Key>, field: Field)
    requires Distinct(keys) && Covers(keys, reports)
    ensures SumOver(reports, keys, field) == Sum(reports, field)
    decreases |reports|
  {
    if reports == [] {
      SumOverNothing(keys, field);
    } else {
      SumOverHead(reports, keys, field);
      SumByKeys(reports[1..], keys, field);
    }
  }

  lemma {:induction false} SumAppend(a: seq<Report>, b: seq<Report>, field: Field)
    ensures Sum(a + b, field) == Sum(a, field) + Sum(b, field)
    decreases |a|
  {
    if a == [] {
      assert a + b == b;
    } else {
      SumAppend(a[1..], b, field);
      assert (a + b)[1..] == a[1..] + b && (a + b)[0] == a[0];
    }
  }

  lemma {:induction false} SumOfAppend(a: seq<Report>, b: seq<Report>, key: Key, field: Field)
    ensures SumOf(a + b, key, field) == SumOf(a, key, field) + SumOf(b, key, field)
    decreases |a|
  {
    if a == [] {
      assert a + b == b;
    } else {
      SumOfAppend(a[1..], b, key, field);
      assert (a + b)[1..] == a[1..] + b && (a + b)[0] == a[0];
    }
  }

  lemma NothingLeft<T>(a: seq<T>, b: seq<T>)
    requires multiset(a) == multiset(b) && a == []
    ensures b == []
  {
    assert |multiset(b)| == 0;
  }

  lemma TakeOut<T>(a: seq<T>, b: seq<T>) returns (i: nat)
    requires a != [] && multiset(a) == multiset(b)
    ensures i < |b| && b[i] == a[0] && multiset(a[1..]) == multiset(b[..i] + b[i + 1..])
  {
    assert a[0] in multiset(b);
    i :| i < |b| && b[i] == a[0];
    MultisetWithout(a, 0);
    assert a[..0] + a[1..] == a[1..];
    MultisetWithout(b, i);
  }

  lemma MultisetWithout<T>(a: seq<T>, i: nat)
    requires i < |a|
    ensures multiset(a[..i] + a[i + 1..]) == multiset(a) - multiset{a[i]}
  {
    assert a == a[..i] + ([a[i]] + a[i + 1..]);
  }

  /** Taking a report out of its place. */
  lemma Without(reports: seq<Report>, i: nat, key: Key, field: Field)
    requires i < |reports|
    ensures var rest := reports[..i] + reports[i + 1..];
            && Sum(reports, field) == Of(reports[i].tokens, field) + Sum(rest, field)
            && SumOf(reports, key, field) == Share(reports[i], key, field) + SumOf(rest, key, field)
  {
    var front, back := reports[..i], reports[i..];
    assert reports == front + back && back[1..] == reports[i + 1..] && back == [reports[i]] + reports[i + 1..];
    SumAppend(front, back, field);
    SumOfAppend(front, back, key, field);
    SumAppend(front, reports[i + 1..], field);
    SumOfAppend(front, reports[i + 1..], key, field);
  }

  /** The order of the reports does not matter. */
  lemma {:induction false} SumPermuted(a: seq<Report>, b: seq<Report>, key: Key, field: Field)
    requires multiset(a) == multiset(b)
    ensures Sum(a, field) == Sum(b, field) && SumOf(a, key, field) == SumOf(b, key, field)
    decreases |a|
  {
    if a == [] {
      NothingLeft(a, b);
    } else {
      var i := TakeOut(a, b);
      Without(b, i, key, field);
      SumPermuted(a[1..], b[..i] + b[i + 1..], key, field);
    }
  }

  // ---- The ledger of a run ----

  /** A usage with its parts by model. */
  datatype RunUsage = RunUsage(whole: Tokens, parts: seq<Report>)

  /** The parts of a usage, where it has any, add up to the whole. */
  ghost predicate Consistent(u: RunUsage) {
    u.parts == [] || forall field :: Sum(u.parts, field) == Of(u.whole, field)
  }

  predicate Totals(u: Tokens, reports: seq<Report>) {
    && NonNegative(u) && u.input == Sum(reports, Input) && u.output == Sum(reports, Output)
        && u.total == Sum(reports, Whole)
    && (u.total == 0 ==> u.input == 0 && u.output == 0)
  }

  /** One entry of the ledger is the sum over the reports of its model. */
  predicate Entry(u: Tokens, reports: seq<Report>, key: Key) {
    u.input == SumOf(reports, key, Input) && u.output == SumOf(reports, key, Output)
        && u.total == SumOf(reports, key, Whole) && u.total > 0
  }

  predicate Part(u: Tokens, reports: seq<Report>, key: Key) {
    NonNegative(u) && Entry(u, reports, key)
  }

  /** Totals and totals by key that agree with the reports they were made of. */
  ghost predicate Ledger(whole: Tokens, byKey: map<Key, Tokens>, reports: seq<Report>) {
    && AllNonNegative(reports) && Totals(whole, reports)
    && (forall key :: key in byKey ==> Part(byKey[key], reports, key))
    && (forall key, field :: key !in byKey ==> SumOf(reports, key, field) == 0)
    && Covered(byKey, reports)
  }

  predicate Covered(byKey: map<Key, Tokens>, reports: seq<Report>) {
    forall r :: r in reports && r.key !in byKey ==> Empty(r.tokens)
  }

  function Added(u: Tokens, v: Tokens): Tokens {
    Tokens(u.input + v.input, u.output + v.output, u.total + Total(v))
  }

  function AddedUnder(byKey: map<Key, Tokens>, r: Report): map<Key, Tokens> {
    if Total(r.tokens) <= 0 then byKey
    else byKey[r.key := Added(if r.key in byKey then byKey[r.key] else Tokens(0, 0, 0), r.tokens)]
  }

  lemma LedgerAdds(whole: Tokens, byKey: map<Key, Tokens>, reports: seq<Report>, r: Report)
    requires Ledger(whole, byKey, reports) && NonNegative(r.tokens)
    ensures Ledger(Added(whole, r.tokens), AddedUnder(byKey, r), reports + [r])
  {
    BookKeeps(reports, r);
    var more, under := reports + [r], AddedUnder(byKey, r);
    forall key | key in under ensures Part(under[key], more, key) {
      if key in byKey { assert Part(byKey[key], reports, key); }
    }
  }

  class Tracker {
    const maxTokens: int
    const maxToolCalls: int
    var tokens: int
    var toolCalls: nat
    var reported: Tokens
    var byModel: map<Key, Tokens>
    ghost var reports: seq<Report>
    ghost var planned: nat

    constructor (maxTokens: int, maxToolCalls: int)
      ensures Valid() && reports == [] && tokens == 0 && toolCalls == 0 && planned == 0
      ensures this.maxTokens == maxTokens && this.maxToolCalls == maxToolCalls
    {
      this.maxTokens, this.maxToolCalls := maxTokens, maxToolCalls;
      tokens, toolCalls, reported, byModel, reports, planned := 0, 0, Tokens(0, 0, 0), map[], [], 0;
    }

    /** The ledger agrees with the reports, and the calls made and planned stay within their limit. */
    ghost predicate Valid()
      reads this
    {
      Ledger(reported, byModel, reports) && CallsFit(planned)
    }

    /** So many more calls may be made. Without a positive limit every number may. */
    predicate CallsFit(more: nat)
      reads this
    {
      maxToolCalls <= 0 || toolCalls + more <= maxToolCalls
    }

    /** Books one answer of a model: the larger of what the answer and what the stream reported. An answer without a
        report counts against the budget with an estimate, but not as usage. */
    method Book(key: Key, response: Tokens, streamed: Tokens, estimate: int) returns (exceeded: bool)
      modifies this`tokens, this`reported, this`byModel, this`reports
      ensures exceeded <==> 0 < maxTokens <= tokens
      ensures old(Valid()) && NonNegative(response) && NonNegative(streamed) ==> Valid()
      ensures old(byModel == Booked(reports)) ==> byModel == Booked(reports)
      ensures var usage := if Total(streamed) > Total(response) then streamed else response;
              && reports == old(reports) + [Report(key, usage)]
              && tokens == old(tokens) + (if Total(usage) == 0 then estimate else Total(usage))
              && reported == Added(old(reported), usage) && byModel == AddedUnder(old(byModel), Report(key, usage))
    {
      var usage := response;
      if Total(streamed) > Total(usage) {
        usage := streamed;
      }
      AddReportedUsage(key, usage);
      var consumed := Total(usage);
      if consumed == 0 {
        consumed := estimate;
      }
      tokens := tokens + consumed;
      exceeded := TokensExceeded();
    }

    /** Keeps what a model has reported, in total and under the model. */
    method AddReportedUsage(key: Key, usage: Tokens)
      modifies this`reported, this`byModel, this`reports
      ensures old(Valid()) && NonNegative(usage) ==> Valid()
      ensures old(byModel == Booked(reports)) ==> byModel == Booked(reports)
      ensures reports == old(reports) + [Report(key, usage)]
      ensures reported == Added(old(reported), usage) && byModel == AddedUnder(old(byModel), Report(key, usage))
    {
      if Valid() && NonNegative(usage) { LedgerAdds(reported, byModel, reports, Report(key, usage)); }
      reported := Added(reported, usage);
      if Total(usage) > 0 {
        var value := if key in byModel then byModel[key] else Tokens(0, 0, 0);
        byModel := byModel[key := Added(value, usage)];
      }
      assert (reports + [Report(key, usage)])[..|reports|] == reports;
      reports := reports + [Report(key, usage)];
    }

    /** The parts by model, in the order of their keys. They add up to what was reported. */
    method ModelUsage() returns (parts: seq<Report>)
      requires Valid()
      ensures |parts| == |byModel| && Increasing(KeysOf(parts)) && AllNonNegative(parts)
      ensures forall i :: 0 <= i < |parts| ==> parts[i].key in byModel && parts[i].tokens == byModel[parts[i].key]
      ensures forall field :: Sum(parts, field) == Sum(reports, field)
      ensures forall key, field :: SumOf(parts, key, field) == SumOf(reports, key, field)
    {
      parts := Listed(reported, byModel, reports);
    }

    /** What a run leaves behind: its totals and its parts. */
    method Snapshot() returns (usage: RunUsage)
      requires Valid()
      ensures forall field :: Of(usage.whole, field) == Sum(reports, field)
      ensures forall field :: Sum(usage.parts, field) == Sum(reports, field)
      ensures forall key, field :: SumOf(usage.parts, key, field) == SumOf(reports, key, field)
      ensures Consistent(usage) && NonNegative(usage.whole) && AllNonNegative(usage.parts) && |usage.parts| == |byModel|
    {
      var parts := ModelUsage();
      usage := RunUsage(reported, parts);
    }

    method TokensExceeded() returns (exceeded: bool)
      ensures exceeded <==> 0 < maxTokens && maxTokens <= tokens
    {
      exceeded := maxTokens > 0 && tokens >= maxTokens;
    }

    /** Plans the longest prefix of the requested calls that stays within the limit. */
    method PlanToolCalls(requested: nat) returns (allowed: nat, exceeded: bool)
      requires Valid()
      modifies this`planned
      ensures Valid() && planned == allowed
      ensures allowed <= requested && CallsFit(allowed)
      ensures forall more: nat :: more <= requested && CallsFit(more) ==> more <= allowed
      ensures exceeded <==> allowed < requested
    {
      planned := 0;
      if requested == 0 || maxToolCalls <= 0 {
        planned := requested;
        return requested, false;
      }
      var remaining := maxToolCalls - toolCalls;
      if remaining >= requested {
        planned := requested;
        return requested, false;
      }
      if remaining < 0 {
        remaining := 0;
      }
      planned := remaining;
      return remaining, true;
    }

    /** Counts the calls of a group. Groups are made of planned calls only. */
    method AddToolCalls(count: nat)
      requires Valid() && count <= planned
      modifies this`toolCalls, this`planned
      ensures Valid() && toolCalls == old(toolCalls) + count && planned == old(planned) - count
    {
      if count > 0 {
        toolCalls, planned := toolCalls + count, planned - count;
      }
    }
  }

  /** The totals by key, in the order of the keys. They add up to the totals. */
  method Listed(ghost whole: Tokens, byKey: map<Key, Tokens>, ghost reports: seq<Report>) returns (parts: seq<Report>)
    requires Ledger(whole, byKey, reports)
    ensures |parts| == |byKey| && Increasing(KeysOf(parts)) && AllNonNegative(parts)
    ensures forall i :: 0 <= i < |parts| ==> parts[i].key in byKey && parts[i].tokens == byKey[parts[i].key]
    ensures forall key :: key in KeysOf(parts) <==> key in byKey
    ensures forall field :: Sum(parts, field) == Sum(reports, field)
    ensures forall key, field :: SumOf(parts, key, field) == SumOf(reports, key, field)
  {
    var keys := Sorted(byKey.Keys);
    parts := [];
    forall j | 0 <= j < |keys| ensures keys[j] in byKey {
      assert keys[j] in keys;
    }
    for i := 0 to |keys|
      invariant |parts| == i
      invariant forall j :: 0 <= j < i ==> parts[j] == Report(keys[j], byKey[keys[j]])
    {
      parts := parts + [Report(keys[i], byKey[keys[i]])];
    }
    assert KeysOf(parts) == keys;
    forall field ensures Sum(parts, field) == Sum(reports, field) {
      EntriesAddUp(reports, keys, parts, field);
      SumByKeys(reports, keys, field);
    }
    forall key, field ensures SumOf(parts, key, field) == SumOf(reports, key, field) {
      SumOfParts(reports, keys, parts, key, field);
    }
    forall r | r in parts ensures NonNegative(r.tokens) {
      assert Part(byKey[r.key], reports, r.key);
    }
  }

  function KeysOf(parts: seq<Report>): seq<Key> {
    seq(|parts|, i requires 0 <= i < |parts| => parts[i].key)
  }

  lemma {:induction false} SumOfParts(reports: seq<Report>, keys: seq<Key>, parts: seq<Report>, key: Key, field: Field)
    requires |parts| == |keys| && Distinct(keys)
    requires forall i :: 0 <= i < |keys| ==> parts[i].key == keys[i] && Part(parts[i].tokens, reports, keys[i])
    ensures SumOf(parts, key, field) == if key in keys then SumOf(reports, key, field) else 0
    decreases |keys|
  {
    if keys != [] {
      assert Part(parts[0].tokens, reports, keys[0]);
      assert keys == [keys[0]] + keys[1..];
      SumOfParts(reports, keys[1..], parts[1..], key, field);
    }
  }

  // ---- Reports that take something back ----

  /** The reports that the parts by model are made of. */
  function Kept(reports: seq<Report>): seq<Report> {
    if reports == [] then []
    else
      var front, last := reports[..|reports| - 1], reports[|reports| - 1];
      if Total(last.tokens) > 0 then Kept(front) + [last] else Kept(front)
  }

  function Skipped(reports: seq<Report>): seq<Report> {
    if reports == [] then []
    else
      var front, last := reports[..|reports| - 1], reports[|reports| - 1];
      if Total(last.tokens) > 0 then Skipped(front) else Skipped(front) + [last]
  }

  /** The parts by model after some reports, whatever numbers they hold. */
  function Booked(reports: seq<Report>): map<Key, Tokens> {
    if reports == [] then map[] else AddedUnder(Booked(reports[..|reports| - 1]), reports[|reports| - 1])
  }

  predicate Under(key: Key, reports: seq<Report>) {
    exists r :: r in reports && r.key == key
  }

  ghost predicate Entries(byKey: map<Key, Tokens>, kept: seq<Report>) {
    && (forall key :: key in byKey <==> Under(key, kept))
    && (forall key :: key in byKey ==> Entry(byKey[key], kept, key))
    && (forall key, field :: key !in byKey ==> SumOf(kept, key, field) == 0)
  }

  lemma EntriesMore(byKey: map<Key, Tokens>, kept: seq<Report>, r: Report)
    requires Entries(byKey, kept) && Total(r.tokens) > 0
    ensures Entries(AddedUnder(byKey, r), kept + [r])
  {
    BookKeeps(kept, r);
    var more, under := kept + [r], AddedUnder(byKey, r);
    assert forall k :: k in more <==> k in kept || k == r;
    forall key ensures key in under <==> Under(key, more) {
      assert Under(key, more) <==> Under(key, kept) || key == r.key;
    }
    forall key | key in under ensures Entry(under[key], more, key) {
      if key in byKey { assert Entry(byKey[key], kept, key); }
    }
  }

  lemma {:induction false} BookedEntries(reports: seq<Report>)
    ensures Entries(Booked(reports), Kept(reports))
  {
    if reports != [] {
      var n := |reports| - 1;
      BookedEntries(reports[..n]);
      if Total(reports[n].tokens) > 0 { EntriesMore(Booked(reports[..n]), Kept(reports[..n]), reports[n]); }
    }
  }

  lemma {:induction false} KeptAndSkipped(reports: seq<Report>, field: Field)
    ensures Sum(reports, field) == Sum(Kept(reports), field) + Sum(Skipped(reports), field)
  {
    if reports != [] {
      var n := |reports| - 1;
      KeptAndSkipped(reports[..n], field);
      assert reports == reports[..n] + [reports[n]];
      BookKeeps(reports[..n], reports[n]);
      BookKeeps(Kept(reports[..n]), reports[n]);
      BookKeeps(Skipped(reports[..n]), reports[n]);
    }
  }

  /** The parts by model add up to what was reported exactly when the reports without a positive total add up to
      nothing. */
  lemma {:induction false} ConservedExactly(reports: seq<Report>, parts: seq<Report>, field: Field)
    requires Distinct(KeysOf(parts)) && forall key :: key in KeysOf(parts) <==> key in Booked(reports)
    requires forall i ::
        0 <= i < |parts| ==> parts[i].key in Booked(reports) && parts[i].tokens == Booked(reports)[parts[i].key]
    ensures Sum(parts, field) == Sum(reports, field) <==> Sum(Skipped(reports), field) == 0
  {
    var keys, kept := KeysOf(parts), Kept(reports);
    BookedEntries(reports);
    KeptAndSkipped(reports, field);
    forall r | r in kept && r.key !in keys ensures false {
      assert Under(r.key, kept);
    }
    SumByKeys(kept, keys, field);
    EntriesAddUp(kept, keys, parts, field);
  }

  /** For example: a model reports five input tokens and then takes one back, `Tokens(5, 0, 5)` and `Tokens(-1, 0,
      0)`. The parts still show five, the totals four, and a usage with these totals and parts is not consistent. */
  lemma TakenBackDiffers(key: Key, u: Tokens, v: Tokens)
    requires Total(u) > 0 && v.input < 0 && Total(v) <= 0
    ensures var reports := [Report(key, u), Report(key, v)];
            && Booked(reports).Keys == {key} && Sum(reports, Input) == u.input + v.input
            && var parts := [Report(key, Booked(reports)[key])];
               && Sum(parts, Input) == u.input
               && forall whole: Tokens :: whole.input == u.input + v.input ==> !Consistent(RunUsage(whole, parts))
  {
    var a, b := Report(key, u), Report(key, v);
    assert [a, b][..1] == [a] && [a][..0] == [] && [a, b][1..] == [b] && [b][1..] == [];
    assert Booked([a, b]) == Booked([a]) == AddedUnder(map[], a);
    var part := Report(key, Booked([a])[key]);
    assert [part][1..] == [] && Sum([part], Input) == u.input;
    forall whole: Tokens | whole.input == u.input + v.input ensures !Consistent(RunUsage(whole, [part])) {
      assert Of(whole, Input) != Sum([part], Input);
    }
  }

  lemma {:induction false} EntriesAddUp(reports: seq<Report>, keys: seq<Key>, parts: seq<Report>, field: Field)
    requires |parts| == |keys|
    requires forall i :: 0 <= i < |keys| ==> parts[i].key == keys[i] && Entry(parts[i].tokens, reports, keys[i])
    ensures Sum(parts, field) == SumOver(reports, keys, field)
    decreases |keys|
  {
    if keys != [] {
      assert Entry(parts[0].tokens, reports, keys[0]);
      EntriesAddUp(reports, keys[1..], parts[1..], field);
    }
  }

  // ---- Storing the usage of a run ----

  datatype Price = Price(perInput: real, perOutput: real)

  datatype Priced = Priced(report: Report, cost: Option<real>)

  datatype PricedRun = PricedRun(key: Key, whole: Tokens, parts: seq<Priced>, cost: Option<real>)

  const MILLION := 1000000.0

  /** A usage without a price, or without tokens that a price applies to, has no cost rather than the cost zero. */
  function CostOf(key: Key, tokens: Tokens, prices: map<Key, Price>): Option<real> {
    if (tokens.input == 0 && tokens.output == 0) || key !in prices then None
    else Some(PriceOf(tokens.input, tokens.output, prices[key]))
  }

  function PriceOf(input: int, output: int, price: Price): real {
    input as real * price.perInput / MILLION + output as real * price.perOutput / MILLION
  }

  lemma Distribute(a: real, b: real, p: real)
    ensures (a + b) * p / MILLION == a * p / MILLION + b * p / MILLION
  {
    assert (a + b) * p == a * p + b * p;
  }

  /** A million tokens cost their price, and tokens are charged one by one. */
  lemma PriceExactly(a: int, b: int, c: int, d: int, price: Price)
    ensures PriceOf(1000000, 0, price) == price.perInput && PriceOf(0, 1000000, price) == price.perOutput
    ensures PriceOf(a + b, c + d, price) == PriceOf(a, c, price) + PriceOf(b, d, price)
  {
    assert 1000000.0 * price.perInput / MILLION == price.perInput;
    assert 1000000.0 * price.perOutput / MILLION == price.perOutput;
    Distribute(a as real, b as real, price.perInput);
    Distribute(c as real, d as real, price.perOutput);
  }

  /** The cost is unknown exactly for a model without a price and for a usage without tokens. */
  lemma CostExactly(key: Key, tokens: Tokens, prices: map<Key, Price>)
    ensures CostOf(key, tokens, prices).None? <==> key !in prices || (tokens.input == 0 == tokens.output)
    ensures CostOf(key, tokens, prices).Some? ==>
        CostOf(key, tokens, prices).value == PriceOf(tokens.input, tokens.output, prices[key])
  {
  }

  function PartOf(r: Report, prices: map<Key, Price>): Priced {
    Priced(r.(tokens := r.tokens.(total := Total(r.tokens))), CostOf(r.key, r.tokens, prices))
  }

  function Reports(parts: seq<Priced>): seq<Report> {
    if parts == [] then [] else [parts[0].report] + Reports(parts[1..])
  }

  /** The cost of some parts, known only if every one is. */
  function CostSum(parts: seq<Priced>): Option<real> {
    if parts == [] then Some(0.0)
    else AddCost(CostSum(parts[..|parts| - 1]), parts[|parts| - 1].cost)
  }

  function AddCost(a: Option<real>, b: Option<real>): Option<real> {
    if a.None? || b.None? then None else Some(a.value + b.value)
  }

  lemma {:induction false} CostSumAppend(a: seq<Priced>, b: seq<Priced>)
    ensures CostSum(a + b) == AddCost(CostSum(a), CostSum(b))
    decreases |b|
  {
    if b == [] {
      assert a + b == a;
    } else {
      var front := b[..|b| - 1];
      CostSumAppend(a, front);
      assert (a + b)[..|a + b| - 1] == a + front;
    }
  }

  /** The cost of some parts is known exactly when every one is, and is then their sum. */
  lemma {:induction false} CostSumExactly(parts: seq<Priced>)
    ensures CostSum(parts).Some? <==> forall i :: 0 <= i < |parts| ==> parts[i].cost.Some?
    ensures |parts| == 1 ==> CostSum(parts) == parts[0].cost
  {
    if parts != [] {
      var front := parts[..|parts| - 1];
      CostSumExactly(front);
      assert forall i :: 0 <= i < |front| ==> front[i] == parts[i];
    }
  }

  function PartsOf(reports: seq<Report>, prices: map<Key, Price>): seq<Priced> {
    if reports == [] then [] else PartsOf(reports[..|reports| - 1], prices) + [PartOf(reports[|reports| - 1], prices)]
  }

  /** Prices the usage of a run. Parts that do not add up to the totals are dropped; those of a run never are. */
  method PricedRunUsage(raw: RunUsage, key: Key, prices: map<Key, Price>) returns (priced: PricedRun)
    ensures priced.whole == raw.whole.(total := Total(raw.whole))
    ensures Consistent(raw) ==> priced.parts == PartsOf(raw.parts, prices)
    ensures !Consistent(raw) ==> priced.parts == [] && priced.cost.None?
    ensures Consistent(raw) && raw.parts != [] ==> priced.cost == CostSum(PartsOf(raw.parts, prices))
    ensures raw.parts == [] ==> priced.cost == CostOf(key, raw.whole, prices)
  {
    var whole := raw.whole.(total := Total(raw.whole));
    if raw.parts == [] {
      return PricedRun(key, whole, [], CostOf(key, whole, prices));
    }
    var parts, sums, cost := PriceParts(raw.parts, prices);
    if sums != whole {
      assert !Consistent(raw) by {
        assert Of(raw.whole, Input) == whole.input && Of(raw.whole, Output) == whole.output
            && Of(raw.whole, Whole) == whole.total;
      }
      return PricedRun(key, whole, [], None);
    }
    assert Consistent(raw) by {
      forall field ensures Sum(raw.parts, field) == Of(raw.whole, field) {
        match field { case Input => case Output => case Whole => }
      }
    }
    return PricedRun(key, whole, parts, cost);
  }

  /** What the loop over the parts has so far. */
  datatype Pricing = Pricing(parts: seq<Priced>, input: int, output: int, total: int, known: bool, sum: real)

  function PriceOne(p: Pricing, part: Priced): Pricing {
    var u := part.report.tokens;
    Pricing(p.parts + [part], p.input + u.input, p.output + u.output, p.total + u.total, p.known && part.cost.Some?,
        if part.cost.Some? then p.sum + part.cost.value else p.sum)
  }

  function PriceAll(reports: seq<Report>, prices: map<Key, Price>): Pricing {
    if reports == [] then Pricing([], 0, 0, 0, true, 0.0)
    else PriceOne(PriceAll(reports[..|reports| - 1], prices), PartOf(reports[|reports| - 1], prices))
  }

  lemma {:induction false} PriceStep(reports: seq<Report>, i: nat, prices: map<Key, Price>)
    requires i < |reports|
    ensures PriceAll(reports[..i + 1], prices) == PriceOne(PriceAll(reports[..i], prices), PartOf(reports[i], prices))
  {
    assert reports[..i + 1][..i] == reports[..i];
  }

  /** What the loop has agrees with what is to be computed. */
  predicate Priceable(p: Pricing, reports: seq<Report>, parts: seq<Priced>) {
    && p.parts == parts && CostSum(parts) == (if p.known then Some(p.sum) else None)
    && p.input == Sum(reports, Input) && p.output == Sum(reports, Output) && p.total == Sum(reports, Whole)
  }

  lemma PricedOne(p: Pricing, front: seq<Report>, parts: seq<Priced>, last: Report, prices: map<Key, Price>)
    requires Priceable(p, front, parts)
    ensures Priceable(PriceOne(p, PartOf(last, prices)), front + [last], parts + [PartOf(last, prices)])
  {
    BookKeeps(front, last);
    PartTokens(last, prices);
    assert (parts + [PartOf(last, prices)])[..|parts|] == parts;
  }

  lemma {:induction false} PricedAll(reports: seq<Report>, prices: map<Key, Price>)
    ensures Priceable(PriceAll(reports, prices), reports, PartsOf(reports, prices))
  {
    if reports != [] {
      var front, last := reports[..|reports| - 1], reports[|reports| - 1];
      PricedAll(front, prices);
      PricedOne(PriceAll(front, prices), front, PartsOf(front, prices), last, prices);
      assert reports == front + [last];
    }
  }

  method PriceParts(reports: seq<Report>, prices: map<Key, Price>)
    returns (parts: seq<Priced>, sums: Tokens, cost: Option<real>)
    ensures parts == PartsOf(reports, prices) && cost == CostSum(parts)
    ensures sums.input == Sum(reports, Input) && sums.output == Sum(reports, Output)
            && sums.total == Sum(reports, Whole)
  {
    parts := [];
    var input, output, total, sum, known := 0, 0, 0, 0.0, true;
    for i := 0 to |reports|
      invariant Pricing(parts, input, output, total, known, sum) == PriceAll(reports[..i], prices)
    {
      PriceStep(reports, i, prices);
      var part := PartOf(reports[i], prices);
      parts := parts + [part];
      input := input + part.report.tokens.input;
      output := output + part.report.tokens.output;
      total := total + part.report.tokens.total;
      if part.cost.None? {
        known := false;
      } else {
        sum := sum + part.cost.value;
      }
    }
    assert reports[..|reports|] == reports;
    PricedAll(reports, prices);
    sums, cost := Tokens(input, output, total), if known then Some(sum) else None;
  }

  lemma PartTokens(r: Report, prices: map<Key, Price>)
    ensures var tokens := PartOf(r, prices).report.tokens;
            tokens.input == Of(r.tokens, Input) && tokens.output == Of(r.tokens, Output)
                && tokens.total == Of(r.tokens, Whole)
  {
  }

  /** A stored usage stands for its parts, or for itself where it has none. */
  function Leaves(u: PricedRun): seq<Priced> {
    if u.parts != [] then u.parts else [Priced(Report(u.key, u.whole), u.cost)]
  }

  /** A usage as it is stored: nothing in it is negative, and its parts, if it has any, add up to it. */
  ghost predicate Stored(u: PricedRun) {
    && AllNonNegative(Reports(Leaves(u)))
    && (u.parts != [] ==> forall field :: Sum(Reports(u.parts), field) == Of(u.whole, field))
  }

  /** The usage accounts for some reports: as a whole and model by model. */
  ghost predicate Accounts(u: PricedRun, reports: seq<Report>) {
    && Stored(u)
    && (forall field :: Of(u.whole, field) == Sum(reports, field))
    && (forall key, field :: SumOf(Reports(Leaves(u)), key, field) == SumOf(reports, key, field))
  }

  /** What a run reports is stored whole: no part is dropped, whatever the models reported. */
  method StoreRunUsage(tracker: Tracker, key: Key, prices: map<Key, Price>) returns (priced: PricedRun)
    requires tracker.Valid()
    ensures Accounts(priced, tracker.reports)
    ensures |priced.parts| == |tracker.byModel|
  {
    var usage := tracker.Snapshot();
    priced := PricedRunUsage(usage, key, prices);
    PartsLength(usage.parts, prices);
    if usage.parts == [] {
      NothingUsed(priced, tracker.reports);
    } else {
      PartsAccount(priced, usage.parts, prices, tracker.reports);
    }
  }

  lemma {:induction false} PartsAccount(u: PricedRun, parts: seq<Report>, prices: map<Key, Price>, reports: seq<Report>)
    requires u.parts == PartsOf(parts, prices) && parts != [] && AllNonNegative(parts)
    requires forall field :: Of(u.whole, field) == Sum(reports, field)
    requires forall field :: Sum(parts, field) == Sum(reports, field)
    requires forall key, field :: SumOf(parts, key, field) == SumOf(reports, key, field)
    ensures Accounts(u, reports)
  {
    PartsLength(parts, prices);
    PartsNonNegative(parts, prices);
    assert |u.parts| == |parts| && Leaves(u) == u.parts;
    forall field ensures Sum(Reports(u.parts), field) == Of(u.whole, field) {
      PricedSum(parts, prices, 0, field);
    }
    forall key, field ensures SumOf(Reports(u.parts), key, field) == SumOf(reports, key, field) {
      PricedSum(parts, prices, key, field);
    }
  }

  /** Without parts nothing was used. */
  lemma {:induction false} NothingUsed(u: PricedRun, reports: seq<Report>)
    requires u.parts == [] && NonNegative(u.whole)
    requires forall field :: Of(u.whole, field) == Sum(reports, field)
    requires forall key, field :: SumOf(reports, key, field) == SumOf([], key, field)
    requires forall field :: Sum(reports, field) == Sum([], field)
    ensures Accounts(u, reports)
  {
    var leaf := Priced(Report(u.key, u.whole), u.cost);
    assert Leaves(u) == [leaf] && [leaf][1..] == [] && Reports([leaf]) == [leaf.report] && [leaf.report][1..] == [];
    assert AllNonNegative([leaf.report]);
    forall key, field ensures SumOf(Reports(Leaves(u)), key, field) == SumOf(reports, key, field) {
      assert SumOf([], key, field) == 0 && Sum([], field) == 0 && Of(u.whole, field) == Sum(reports, field);
    }
  }

  lemma {:induction false} PartsNonNegative(reports: seq<Report>, prices: map<Key, Price>)
    requires AllNonNegative(reports)
    ensures AllNonNegative(Reports(PartsOf(reports, prices)))
  {
    if reports != [] {
      var n := |reports| - 1;
      PartsNonNegative(reports[..n], prices);
      var last := PartOf(reports[n], prices);
      ReportsAppend(PartsOf(reports[..n], prices), [last]);
      assert [last][1..] == [] && Reports([last]) == [last.report];
      assert reports[n] in reports;
    }
  }

  lemma {:induction false} PartsLength(reports: seq<Report>, prices: map<Key, Price>)
    ensures |PartsOf(reports, prices)| == |reports|
  {
    if reports != [] { PartsLength(reports[..|reports| - 1], prices); }
  }

  lemma {:induction false} ReportsAppend(a: seq<Priced>, b: seq<Priced>)
    ensures Reports(a + b) == Reports(a) + Reports(b)
  {
    if a == [] {
      assert a + b == b;
    } else {
      ReportsAppend(a[1..], b);
      assert (a + b)[1..] == a[1..] + b && (a + b)[0] == a[0];
    }
  }

  lemma {:induction false} PricedSum(reports: seq<Report>, prices: map<Key, Price>, key: Key, field: Field)
    ensures Sum(Reports(PartsOf(reports, prices)), field) == Sum(reports, field)
    ensures SumOf(Reports(PartsOf(reports, prices)), key, field) == SumOf(reports, key, field)
    decreases |reports|
  {
    if reports != [] {
      var n := |reports| - 1;
      PricedSum(reports[..n], prices, key, field);
      var last := PartOf(reports[n], prices);
      ReportsAppend(PartsOf(reports[..n], prices), [last]);
      assert [last][1..] == [] && Reports([last]) == [last.report];
      BookKeeps(Reports(PartsOf(reports[..n], prices)), last.report);
      assert reports == reports[..n] + [reports[n]];
      BookKeeps(reports[..n], reports[n]);
    }
  }

  lemma {:induction false} BookKeeps(reports: seq<Report>, r: Report)
    ensures forall field :: Sum(reports + [r], field) == Sum(reports, field) + Of(r.tokens, field)
    ensures forall key, field :: SumOf(reports + [r], key, field) == SumOf(reports, key, field) + Share(r, key, field)
  {
    assert [r][1..] == [];
    forall field ensures Sum(reports + [r], field) == Sum(reports, field) + Of(r.tokens, field) {
      SumAppend(reports, [r], field);
    }
    forall key, field ensures SumOf(reports + [r], key, field) == SumOf(reports, key, field) + Share(r, key, field) {
      SumOfAppend(reports, [r], key, field);
    }
  }
}
