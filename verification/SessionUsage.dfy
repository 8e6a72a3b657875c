/** The usage of a session (src/application/usage.go). */
module SessionUsage {
  import opened Basics
  import opened Usage

  // What is stored with its runs, added up as a whole and model by model. Costs are exact reals.

  function Flat(values: seq<PricedRun>): seq<Priced> {
    if values == [] then [] else Leaves(values[0]) + Flat(values[1..])
  }

  function Wholes(values: seq<PricedRun>, field: Field): int {
    if values == [] then 0 else Of(values[0].whole, field) + Wholes(values[1..], field)
  }

  /** Counting the parts of every run counts every run once. */
  lemma {:induction false} FlatSum(values: seq<PricedRun>, field: Field)
    requires forall u :: u in values ==> Stored(u)
    ensures Sum(Reports(Flat(values)), field) == Wholes(values, field)
    decreases |values|
  {
    if values != [] {
      FlatSum(values[1..], field);
      ReportsAppend(Leaves(values[0]), Flat(values[1..]));
      SumAppend(Reports(Leaves(values[0])), Reports(Flat(values[1..])), field);
      assert Stored(values[0]);
      LeafSum(values[0], field);
    }
  }

  lemma LeafSum(u: PricedRun, field: Field)
    requires Stored(u)
    ensures Sum(Reports(Leaves(u)), field) == Of(u.whole, field)
  {
    if u.parts == [] {
      var leaf := Priced(Report(u.key, u.whole), u.cost);
      assert [leaf][1..] == [] && Reports([leaf]) == [leaf.report];
      assert [leaf.report][1..] == [];
    }
  }

  lemma {:induction false} ReportIn(parts: seq<Priced>, part: Priced)
    requires part in parts
    ensures part.report in Reports(parts)
  {
    if part != parts[0] { ReportIn(parts[1..], part); }
  }

  predicate NothingNegative(parts: seq<Priced>) {
    forall part :: part in parts ==> NonNegative(part.report.tokens)
  }

  lemma {:induction false} FlatNonNegative(values: seq<PricedRun>)
    requires forall u :: u in values ==> Stored(u)
    ensures NothingNegative(Flat(values))
    decreases |values|
  {
    if values != [] {
      FlatNonNegative(values[1..]);
      assert Stored(values[0]);
      forall part | part in Leaves(values[0]) ensures NonNegative(part.report.tokens) {
        ReportIn(Leaves(values[0]), part);
      }
    }
  }

  // ---- The summary ----

  datatype Scope = Everything | Model(key: Key)

  /** The part used tokens, of the model in question. */
  predicate Counts(part: Priced, scope: Scope) {
    Total(part.report.tokens) > 0 && (scope.Model? ==> part.report.key == scope.key)
  }

  function Used(parts: seq<Priced>, scope: Scope): seq<Priced> {
    if parts == [] then []
    else
      var front, last := parts[..|parts| - 1], parts[|parts| - 1];
      if Counts(last, scope) then Used(front, scope) + [last] else Used(front, scope)
  }

  /** The cost of the parts that used tokens: none without such parts, unknown if that of one is. */
  function CostIn(parts: seq<Priced>, scope: Scope): Option<real> {
    if Used(parts, scope) == [] then None else CostSum(Used(parts, scope))
  }

  datatype Summary = Summary(whole: Tokens, byModel: seq<Priced>, cost: Option<real>)

  function ModelsOf(byModel: seq<Priced>): seq<Key> {
    seq(|byModel|, i requires 0 <= i < |byModel| => byModel[i].report.key)
  }

  /** The totals are the sum over the runs. */
  predicate AddsUp(whole: Tokens, values: seq<PricedRun>) {
    whole.input == Wholes(values, Input) && whole.output == Wholes(values, Output)
        && whole.total == Wholes(values, Whole)
  }

  /** A group is the sum over the parts of its model. */
  predicate Group(group: Priced, parts: seq<Priced>) {
    Entry(group.report.tokens, Reports(parts), group.report.key) && group.cost == CostIn(parts, Model(group.report.key))
  }

  /** One group for every model that used tokens, in the order of the models. */
  ghost predicate Grouped(byModel: seq<Priced>, parts: seq<Priced>) {
    && Increasing(ModelsOf(byModel))
    && (forall key :: key in ModelsOf(byModel) <==> 0 < SumOf(Reports(parts), key, Whole))
    && (forall i :: 0 <= i < |byModel| ==> Group(byModel[i], parts))
  }

  ghost predicate Summarizes(summary: Summary, values: seq<PricedRun>) {
    AddsUp(summary.whole, values) && Grouped(summary.byModel, Flat(values))
        && summary.cost == CostIn(Flat(values), Everything)
  }

  method SummarizeUsageSnapshots(values: seq<PricedRun>) returns (summary: Summary)
    requires forall u :: u in values ==> Stored(u)
    ensures Summarizes(summary, values)
    ensures forall field :: Sum(Reports(summary.byModel), field) == Wholes(values, field)
  {
    var flat := Flatten(values);
    FlatNonNegative(values);
    var whole, groups, costs, cost := AddUp(flat);
    var byModel := ListedGroups(whole, groups, costs, flat);
    forall field ensures Sum(Reports(flat), field) == Wholes(values, field) {
      FlatSum(values, field);
    }
    summary := Summary(whole, byModel, cost);
  }

  method Flatten(values: seq<PricedRun>) returns (flat: seq<Priced>)
    ensures flat == Flat(values)
  {
    flat := [];
    assert values[0..] == values;
    for i := 0 to |values|
      invariant flat + Flat(values[i..]) == Flat(values)
    {
      assert values[i..][1..] == values[i + 1..];
      assert flat + (Leaves(values[i]) + Flat(values[i + 1..])) == (flat + Leaves(values[i])) + Flat(values[i + 1..]);
      flat := flat + Leaves(values[i]);
    }
  }

  /** The cost of every group so far, with nothing added up for a group without a part. */
  ghost predicate Costs(costs: map<Key, Option<real>>, groups: map<Key, Tokens>, parts: seq<Priced>) {
    && costs.Keys == groups.Keys
    && (forall key :: key in costs <==> Used(parts, Model(key)) != [])
    && (forall key :: key in costs ==> costs[key] == CostSum(Used(parts, Model(key))))
  }

  /** What the loop over the parts has so far. */
  datatype Adding = Adding(
    whole: Tokens,
    groups: map<Key, Tokens>,
    costs: map<Key, Option<real>>,
    used: bool,
    known: bool,
    sum: real)

  function AddPart(a: Adding, part: Priced): Adding {
    var costs := CostsAfter(a.costs, part);
    var whole, groups := Added(a.whole, part.report.tokens), AddedUnder(a.groups, part.report);
    if Total(part.report.tokens) <= 0 then Adding(whole, groups, costs, a.used, a.known, a.sum)
    else if part.cost.None? then Adding(whole, groups, costs, true, false, a.sum)
    else Adding(whole, groups, costs, true, a.known, a.sum + part.cost.value)
  }

  function AddParts(parts: seq<Priced>): Adding {
    if parts == [] then Adding(Tokens(0, 0, 0), map[], map[], false, true, 0.0)
    else AddPart(AddParts(parts[..|parts| - 1]), parts[|parts| - 1])
  }

  lemma AddPartsStep(parts: seq<Priced>, i: nat)
    requires i < |parts|
    ensures AddParts(parts[..i + 1]) == AddPart(AddParts(parts[..i]), parts[i])
  {
    assert parts[..i + 1][..i] == parts[..i];
  }

  method AddUp(parts: seq<Priced>)
    returns (whole: Tokens, groups: map<Key, Tokens>, costs: map<Key, Option<real>>, cost: Option<real>)
    requires NothingNegative(parts)
    ensures Ledger(whole, groups, Reports(parts)) && Costs(costs, groups, parts) && cost == CostIn(parts, Everything)
  {
    whole, groups, costs := Tokens(0, 0, 0), map[], map[];
    var sum, known, used := 0.0, true, false;
    for i := 0 to |parts|
      invariant Adding(whole, groups, costs, used, known, sum) == AddParts(parts[..i])
    {
      var part := parts[i];
      AddPartsStep(parts, i);
      whole := Added(whole, part.report.tokens);
      groups := AddedUnder(groups, part.report);
      if Total(part.report.tokens) <= 0 {
        continue;
      }
      used := true;
      costs := costs[part.report.key := AddCost(if part.report.key in costs then costs[part.report.key]
          else Some(0.0), part.cost)];
      if part.cost.None? {
        known := false;
      } else {
        sum := sum + part.cost.value;
      }
    }
    assert parts[..|parts|] == parts;
    AllAdded(parts);
    cost := if used && known then Some(sum) else None;
  }

  ghost predicate Fits(a: Adding, parts: seq<Priced>) {
    Ledger(a.whole, a.groups, Reports(parts)) && Costs(a.costs, a.groups, parts)
        && CostKnown(parts, a.used, a.known, a.sum)
  }

  lemma {:induction false} AllAdded(parts: seq<Priced>)
    requires NothingNegative(parts)
    ensures Fits(AddParts(parts), parts)
  {
    if parts != [] {
      var front, last := parts[..|parts| - 1], parts[|parts| - 1];
      AllAdded(front);
      assert parts == front + [last];
      FitsMore(AddParts(front), front, last, parts);
    }
  }

  lemma FitsMore(a: Adding, front: seq<Priced>, part: Priced, more: seq<Priced>)
    requires more == front + [part] && NonNegative(part.report.tokens) && Fits(a, front)
    ensures Fits(AddPart(a, part), more)
  {
    var b := AddPart(a, part);
    AddOne(a.whole, a.groups, a.costs, front, part, more, b.whole, b.groups, b.costs);
    CostOneMore(front, part, more, a.used, a.known, a.sum, b.used, b.known, b.sum);
  }

  /** What is known of the cost of some parts. */
  predicate CostKnown(parts: seq<Priced>, used: bool, known: bool, sum: real) {
    && (used <==> Used(parts, Everything) != [])
    && (if known then CostSum(Used(parts, Everything)) == Some(sum) else CostSum(Used(parts, Everything)) == None)
  }

  lemma CostOneMore(front: seq<Priced>, part: Priced, more: seq<Priced>, used: bool, known: bool, sum: real,
      used': bool, known': bool, sum': real)
    requires more == front + [part] && CostKnown(front, used, known, sum)
    requires Total(part.report.tokens) <= 0 ==> used' == used && known' == known && sum' == sum
    requires Total(part.report.tokens) > 0 ==> used' && known' == (known && part.cost.Some?)
    requires Total(part.report.tokens) > 0 && known' ==> sum' == sum + part.cost.value
    ensures CostKnown(more, used', known', sum')
  {
    UsedMore(front, part, Everything);
  }

  lemma AddOne(
    whole: Tokens, groups: map<Key, Tokens>, costs: map<Key, Option<real>>,
    front: seq<Priced>, part: Priced, more: seq<Priced>,
    whole': Tokens, groups': map<Key, Tokens>, costs': map<Key, Option<real>>)
    requires more == front + [part] && NonNegative(part.report.tokens)
    requires Ledger(whole, groups, Reports(front)) && Costs(costs, groups, front)
    requires whole' == Added(whole, part.report.tokens) && groups' == AddedUnder(groups, part.report)
        && costs' == CostsAfter(costs, part)
    ensures Ledger(whole', groups', Reports(more)) && Costs(costs', groups', more)
  {
    ReportsAppend(front, [part]);
    assert [part][1..] == [] && Reports([part]) == [part.report];
    LedgerAdds(whole, groups, Reports(front), part.report);
    CostsAdd(costs, groups, front, part);
  }

  lemma {:induction false} UsedMore(parts: seq<Priced>, part: Priced, scope: Scope)
    ensures Used(parts + [part], scope) == if Counts(part, scope) then Used(parts, scope) + [part]
        else Used(parts, scope)
    ensures CostSum(Used(parts + [part], scope))
            == if Counts(part, scope) then AddCost(CostSum(Used(parts, scope)), part.cost)
                else CostSum(Used(parts, scope))
  {
    assert (parts + [part])[..|parts|] == parts;
    var used := Used(parts, scope);
    assert (used + [part])[..|used|] == used;
  }

  function CostsAfter(costs: map<Key, Option<real>>, part: Priced): map<Key, Option<real>> {
    if Total(part.report.tokens) <= 0 then costs
    else costs[part.report.key := AddCost(if part.report.key in costs then costs[part.report.key]
        else Some(0.0), part.cost)]
  }

  lemma CostsAdd(costs: map<Key, Option<real>>, groups: map<Key, Tokens>, parts: seq<Priced>, part: Priced)
    requires Costs(costs, groups, parts)
    ensures Costs(CostsAfter(costs, part), AddedUnder(groups, part.report), parts + [part])
  {
    var more := CostsAfter(costs, part);
    forall key
      ensures key in more <==> Used(parts + [part], Model(key)) != []
      ensures key in more ==> more[key] == CostSum(Used(parts + [part], Model(key)))
    {
      UsedMore(parts, part, Model(key));
    }
  }

  /** The groups in the order of their models. */
  method ListedGroups(ghost whole: Tokens, groups: map<Key, Tokens>, costs: map<Key, Option<real>>,
      ghost parts: seq<Priced>)
    returns (byModel: seq<Priced>)
    requires Ledger(whole, groups, Reports(parts)) && Costs(costs, groups, parts)
    ensures Grouped(byModel, parts)
    ensures forall field :: Sum(Reports(byModel), field) == Sum(Reports(parts), field)
  {
    var listed := Listed(whole, groups, Reports(parts));
    byModel := [];
    for i := 0 to |listed|
      invariant |byModel| == i
      invariant forall j :: 0 <= j < i ==> byModel[j] == Priced(listed[j], costs[listed[j].key])
    {
      byModel := byModel + [Priced(listed[i], costs[listed[i].key])];
    }
    ReportsListed(byModel, listed);
    GroupsFit(whole, groups, costs, parts, listed, byModel);
  }

  lemma {:induction false} ReportsListed(parts: seq<Priced>, reports: seq<Report>)
    requires |parts| == |reports| && forall i :: 0 <= i < |parts| ==> parts[i].report == reports[i]
    ensures Reports(parts) == reports
  {
    if parts != [] { ReportsListed(parts[1..], reports[1..]); }
  }

  lemma {:induction false} GroupsFit(whole: Tokens, groups: map<Key, Tokens>, costs: map<Key, Option<real>>,
      parts: seq<Priced>,
      listed: seq<Report>, byModel: seq<Priced>)
    requires Ledger(whole, groups, Reports(parts)) && Costs(costs, groups, parts)
    requires Increasing(KeysOf(listed)) && forall key :: key in KeysOf(listed) <==> key in groups
    requires forall i :: 0 <= i < |listed| ==> listed[i].key in groups && listed[i].tokens == groups[listed[i].key]
    requires |byModel| == |listed| && forall i ::
        0 <= i < |listed| ==> byModel[i] == Priced(listed[i], costs[listed[i].key])
    ensures Grouped(byModel, parts)
  {
    assert ModelsOf(byModel) == KeysOf(listed);
    forall i | 0 <= i < |byModel| ensures Group(byModel[i], parts) {
      assert Part(groups[listed[i].key], Reports(parts), listed[i].key);
    }
    forall key ensures key in ModelsOf(byModel) <==> 0 < SumOf(Reports(parts), key, Whole) {
      if key in groups { assert Part(groups[key], Reports(parts), key); }
    }
  }

  // ---- The order of the runs ----

  lemma {:induction false} FlatAppend(a: seq<PricedRun>, b: seq<PricedRun>)
    ensures Flat(a + b) == Flat(a) + Flat(b)
    decreases |a|
  {
    if a == [] {
      assert a + b == b;
    } else {
      FlatAppend(a[1..], b);
      assert (a + b)[1..] == a[1..] + b && (a + b)[0] == a[0];
    }
  }

  lemma {:induction false} FlatPermuted(a: seq<PricedRun>, b: seq<PricedRun>)
    requires multiset(a) == multiset(b)
    ensures multiset(Flat(a)) == multiset(Flat(b))
    decreases |a|
  {
    if a == [] {
      NothingLeft(a, b);
    } else {
      var i := TakeOut(a, b);
      FlatPermuted(a[1..], b[..i] + b[i + 1..]);
      FlatAppend(b[..i], b[i..]);
      FlatAppend(b[..i], b[i + 1..]);
      assert b == b[..i] + b[i..] && b[i..][1..] == b[i + 1..];
    }
  }

  lemma {:induction false} ReportsPermuted(a: seq<Priced>, b: seq<Priced>)
    requires multiset(a) == multiset(b)
    ensures multiset(Reports(a)) == multiset(Reports(b))
    decreases |a|
  {
    if a == [] {
      NothingLeft(a, b);
    } else {
      var i := TakeOut(a, b);
      ReportsPermuted(a[1..], b[..i] + b[i + 1..]);
      ReportsAppend(b[..i], b[i..]);
      ReportsAppend(b[..i], b[i + 1..]);
      assert b == b[..i] + b[i..] && b[i..][1..] == b[i + 1..];
    }
  }

  lemma {:induction false} UsedAppend(a: seq<Priced>, b: seq<Priced>, scope: Scope)
    ensures Used(a + b, scope) == Used(a, scope) + Used(b, scope)
    decreases |b|
  {
    if b == [] {
      assert a + b == a;
    } else {
      var front, last := b[..|b| - 1], b[|b| - 1];
      UsedAppend(a, front, scope);
      assert a + b == (a + front) + [last];
      UsedMore(a + front, last, scope);
      assert Used(a, scope) + (Used(front, scope) + [last]) == (Used(a, scope) + Used(front, scope)) + [last];
    }
  }

  lemma {:induction false} CostAppend(a: seq<Priced>, b: seq<Priced>)
    ensures CostSum(a + b) == AddCost(CostSum(a), CostSum(b))
    decreases |b|
  {
    if b == [] {
      assert a + b == a;
    } else {
      var n := |b| - 1;
      CostAppend(a, b[..n]);
      assert a + b == (a + b[..n]) + [b[n]];
      CostMore(a + b[..n], b[n]);
    }
  }

  lemma {:induction false} CostMore(parts: seq<Priced>, part: Priced)
    ensures CostSum(parts + [part]) == AddCost(CostSum(parts), part.cost)
  {
    assert (parts + [part])[..|parts|] == parts;
  }

  lemma CostOne(part: Priced)
    ensures CostSum([part]) == AddCost(Some(0.0), part.cost)
  {
    assert [part] == [] + [part];
    CostMore([], part);
  }

  /** The cost of some parts, and whether there are any, does not depend on their order. */
  lemma {:induction false} CostPermuted(a: seq<Priced>, b: seq<Priced>, scope: Scope)
    requires multiset(a) == multiset(b)
    ensures CostSum(Used(a, scope)) == CostSum(Used(b, scope)) && |Used(a, scope)| == |Used(b, scope)|
    decreases |a|
  {
    if a == [] {
      NothingLeft(a, b);
    } else {
      var i := TakeOut(a, b);
      CostPermuted(a[1..], b[..i] + b[i + 1..], scope);
      assert a == [a[0]] + a[1..] && b == b[..i] + ([b[i]] + b[i + 1..]);
      CostFirst([], a[0], a[1..], scope);
      CostFirst(b[..i], b[i], b[i + 1..], scope);
      assert [] + ([a[0]] + a[1..]) == a && [] + a[1..] == a[1..];
    }
  }

  lemma UsedAround(front: seq<Priced>, part: Priced, back: seq<Priced>, scope: Scope)
    ensures Used(front + ([part] + back), scope)
            == Used(front, scope) + (if Counts(part, scope) then [part] + Used(back, scope) else Used(back, scope))
  {
    UsedAppend(front, [part] + back, scope);
    UsedAppend([part], back, scope);
    UsedMore([], part, scope);
    assert [] + [part] == [part];
    assert [] + Used(back, scope) == Used(back, scope);
  }

  lemma CostAround(front: seq<Priced>, part: Priced, back: seq<Priced>)
    ensures CostSum(front + ([part] + back)) == AddCost(part.cost, CostSum(front + back))
  {
    CostAppend(front, [part] + back);
    CostAppend([part], back);
    CostAppend(front, back);
    CostOne(part);
  }

  /** Taking a part out of its place. */
  lemma CostFirst(front: seq<Priced>, part: Priced, back: seq<Priced>, scope: Scope)
    ensures var all, rest := Used(front + ([part] + back), scope), Used(front + back, scope);
            if Counts(part, scope) then |all| == |rest| + 1 && CostSum(all) == AddCost(part.cost, CostSum(rest))
            else |all| == |rest| && CostSum(all) == CostSum(rest)
  {
    UsedAround(front, part, back, scope);
    UsedAppend(front, back, scope);
    CostAround(Used(front, scope), part, Used(back, scope));
  }

  /** The summary does not depend on the order of the runs, and there is only one. */
  lemma SummaryPermuted(a: Summary, values: seq<PricedRun>, b: Summary, others: seq<PricedRun>)
    requires Summarizes(a, values) && Summarizes(b, others) && multiset(values) == multiset(others)
    ensures a == b
  {
    var parts, more := Flat(values), Flat(others);
    FlatPermuted(values, others);
    ReportsPermuted(parts, more);
    WholesPermuted(values, others, Input);
    WholesPermuted(values, others, Output);
    WholesPermuted(values, others, Whole);
    CostPermuted(parts, more, Everything);
    SameModels(a.byModel, parts, b.byModel, more);
    forall i | 0 <= i < |a.byModel| ensures a.byModel[i] == b.byModel[i] {
      var key := a.byModel[i].report.key;
      assert ModelsOf(a.byModel)[i] == ModelsOf(b.byModel)[i] == key;
      SameGroup(a.byModel[i], parts, b.byModel[i], more);
    }
  }

  lemma {:induction false} SameModels(a: seq<Priced>, parts: seq<Priced>, b: seq<Priced>, more: seq<Priced>)
    requires Grouped(a, parts) && Grouped(b, more) && multiset(Reports(parts)) == multiset(Reports(more))
    ensures ModelsOf(a) == ModelsOf(b)
  {
    forall key ensures key in ModelsOf(a) <==> key in ModelsOf(b) {
      SumPermuted(Reports(parts), Reports(more), key, Whole);
    }
    SameOrder(ModelsOf(a), ModelsOf(b));
  }

  lemma {:induction false} SameGroup(a: Priced, parts: seq<Priced>, b: Priced, more: seq<Priced>)
    requires Group(a, parts) && Group(b, more) && a.report.key == b.report.key
    requires multiset(parts) == multiset(more) && multiset(Reports(parts)) == multiset(Reports(more))
    ensures a == b
  {
    var key := a.report.key;
    SumPermuted(Reports(parts), Reports(more), key, Input);
    SumPermuted(Reports(parts), Reports(more), key, Output);
    SumPermuted(Reports(parts), Reports(more), key, Whole);
    CostPermuted(parts, more, Model(key));
  }

  /** Two increasing sequences with the same elements are the same. */
  lemma {:induction false} SameOrder(a: seq<Key>, b: seq<Key>)
    requires Increasing(a) && Increasing(b) && forall key :: key in a <==> key in b
    ensures a == b
  {
    if a == [] {
      assert forall i :: 0 <= i < |b| ==> b[i] in b;
    } else {
      assert a[0] in b && b != [] && b[0] in a;
      assert a[0] == b[0];
      assert a == [a[0]] + a[1..] && b == [b[0]] + b[1..];
      assert a[0] !in a[1..] && b[0] !in b[1..];
      forall key | key in a[1..] ensures key in b[1..] {
        assert key in a;
      }
      forall key | key in b[1..] ensures key in a[1..] {
        assert key in b;
      }
      SameOrder(a[1..], b[1..]);
    }
  }

  lemma {:induction false} WholesAppend(a: seq<PricedRun>, b: seq<PricedRun>, field: Field)
    ensures Wholes(a + b, field) == Wholes(a, field) + Wholes(b, field)
    decreases |a|
  {
    if a == [] {
      assert a + b == b;
    } else {
      WholesAppend(a[1..], b, field);
      assert (a + b)[1..] == a[1..] + b && (a + b)[0] == a[0];
    }
  }

  lemma {:induction false} WholesWithout(values: seq<PricedRun>, i: nat, field: Field)
    requires i < |values|
    ensures Wholes(values, field) == Of(values[i].whole, field) + Wholes(values[..i] + values[i + 1..], field)
  {
    var front, back := values[..i], values[i..];
    assert values == front + back && back[1..] == values[i + 1..] && back == [values[i]] + values[i + 1..];
    WholesAppend(front, back, field);
    WholesAppend(front, values[i + 1..], field);
  }

  /** The runs of a session may be listed in any order. */
  lemma {:induction false} WholesPermuted(a: seq<PricedRun>, b: seq<PricedRun>, field: Field)
    requires multiset(a) == multiset(b)
    ensures Wholes(a, field) == Wholes(b, field)
    decreases |a|
  {
    if a == [] {
      NothingLeft(a, b);
    } else {
      var i := TakeOut(a, b);
      WholesWithout(b, i, field);
      WholesPermuted(a[1..], b[..i] + b[i + 1..], field);
    }
  }

  // ---- From the reports of the models to the summary ----

  function Concat(logs: seq<seq<Report>>): seq<Report> {
    if logs == [] then [] else logs[0] + Concat(logs[1..])
  }

  lemma {:induction false} SummedUp(values: seq<PricedRun>, logs: seq<seq<Report>>, key: Key, field: Field)
    requires |values| == |logs| && forall i :: 0 <= i < |values| ==> Accounts(values[i], logs[i])
    ensures Wholes(values, field) == Sum(Concat(logs), field)
    ensures SumOf(Reports(Flat(values)), key, field) == SumOf(Concat(logs), key, field)
    decreases |values|
  {
    if values != [] {
      SummedUp(values[1..], logs[1..], key, field);
      assert Accounts(values[0], logs[0]);
      SumAppend(logs[0], Concat(logs[1..]), field);
      SumOfAppend(logs[0], Concat(logs[1..]), key, field);
      ReportsAppend(Leaves(values[0]), Flat(values[1..]));
      SumOfAppend(Reports(Leaves(values[0])), Reports(Flat(values[1..])), key, field);
    }
  }

  /** Usage is conserved end to end: what a session shows, as a whole and for every model, is the sum over
      everything that the models of its runs have reported. */
  lemma {:induction false} ConservedEndToEnd(summary: Summary, values: seq<PricedRun>, logs: seq<seq<Report>>)
    requires |values| == |logs| && forall i :: 0 <= i < |values| ==> Accounts(values[i], logs[i])
    requires Summarizes(summary, values)
    ensures forall field :: AsShown(summary.whole, field) == Sum(Concat(logs), field)
    ensures forall key :: key in ModelsOf(summary.byModel) <==> 0 < SumOf(Concat(logs), key, Whole)
    ensures forall i ::
        0 <= i < |summary.byModel| ==>
          Entry(summary.byModel[i].report.tokens, Concat(logs), ModelsOf(summary.byModel)[i])
  {
    forall field ensures Wholes(values, field) == Sum(Concat(logs), field) {
      SummedUp(values, logs, 0, field);
    }
    forall key, field ensures SumOf(Reports(Flat(values)), key, field) == SumOf(Concat(logs), key, field) {
      SummedUp(values, logs, key, field);
    }
    forall i | 0 <= i < |summary.byModel|
      ensures Entry(summary.byModel[i].report.tokens, Concat(logs), ModelsOf(summary.byModel)[i])
    {
      assert Group(summary.byModel[i], Flat(values)) && ModelsOf(summary.byModel)[i] == summary.byModel[i].report.key;
    }
  }

  /** A count as it stands, without a total made up from the others. */
  function AsShown(u: Tokens, field: Field): int {
    match field
    case Input => u.input
    case Output => u.output
    case Whole => u.total
  }
}
