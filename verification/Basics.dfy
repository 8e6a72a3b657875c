/** What several modules need. */
module Basics {

  datatype Option<T> = None | Some(value: T)

  function Max(a: nat, b: nat): nat {
    if a < b then b else a
  }

  method Pick<T(==)>(values: set<T>) returns (value: T)
    requires values != {}
    ensures value in values
  {
    value :| value in values;
  }

  predicate Increasing(values: seq<int>) {
    forall i, j :: 0 <= i < j < |values| ==> values[i] < values[j]
  }

  /** Values in order. */
  method Sorted(values: set<int>) returns (sorted: seq<int>)
    ensures Increasing(sorted) && |sorted| == |values|
    ensures forall value :: value in sorted <==> value in values
  {
    sorted := [];
    var rest := values;
    while rest != {}
      invariant rest <= values && Increasing(sorted) && |sorted| == |values| - |rest|
      invariant forall value :: value in sorted <==> value in values - rest
      decreases rest
    {
      var value := Pick(rest);
      rest := rest - {value};
      var at := 0;
      while at < |sorted| && sorted[at] < value
        invariant at <= |sorted|
        invariant forall i :: 0 <= i < at ==> sorted[i] < value
      {
        at := at + 1;
      }
      Inserted(sorted, at, value);
      sorted := sorted[..at] + [value] + sorted[at..];
    }
  }

  lemma Inserted(values: seq<int>, at: nat, value: int)
    requires Increasing(values) && value !in values && at <= |values|
    requires (forall i :: 0 <= i < at ==> values[i] < value) && (at < |values| ==> value <= values[at])
    ensures Increasing(values[..at] + [value] + values[at..])
    ensures forall k :: k in values[..at] + [value] + values[at..] <==> k == value || k in values
  {
    assert values == values[..at] + values[at..];
    forall i | at <= i < |values| ensures value < values[i] {
      assert values[i] in values && values[at] <= values[i];
    }
  }
}
