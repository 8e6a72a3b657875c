/** The order of release versions (src/bootstrap/update_check.go). */
module Version {
  // Numbers of any size are compared as texts, by length and then by character, and come out in the order of their
  // values.

  predicate IsDigit(c: char) {
    '0' <= c <= '9'
  }

  /** The ten digits of ASCII and what they stand for. */
  lemma DigitsAre(c: char)
    ensures IsDigit(c) <==> c in "0123456789"
    ensures forall k :: 0 <= k <= 9 ==> Digit("0123456789"[k]) == k
  {
    assert "0123456789" == ['0', '1', '2', '3', '4', '5', '6', '7', '8', '9'];
  }

  predicate Digits(s: string) {
    forall i :: 0 <= i < |s| ==> IsDigit(s[i])
  }

  function Pow10(n: nat): (p: nat)
    ensures p >= 1
  {
    if n == 0 then 1 else 10 * Pow10(n - 1)
  }

  function Digit(c: char): nat {
    if IsDigit(c) then (c - '0') as nat else 0
  }

  /** The natural number a text of digits stands for. */
  function Value(s: string): nat {
    if s == "" then 0 else Digit(s[0]) * Pow10(|s| - 1) + Value(s[1..])
  }

  /** How many digits a text starts with. */
  function DigitRun(s: string): (n: nat)
    ensures n <= |s| && Digits(s[..n]) && (n < |s| ==> !IsDigit(s[n]))
  {
    if s == "" || !IsDigit(s[0]) then 0
    else
      var n := 1 + DigitRun(s[1..]);
      assert forall i :: 0 < i < n ==> s[i] == s[1..][i - 1];
      n
  }

  /** The numbers of a version: the maximal runs of digits. */
  function Runs(s: string): seq<string>
    decreases |s|
  {
    if s == "" then []
    else if !IsDigit(s[0]) then Runs(s[1..])
    else
      var n := 1 + DigitRun(s[1..]);
      [s[..n]] + Runs(s[n..])
  }

  function Numbers(s: string): seq<nat> {
    var runs := Runs(s);
    seq(|runs|, i requires 0 <= i < |runs| => Value(runs[i]))
  }

  /** A component of a version; components that are left out are zero. */
  function At(v: seq<nat>, i: nat): nat {
    if i < |v| then v[i] else 0
  }

  predicate SameTo(a: seq<nat>, b: seq<nat>, n: nat) {
    forall i: nat :: i < n ==> At(a, i) == At(b, i)
  }

  /** Smaller in the first component that differs. */
  ghost predicate Less(a: seq<nat>, b: seq<nat>) {
    exists n: nat :: SameTo(a, b, n) && At(a, n) < At(b, n)
  }

  // ---- Texts of digits and their values ----

  /** Without leading zeros. */
  predicate Canonical(s: string) {
    s != "" && Digits(s) && (s[0] == '0' ==> s == "0")
  }

  function Trimmed(s: string): string {
    if s != "" && s[0] == '0' then Trimmed(s[1..]) else s
  }

  function Part(s: string): string {
    if Trimmed(s) == "" then "0" else Trimmed(s)
  }

  lemma {:induction false} TrimmedKeeps(s: string)
    requires Digits(s)
    ensures Value(Trimmed(s)) == Value(s) && Digits(Trimmed(s)) && (Trimmed(s) != "" ==> Trimmed(s)[0] != '0')
  {
    if s != "" && s[0] == '0' {
      assert Digit('0') * Pow10(|s| - 1) == 0;
      TrimmedKeeps(s[1..]);
    }
  }

  lemma {:induction false} PartKeeps(s: string)
    requires Digits(s)
    ensures Value(Part(s)) == Value(s) && Canonical(Part(s))
  {
    TrimmedKeeps(s);
    assert Value("0") == Digit('0') * Pow10(0) + Value("0"[1..]);
  }

  lemma Scaled(a: nat, b: nat, p: nat)
    requires a < b
    ensures a * p + p <= b * p
  {
    assert (a + 1) * p <= b * p;
  }

  lemma {:induction false} ValueBelow(s: string)
    requires Digits(s)
    ensures Value(s) < Pow10(|s|)
  {
    if s != "" {
      ValueBelow(s[1..]);
      Scaled(Digit(s[0]), 10, Pow10(|s| - 1));
    }
  }

  lemma {:induction false} ValueAbove(s: string)
    requires Digits(s) && s != "" && s[0] != '0'
    ensures Pow10(|s| - 1) <= Value(s)
  {
    Scaled(0, Digit(s[0]), Pow10(|s| - 1));
  }

  lemma {:induction false} PowMonotone(m: nat, n: nat)
    requires m <= n
    ensures Pow10(m) <= Pow10(n)
    decreases n
  {
    if m < n { PowMonotone(m, n - 1); }
  }

  lemma {:induction false} LongerIsLarger(s: string, t: string)
    requires Canonical(s) && Canonical(t) && |s| < |t|
    ensures Value(s) < Value(t)
  {
    ValueBelow(s);
    ValueAbove(t);
    PowMonotone(|s|, |t| - 1);
  }

  /** The order of texts of the same length, character by character. */
  predicate Before(s: string, t: string) {
    s != "" && t != "" && (s[0] < t[0] || (s[0] == t[0] && Before(s[1..], t[1..])))
  }

  lemma {:induction false} SameLengthOrder(s: string, t: string)
    requires Digits(s) && Digits(t) && |s| == |t|
    ensures Before(s, t) <==> Value(s) < Value(t)
    ensures s == t <==> Value(s) == Value(t)
  {
    if s != "" {
      SameLengthOrder(s[1..], t[1..]);
      ValueBelow(s[1..]);
      ValueBelow(t[1..]);
      var p := Pow10(|s| - 1);
      if s[0] < t[0] {
        Scaled(Digit(s[0]), Digit(t[0]), p);
      } else if t[0] < s[0] {
        Scaled(Digit(t[0]), Digit(s[0]), p);
      } else {
        assert s == [s[0]] + s[1..] && t == [t[0]] + t[1..];
      }
    }
  }

  // ---- What the numbers of a text are ----

  lemma {:induction false} RunBefore(a: string, b: string)
    requires DigitRun(a) < |a| || b == "" || !IsDigit(b[0])
    ensures DigitRun(a + b) == DigitRun(a)
  {
    if a == "" {
      assert a + b == b;
    } else {
      assert (a + b)[1..] == a[1..] + b && (a + b)[0] == a[0];
      if IsDigit(a[0]) { RunBefore(a[1..], b); }
    }
  }

  /** The place between two texts is inside a run of digits. */
  predicate Joins(a: string, b: string) {
    a != "" && b != "" && IsDigit(a[|a| - 1]) && IsDigit(b[0])
  }

  lemma {:induction false} RunReaches(a: string, b: string)
    requires a != "" && !Joins(a, b)
    ensures DigitRun(a) < |a| || b == "" || !IsDigit(b[0])
  {
    if DigitRun(a) == |a| { assert a[..|a|] == a && IsDigit(a[|a| - 1]); }
  }

  /** The first number of a text is the first of whatever continues it. */
  lemma FirstRun(a: string, b: string) returns (n: nat)
    requires a != "" && IsDigit(a[0]) && !Joins(a, b)
    ensures 1 <= n <= |a| && !Joins(a[n..], b)
    ensures Runs(a) == [a[..n]] + Runs(a[n..]) && Runs(a + b) == [a[..n]] + Runs(a[n..] + b)
  {
    n := 1 + DigitRun(a[1..]);
    if a[1..] != "" { RunReaches(a[1..], b); }
    RunBefore(a[1..], b);
    SameStart(a, b, n);
    assert a[n..] != "" ==> a[n..][|a[n..]| - 1] == a[|a| - 1];
  }

  lemma SameStart(a: string, b: string, n: nat)
    requires 1 <= n <= |a|
    ensures (a + b)[1..] == a[1..] + b && (a + b)[0] == a[0]
    ensures (a + b)[..n] == a[..n] && (a + b)[n..] == a[n..] + b
  {
  }

  /** The numbers of two texts side by side are theirs, unless they meet within a number. */
  lemma {:induction false} RunsSplit(a: string, b: string)
    requires !Joins(a, b)
    ensures Runs(a + b) == Runs(a) + Runs(b)
    decreases |a|
  {
    if a == "" {
      assert a + b == b;
    } else if !IsDigit(a[0]) {
      SameStart(a, b, 1);
      RunsSplit(a[1..], b);
    } else {
      var n := FirstRun(a, b);
      RunsSplit(a[n..], b);
      InFront(a[..n], Runs(a[n..]), Runs(b));
    }
  }

  lemma InFront(first: string, a: seq<string>, b: seq<string>)
    ensures [first] + (a + b) == ([first] + a) + b
  {
  }

  lemma {:induction false} RunOfDigits(s: string)
    requires Digits(s)
    ensures DigitRun(s) == |s|
  {
    if s != "" {
      assert IsDigit(s[0]);
      RunOfDigits(s[1..]);
    }
  }

  /** A text of digits is one number, and a text without digits has none. */
  lemma {:induction false} RunsOfOne(s: string)
    ensures s != "" && Digits(s) ==> Runs(s) == [s]
    ensures (forall c :: c in s ==> !IsDigit(c)) ==> Runs(s) == []
    decreases |s|
  {
    if s != "" {
      if IsDigit(s[0]) {
        if Digits(s) {
          RunOfDigits(s[1..]);
          assert s[..|s|] == s && s[|s|..] == "";
        }
      } else {
        RunsOfOne(s[1..]);
      }
    }
  }

  lemma PowStep(n: nat)
    ensures Pow10(n + 1) == 10 * Pow10(n)
  {
  }

  lemma Spread(d: nat, p: nat, v: nat, e: nat)
    ensures d * (10 * p) + (10 * v + e) == 10 * (d * p + v) + e
  {
  }

  /** One more digit makes ten times the number, and that digit. */
  lemma {:induction false} ValueAppend(s: string, c: char)
    requires Digits(s) && IsDigit(c)
    ensures Value(s + [c]) == 10 * Value(s) + (c as int - '0' as int)
  {
    if s == "" {
      assert s + [c] == [c] && [c][1..] == "";
      assert Value([c]) == Digit(c) * Pow10(0) + Value([c][1..]);
    } else {
      assert (s + [c])[1..] == s[1..] + [c] && (s + [c])[0] == s[0];
      ValueAppend(s[1..], c);
      PowStep(|s| - 1);
      Spread(Digit(s[0]), Pow10(|s| - 1), Value(s[1..]), Digit(c));
    }
  }

  // ---- The order of versions ----

  /** A version is not newer than itself, of two versions at most one is newer, newer than newer is newer, and of two
      versions neither is newer exactly when they agree in every component. */
  lemma LessIsStrictOrder(a: seq<nat>, b: seq<nat>, c: seq<nat>)
    ensures !Less(a, a)
    ensures !(Less(a, b) && Less(b, a))
    ensures Less(a, b) && Less(b, c) ==> Less(a, c)
    ensures !Less(a, b) && !Less(b, a) <==> forall n: nat :: SameTo(a, b, n)
  {
    if Less(a, b) {
      var m: nat :| SameTo(a, b, m) && At(a, m) < At(b, m);
      assert !SameTo(a, b, m + 1);
      if Less(b, c) {
        var n: nat :| SameTo(b, c, n) && At(b, n) < At(c, n);
        var k := if m < n then m else n;
        assert SameTo(a, c, k) && At(a, k) < At(c, k);
      }
      assert SameTo(b, a, m);
      FirstDifference(b, a, m);
    }
    if Less(b, a) {
      var m: nat :| SameTo(b, a, m) && At(b, m) < At(a, m);
      assert !SameTo(a, b, m + 1);
    }
    if !Less(a, b) && !Less(b, a) {
      forall n: nat ensures SameTo(a, b, n) {
        NoDifference(a, b, n);
      }
    }
  }

  lemma {:induction false} NoDifference(a: seq<nat>, b: seq<nat>, n: nat)
    requires !Less(a, b) && !Less(b, a)
    ensures SameTo(a, b, n)
  {
    if n != 0 {
      NoDifference(a, b, n - 1);
      assert SameTo(b, a, n - 1);
    }
  }

  // ---- The source's own form ----

  method VersionParts(value: string) returns (parts: seq<string>)
    ensures |parts| == |Runs(value)|
    ensures forall i :: 0 <= i < |parts| ==> parts[i] == Part(Runs(value)[i]) && Digits(Runs(value)[i])
  {
    parts := [];
    var from := 0;
    ghost var done: seq<string> := [];
    assert value[0..] == value;
    while from < |value|
      invariant 0 <= from <= |value| && Runs(value) == done + Runs(value[from..])
      invariant |parts| == |done|
      invariant forall i :: 0 <= i < |parts| ==> parts[i] == Part(done[i]) && Digits(done[i])
      decreases |value| - from
    {
      assert value[from..][1..] == value[from + 1..];
      if !IsDigit(value[from]) {
        from := from + 1;
        continue;
      }
      var to := FindEnd(value, from);
      RunsStep(value, from, to);
      assert done + ([value[from..to]] + Runs(value[to..])) == (done + [value[from..to]]) + Runs(value[to..]);
      var trimmed := TrimZeros(value[from..to]);
      if trimmed == "" {
        trimmed := "0";
      }
      parts := parts + [trimmed];
      done := done + [value[from..to]];
      from := to;
    }
    assert value[from..] == "";
  }

  lemma RunsStep(value: string, from: nat, to: nat)
    requires from < |value| && IsDigit(value[from]) && to == from + 1 + DigitRun(value[from + 1..]) <= |value|
    ensures Runs(value[from..]) == [value[from..to]] + Runs(value[to..])
  {
    var rest := value[from..];
    assert rest[1..] == value[from + 1..] && rest[..to - from] == value[from..to] && rest[to - from..] == value[to..];
  }

  method FindEnd(value: string, from: nat) returns (to: nat)
    requires from < |value| && IsDigit(value[from])
    ensures to == from + 1 + DigitRun(value[from + 1..]) && to <= |value| && Digits(value[from..to])
  {
    to := from + 1;
    while to < |value| && IsDigit(value[to])
      invariant from < to <= |value| && Digits(value[from..to])
      invariant DigitRun(value[from + 1..]) == to - (from + 1) + DigitRun(value[to..])
    {
      assert value[to..][1..] == value[to + 1..];
      assert value[from..to + 1] == value[from..to] + [value[to]];
      to := to + 1;
    }
  }

  method TrimZeros(value: string) returns (trimmed: string)
    ensures trimmed == Trimmed(value)
  {
    trimmed := value;
    while trimmed != "" && trimmed[0] == '0'
      invariant Trimmed(trimmed) == Trimmed(value)
      decreases |trimmed|
    {
      trimmed := trimmed[1..];
    }
  }

  method NewerVersion(current: string, latest: string) returns (newer: bool)
    ensures newer <==> Numbers(current) != [] && Numbers(latest) != [] && Less(Numbers(current), Numbers(latest))
  {
    var currentParts := VersionParts(current);
    var latestParts := VersionParts(latest);
    if |latestParts| == 0 || |currentParts| == 0 {
      return false;
    }
    ghost var a, b := Numbers(current), Numbers(latest);
    var length := |currentParts|;
    if |latestParts| > length {
      length := |latestParts|;
    }
    for index := 0 to length
      invariant SameTo(a, b, index)
    {
      var x := if index < |currentParts| then currentParts[index] else "0";
      var y := if index < |latestParts| then latestParts[index] else "0";
      ComponentValue(current, currentParts, index);
      ComponentValue(latest, latestParts, index);
      if |x| != |y| {
        if |x| < |y| { LongerIsLarger(x, y); } else { LongerIsLarger(y, x); }
        FirstDifference(a, b, index);
        return |y| > |x|;
      }
      SameLengthOrder(x, y);
      if x != y {
        FirstDifference(a, b, index);
        return Before(x, y);
      }
    }
    forall n: nat ensures SameTo(a, b, n) {
    }
    LessIsStrictOrder(a, b, a);
    return false;
  }

  lemma {:induction false} ComponentValue(value: string, parts: seq<string>, index: nat)
    requires |parts| == |Runs(value)|
    requires forall i :: 0 <= i < |parts| ==> parts[i] == Part(Runs(value)[i]) && Digits(Runs(value)[i])
    ensures var x := if index < |parts| then parts[index] else "0";
        Canonical(x) && Value(x) == At(Numbers(value), index)
  {
    if index < |parts| {
      PartKeeps(Runs(value)[index]);
    } else {
      PartKeeps("");
    }
  }

  lemma FirstDifference(a: seq<nat>, b: seq<nat>, n: nat)
    requires SameTo(a, b, n) && At(a, n) != At(b, n)
    ensures Less(a, b) <==> At(a, n) < At(b, n)
  {
    if Less(a, b) {
      var m: nat :| SameTo(a, b, m) && At(a, m) < At(b, m);
    }
  }
}
