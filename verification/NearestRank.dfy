/** The nearest-rank 95th percentile: pick an element of the sorted values by its rank. */
module NearestRank {

  predicate Ascending(s: seq<nat>) {
    forall i, j :: 0 <= i < j < |s| ==> s[i] <= s[j]
  }

  function Insert(x: nat, s: seq<nat>): (r: seq<nat>)
    requires Ascending(s)
    ensures Ascending(r) && |r| == |s| + 1
    ensures r[0] == if s == [] || x <= s[0] then x else s[0]
  {
    if s == [] || x <= s[0] then [x] + s else [s[0]] + Insert(x, s[1..])
  }

  lemma {:induction false} InsertAdds(x: nat, s: seq<nat>)
    requires Ascending(s)
    ensures multiset(Insert(x, s)) == multiset(s) + multiset{x}
  {
    if s != [] && x > s[0] {
      InsertAdds(x, s[1..]);
      assert s == [s[0]] + s[1..];
    }
  }

  function Sorted(s: seq<nat>): (r: seq<nat>)
    ensures Ascending(r) && multiset(r) == multiset(s) && |r| == |s|
  {
    if s == [] then []
    else
      assert s == s[..|s| - 1] + [s[|s| - 1]];
      InsertAdds(s[|s| - 1], Sorted(s[..|s| - 1]));
      Insert(s[|s| - 1], Sorted(s[..|s| - 1]))
  }

  function Rank(n: nat): nat {
    (95 * n + 99) / 100
  }

  /** There is no percentile of nothing. */
  function P95(values: seq<nat>): nat
    requires values != []
  {
    Sorted(values)[if Rank(|values|) == 0 then 0 else Rank(|values|) - 1]
  }

  function AtMost(values: seq<nat>, v: nat): (n: nat)
    ensures n <= |values|
  {
    if values == [] then 0 else AtMost(values[..|values| - 1], v) + if values[|values| - 1] <= v then 1 else 0
  }

  function Below(values: seq<nat>, v: nat): (n: nat)
    ensures n <= |values|
  {
    if values == [] then 0 else Below(values[..|values| - 1], v) + if values[|values| - 1] < v then 1 else 0
  }

  /** At least 95% of the values are at most `v`, and fewer than 95% are below it. */
  predicate IsP95(values: seq<nat>, v: nat) {
    && v in values
    && 100 * AtMost(values, v) >= 95 * |values|
    && 100 * Below(values, v) < 95 * |values|
  }

  /** In ascending values, those at most `v` come first. */
  lemma {:induction false} CountsAscending(s: seq<nat>, v: nat, i: nat)
    requires Ascending(s) && i < |s|
    ensures s[i] <= v ==> AtMost(s, v) >= i + 1
    ensures s[i] >= v ==> Below(s, v) <= i
  {
    if i < |s| - 1 {
      CountsAscending(s[..|s| - 1], v, i);
    } else if i > 0 {
      CountsAscending(s[..|s| - 1], v, i - 1);
      if s[i] <= v { AllAtMost(s, v); }
    } else {
      assert s[..0] == [];
    }
  }

  lemma {:induction false} AllAtMost(s: seq<nat>, v: nat)
    requires forall i :: 0 <= i < |s| ==> s[i] <= v
    ensures AtMost(s, v) == |s|
  {
    if s != [] { AllAtMost(s[..|s| - 1], v); }
  }

  lemma {:induction false} SameCounts(a: seq<nat>, b: seq<nat>, v: nat)
    requires multiset(a) == multiset(b)
    ensures |a| == |b| && AtMost(a, v) == AtMost(b, v) && Below(a, v) == Below(b, v)
    decreases |a|
  {
    if a != [] {
      var k := FindLast(a, b);
      SameCounts(a[..|a| - 1], b[..k] + b[k + 1..], v);
      CountsWithout(b, k, v);
    } else {
      assert |multiset(b)| == 0;
    }
  }

  /** The last element of one occurs in the other, and without it they are still alike. */
  lemma FindLast(a: seq<nat>, b: seq<nat>) returns (k: nat)
    requires multiset(a) == multiset(b) && a != []
    ensures k < |b| && b[k] == a[|a| - 1] && multiset(a[..|a| - 1]) == multiset(b[..k] + b[k + 1..])
  {
    var x := a[|a| - 1];
    assert x in multiset(b);
    k :| 0 <= k < |b| && b[k] == x;
    WithoutAt(a, |a| - 1);
    WithoutAt(b, k);
    assert a[..|a| - 1] + a[|a|..] == a[..|a| - 1];
  }

  lemma WithoutAt(s: seq<nat>, k: nat)
    requires k < |s|
    ensures multiset(s[..k] + s[k + 1..]) == multiset(s) - multiset{s[k]}
  {
    assert s == (s[..k] + [s[k]]) + s[k + 1..];
  }

  lemma {:induction false} CountsWithout(b: seq<nat>, k: nat, v: nat)
    requires k < |b|
    ensures AtMost(b, v) == AtMost(b[..k] + b[k + 1..], v) + if b[k] <= v then 1 else 0
    ensures Below(b, v) == Below(b[..k] + b[k + 1..], v) + if b[k] < v then 1 else 0
  {
    if k < |b| - 1 {
      CountsWithout(b[..|b| - 1], k, v);
      var rest := b[..k] + b[k + 1..];
      assert rest[..|rest| - 1] == b[..|b| - 1][..k] + b[..|b| - 1][k + 1..];
    } else {
      assert b[..k] + b[k + 1..] == b[..|b| - 1];
    }
  }

  /** Whatever the order of the values. */
  lemma P95IsP95(values: seq<nat>)
    requires values != []
    ensures IsP95(values, P95(values))
  {
    var (s, v) := (Sorted(values), P95(values));
    var i := if Rank(|values|) == 0 then 0 else Rank(|values|) - 1;
    SameCounts(s, values, v);
    CountsAscending(s, v, i);
    assert v in multiset(s);
  }

  lemma {:induction false} CountsGrow(s: seq<nat>, a: nat, b: nat)
    requires a < b
    ensures AtMost(s, a) <= Below(s, b)
  {
    if s != [] { CountsGrow(s[..|s| - 1], a, b); }
  }

  /** Only one value can be the percentile. */
  lemma OnlyP95(values: seq<nat>, v: nat)
    requires values != [] && IsP95(values, v)
    ensures v == P95(values)
  {
    P95IsP95(values);
    var p := P95(values);
    if v < p { CountsGrow(values, v, p); }
    if p < v { CountsGrow(values, p, v); }
  }

  /** The order in which the values came does not matter. */
  lemma P95Unordered(a: seq<nat>, b: seq<nat>)
    requires a != [] && multiset(a) == multiset(b)
    ensures b != [] && P95(a) == P95(b)
  {
    var v := P95(a);
    P95IsP95(a);
    SameCounts(a, b, v);
    assert v in multiset(b);
    OnlyP95(b, v);
  }
}
