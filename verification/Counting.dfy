/** Counting arguments over sequences of numbers. */
module Counting {

  ghost predicate Distinct<T>(p: seq<T>) {
    forall i, j | 0 <= i < j < |p| :: p[i] != p[j]
  }

  ghost predicate Bounded(p: seq<nat>, bound: nat) {
    forall i | 0 <= i < |p| :: p[i] < bound
  }

  function Total(p: seq<nat>): nat {
    if p == [] then 0 else Total(p[..|p| - 1]) + p[|p| - 1]
  }

  function Without<T>(p: seq<T>, i: nat): (r: seq<T>)
    requires i < |p|
    ensures |r| == |p| - 1
    ensures forall j | 0 <= j < |r| :: r[j] == p[if j < i then j else j + 1]
  {
    p[..i] + p[i + 1..]
  }

  /** At most `bound` distinct numbers lie below `bound`. */
  lemma {:induction false} Pigeonhole(p: seq<nat>, bound: nat)
    requires Distinct(p) && Bounded(p, bound)
    ensures |p| <= bound
    decreases bound
  {
    if p != [] {
      assert p[0] < bound;
      if i :| 0 <= i < |p| && p[i] == bound - 1 {
        Pigeonhole(Without(p, i), bound - 1);
      } else {
        Pigeonhole(p, bound - 1);
      }
    }
  }

  /** `bound` distinct numbers below `bound` are all of them. */
  lemma {:induction false} Covers(p: seq<nat>, bound: nat, v: nat)
    requires Distinct(p) && Bounded(p, bound) && |p| == bound && v < bound
    ensures exists i :: 0 <= i < |p| && p[i] == v
  {
    if forall i | 0 <= i < |p| :: p[i] != v {
      var q := seq(|p|, i requires 0 <= i < |p| => if p[i] == bound - 1 then v else p[i]);
      Pigeonhole(q, bound - 1);
    }
  }

  lemma IndexOf<T>(p: seq<T>, x: T) returns (i: nat)
    requires x in multiset(p)
    ensures i < |p| && p[i] == x
  {
    assert x in p;
    i :| 0 <= i < |p| && p[i] == x;
  }

  lemma ExactDivision(k: nat, x: int)
    requires k > 0
    ensures (k * x) / k == x
  {
    var q := (k * x) / k;
    assert 0 <= k * x - k * q < k;
    assert k * x - k * q == k * (x - q);
    assert k * (q - x) == -(k * (x - q));
    ScaleUp(k, x - q);
    ScaleUp(k, q - x);
  }

  lemma ScaleUp(k: nat, d: int)
    ensures d >= 1 ==> k * d >= k
  {
  }

  lemma RepeatedCount<T>(p: seq<T>, i: nat, j: nat)
    requires i < j < |p| && p[i] == p[j]
    ensures multiset(p)[p[i]] >= 2
  {
    assert p == p[..j] + p[j..];
    assert p[..j][i] in multiset(p[..j]) && p[j..][0] in multiset(p[j..]);
  }
}
