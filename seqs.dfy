/** Sequence helpers standing in for the Python built-ins the pipeline uses:
    sum, min, max, a flattening comprehension and list.index. */
module Seqs {

  /** sum(s) */
  function Sum(s: seq<int>): int
  {
    if s == [] then 0 else s[0] + Sum(s[1..])
  }

  /** A pointwise smaller sequence has a smaller sum. */
  lemma {:induction false} SumMonotone(a: seq<int>, b: seq<int>)
    requires |a| == |b|
    requires forall i :: 0 <= i < |a| ==> a[i] <= b[i]
    ensures Sum(a) <= Sum(b)
  {
    if a != [] {
      SumMonotone(a[1..], b[1..]);
    }
  }

  /** A sum of non-negative values is non-negative. */
  lemma {:induction false} SumNonNegative(s: seq<int>)
    requires forall i :: 0 <= i < |s| ==> 0 <= s[i]
    ensures 0 <= Sum(s)
  {
    if s != [] {
      SumNonNegative(s[1..]);
    }
  }

  /** The sum of |s| values that all lie in [lo, hi] lies in [|s| * lo, |s| * hi]. */
  lemma {:induction false} SumBounds(s: seq<int>, lo: int, hi: int)
    requires forall i :: 0 <= i < |s| ==> lo <= s[i] <= hi
    ensures |s| * lo <= Sum(s) <= |s| * hi
  {
    if s != [] {
      SumBounds(s[1..], lo, hi);
      assert |s| * lo == (|s| - 1) * lo + lo;
      assert |s| * hi == (|s| - 1) * hi + hi;
    }
  }

  /** min(s) on a non-empty list: an element of s that no element undercuts. */
  function Min(s: seq<int>): (m: int)
    requires s != []
    ensures m in s
    ensures forall i :: 0 <= i < |s| ==> m <= s[i]
  {
    if |s| == 1 then s[0]
    else
      var rest := Min(s[1..]);
      if s[0] <= rest then s[0] else rest
  }

  /** max(s) on a non-empty list: an element of s that no element exceeds. */
  function Max(s: seq<int>): (m: int)
    requires s != []
    ensures m in s
    ensures forall i :: 0 <= i < |s| ==> s[i] <= m
  {
    if |s| == 1 then s[0]
    else
      var rest := Max(s[1..]);
      if s[0] >= rest then s[0] else rest
  }

  /** [x for row in ss for x in row]: exactly the elements of the rows. */
  function Flatten(ss: seq<seq<int>>): (r: seq<int>)
    ensures forall x :: x in r <==> exists i :: 0 <= i < |ss| && x in ss[i]
    ensures r == [] <==> forall i :: 0 <= i < |ss| ==> ss[i] == []
  {
    if ss == [] then [] else ss[0] + Flatten(ss[1..])
  }

  /** The index of the first occurrence of x in s, or |s| when x does not occur. */
  function FirstIndex(s: seq<int>, x: int): (r: nat)
    ensures x in s ==> r < |s| && s[r] == x && x !in s[..r]
    ensures x !in s ==> r == |s|
  {
    if x !in s then |s|
    else if x in s[..|s| - 1] then FirstIndex(s[..|s| - 1], x)
    else |s| - 1
  }

  /** The elements of s that keep admits, in their order (a loop that appends what passes). */
  function Filter<T>(s: seq<T>, keep: T -> bool): (r: seq<T>)
    ensures |r| <= |s|
  {
    if s == [] then []
    else Filter(s[..|s| - 1], keep) + (if keep(s[|s| - 1]) then [s[|s| - 1]] else [])
  }

  /** Every element of the filtered sequence is an element of s that keep admits. */
  lemma {:induction false} FilterMembers<T>(s: seq<T>, keep: T -> bool)
    ensures forall k :: 0 <= k < |Filter(s, keep)| ==> Filter(s, keep)[k] in s && keep(Filter(s, keep)[k])
  {
    if s != [] {
      var front := s[..|s| - 1];
      FilterMembers(front, keep);
      assert forall x :: x in front ==> x in s;
    }
  }

  /** An admitted element i lands at position |Filter(s[..i])|. */
  lemma {:induction false} FilterPlacement<T>(s: seq<T>, keep: T -> bool, i: nat)
    requires i < |s| && keep(s[i])
    ensures |Filter(s[..i], keep)| < |Filter(s, keep)|
    ensures Filter(s, keep)[|Filter(s[..i], keep)|] == s[i]
  {
    var n := |s|;
    var front := s[..n - 1];
    if i < n - 1 {
      FilterPlacement(front, keep, i);
      assert s[..i] == front[..i];
      var r, rf := Filter(s, keep), Filter(front, keep);
      assert r[..|rf|] == rf;
    } else {
      assert s[..i] == front;
    }
  }

  /** Every position k of the filtered sequence holds an admitted element i with
      |Filter(s[..i])| == k: with FilterPlacement, Filter keeps exactly the admitted elements,
      in their order. */
  lemma {:induction false} FilterOrigin<T>(s: seq<T>, keep: T -> bool, k: nat)
    requires k < |Filter(s, keep)|
    ensures exists i :: 0 <= i < |s| && keep(s[i]) && |Filter(s[..i], keep)| == k && Filter(s, keep)[k] == s[i]
  {
    var n := |s|;
    var front := s[..n - 1];
    var r, rf := Filter(s, keep), Filter(front, keep);
    if k < |rf| {
      FilterOrigin(front, keep, k);
      var i :| 0 <= i < |front| && keep(front[i]) && |Filter(front[..i], keep)| == k && rf[k] == front[i];
      assert s[..i] == front[..i];
      assert r[..|rf|] == rf;
      assert r[k] == s[i];
    } else {
      assert s[..n - 1] == front;
      assert keep(s[n - 1]) && |Filter(s[..n - 1], keep)| == k && r[k] == s[n - 1];
    }
  }
}
