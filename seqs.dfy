/**
 * The list operations the pages apply to their parcel arrays: `filter`,
 * `map` that rewrites only selected entries, `indexOf` and counting.
 */
module Seqs {

  /** `a` is an order-preserving sub-list of `b`. */
  predicate IsSubsequence<T(==)>(a: seq<T>, b: seq<T>)
    decreases |b|
  {
    if b == [] then a == []
    else (a != [] && a[0] == b[0] && IsSubsequence(a[1..], b[1..])) || IsSubsequence(a, b[1..])
  }

  /** Number of entries of `s` that satisfy `keep`. */
  function Count<T>(s: seq<T>, keep: T -> bool): (n: nat)
    ensures n <= |s|
    ensures n == 0 <==> forall i :: 0 <= i < |s| ==> !keep(s[i])
    ensures n == |s| <==> forall i :: 0 <= i < |s| ==> keep(s[i])
  {
    if s == [] then 0
    else
      assert forall i :: 1 <= i < |s| ==> s[i] == s[1..][i - 1];
      (if keep(s[0]) then 1 else 0) + Count(s[1..], keep)
  }

  /** Counts of two conditions no entry meets together add up to the count of either. */
  lemma {:induction false} CountDisjoint<T>(s: seq<T>, a: T -> bool, b: T -> bool, either: T -> bool)
    requires forall x :: !(a(x) && b(x))
    requires forall x :: either(x) == (a(x) || b(x))
    ensures Count(s, a) + Count(s, b) == Count(s, either)
  {
    if s != [] {
      CountDisjoint(s[1..], a, b, either);
    }
  }

  /**
   * `s.filter(keep)`: the order-preserving sub-list holding exactly the
   * entries that satisfy `keep`, each as often as it occurs in `s`.
   */
  function Filter<T(==)>(s: seq<T>, keep: T -> bool): (r: seq<T>)
    ensures IsSubsequence(r, s)
    ensures forall x :: x in r ==> x in s && keep(x)
    ensures forall x :: x in s && keep(x) ==> x in r
    ensures |r| == Count(s, keep)
  {
    if s == [] then []
    else
      var rest := Filter(s[1..], keep);
      assert forall i :: 1 <= i < |s| ==> s[i] == s[1..][i - 1];
      if keep(s[0]) then [s[0]] + rest else rest
  }

  /** Filtering with a condition every entry meets returns the list unchanged. */
  lemma {:induction false} FilterAll<T>(s: seq<T>, keep: T -> bool)
    requires forall i :: 0 <= i < |s| ==> keep(s[i])
    ensures Filter(s, keep) == s
  {
    if s != [] {
      FilterAll(s[1..], keep);
      assert [s[0]] + s[1..] == s;
    }
  }

  /** Filtering a concatenation filters each part. */
  lemma {:induction false} FilterSplit<T>(a: seq<T>, b: seq<T>, keep: T -> bool)
    ensures Filter(a + b, keep) == Filter(a, keep) + Filter(b, keep)
  {
    if a == [] {
      assert a + b == b;
    } else {
      assert (a + b)[0] == a[0];
      assert (a + b)[1..] == a[1..] + b;
      FilterSplit(a[1..], b, keep);
    }
  }

  /** Filtering drops a rejected last entry and keeps an all-accepted prefix. */
  lemma FilterDropsLast<T>(first: seq<T>, last: T, keep: T -> bool)
    requires forall i | 0 <= i < |first| :: keep(first[i])
    requires !keep(last)
    ensures Filter(first + [last], keep) == first
  {
    FilterSplit(first, [last], keep);
    assert Filter([last], keep) == [] by {
      assert [last][1..] == [];
    }
    FilterAll(first, keep);
  }

  /** Two filters in a row are one filter on the conjunction. */
  lemma {:induction false} FilterFilter<T>(s: seq<T>, p: T -> bool, q: T -> bool, both: T -> bool)
    requires forall x :: both(x) == (p(x) && q(x))
    ensures Filter(Filter(s, p), q) == Filter(s, both)
  {
    if s != [] {
      FilterFilter(s[1..], p, q, both);
      if p(s[0]) {
        assert ([s[0]] + Filter(s[1..], p))[1..] == Filter(s[1..], p);
      }
    }
  }

  /**
   * `s.map(x => sel(x) ? f(x) : x)`: the same list with each entry that
   * `sel` picks replaced by `f` of it, and every other entry untouched.
   */
  function MapWhere<T>(s: seq<T>, sel: T -> bool, f: T -> T): (r: seq<T>)
    ensures |r| == |s|
    ensures forall i :: 0 <= i < |s| ==> r[i] == (if sel(s[i]) then f(s[i]) else s[i])
  {
    if s == [] then []
    else [if sel(s[0]) then f(s[0]) else s[0]] + MapWhere(s[1..], sel, f)
  }

  /** `s.indexOf(x)`: the first position of `x`, or -1 when `x` does not occur. */
  function IndexOf<T(==)>(s: seq<T>, x: T): (r: int)
    ensures -1 <= r < |s|
    ensures r == -1 <==> x !in s
    ensures 0 <= r ==> s[r] == x && x !in s[..r]
  {
    if s == [] then -1
    else if s[0] == x then 0
    else
      var k := IndexOf(s[1..], x);
      if k == -1 then -1
      else
        assert s[..k + 1] == [s[0]] + s[1..][..k];
        k + 1
  }
}
