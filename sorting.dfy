/** Ascending order on game counts: what `values.sort((a, b) => a - b)`
    produces, and the sum that `reduce((acc, val) => acc + val, 0)` folds. */
module Sorting {

  predicate Sorted(s: seq<nat>) {
    forall i, j :: 0 <= i < j < |s| ==> s[i] <= s[j]
  }

  /** Places `x` in front of the first element not below it. */
  function Insert(x: nat, s: seq<nat>): (r: seq<nat>)
    requires Sorted(s)
    ensures Sorted(r)
    ensures multiset(r) == multiset(s) + multiset{x}
  {
    if s == [] || x <= s[0] then
      ConsSorted(x, s);
      [x] + s
    else
      var rest := Insert(x, s[1..]);
      assert s == [s[0]] + s[1..];
      assert forall k :: 0 <= k < |rest| ==> s[0] <= rest[k] by {
        var t := s[1..] + [x];
        assert forall i :: 0 <= i < |t| ==> s[0] <= t[i] by {
          forall i | 0 <= i < |t| ensures s[0] <= t[i] {
            if i < |t| - 1 { assert t[i] == s[i + 1]; }
          }
        }
        BoundedBelow(s[0], t, rest);
      }
      ConsSorted(s[0], rest);
      [s[0]] + rest
  }

  /** An element no larger than the head of a sorted sequence can go in front. */
  lemma ConsSorted(h: nat, t: seq<nat>)
    requires Sorted(t)
    requires t != [] ==> h <= t[0]
    ensures Sorted([h] + t)
  {
  }

  /** A lower bound of every element carries over to a permutation. */
  lemma BoundedBelow(m: nat, t: seq<nat>, r: seq<nat>)
    requires forall i :: 0 <= i < |t| ==> m <= t[i]
    requires multiset(r) == multiset(t)
    ensures forall k :: 0 <= k < |r| ==> m <= r[k]
  {
    forall k | 0 <= k < |r|
      ensures m <= r[k]
    {
      assert r[k] in multiset(t);
    }
  }

  /** The ascending permutation of `s`. The runtime's sorting algorithm is
      not modelled, only its result, which `SortedUnique` shows is the only
      possible one. */
  function SortAscending(s: seq<nat>): (r: seq<nat>)
    ensures Sorted(r)
    ensures multiset(r) == multiset(s)
    ensures |r| == |s|
  {
    if s == [] then []
    else
      assert s == [s[0]] + s[1..];
      Insert(s[0], SortAscending(s[1..]))
  }

  /** Two ascending sequences holding the same values are equal: the sorted
      values do not depend on the order of the input. */
  lemma {:induction false} SortedUnique(a: seq<nat>, b: seq<nat>)
    requires Sorted(a) && Sorted(b)
    requires multiset(a) == multiset(b)
    ensures a == b
  {
    assert |a| == |multiset(a)| == |multiset(b)| == |b|;
    if a != [] {
      SameHead(a, b);
      var a', b' := a[1..], b[1..];
      assert a == [a[0]] + a';
      assert b == [b[0]] + b';
      assert multiset(a') == multiset(a) - multiset{a[0]};
      assert multiset(b') == multiset(b) - multiset{b[0]};
      SortedUnique(a', b');
    }
  }

  /** The head of a non-empty sorted sequence is its least value, so two with
      the same values start alike. */
  lemma SameHead(a: seq<nat>, b: seq<nat>)
    requires Sorted(a) && Sorted(b) && a != [] && b != []
    requires multiset(a) == multiset(b)
    ensures a[0] == b[0]
  {
    assert a[0] in multiset(b);
    var j :| 0 <= j < |b| && b[j] == a[0];
    assert b[0] <= a[0] by { assert j == 0 || b[0] <= b[j]; }
    assert b[0] in multiset(a);
    var k :| 0 <= k < |a| && a[k] == b[0];
    assert a[0] <= b[0] by { assert k == 0 || a[0] <= a[k]; }
  }

  /** Sorting inputs that hold the same values gives the same sequence. */
  lemma SortPermutationInvariant(xs: seq<nat>, ys: seq<nat>)
    requires multiset(xs) == multiset(ys)
    ensures SortAscending(xs) == SortAscending(ys)
  {
    SortedUnique(SortAscending(xs), SortAscending(ys));
  }

  /** The total of a sequence of counts, at least as large as each of them. */
  function Sum(s: seq<nat>): (r: nat)
    ensures forall i :: 0 <= i < |s| ==> s[i] <= r
  {
    if s == [] then 0
    else
      assert forall i :: 1 <= i < |s| ==> s[i] == s[1..][i - 1];
      s[0] + Sum(s[1..])
  }

  lemma {:induction false} SumInsert(x: nat, s: seq<nat>)
    requires Sorted(s)
    ensures Sum(Insert(x, s)) == x + Sum(s)
  {
    if s != [] && x > s[0] {
      SumInsert(x, s[1..]);
    }
  }

  /** Sorting does not change the total. */
  lemma {:induction false} SumSortAscending(s: seq<nat>)
    ensures Sum(SortAscending(s)) == Sum(s)
  {
    if s != [] {
      SumSortAscending(s[1..]);
      SumInsert(s[0], SortAscending(s[1..]));
    }
  }

  lemma MulSucc(n: nat, x: nat)
    ensures (n + 1) * x == x + n * x
  {
  }

  /** A sum of `|s|` values between `lo` and `hi` lies between `|s| * lo`
      and `|s| * hi`. */
  lemma {:induction false} SumBounds(s: seq<nat>, lo: nat, hi: nat)
    requires forall i :: 0 <= i < |s| ==> lo <= s[i] <= hi
    ensures |s| * lo <= Sum(s) <= |s| * hi
  {
    if s != [] {
      var n := |s| - 1;
      var t := s[1..];
      assert forall i :: 0 <= i < |t| ==> lo <= t[i] <= hi by {
        forall i | 0 <= i < |t| ensures lo <= t[i] <= hi {
          assert t[i] == s[i + 1];
        }
      }
      SumBounds(t, lo, hi);
      assert Sum(s) == s[0] + Sum(t);
      assert |s| * lo == lo + n * lo by { MulSucc(n, lo); }
      assert |s| * hi == hi + n * hi by { MulSucc(n, hi); }
    }
  }
}
