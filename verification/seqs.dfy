/** Generic sequence operations in the shape the application uses them: reduce, filter, sort. */
module Seqs {

  /** Left-to-right sum of `f` over `s`: `s.reduce((acc, x) => acc + f(x), 0)`. */
  function Sum<T>(s: seq<T>, f: T -> real): real {
    if |s| == 0 then 0.0 else Sum(s[..|s| - 1], f) + f(s[|s| - 1])
  }

  /** Sums distribute over concatenation, so the order of the fold does not matter. */
  lemma {:induction false} SumConcat<T>(a: seq<T>, b: seq<T>, f: T -> real)
    ensures Sum(a + b, f) == Sum(a, f) + Sum(b, f)
    decreases |b|
  {
    if |b| == 0 {
      assert a + b == a;
    } else {
      assert (a + b)[..|a + b| - 1] == a + b[..|b| - 1];
      SumConcat(a, b[..|b| - 1], f);
    }
  }

  lemma SumFront<T>(x: T, s: seq<T>, f: T -> real)
    ensures Sum([x] + s, f) == f(x) + Sum(s, f)
  {
    SumConcat([x], s, f);
    assert [x][..0] == [];
  }

  /** One more element of a prefix adds its summand. */
  lemma SumStep<T>(s: seq<T>, k: nat, f: T -> real)
    requires k < |s|
    ensures Sum(s[..k + 1], f) == Sum(s[..k], f) + f(s[k])
  {
    assert s[..k + 1][..k] == s[..k];
  }

  /** Pointwise-equal summands give equal sums. */
  lemma {:induction false} SumCongruent<T, U>(s: seq<T>, f: T -> real, t: seq<U>, g: U -> real)
    requires |s| == |t|
    requires forall i :: 0 <= i < |s| ==> f(s[i]) == g(t[i])
    ensures Sum(s, f) == Sum(t, g)
    decreases |s|
  {
    if |s| > 0 {
      SumCongruent(s[..|s| - 1], f, t[..|t| - 1], g);
    }
  }

  /** `s.filter(p)`: the elements satisfying `p`, in their original order. */
  function Filter<T>(s: seq<T>, p: T -> bool): (r: seq<T>)
    ensures |r| <= |s|
    ensures forall i :: 0 <= i < |r| ==> p(r[i])
    ensures multiset(r) <= multiset(s)
    ensures forall x | x in s :: multiset(r)[x] == if p(x) then multiset(s)[x] else 0
  {
    if |s| == 0 then []
    else
      assert s == [s[0]] + s[1..];
      (if p(s[0]) then [s[0]] else []) + Filter(s[1..], p)
  }

  /** Filtering a concatenation filters each part and keeps their order. */
  lemma {:induction false} FilterConcat<T>(a: seq<T>, b: seq<T>, p: T -> bool)
    ensures Filter(a + b, p) == Filter(a, p) + Filter(b, p)
    decreases |a|
  {
    if |a| == 0 {
      assert a + b == b;
    } else {
      assert (a + b)[1..] == a[1..] + b;
      FilterConcat(a[1..], b, p);
    }
  }

  /** A filter that every element passes is the identity. */
  lemma {:induction false} FilterAll<T>(s: seq<T>, p: T -> bool)
    requires forall i :: 0 <= i < |s| ==> p(s[i])
    ensures Filter(s, p) == s
    decreases |s|
  {
    if |s| > 0 {
      FilterAll(s[1..], p);
    }
  }

  predicate SortedDesc<T>(s: seq<T>, key: T -> int) {
    forall i, j :: 0 <= i < j < |s| ==> key(s[i]) >= key(s[j])
  }

  /** Places `x` after every element whose key is at least its own. */
  function Insert<T>(x: T, s: seq<T>, key: T -> int): (r: seq<T>)
    requires SortedDesc(s, key)
    ensures SortedDesc(r, key)
    ensures multiset(r) == multiset(s) + multiset{x}
    ensures |r| == |s| + 1
  {
    if |s| == 0 then [x]
    else if key(s[0]) < key(x) then [x] + s
    else
      assert s == [s[0]] + s[1..];
      var rest := Insert(x, s[1..], key);
      var t := s[1..] + [x];
      assert forall k | 0 <= k < |t| :: key(t[k]) <= key(s[0]) by {
        forall k | 0 <= k < |t| ensures key(t[k]) <= key(s[0]) {
          if k < |s| - 1 {
            assert t[k] == s[k + 1];
          }
        }
      }
      BoundCarries(rest, t, key(s[0]), key);
      ConsSorted(s[0], rest, key);
      [s[0]] + rest
  }

  /** A head no smaller than every element of a sorted tail keeps it sorted. */
  lemma ConsSorted<T>(h: T, rest: seq<T>, key: T -> int)
    requires SortedDesc(rest, key)
    requires forall k | 0 <= k < |rest| :: key(rest[k]) <= key(h)
    ensures SortedDesc([h] + rest, key)
  {
    var r := [h] + rest;
    forall i, j | 0 <= i < j < |r|
      ensures key(r[i]) >= key(r[j])
    {
      assert r[j] == rest[j - 1];
      if i > 0 {
        assert r[i] == rest[i - 1];
      }
    }
  }

  /** A bound on every element carries over to a permutation. */
  lemma BoundCarries<T>(r: seq<T>, t: seq<T>, b: int, key: T -> int)
    requires multiset(r) == multiset(t)
    requires forall k | 0 <= k < |t| :: key(t[k]) <= b
    ensures forall k | 0 <= k < |r| :: key(r[k]) <= b
  {
    forall k | 0 <= k < |r|
      ensures key(r[k]) <= b
    {
      assert r[k] in multiset(t);
      var m :| 0 <= m < |t| && t[m] == r[k];
    }
  }

  /**
   * `s.sort((a, b) => key(b) - key(a))`: a stable sort by descending key, as insertion
   * of each element, in input order, behind the earlier ones with a key at least as large.
   */
  function SortDesc<T>(s: seq<T>, key: T -> int): (r: seq<T>)
    ensures SortedDesc(r, key)
    ensures multiset(r) == multiset(s)
    ensures |r| == |s|
  {
    if |s| == 0 then []
    else
      assert s == s[..|s| - 1] + [s[|s| - 1]];
      Insert(s[|s| - 1], SortDesc(s[..|s| - 1], key), key)
  }

  /** Sorting the kept elements keeps exactly the elements of `s` that satisfy `p`. */
  lemma FilterSortMembers<T>(s: seq<T>, p: T -> bool, key: T -> int)
    ensures var r := SortDesc(Filter(s, p), key);
      && (forall i | 0 <= i < |r| :: p(r[i]))
      && (forall x | x in s :: x in r <==> p(x))
      && (forall x | x in r :: x in s)
  {
    var kept := Filter(s, p);
    var r := SortDesc(kept, key);
    forall i | 0 <= i < |r| ensures p(r[i]) && r[i] in s {
      assert r[i] in multiset(r);
      assert r[i] in multiset(kept);
      var j :| 0 <= j < |kept| && kept[j] == r[i];
    }
    forall x | x in s ensures x in r <==> p(x) {
      assert x in multiset(r) <==> multiset(kept)[x] > 0;
    }
  }

  /** Summing a constant 1 counts the elements. */
  lemma {:induction false} SumOnes<T>(s: seq<T>, f: T -> real)
    requires forall x :: f(x) == 1.0
    ensures Sum(s, f) == |s| as real
    decreases |s|
  {
    if |s| > 0 {
      SumOnes(s[..|s| - 1], f);
    }
  }

  /** Summing `f` over the elements that pass `p` is summing `f` masked to zero elsewhere. */
  lemma {:induction false} SumMasked<T>(s: seq<T>, p: T -> bool, f: T -> real, g: T -> real)
    requires forall x :: g(x) == if p(x) then f(x) else 0.0
    ensures Sum(s, g) == Sum(Filter(s, p), f)
    decreases |s|
  {
    if |s| > 0 {
      var front := s[..|s| - 1];
      var x := s[|s| - 1];
      assert s == front + [x];
      SumMasked(front, p, f, g);
      assert Sum(s, g) == Sum(front, g) + g(x);
      FilterConcat(front, [x], p);
      SumConcat(Filter(front, p), Filter([x], p), f);
      assert [x][1..] == [];
      if p(x) {
        assert Filter([x], p) == [x];
        assert Sum([x], f) == f(x) by {
          assert [x][..0] == [];
        }
      } else {
        assert Filter([x], p) == [];
      }
    }
  }

  /** Replacing one element changes the sum by the difference of the two summands. */
  lemma SumUpdate<T>(s: seq<T>, i: nat, x: T, f: T -> real)
    requires i < |s|
    ensures Sum(s[i := x], f) == Sum(s, f) - f(s[i]) + f(x)
  {
    var a, b := s[..i], s[i + 1..];
    assert s == a + [s[i]] + b;
    assert s[i := x] == a + [x] + b;
    SumConcat(a + [s[i]], b, f);
    SumConcat(a, [s[i]], f);
    SumConcat(a + [x], b, f);
    SumConcat(a, [x], f);
    assert [x][..0] == [] && [s[i]][..0] == [];
  }

  /** In a descending sequence, an element left out of a prefix ranks no higher than any element of it. */
  lemma SortedPrefixDominates<T>(s: seq<T>, n: nat, key: T -> int)
    requires SortedDesc(s, key) && n <= |s|
    ensures forall x | x in s && x !in s[..n] :: forall i | 0 <= i < n :: key(x) <= key(s[i])
  {
    assert forall k | 0 <= k < n :: s[k] == s[..n][k];
    forall x, i | x in s && x !in s[..n] && 0 <= i < n ensures key(x) <= key(s[i]) {
      var j :| 0 <= j < |s| && s[j] == x;
      assert j >= n;
    }
  }

  /** A prefix of a sequence is a sub-multiset of it. */
  lemma PrefixSubMultiset<T>(s: seq<T>, m: nat)
    requires m <= |s|
    ensures multiset(s[..m]) <= multiset(s)
  {
    assert s == s[..m] + s[m..];
    assert multiset(s) == multiset(s[..m]) + multiset(s[m..]);
  }

  /** A prefix of a descending sequence is descending. */
  lemma PrefixSorted<T>(s: seq<T>, m: nat, key: T -> int)
    requires m <= |s| && SortedDesc(s, key)
    ensures SortedDesc(s[..m], key)
  {
  }

  /** The elements of a permutation are the elements of the original. */
  lemma PermutationMembers<T>(s: seq<T>, t: seq<T>)
    requires multiset(s) == multiset(t)
    ensures forall x | x in s :: x in t
  {
    forall x | x in s ensures x in t {
      assert x in multiset(s);
    }
  }

  /** The first `n` elements by descending key (all of them when there are fewer). */
  function TopBy<T>(s: seq<T>, n: nat, key: T -> int): (r: seq<T>)
    ensures |r| == if n <= |s| then n else |s|
    ensures SortedDesc(r, key)
    ensures multiset(r) <= multiset(s)
    ensures forall x | x in s && x !in r :: forall i | 0 <= i < |r| :: key(x) <= key(r[i])
  {
    var sorted := SortDesc(s, key);
    var m := if n <= |s| then n else |s|;
    PrefixSubMultiset(sorted, m);
    PrefixSorted(sorted, m, key);
    SortedPrefixDominates(sorted, m, key);
    PermutationMembers(s, sorted);
    sorted[..m]
  }
}
