/** Sequence operations that the application uses through JavaScript's array
    methods (`filter`, `reduce`, `includes`), each defined once and used by
    every module that models a call to them. */
module Seqs {

  /** `s.filter(p)`: the elements of `s` that satisfy `p`, in their original order. */
  function Filter<T(!new)>(s: seq<T>, p: T -> bool): (r: seq<T>)
    ensures |r| <= |s|
    ensures forall x :: x in r <==> x in s && p(x)
  {
    if s == [] then [] else (if p(s[0]) then [s[0]] else []) + Filter(s[1..], p)
  }

  /** Filtering distributes over concatenation: what is kept from a prefix comes
      first, in the same order. Together with the single-element case this is
      what "order-preserving subsequence" means. */
  lemma {:induction false} FilterConcat<T(!new)>(a: seq<T>, b: seq<T>, p: T -> bool)
    ensures Filter(a + b, p) == Filter(a, p) + Filter(b, p)
  {
    if a == [] {
      assert a + b == b;
    } else {
      assert (a + b)[1..] == a[1..] + b;
      FilterConcat(a[1..], b, p);
    }
  }

  /** Filtering a single element keeps it exactly when it satisfies `p`. */
  lemma FilterSingleton<T(!new)>(x: T, p: T -> bool)
    ensures Filter([x], p) == if p(x) then [x] else []
  {
    assert [x][1..] == [];
  }

  /** Filtering a suffix, one element at a time. */
  lemma FilterFrom<T(!new)>(s: seq<T>, i: nat, p: T -> bool)
    requires i < |s|
    ensures Filter(s[i..], p) == (if p(s[i]) then [s[i]] else []) + Filter(s[i + 1..], p)
  {
    assert s[i..][1..] == s[i + 1..];
  }

  /** When every element satisfies `p`, the filter is the identity. */
  lemma {:induction false} FilterKeepsAll<T(!new)>(s: seq<T>, p: T -> bool)
    requires forall k :: 0 <= k < |s| ==> p(s[k])
    ensures Filter(s, p) == s
  {
    if s != [] {
      FilterKeepsAll(s[1..], p);
    }
  }

  /** When no element satisfies `p`, the filter is empty. */
  lemma {:induction false} FilterKeepsNone<T(!new)>(s: seq<T>, p: T -> bool)
    requires forall k :: 0 <= k < |s| ==> !p(s[k])
    ensures Filter(s, p) == []
  {
    if s != [] {
      FilterKeepsNone(s[1..], p);
    }
  }

  /** When exactly one position satisfies `p`, the filter is that one element. */
  lemma {:induction false} FilterOnly<T(!new)>(s: seq<T>, p: T -> bool, i: nat)
    requires i < |s|
    requires forall k :: 0 <= k < |s| ==> (p(s[k]) <==> k == i)
    ensures Filter(s, p) == [s[i]]
    decreases |s|
  {
    if i == 0 {
      FilterKeepsNone(s[1..], p);
    } else {
      FilterOnly(s[1..], p, i - 1);
    }
  }

  /** When exactly two positions satisfy `p`, the filter is those two elements, in order. */
  lemma {:induction false} FilterOnlyTwo<T(!new)>(s: seq<T>, p: T -> bool, i: nat, j: nat)
    requires i < j < |s|
    requires forall k :: 0 <= k < |s| ==> (p(s[k]) <==> k == i || k == j)
    ensures Filter(s, p) == [s[i], s[j]]
    decreases |s|
  {
    if i == 0 {
      FilterOnly(s[1..], p, j - 1);
    } else {
      FilterOnlyTwo(s[1..], p, i - 1, j - 1);
    }
  }

  /** Two tests that agree on every element of `s` filter it alike. */
  lemma {:induction false} FilterSameTest<T(!new)>(s: seq<T>, p: T -> bool, q: T -> bool)
    requires forall k :: 0 <= k < |s| ==> p(s[k]) == q(s[k])
    ensures Filter(s, p) == Filter(s, q)
  {
    if s != [] {
      FilterSameTest(s[1..], p, q);
    }
  }

  /** Filtering by `p` and then by `q` is filtering by both. */
  lemma {:induction false} FilterFilter<T(!new)>(s: seq<T>, p: T -> bool, q: T -> bool, pq: T -> bool)
    requires forall x :: pq(x) == (p(x) && q(x))
    ensures Filter(Filter(s, p), q) == Filter(s, pq)
  {
    if s != [] {
      FilterFilter(s[1..], p, q, pq);
      if p(s[0]) {
        assert Filter(s, p) == [s[0]] + Filter(s[1..], p);
        FilterConcat([s[0]], Filter(s[1..], p), q);
        FilterSingleton(s[0], q);
        assert pq(s[0]) == q(s[0]);
      } else {
        assert Filter(s, p) == Filter(s[1..], p);
        assert !pq(s[0]);
      }
    }
  }

  /** Every element lands on exactly one side of `p`. */
  lemma {:induction false} FilterPartition<T(!new)>(s: seq<T>, p: T -> bool, notP: T -> bool)
    requires forall x :: notP(x) == !p(x)
    ensures |Filter(s, p)| + |Filter(s, notP)| == |s|
  {
    if s != [] {
      FilterPartition(s[1..], p, notP);
    }
  }

  /** `s.reduce((sum, x) => sum + f(x), 0)`. */
  function SumOf<T>(s: seq<T>, f: T -> int): int
  {
    if s == [] then 0 else f(s[0]) + SumOf(s[1..], f)
  }

  /** The sum of a concatenation is the sum of its parts. */
  lemma {:induction false} SumOfConcat<T>(a: seq<T>, b: seq<T>, f: T -> int)
    ensures SumOf(a + b, f) == SumOf(a, f) + SumOf(b, f)
  {
    if a == [] {
      assert a + b == b;
    } else {
      assert (a + b)[1..] == a[1..] + b;
      SumOfConcat(a[1..], b, f);
    }
  }

  /** Replacing one element changes the sum by exactly the difference of the two values. */
  lemma {:induction false} SumOfUpdate<T>(s: seq<T>, k: nat, x: T, f: T -> int)
    requires k < |s|
    ensures SumOf(s[k := x], f) == SumOf(s, f) - f(s[k]) + f(x)
  {
    if k > 0 {
      assert s[k := x][1..] == s[1..][k - 1 := x];
      SumOfUpdate(s[1..], k - 1, x, f);
    }
  }

  /** A sum of non-negative terms is non-negative. */
  lemma {:induction false} SumOfNonNegative<T>(s: seq<T>, f: T -> int)
    ensures (forall k :: 0 <= k < |s| ==> f(s[k]) >= 0) ==> SumOf(s, f) >= 0
  {
    if s != [] {
      SumOfNonNegative(s[1..], f);
      if forall k :: 0 <= k < |s| ==> f(s[k]) >= 0 {
        assert forall k :: 0 <= k < |s[1..]| ==> s[1..][k] == s[k + 1];
      }
    }
  }

  /** Splitting a sequence by `p` splits its sum the same way. */
  lemma {:induction false} SumOfPartition<T(!new)>(s: seq<T>, f: T -> int, p: T -> bool, notP: T -> bool)
    requires forall x :: notP(x) == !p(x)
    ensures SumOf(s, f) == SumOf(Filter(s, p), f) + SumOf(Filter(s, notP), f)
  {
    if s != [] {
      SumOfPartition(s[1..], f, p, notP);
      var rest := Filter(s[1..], p);
      var restNot := Filter(s[1..], notP);
      if p(s[0]) {
        assert Filter(s, p) == [s[0]] + rest;
        assert Filter(s, notP) == restNot;
        assert ([s[0]] + rest)[1..] == rest;
      } else {
        assert Filter(s, p) == rest;
        assert Filter(s, notP) == [s[0]] + restNot;
        assert ([s[0]] + restNot)[1..] == restNot;
      }
    }
  }

  /** The number of occurrences of `c` in `s`. */
  function Occurrences<T(==)>(s: seq<T>, c: T): nat
  {
    if s == [] then 0 else (if s[0] == c then 1 else 0) + Occurrences(s[1..], c)
  }

  lemma {:induction false} OccurrencesConcat<T>(a: seq<T>, b: seq<T>, c: T)
    ensures Occurrences(a + b, c) == Occurrences(a, c) + Occurrences(b, c)
  {
    if a == [] {
      assert a + b == b;
    } else {
      assert (a + b)[1..] == a[1..] + b;
      OccurrencesConcat(a[1..], b, c);
    }
  }

  lemma {:induction false} OccurrencesAbsent<T>(s: seq<T>, c: T)
    requires c !in s
    ensures Occurrences(s, c) == 0
  {
    if s != [] {
      OccurrencesAbsent(s[1..], c);
    }
  }

  /** `hay.includes(needle)` for strings: `needle` occurs as a contiguous block. */
  predicate IsInfix<T(==)>(needle: seq<T>, hay: seq<T>)
  {
    exists i | 0 <= i <= |hay| :: OccursAt(needle, hay, i)
  }

  /** `needle` occurs in `hay` starting at position `i`. */
  predicate OccursAt<T(==)>(needle: seq<T>, hay: seq<T>, i: int)
  {
    0 <= i <= |hay| - |needle| && hay[i..i + |needle|] == needle
  }

  /** Every sequence contains the empty sequence, as `s.includes('')` is true. */
  lemma EmptyIsInfix<T>(hay: seq<T>)
    ensures IsInfix([], hay)
  {
    assert OccursAt([], hay, 0);
  }
}
