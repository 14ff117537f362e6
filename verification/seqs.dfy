/** `List.filter` / `Array.prototype.filter` and the order facts the currency
    searches rely on. */
module Seqs {

  /** `a` is obtained from `b` by deleting elements, keeping the order. */
  predicate IsSubsequence<T(==)>(a: seq<T>, b: seq<T>)
    decreases |b|
  {
    if a == [] then true
    else if b == [] then false
    else if a[0] == b[0] then IsSubsequence(a[1..], b[1..])
    else IsSubsequence(a, b[1..])
  }

  /** The elements of `s` that satisfy `p`, in their original order. */
  function Filter<T>(p: T -> bool, s: seq<T>): (r: seq<T>)
    ensures |r| <= |s|
    ensures forall i :: 0 <= i < |r| ==> p(r[i])
  {
    if s == [] then []
    else (if p(s[0]) then [s[0]] else []) + Filter(p, s[1..])
  }

  /** Filtering keeps exactly the elements that satisfy the predicate. */
  lemma {:induction false} FilterMembers<T>(p: T -> bool, s: seq<T>, x: T)
    ensures x in Filter(p, s) <==> x in s && p(x)
  {
    if s != [] {
      FilterMembers(p, s[1..], x);
      assert s == [s[0]] + s[1..];
    }
  }

  /** Filtering keeps every occurrence of an element that satisfies the
      predicate, and none of one that does not. */
  lemma {:induction false} FilterCounts<T>(p: T -> bool, s: seq<T>, x: T)
    ensures multiset(Filter(p, s))[x] == if p(x) then multiset(s)[x] else 0
  {
    if s != [] {
      FilterCounts(p, s[1..], x);
      assert s == [s[0]] + s[1..];
    }
  }

  /** Filtering keeps the input order: the result is a subsequence. */
  lemma {:induction false} FilterIsSubsequence<T>(p: T -> bool, s: seq<T>)
    ensures IsSubsequence(Filter(p, s), s)
  {
    if s != [] {
      var rest := Filter(p, s[1..]);
      FilterIsSubsequence(p, s[1..]);
      if p(s[0]) {
        assert Filter(p, s) == [s[0]] + rest;
        assert ([s[0]] + rest)[1..] == rest;
      } else {
        assert Filter(p, s) == rest;
        SubsequenceExtend(rest, s);
      }
    }
  }

  /** A subsequence of `s[1..]` is a subsequence of `s`. */
  lemma {:induction false} SubsequenceExtend<T>(a: seq<T>, s: seq<T>)
    requires s != [] && IsSubsequence(a, s[1..])
    ensures IsSubsequence(a, s)
    decreases |s|, 0
  {
    if a != [] && a[0] == s[0] {
      SubsequenceTail(a, s[1..]);
    }
  }

  /** Dropping the first element of a subsequence keeps it a subsequence. */
  lemma {:induction false} SubsequenceTail<T>(a: seq<T>, s: seq<T>)
    requires a != [] && IsSubsequence(a, s)
    ensures IsSubsequence(a[1..], s)
    decreases |s|, 1
  {
    if a[0] != s[0] {
      SubsequenceTail(a, s[1..]);
    }
    SubsequenceExtend(a[1..], s);
  }

  /** Filtering with a predicate that holds everywhere changes nothing. */
  lemma {:induction false} FilterKeepsAll<T>(p: T -> bool, s: seq<T>)
    requires forall i :: 0 <= i < |s| ==> p(s[i])
    ensures Filter(p, s) == s
  {
    if s != [] {
      FilterKeepsAll(p, s[1..]);
    }
  }

  /** Filtering with a predicate that holds nowhere keeps nothing. */
  lemma {:induction false} FilterKeepsNone<T>(p: T -> bool, s: seq<T>)
    requires forall i :: 0 <= i < |s| ==> !p(s[i])
    ensures Filter(p, s) == []
  {
    if s != [] {
      FilterKeepsNone(p, s[1..]);
    }
  }

  /** Filtering distributes over concatenation. */
  lemma {:induction false} FilterAppend<T>(p: T -> bool, a: seq<T>, b: seq<T>)
    ensures Filter(p, a + b) == Filter(p, a) + Filter(p, b)
  {
    if a == [] {
      assert a + b == b;
    } else {
      assert (a + b)[0] == a[0];
      assert (a + b)[1..] == a[1..] + b;
      FilterAppend(p, a[1..], b);
    }
  }

  /** Splitting `s` by a predicate and its complement loses and adds nothing. */
  lemma {:induction false} FilterSplitIsPermutation<T>(p: T -> bool, q: T -> bool, s: seq<T>)
    requires forall i :: 0 <= i < |s| ==> q(s[i]) == !p(s[i])
    ensures multiset(Filter(p, s) + Filter(q, s)) == multiset(s)
  {
    if s != [] {
      FilterSplitIsPermutation(p, q, s[1..]);
      assert s == [s[0]] + s[1..];
    }
  }

  /** No element occurs twice. */
  predicate Distinct<T(==)>(s: seq<T>) {
    forall i, j :: 0 <= i < j < |s| ==> s[i] != s[j]
  }

  lemma {:induction false} DistinctCountsOnce<T>(s: seq<T>, x: T)
    requires Distinct(s)
    ensures multiset(s)[x] <= 1
  {
    if s != [] {
      var rest := s[1..];
      assert Distinct(rest) by {
        forall i, j | 0 <= i < j < |rest| ensures rest[i] != rest[j] { assert rest[i] == s[i + 1] && rest[j] == s[j + 1]; }
      }
      DistinctCountsOnce(rest, x);
      assert s == [s[0]] + rest;
      assert s[0] !in rest by {
        forall j | 0 <= j < |rest| ensures rest[j] != s[0] { assert rest[j] == s[j + 1]; }
      }
    }
  }

  /** A permutation of a sequence without repeats has no repeats. */
  lemma PermutationKeepsDistinct<T>(a: seq<T>, b: seq<T>)
    requires multiset(a) == multiset(b) && Distinct(b)
    ensures Distinct(a)
  {
    forall i, j | 0 <= i < j < |a| ensures a[i] != a[j] {
      DistinctCountsOnce(b, a[i]);
      assert a == a[..j] + a[j..];
      assert a[i] == a[..j][i];
      assert a[j] == a[j..][0];
    }
  }

  /** Two predicates that agree on every element filter alike. */
  lemma {:induction false} FilterCongruent<T>(p: T -> bool, q: T -> bool, s: seq<T>)
    requires forall i :: 0 <= i < |s| ==> p(s[i]) == q(s[i])
    ensures Filter(p, s) == Filter(q, s)
  {
    if s != [] {
      FilterCongruent(p, q, s[1..]);
    }
  }

  /** Filtering with a predicate that holds at exactly one position keeps
      that one element. */
  lemma {:induction false} FilterKeepsOnly<T>(p: T -> bool, s: seq<T>, i: nat)
    requires i < |s| && p(s[i])
    requires forall m :: 0 <= m < |s| && m != i ==> !p(s[m])
    ensures Filter(p, s) == [s[i]]
  {
    if i == 0 {
      FilterKeepsNone(p, s[1..]);
    } else {
      FilterKeepsOnly(p, s[1..], i - 1);
    }
  }

  /** Filtering with a predicate that holds at exactly two positions keeps
      those two elements, in order. */
  lemma {:induction false} FilterKeepsOnlyTwo<T>(p: T -> bool, s: seq<T>, i: nat, j: nat)
    requires i < j < |s| && p(s[i]) && p(s[j])
    requires forall m :: 0 <= m < |s| && m != i && m != j ==> !p(s[m])
    ensures Filter(p, s) == [s[i], s[j]]
  {
    if i == 0 {
      FilterKeepsOnly(p, s[1..], j - 1);
    } else {
      FilterKeepsOnlyTwo(p, s[1..], i - 1, j - 1);
    }
  }

  /** One match in `a`, none in `b`: filtering `a + b` keeps that one. */
  lemma FilterKeepsOnlyOfFirst<T>(p: T -> bool, a: seq<T>, b: seq<T>, i: nat)
    requires i < |a| && p(a[i])
    requires forall m :: 0 <= m < |a| && m != i ==> !p(a[m])
    requires forall m :: 0 <= m < |b| ==> !p(b[m])
    ensures Filter(p, a + b) == [a[i]]
  {
    FilterKeepsOnly(p, a, i);
    FilterKeepsNone(p, b);
    FilterAppend(p, a, b);
  }

  /** Two matches in `a`, none in `b`: filtering `a + b` keeps those two. */
  lemma FilterKeepsTwoOfFirst<T>(p: T -> bool, a: seq<T>, b: seq<T>, i: nat, j: nat)
    requires i < j < |a| && p(a[i]) && p(a[j])
    requires forall m :: 0 <= m < |a| && m != i && m != j ==> !p(a[m])
    requires forall m :: 0 <= m < |b| ==> !p(b[m])
    ensures Filter(p, a + b) == [a[i], a[j]]
  {
    FilterKeepsOnlyTwo(p, a, i, j);
    FilterKeepsNone(p, b);
    FilterAppend(p, a, b);
  }

  /** No match in `a` or `b`: filtering `a + b` keeps nothing. */
  lemma FilterKeepsNoneOfBoth<T>(p: T -> bool, a: seq<T>, b: seq<T>)
    requires forall m :: 0 <= m < |a| ==> !p(a[m])
    requires forall m :: 0 <= m < |b| ==> !p(b[m])
    ensures Filter(p, a + b) == []
  {
    FilterKeepsNone(p, a);
    FilterKeepsNone(p, b);
    FilterAppend(p, a, b);
  }
}
