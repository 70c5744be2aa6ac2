/** Sequence combinators shared by the model: the `filter`, `reduce` and
    `slice` calls the dashboard chains together, and the facts about them
    that the per-screen proofs reuse.  Every function here recurses on the
    LAST element, so that a loop over a prefix `s[..i]` unfolds one step at
    a time. */
module Seqs {
  import opened Wrappers

  /** `s.filter(p)`: the elements of `s` that satisfy `p`, in their order. */
  function Filter<T(!new)>(s: seq<T>, p: T -> bool): (r: seq<T>)
    ensures |r| <= |s|
    ensures forall x :: x in r <==> x in s && p(x)
  {
    if |s| == 0 then []
    else
      var init, last := s[..|s| - 1], s[|s| - 1];
      assert s == init + [last];
      Filter(init, p) + (if p(last) then [last] else [])
  }

  /** `s.reduce((sum, x) => sum + f(x), 0)`. */
  function SumOf<T>(s: seq<T>, f: T -> int): int
  {
    if |s| == 0 then 0 else SumOf(s[..|s| - 1], f) + f(s[|s| - 1])
  }

  /** The summand `f(x)` for the elements that satisfy `p`, 0 for the others. */
  function Where<T>(p: T -> bool, f: T -> int): T -> int
  {
    x => if p(x) then f(x) else 0
  }

  /** `s.slice(0, n)`: the first min(n, |s|) elements. */
  function Take<T>(s: seq<T>, n: nat): (r: seq<T>)
    ensures |r| == if n < |s| then n else |s|
    ensures forall i :: 0 <= i < |r| ==> r[i] == s[i]
  {
    if n < |s| then s[..n] else s
  }

  /** `a` is obtained from `b` by deleting elements, keeping the order of the rest. */
  ghost predicate IsSubsequence<T>(a: seq<T>, b: seq<T>)
    decreases |b|
  {
    if |a| == 0 then true
    else if |b| == 0 then false
    else if a[|a| - 1] == b[|b| - 1] && IsSubsequence(a[..|a| - 1], b[..|b| - 1]) then true
    else IsSubsequence(a, b[..|b| - 1])
  }

  lemma {:induction false} FilterIsSubsequence<T(!new)>(s: seq<T>, p: T -> bool)
    ensures IsSubsequence(Filter(s, p), s)
    decreases |s|
  {
    if |s| > 0 {
      var init := s[..|s| - 1];
      FilterIsSubsequence(init, p);
      var r := Filter(s, p);
      if p(s[|s| - 1]) {
        assert r[..|r| - 1] == Filter(init, p);
      } else {
        assert r == Filter(init, p);
      }
    }
  }

  lemma {:induction false} FilterConcat<T(!new)>(a: seq<T>, b: seq<T>, p: T -> bool)
    ensures Filter(a + b, p) == Filter(a, p) + Filter(b, p)
    decreases |b|
  {
    if |b| > 0 {
      var init := b[..|b| - 1];
      assert (a + b)[..|a + b| - 1] == a + init;
      FilterConcat(a, init, p);
    } else {
      assert a + b == a;
    }
  }

  lemma {:induction false} SumConcat<T>(a: seq<T>, b: seq<T>, f: T -> int)
    ensures SumOf(a + b, f) == SumOf(a, f) + SumOf(b, f)
    decreases |b|
  {
    if |b| > 0 {
      var init := b[..|b| - 1];
      assert (a + b)[..|a + b| - 1] == a + init;
      SumConcat(a, init, f);
    } else {
      assert a + b == a;
    }
  }

  /** Filtering a one-element sequence. */
  lemma FilterSingle<T(!new)>(x: T, p: T -> bool)
    ensures Filter([x], p) == if p(x) then [x] else []
  {
    assert [x][..0] == [];
  }

  /** Filtering drops a last element that `p` rejects. */
  lemma FilterDropRejected<T(!new)>(s: seq<T>, p: T -> bool)
    requires |s| > 0 && !p(s[|s| - 1])
    ensures Filter(s, p) == Filter(s[..|s| - 1], p)
  {
    assert Filter(s[..|s| - 1], p) + [] == Filter(s[..|s| - 1], p);
  }

  /** Filtering keeps a last element that `p` accepts. */
  lemma FilterAppendKept<T(!new)>(s: seq<T>, p: T -> bool)
    requires |s| > 0 && p(s[|s| - 1])
    ensures Filter(s, p) == Filter(s[..|s| - 1], p) + [s[|s| - 1]]
  {
  }

  /** Filtering with a predicate that holds of every element removes nothing. */
  lemma {:induction false} FilterKeepsAll<T(!new)>(s: seq<T>, p: T -> bool)
    requires forall x :: x in s ==> p(x)
    ensures Filter(s, p) == s
    decreases |s|
  {
    if |s| > 0 {
      FilterKeepsAll(s[..|s| - 1], p);
      assert s == s[..|s| - 1] + [s[|s| - 1]];
    }
  }

  /** Filtering with a predicate that holds of no element leaves nothing. */
  lemma {:induction false} FilterKeepsNone<T(!new)>(s: seq<T>, p: T -> bool)
    requires forall i :: 0 <= i < |s| ==> !p(s[i])
    ensures Filter(s, p) == []
    decreases |s|
  {
    if |s| > 0 {
      FilterKeepsNone(s[..|s| - 1], p);
    }
  }

  /** Two predicates that agree on the elements of `s` filter it alike. */
  lemma {:induction false} FilterAgree<T(!new)>(s: seq<T>, p: T -> bool, q: T -> bool)
    requires forall x :: x in s ==> p(x) == q(x)
    ensures Filter(s, p) == Filter(s, q)
    decreases |s|
  {
    if |s| > 0 {
      FilterAgree(s[..|s| - 1], p, q);
    }
  }

  /** Successive filters are one filter by the conjunction (`result = result.filter(...)` chains). */
  lemma {:induction false} FilterFilter<T(!new)>(s: seq<T>, p: T -> bool, q: T -> bool, pq: T -> bool)
    requires forall x :: pq(x) == (p(x) && q(x))
    ensures Filter(Filter(s, p), q) == Filter(s, pq)
    decreases |s|
  {
    if |s| > 0 {
      var init, last := s[..|s| - 1], s[|s| - 1];
      FilterFilter(init, p, q, pq);
      FilterConcat(Filter(init, p), if p(last) then [last] else [], q);
      assert Filter([last], q) == if q(last) then [last] else [] by {
        assert [last][..0] == [];
      }
      assert Filter([], q) == [];
    }
  }

  /** The sum over a filtered sequence is the sum over all elements, counting
      those that fail the filter as 0. */
  lemma {:induction false} SumOfFilter<T(!new)>(s: seq<T>, p: T -> bool, f: T -> int)
    ensures SumOf(Filter(s, p), f) == SumOf(s, Where(p, f))
    decreases |s|
  {
    if |s| > 0 {
      var init, last := s[..|s| - 1], s[|s| - 1];
      SumOfFilter(init, p, f);
      SumConcat(Filter(init, p), if p(last) then [last] else [], f);
      assert SumOf([last], f) == f(last) by { assert [last][..0] == []; }
    }
  }

  /** Filters by two predicates that never both hold split the filter by their disjunction. */
  lemma {:induction false} FilterDisjointUnion<T(!new)>(s: seq<T>, p: T -> bool, q: T -> bool, pq: T -> bool, f: T -> int)
    requires forall x :: pq(x) == (p(x) || q(x))
    requires forall x :: x in s ==> !(p(x) && q(x))
    ensures |Filter(s, pq)| == |Filter(s, p)| + |Filter(s, q)|
    ensures SumOf(Filter(s, pq), f) == SumOf(Filter(s, p), f) + SumOf(Filter(s, q), f)
    decreases |s|
  {
    if |s| > 0 {
      var init, last := s[..|s| - 1], s[|s| - 1];
      assert forall x :: x in init ==> x in s;
      FilterDisjointUnion(init, p, q, pq, f);
      var one := [last];
      assert SumOf(one, f) == f(last) by { assert one[..0] == []; }
      SumConcat(Filter(init, pq), if pq(last) then one else [], f);
      SumConcat(Filter(init, p), if p(last) then one else [], f);
      SumConcat(Filter(init, q), if q(last) then one else [], f);
    }
  }

  /** Elements that satisfy two exclusive predicates are at most all of `s`. */
  lemma FilterDisjointCount<T(!new)>(s: seq<T>, p: T -> bool, q: T -> bool)
    requires forall x :: x in s ==> !(p(x) && q(x))
    ensures |Filter(s, p)| + |Filter(s, q)| <= |s|
  {
    FilterDisjointUnion(s, p, q, x => p(x) || q(x), x => 0);
  }

  /** A sum of summands that are pointwise no larger is no larger. */
  lemma {:induction false} SumOfMonotone<T>(s: seq<T>, f: T -> int, g: T -> int)
    requires forall x :: x in s ==> f(x) <= g(x)
    ensures SumOf(s, f) <= SumOf(s, g)
    decreases |s|
  {
    if |s| > 0 {
      assert forall x :: x in s[..|s| - 1] ==> x in s;
      SumOfMonotone(s[..|s| - 1], f, g);
    }
  }

  /** A sum of non-negative summands is non-negative. */
  lemma {:induction false} SumOfNonNegative<T>(s: seq<T>, f: T -> int)
    requires forall x :: x in s ==> 0 <= f(x)
    ensures 0 <= SumOf(s, f)
    decreases |s|
  {
    if |s| > 0 {
      assert forall x :: x in s[..|s| - 1] ==> x in s;
      SumOfNonNegative(s[..|s| - 1], f);
    }
  }

  /** A sum of zero summands is zero. */
  lemma {:induction false} SumOfAllZero<T>(s: seq<T>, f: T -> int)
    requires forall x :: x in s ==> f(x) == 0
    ensures SumOf(s, f) == 0
    decreases |s|
  {
    if |s| > 0 {
      assert forall x :: x in s[..|s| - 1] ==> x in s;
      SumOfAllZero(s[..|s| - 1], f);
    }
  }

  /** Summing `f - g` is summing `f` minus summing `g`. */
  lemma {:induction false} SumOfDifference<T>(s: seq<T>, f: T -> int, g: T -> int, d: T -> int)
    requires forall x :: d(x) == f(x) - g(x)
    ensures SumOf(s, d) == SumOf(s, f) - SumOf(s, g)
    decreases |s|
  {
    if |s| > 0 { SumOfDifference(s[..|s| - 1], f, g, d); }
  }

  /** `s.map(x => matches(x) ? f(x) : x)`: rewrite the matching elements, keep the rest. */
  function MapMatching<T>(s: seq<T>, matches: T -> bool, f: T -> T): (r: seq<T>)
    ensures |r| == |s|
    ensures forall i :: 0 <= i < |s| ==> r[i] == if matches(s[i]) then f(s[i]) else s[i]
  {
    seq(|s|, i requires 0 <= i < |s| => if matches(s[i]) then f(s[i]) else s[i])
  }

  /** Rewriting the same elements a second time changes nothing when the
      rewrite is idempotent on whatever still matches afterwards. */
  lemma MapMatchingTwice<T>(s: seq<T>, matches: T -> bool, f: T -> T)
    requires forall x :: matches(x) && matches(f(x)) ==> f(f(x)) == f(x)
    ensures MapMatching(MapMatching(s, matches, f), matches, f) == MapMatching(s, matches, f)
  {
  }

  /** Summing after a rewrite is summing the rewritten value of each element. */
  lemma {:induction false} SumOfMapMatching<T>(s: seq<T>, matches: T -> bool, f: T -> T, g: T -> int, w: T -> int)
    requires forall x :: w(x) == g(if matches(x) then f(x) else x)
    ensures SumOf(MapMatching(s, matches, f), g) == SumOf(s, w)
    decreases |s|
  {
    if |s| > 0 {
      var init := s[..|s| - 1];
      assert MapMatching(s, matches, f)[..|s| - 1] == MapMatching(init, matches, f);
      SumOfMapMatching(init, matches, f, g, w);
    }
  }

  /** `s.findIndex(p)` as an option: the first index whose element satisfies `p`. */
  function FindIndex<T>(s: seq<T>, p: T -> bool): (r: Option<nat>)
    ensures r.Some? ==> r.value < |s| && p(s[r.value])
    ensures r.Some? ==> forall j :: 0 <= j < r.value ==> !p(s[j])
    ensures r.None? ==> forall j :: 0 <= j < |s| ==> !p(s[j])
  {
    if |s| == 0 then None
    else match FindIndex(s[..|s| - 1], p)
      case Some(i) => Some(i)
      case None => if p(s[|s| - 1]) then Some(|s| - 1) else None
  }

  /** `s.find(p)`: the first element that satisfies `p`, if any. */
  function Find<T>(s: seq<T>, p: T -> bool): (r: Option<T>)
    ensures r.None? <==> forall j :: 0 <= j < |s| ==> !p(s[j])
    ensures r.Some? ==> exists i :: 0 <= i < |s| && s[i] == r.value && p(s[i]) && forall j :: 0 <= j < i ==> !p(s[j])
  {
    match FindIndex(s, p)
    case Some(i) => Some(s[i])
    case None => None
  }

  /** No element occurs twice. */
  predicate Distinct<T(==)>(s: seq<T>) {
    forall i, j :: 0 <= i < j < |s| ==> s[i] != s[j]
  }

  /** Changing the summand at one point changes the sum of a sequence without
      repetitions by the change at that point, once if the point occurs. */
  lemma {:induction false} SumOfPointUpdate<T>(s: seq<T>, f: T -> int, g: T -> int, x0: T, d: int)
    requires Distinct(s)
    requires forall x :: x != x0 ==> g(x) == f(x)
    requires g(x0) == f(x0) + d
    ensures SumOf(s, g) == SumOf(s, f) + (if x0 in s then d else 0)
  {
    if |s| > 0 {
      var init, last := s[..|s| - 1], s[|s| - 1];
      assert s == init + [last];
      SumOfPointUpdate(init, f, g, x0, d);
      if last == x0 {
        assert x0 !in init by {
          forall j | 0 <= j < |init| ensures init[j] != x0 {
            assert s[j] != s[|s| - 1];
          }
        }
      }
    }
  }

  /** `s` is ordered by non-increasing `key`. */
  predicate SortedDescBy<T>(s: seq<T>, key: T -> int) {
    forall i, j :: 0 <= i < j < |s| ==> key(s[i]) >= key(s[j])
  }

  /** Inserts `x` into a list ordered by non-increasing `key`, after every
      element whose key is at least x's. */
  function InsertDescBy<T>(x: T, s: seq<T>, key: T -> int): (r: seq<T>)
    ensures multiset(r) == multiset(s) + multiset{x}
    decreases |s|
  {
    if |s| == 0 then [x]
    else
      var init, last := s[..|s| - 1], s[|s| - 1];
      assert s == init + [last];
      if key(last) >= key(x) then s + [x]
      else InsertDescBy(x, init, key) + [last]
  }

  /** Every element of the insertion is `x` or an element of `s`. */
  lemma InsertDescByElements<T>(x: T, s: seq<T>, key: T -> int, i: nat)
    requires i < |InsertDescBy(x, s, key)|
    ensures InsertDescBy(x, s, key)[i] == x || InsertDescBy(x, s, key)[i] in s
  {
    var r := InsertDescBy(x, s, key);
    assert r[i] in multiset(r);
  }

  lemma {:induction false} InsertSorted<T>(x: T, s: seq<T>, key: T -> int)
    requires SortedDescBy(s, key)
    ensures SortedDescBy(InsertDescBy(x, s, key), key)
    decreases |s|
  {
    if |s| > 0 {
      var init, last := s[..|s| - 1], s[|s| - 1];
      assert s == init + [last];
      if key(last) < key(x) {
        InsertSorted(x, init, key);
        var r0 := InsertDescBy(x, init, key);
        forall i | 0 <= i < |r0| ensures key(r0[i]) >= key(last) {
          InsertDescByElements(x, init, key, i);
          if r0[i] != x {
            var k :| 0 <= k < |init| && init[k] == r0[i];
            assert s[k] == init[k];
          }
        }
        var r := r0 + [last];
        assert InsertDescBy(x, s, key) == r;
        forall i, j | 0 <= i < j < |r| ensures key(r[i]) >= key(r[j]) {
          if j < |r0| {
            assert r[i] == r0[i] && r[j] == r0[j];
          } else {
            assert r[i] == r0[i];
          }
        }
      } else {
        var r := s + [x];
        assert InsertDescBy(x, s, key) == r;
        forall i, j | 0 <= i < j < |r| ensures key(r[i]) >= key(r[j]) {
          if j < |s| {
            assert r[i] == s[i] && r[j] == s[j];
          } else if i < |s| - 1 {
            assert r[i] == s[i];
          }
        }
      }
    }
  }

  /** The stable insertion sort by non-increasing `key` that
      `sort((a, b) => key(b) - key(a))` performs. */
  function SortDescBy<T>(s: seq<T>, key: T -> int): (r: seq<T>)
    ensures multiset(r) == multiset(s)
    ensures SortedDescBy(r, key)
  {
    if |s| == 0 then []
    else
      assert s == s[..|s| - 1] + [s[|s| - 1]];
      InsertSorted(s[|s| - 1], SortDescBy(s[..|s| - 1], key), key);
      InsertDescBy(s[|s| - 1], SortDescBy(s[..|s| - 1], key), key)
  }

  function KeyIs<T>(key: T -> int, k: int): T -> bool {
    x => key(x) == k
  }

  /** Insertion keeps the order among elements with equal keys: `x` lands
      after all of them. */
  lemma {:induction false} InsertKeepsTies<T(!new)>(x: T, s: seq<T>, key: T -> int, k: int)
    ensures Filter(InsertDescBy(x, s, key), KeyIs(key, k)) == Filter(s, KeyIs(key, k)) + (if key(x) == k then [x] else [])
    decreases |s|
  {
    var p := KeyIs(key, k);
    if |s| == 0 {
      FilterSingle(x, p);
    } else if key(s[|s| - 1]) >= key(x) {
      assert InsertDescBy(x, s, key) == s + [x];
      assert (s + [x])[..|s|] == s;
      if p(x) {
        FilterAppendKept(s + [x], p);
      } else {
        FilterDropRejected(s + [x], p);
        assert Filter(s, p) + [] == Filter(s, p);
      }
    } else {
      var init := s[..|s| - 1];
      InsertKeepsTies(x, init, key, k);
      if key(x) == k {
        InsertKeepsTiesStep(x, s, key, p, [x]);
      } else {
        assert Filter(init, p) + [] == Filter(init, p);
        InsertKeepsTiesStepNoTie(x, s, key, p);
        assert Filter(s, p) + [] == Filter(s, p);
      }
    }
  }

  /** The step of `InsertKeepsTies` where `x` moves in front of the last
      element and `p` rejects that element. */
  lemma InsertKeepsTiesStep<T(!new)>(x: T, s: seq<T>, key: T -> int, p: T -> bool, tieX: seq<T>)
    requires |s| > 0 && key(s[|s| - 1]) < key(x) && !p(s[|s| - 1])
    requires Filter(InsertDescBy(x, s[..|s| - 1], key), p) == Filter(s[..|s| - 1], p) + tieX
    ensures Filter(InsertDescBy(x, s, key), p) == Filter(s, p) + tieX
  {
    var init, last := s[..|s| - 1], s[|s| - 1];
    var r0 := InsertDescBy(x, init, key);
    assert InsertDescBy(x, s, key) == r0 + [last];
    assert (r0 + [last])[..|r0|] == r0;
    FilterDropRejected(r0 + [last], p);
    FilterDropRejected(s, p);
  }

  /** The step of `InsertKeepsTies` where `x` moves in front of the last
      element and `p` rejects `x`. */
  lemma InsertKeepsTiesStepNoTie<T(!new)>(x: T, s: seq<T>, key: T -> int, p: T -> bool)
    requires |s| > 0 && key(s[|s| - 1]) < key(x)
    requires Filter(InsertDescBy(x, s[..|s| - 1], key), p) == Filter(s[..|s| - 1], p)
    ensures Filter(InsertDescBy(x, s, key), p) == Filter(s, p)
  {
    var init, last := s[..|s| - 1], s[|s| - 1];
    var r0 := InsertDescBy(x, init, key);
    assert InsertDescBy(x, s, key) == r0 + [last];
    assert (r0 + [last])[..|r0|] == r0;
    if p(last) {
      FilterAppendKept(r0 + [last], p);
      FilterAppendKept(s, p);
    } else {
      FilterDropRejected(r0 + [last], p);
      FilterDropRejected(s, p);
    }
  }

  /** The sort is stable: elements with equal keys keep their relative order. */
  lemma {:induction false} SortKeepsTies<T(!new)>(s: seq<T>, key: T -> int, k: int)
    ensures Filter(SortDescBy(s, key), KeyIs(key, k)) == Filter(s, KeyIs(key, k))
  {
    if |s| > 0 {
      var init, last := s[..|s| - 1], s[|s| - 1];
      var p, sorted := KeyIs(key, k), SortDescBy(init, key);
      assert SortDescBy(s, key) == InsertDescBy(last, sorted, key);
      SortKeepsTies(init, key, k);
      InsertKeepsTies(last, sorted, key, k);
      if p(last) {
        FilterAppendKept(s, p);
      } else {
        FilterDropRejected(s, p);
        assert Filter(init, p) + [] == Filter(init, p);
      }
    }
  }
}
