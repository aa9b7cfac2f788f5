/** Sums and filters over sequences, written from the last element backwards so
    that a left-to-right accumulating loop keeps `acc == SumBy(xs[..i], f)` as
    its invariant. */
module Sums {

  /** The sum of `f` over `xs`, in sequence order. */
  function SumBy<T>(xs: seq<T>, f: T -> real): real
    decreases |xs|
  {
    if |xs| == 0 then 0.0 else SumBy(xs[..|xs| - 1], f) + f(xs[|xs| - 1])
  }

  /** The elements of `xs` that satisfy `p`, in their original order. */
  function Filter<T>(xs: seq<T>, p: T -> bool): seq<T>
    decreases |xs|
  {
    if |xs| == 0 then []
    else Filter(xs[..|xs| - 1], p) + (if p(xs[|xs| - 1]) then [xs[|xs| - 1]] else [])
  }

  lemma {:induction false} SumByAppend<T>(xs: seq<T>, ys: seq<T>, f: T -> real)
    ensures SumBy(xs + ys, f) == SumBy(xs, f) + SumBy(ys, f)
    decreases |ys|
  {
    if |ys| == 0 {
      assert xs + ys == xs;
    } else {
      var n := |ys|;
      assert (xs + ys)[..|xs + ys| - 1] == xs + ys[..n - 1];
      SumByAppend(xs, ys[..n - 1], f);
    }
  }

  lemma SumBySnoc<T>(xs: seq<T>, x: T, f: T -> real)
    ensures SumBy(xs + [x], f) == SumBy(xs, f) + f(x)
  {
    assert (xs + [x])[..|xs|] == xs;
  }

  /** Taking one element out of a sum. */
  lemma SumByRemove<T>(xs: seq<T>, j: nat, f: T -> real)
    requires j < |xs|
    ensures SumBy(xs, f) == SumBy(xs[..j] + xs[j + 1..], f) + f(xs[j])
  {
    assert xs == xs[..j] + ([xs[j]] + xs[j + 1..]);
    SumByAppend(xs[..j], [xs[j]] + xs[j + 1..], f);
    SumByAppend([xs[j]], xs[j + 1..], f);
    SumByAppend(xs[..j], xs[j + 1..], f);
    assert [xs[j]][..0] == [];
  }

  /** A sum does not depend on the order of its terms. */
  lemma {:induction false} SumByPermutation<T>(xs: seq<T>, ys: seq<T>, f: T -> real)
    requires multiset(xs) == multiset(ys)
    ensures SumBy(xs, f) == SumBy(ys, f)
    decreases |xs|
  {
    if |xs| == 0 {
      assert |ys| == |multiset(ys)| == 0;
    } else {
      var n := |xs|;
      var j := PermutationRemove(xs, ys);
      SumByPermutation(xs[..n - 1], ys[..j] + ys[j + 1..], f);
      SumByRemove(ys, j, f);
    }
  }

  /** Terms that are all zero sum to zero. */
  lemma {:induction false} SumByAllZero<T>(xs: seq<T>, f: T -> real)
    requires forall i :: 0 <= i < |xs| ==> f(xs[i]) == 0.0
    ensures SumBy(xs, f) == 0.0
    decreases |xs|
  {
    if |xs| > 0 {
      SumByAllZero(xs[..|xs| - 1], f);
    }
  }

  /** Dropping terms that are zero leaves the sum unchanged. */
  lemma {:induction false} SumByFilterNonZero<T>(xs: seq<T>, p: T -> bool, f: T -> real)
    requires forall i :: 0 <= i < |xs| && !p(xs[i]) ==> f(xs[i]) == 0.0
    ensures SumBy(Filter(xs, p), f) == SumBy(xs, f)
    decreases |xs|
  {
    if |xs| > 0 {
      var n := |xs|;
      SumByFilterNonZero(xs[..n - 1], p, f);
      SumByAppend(Filter(xs[..n - 1], p), if p(xs[n - 1]) then [xs[n - 1]] else [], f);
      assert [xs[n - 1]][..0] == [];
    }
  }

  lemma {:induction false} FilterAppend<T>(xs: seq<T>, ys: seq<T>, p: T -> bool)
    ensures Filter(xs + ys, p) == Filter(xs, p) + Filter(ys, p)
    decreases |ys|
  {
    if |ys| == 0 {
      assert xs + ys == xs;
    } else {
      var n := |ys|;
      assert (xs + ys)[..|xs + ys| - 1] == xs + ys[..n - 1];
      FilterAppend(xs, ys[..n - 1], p);
    }
  }

  /** Filtering a sequence with one element taken out. */
  lemma FilterRemove<T>(ys: seq<T>, j: nat, p: T -> bool)
    requires j < |ys|
    ensures multiset(Filter(ys, p))
         == multiset(Filter(ys[..j] + ys[j + 1..], p)) + multiset(if p(ys[j]) then [ys[j]] else [])
  {
    var a, x, b := ys[..j], ys[j], ys[j + 1..];
    var px := if p(x) then [x] else [];
    SplitAt(ys, j);
    FilterAppend(a + [x], b, p);
    FilterAppend(a, [x], p);
    FilterSingleton(x, p);
    FilterAppend(a, b, p);
    var fa, fb := Filter(a, p), Filter(b, p);
    assert Filter(ys, p) == fa + px + fb;
    assert Filter(a + b, p) == fa + fb;
    assert multiset(fa + px + fb) == multiset(fa + fb) + multiset(px);
  }

  lemma SplitAt<T>(ys: seq<T>, j: nat)
    requires j < |ys|
    ensures ys == (ys[..j] + [ys[j]]) + ys[j + 1..]
  {
  }

  lemma FilterSingleton<T>(x: T, p: T -> bool)
    ensures Filter([x], p) == if p(x) then [x] else []
  {
    assert [x][..0] == [];
  }

  /** Taking the last element off one side and a matching element off the other. */
  lemma PermutationRemove<T>(xs: seq<T>, ys: seq<T>) returns (j: nat)
    requires multiset(xs) == multiset(ys) && |xs| > 0
    ensures j < |ys| && ys[j] == xs[|xs| - 1]
    ensures multiset(xs[..|xs| - 1]) == multiset(ys[..j] + ys[j + 1..])
  {
    var n := |xs|;
    var x := xs[n - 1];
    assert xs == xs[..n - 1] + [x];
    assert x in multiset(ys);
    j :| 0 <= j < |ys| && ys[j] == x;
    var rest := ys[..j] + ys[j + 1..];
    assert ys == ys[..j] + [x] + ys[j + 1..];
    assert multiset(ys) == multiset(rest) + multiset{x};
    assert multiset(xs) == multiset(xs[..n - 1]) + multiset{x};
    assert multiset(xs[..n - 1]) == multiset(xs) - multiset{x} == multiset(ys) - multiset{x} == multiset(rest);
  }

  /** Filters of two permutations of one another are permutations of one another. */
  lemma {:induction false} FilterPermutation<T>(xs: seq<T>, ys: seq<T>, p: T -> bool)
    requires multiset(xs) == multiset(ys)
    ensures multiset(Filter(xs, p)) == multiset(Filter(ys, p))
    decreases |xs|
  {
    if |xs| == 0 {
      assert |ys| == |multiset(ys)| == 0;
    } else {
      var n := |xs|;
      var j := PermutationRemove(xs, ys);
      FilterPermutation(xs[..n - 1], ys[..j] + ys[j + 1..], p);
      FilterRemove(ys, j, p);
    }
  }

  /** The largest element of a non-empty sequence (`Math.max(...xs)`). */
  function MaxOf(xs: seq<int>): (m: int)
    requires |xs| > 0
    ensures m in xs
    ensures forall i :: 0 <= i < |xs| ==> xs[i] <= m
    decreases |xs|
  {
    if |xs| == 1 then xs[0]
    else
      var rest := MaxOf(xs[..|xs| - 1]);
      if xs[|xs| - 1] > rest then xs[|xs| - 1] else rest
  }

  /** An element survives the filter exactly when it occurs and satisfies `p`. */
  lemma {:induction false} FilterMember<T>(xs: seq<T>, p: T -> bool, x: T)
    ensures x in Filter(xs, p) <==> x in xs && p(x)
    decreases |xs|
  {
    if |xs| > 0 {
      var n := |xs|;
      FilterMember(xs[..n - 1], p, x);
      assert xs == xs[..n - 1] + [xs[n - 1]];
    }
  }

  /** A filter every element passes keeps the whole sequence. */
  lemma {:induction false} FilterAll<T>(xs: seq<T>, p: T -> bool)
    requires forall i :: 0 <= i < |xs| ==> p(xs[i])
    ensures Filter(xs, p) == xs
    decreases |xs|
  {
    if |xs| > 0 {
      var n := |xs|;
      FilterAll(xs[..n - 1], p);
      assert xs == xs[..n - 1] + [xs[n - 1]];
    }
  }

  /** Filtering out one element that alone fails the test. */
  lemma FilterDropsOne<T>(before: seq<T>, x: T, after: seq<T>, p: T -> bool)
    requires forall i :: 0 <= i < |before| ==> p(before[i])
    requires forall i :: 0 <= i < |after| ==> p(after[i])
    requires !p(x)
    ensures Filter(before + [x] + after, p) == before + after
  {
    var left := before + [x];
    FilterAppend(left, after, p);
    FilterAppend(before, [x], p);
    FilterSingleton(x, p);
    FilterAll(before, p);
    FilterAll(after, p);
    assert Filter(left, p) == before;
  }

  /** When exactly one of two tests holds for every element, the two filters
      together are a permutation of the sequence. */
  lemma {:induction false} FilterComplement<T>(xs: seq<T>, p: T -> bool, q: T -> bool)
    requires forall i :: 0 <= i < |xs| ==> p(xs[i]) != q(xs[i])
    ensures multiset(Filter(xs, p)) + multiset(Filter(xs, q)) == multiset(xs)
    decreases |xs|
  {
    if |xs| > 0 {
      var n := |xs|;
      var init, x := xs[..n - 1], xs[n - 1];
      FilterComplement(init, p, q);
      assert xs == init + [x];
      var fp, fq := Filter(init, p), Filter(init, q);
      assert Filter(xs, p) == fp + (if p(x) then [x] else []);
      assert Filter(xs, q) == fq + (if q(x) then [x] else []);
      assert multiset(xs) == multiset(init) + multiset{x};
      if p(x) {
        assert multiset(fp + [x]) == multiset(fp) + multiset{x};
        assert fq + [] == fq;
      } else {
        assert multiset(fq + [x]) == multiset(fq) + multiset{x};
        assert fp + [] == fp;
      }
    }
  }

  /** The complementary filters, the second cut in two, still make up a
      permutation of the sequence. */
  lemma FilterComplementSplit<T>(xs: seq<T>, p: T -> bool, q: T -> bool, front: seq<T>, back: seq<T>)
    requires forall i :: 0 <= i < |xs| ==> p(xs[i]) != q(xs[i])
    requires front + back == Filter(xs, q)
    ensures multiset(Filter(xs, p) + front + back) == multiset(xs)
  {
    FilterComplement(xs, p, q);
    var fp := Filter(xs, p);
    assert fp + front + back == fp + (front + back);
  }
}
