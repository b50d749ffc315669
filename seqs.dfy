/** Sequence operations the dashboard uses through JavaScript's array
    methods: `filter`, `slice(0, n)`, `slice(-n)` and a summing `reduce`. */
module Seqs {

  /** `s.filter(keep)`: the elements that satisfy `keep`, in their order. */
  function Filter<T>(s: seq<T>, keep: T -> bool): (r: seq<T>)
    ensures |r| <= |s|
    ensures forall i :: 0 <= i < |r| ==> keep(r[i])
  {
    if s == [] then []
    else (if keep(s[0]) then [s[0]] else []) + Filter(s[1..], keep)
  }

  /** Filtering a concatenation filters each part: this is what makes
      `Filter` keep the relative order of what it keeps. */
  lemma {:induction false} FilterAppend<T>(a: seq<T>, b: seq<T>, keep: T -> bool)
    ensures Filter(a + b, keep) == Filter(a, keep) + Filter(b, keep)
  {
    if a == [] {
      assert a + b == b;
    } else {
      assert (a + b)[0] == a[0];
      assert (a + b)[1..] == a[1..] + b;
      FilterAppend(a[1..], b, keep);
    }
  }

  /** Every occurrence of a kept value survives, every occurrence of a dropped
      value is gone: filtering neither merges nor duplicates elements. */
  lemma {:induction false} FilterCount<T>(s: seq<T>, keep: T -> bool, x: T)
    ensures multiset(Filter(s, keep))[x] == if keep(x) then multiset(s)[x] else 0
  {
    if s != [] {
      FilterCount(s[1..], keep, x);
      assert s == [s[0]] + s[1..];
      assert multiset(s) == multiset([s[0]]) + multiset(s[1..]);
    }
  }

  /** An element is in the filtered sequence exactly when it is in the
      original and is kept. */
  lemma FilterMember<T>(s: seq<T>, keep: T -> bool, x: T)
    ensures x in Filter(s, keep) <==> x in s && keep(x)
  {
    FilterCount(s, keep, x);
    assert x in Filter(s, keep) <==> multiset(Filter(s, keep))[x] > 0;
    assert x in s <==> multiset(s)[x] > 0;
  }

  /** Filtering a sequence whose elements are all kept changes nothing. */
  lemma {:induction false} FilterAllKept<T>(s: seq<T>, keep: T -> bool)
    requires forall i :: 0 <= i < |s| ==> keep(s[i])
    ensures Filter(s, keep) == s
  {
    if s != [] {
      FilterAllKept(s[1..], keep);
    }
  }

  /** `s.slice(0, n)`: the first `n` elements, or all of `s` when shorter. */
  function Take<T>(s: seq<T>, n: nat): (r: seq<T>)
    ensures |r| == if |s| < n then |s| else n
    ensures forall i :: 0 <= i < |r| ==> r[i] == s[i]
  {
    if |s| <= n then s else s[..n]
  }

  /** `s.slice(-n)` for `n > 0`: the last `n` elements, or all of `s` when
      shorter. */
  function LastN<T>(s: seq<T>, n: nat): (r: seq<T>)
    ensures |r| == if |s| < n then |s| else n
    ensures forall i :: 0 <= i < |r| ==> r[i] == s[|s| - |r| + i]
  {
    if |s| <= n then s else s[|s| - n..]
  }

  /** `s.reduce((sum, x) => sum + f(x), 0)`, folded from the left. */
  function SumOf<T>(s: seq<T>, f: T -> real): (r: real)
    ensures s == [] ==> r == 0.0
    ensures |s| == 1 ==> r == f(s[0])
    ensures (forall j :: 0 <= j < |s| ==> f(s[j]) == 0.0) ==> r == 0.0
  {
    if s == [] then 0.0 else SumOf(s[..|s| - 1], f) + f(s[|s| - 1])
  }

  /** The sum over a concatenation is the sum of the sums. */
  lemma {:induction false} SumOfAppend<T>(a: seq<T>, b: seq<T>, f: T -> real)
    ensures SumOf(a + b, f) == SumOf(a, f) + SumOf(b, f)
  {
    if b != [] {
      var b' := b[..|b| - 1];
      assert (a + b)[..|a + b| - 1] == a + b';
      assert (a + b)[|a + b| - 1] == b[|b| - 1];
      SumOfAppend(a, b', f);
    } else {
      assert a + b == a;
    }
  }

  /** Summing from the front gives the same total as the left fold. */
  lemma {:induction false} SumOfCons<T>(s: seq<T>, f: T -> real)
    requires s != []
    ensures SumOf(s, f) == f(s[0]) + SumOf(s[1..], f)
  {
    assert s == [s[0]] + s[1..];
    SumOfAppend([s[0]], s[1..], f);
    assert [s[0]][..0] == [];
  }

  /** A sum of non-negative terms is at least each of its terms. */
  lemma {:induction false} SumOfBounds<T>(s: seq<T>, f: T -> real, i: nat)
    requires forall j :: 0 <= j < |s| ==> f(s[j]) >= 0.0
    requires i < |s|
    ensures 0.0 <= f(s[i]) <= SumOf(s, f)
  {
    var init := s[..|s| - 1];
    if i < |s| - 1 {
      SumOfBounds(init, f, i);
    }
    SumOfNonNegative(init, f);
  }

  /** A sum of non-negative terms is non-negative. */
  lemma {:induction false} SumOfNonNegative<T>(s: seq<T>, f: T -> real)
    requires forall j :: 0 <= j < |s| ==> f(s[j]) >= 0.0
    ensures SumOf(s, f) >= 0.0
  {
    if s != [] {
      SumOfNonNegative(s[..|s| - 1], f);
    }
  }
}
