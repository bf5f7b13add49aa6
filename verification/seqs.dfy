/** The array builtins the finance screens rely on (`filter`, `reduce` with `+`, `find`),
    written as functions over sequences, with the facts the rest of the model uses. */
module Seqs {
  import opened Wrappers

  /** The elements of `s` that satisfy `p`, in their original order (`s.filter(p)`). */
  function Filter<T(!new)>(p: T -> bool, s: seq<T>): (r: seq<T>)
    ensures |r| <= |s|
    ensures forall x :: x in r <==> x in s && p(x)
    decreases |s|
  {
    if s == [] then []
    else
      assert s == s[..|s| - 1] + [s[|s| - 1]];
      Filter(p, s[..|s| - 1]) + (if p(s[|s| - 1]) then [s[|s| - 1]] else [])
  }

  /** Filtering a concatenation filters each part: the kept elements stay in order. */
  lemma {:induction false} FilterConcat<T(!new)>(p: T -> bool, a: seq<T>, b: seq<T>)
    ensures Filter(p, a + b) == Filter(p, a) + Filter(p, b)
    decreases |b|
  {
    if b == [] {
      assert a + b == a;
    } else {
      var n := |b| - 1;
      assert (a + b)[..|a + b| - 1] == a + b[..n];
      assert (a + b)[|a + b| - 1] == b[n];
      FilterConcat(p, a, b[..n]);
    }
  }

  /** Filtering a one-element prefix. */
  lemma FilterCons<T(!new)>(p: T -> bool, x: T, s: seq<T>)
    ensures Filter(p, [x] + s) == (if p(x) then [x] else []) + Filter(p, s)
  {
    FilterConcat(p, [x], s);
    FilterSingleton(p, x);
  }

  lemma FilterSingleton<T(!new)>(p: T -> bool, x: T)
    ensures Filter(p, [x]) == if p(x) then [x] else []
  {
    assert [x][..0] == [];
  }

  /** A filter that every element passes returns the sequence itself. */
  lemma {:induction false} FilterKeepsAll<T(!new)>(p: T -> bool, s: seq<T>)
    requires forall x :: x in s ==> p(x)
    ensures Filter(p, s) == s
    decreases |s|
  {
    if s != [] {
      var init, last := s[..|s| - 1], s[|s| - 1];
      assert s == init + [last];
      assert forall x :: x in init ==> x in s;
      FilterKeepsAll(p, init);
      assert p(last);
    }
  }

  /** A filter that no element passes returns the empty sequence. */
  lemma {:induction false} FilterKeepsNone<T(!new)>(p: T -> bool, s: seq<T>)
    requires forall x :: x in s ==> !p(x)
    ensures Filter(p, s) == []
    decreases |s|
  {
    if s != [] {
      var init, last := s[..|s| - 1], s[|s| - 1];
      assert forall x :: x in init ==> x in s;
      FilterKeepsNone(p, init);
      assert !p(last);
    }
  }

  /** A predicate and its negation split a sequence into two parts that together hold
      every element exactly as often as the sequence does. */
  lemma {:induction false} FilterPartition<T(!new)>(p: T -> bool, q: T -> bool, s: seq<T>)
    requires forall x :: q(x) == !p(x)
    ensures multiset(Filter(p, s)) + multiset(Filter(q, s)) == multiset(s)
    decreases |s|
  {
    if s != [] {
      var init, last := s[..|s| - 1], s[|s| - 1];
      FilterPartition(p, q, init);
      assert s == init + [last];
    }
  }

  /** The sum of `f` over `s`, added from the left (`s.reduce((acc, x) => acc + f(x), 0)`). */
  function Sum<T(!new)>(f: T -> real, s: seq<T>): real
    decreases |s|
  {
    if s == [] then 0.0 else Sum(f, s[..|s| - 1]) + f(s[|s| - 1])
  }

  /** The sum over a concatenation is the sum of the sums. */
  lemma {:induction false} SumConcat<T(!new)>(f: T -> real, a: seq<T>, b: seq<T>)
    ensures Sum(f, a + b) == Sum(f, a) + Sum(f, b)
    decreases |b|
  {
    if b == [] {
      assert a + b == a;
    } else {
      var n := |b| - 1;
      assert (a + b)[..|a + b| - 1] == a + b[..n];
      assert (a + b)[|a + b| - 1] == b[n];
      SumConcat(f, a, b[..n]);
    }
  }

  /** The sum over a sequence with a first element. */
  lemma SumCons<T(!new)>(f: T -> real, x: T, s: seq<T>)
    ensures Sum(f, [x] + s) == f(x) + Sum(f, s)
  {
    SumConcat(f, [x], s);
    assert Sum(f, [x]) == Sum(f, []) + f(x);
  }

  /** Replacing one element changes the sum by the difference of the two terms. */
  lemma {:induction false} SumUpdate<T(!new)>(f: T -> real, s: seq<T>, i: nat, x: T)
    requires i < |s|
    ensures Sum(f, s[i := x]) == Sum(f, s) - f(s[i]) + f(x)
  {
    assert s == s[..i] + [s[i]] + s[i + 1..];
    assert s[i := x] == s[..i] + [x] + s[i + 1..];
    SumConcat(f, s[..i] + [s[i]], s[i + 1..]);
    SumConcat(f, s[..i], [s[i]]);
    SumConcat(f, s[..i] + [x], s[i + 1..]);
    SumConcat(f, s[..i], [x]);
    assert Sum(f, [s[i]]) == f(s[i]) by { assert [s[i]][..0] == []; }
    assert Sum(f, [x]) == f(x) by { assert [x][..0] == []; }
  }

  /** Two sequences whose terms agree position by position have the same sum. */
  lemma {:induction false} SumPointwise<T(!new)>(f: T -> real, a: seq<T>, b: seq<T>)
    requires |a| == |b|
    requires forall k :: 0 <= k < |a| ==> f(a[k]) == f(b[k])
    ensures Sum(f, a) == Sum(f, b)
    decreases |a|
  {
    if a != [] {
      var n := |a| - 1;
      assert forall k :: 0 <= k < n ==> a[..n][k] == a[k] && b[..n][k] == b[k];
      SumPointwise(f, a[..n], b[..n]);
    }
  }

  /** The sum does not depend on the order of the elements. */
  lemma {:induction false} SumPermutation<T(!new)>(f: T -> real, a: seq<T>, b: seq<T>)
    requires multiset(a) == multiset(b)
    ensures Sum(f, a) == Sum(f, b)
    decreases |a|
  {
    if a != [] {
      var last := a[|a| - 1];
      assert a == a[..|a| - 1] + [last];
      assert last in multiset(b);
      var i :| 0 <= i < |b| && b[i] == last;
      assert b == b[..i] + [b[i]] + b[i + 1..];
      var rest := b[..i] + b[i + 1..];
      assert multiset(a) == multiset(a[..|a| - 1]) + multiset{last};
      assert multiset(b) == multiset(b[..i]) + multiset{last} + multiset(b[i + 1..]);
      assert multiset(rest) == multiset(b[..i]) + multiset(b[i + 1..]);
      assert multiset(a[..|a| - 1]) == multiset(a) - multiset{last};
      assert multiset(rest) == multiset(b) - multiset{last};
      SumPermutation(f, a[..|a| - 1], rest);
      SumConcat(f, b[..i] + [b[i]], b[i + 1..]);
      SumConcat(f, b[..i], [b[i]]);
      SumConcat(f, b[..i], b[i + 1..]);
      assert Sum(f, [b[i]]) == f(last) by { assert [b[i]][..0] == []; }
    }
  }

  /** A sum of non-negative terms is non-negative. */
  lemma {:induction false} SumNonNegative<T(!new)>(f: T -> real, s: seq<T>)
    requires forall x :: x in s ==> f(x) >= 0.0
    ensures Sum(f, s) >= 0.0
    decreases |s|
  {
    if s != [] {
      SumNonNegative(f, s[..|s| - 1]);
    }
  }

  /** The index of the first element of `s` that satisfies `p`, or -1 (`s.findIndex(p)`). */
  function FindIndex<T(!new)>(p: T -> bool, s: seq<T>): (i: int)
    ensures -1 <= i < |s|
    ensures i == -1 <==> forall x :: x in s ==> !p(x)
    ensures 0 <= i ==> p(s[i]) && forall j :: 0 <= j < i ==> !p(s[j])
    decreases |s|
  {
    if s == [] then -1
    else if p(s[0]) then 0
    else
      var k := FindIndex(p, s[1..]);
      assert forall x :: x in s ==> x == s[0] || x in s[1..];
      if k == -1 then -1 else k + 1
  }

  /** The first element of `s` that satisfies `p` (`s.find(p)`), if any: no element
      before it satisfies `p`. */
  function Find<T(!new)>(p: T -> bool, s: seq<T>): (r: Option<T>)
    ensures r.None? <==> forall x :: x in s ==> !p(x)
    ensures r.Some? ==> r.value in s && p(r.value)
    ensures r.Some? ==> exists k :: 0 <= k < |s| && s[k] == r.value && forall j :: 0 <= j < k ==> !p(s[j])
  {
    var i := FindIndex(p, s);
    if i < 0 then None else Some(s[i])
  }
}
