/**
 * The array operations the application is built from: `filter` and `find`
 * on JavaScript arrays, written as functions on sequences, with the facts
 * about them that the handlers and the route grouping rely on.
 */
module Seqs {
  import opened Wrappers

  /** `a` is obtained from `b` by deleting elements: the relative order of what is kept is unchanged. */
  ghost predicate IsSubsequence<T(!new)>(a: seq<T>, b: seq<T>)
    decreases |b|
  {
    a == [] || (b != [] && ((a[0] == b[0] && IsSubsequence(a[1..], b[1..])) || IsSubsequence(a, b[1..])))
  }

  /** Every value occurs at most once. */
  ghost predicate NoDuplicates<T(!new)>(s: seq<T>)
  {
    forall x :: multiset(s)[x] <= 1
  }

  /** The predicate that holds where `p` does not. */
  function Not<T>(p: T -> bool): T -> bool
  {
    x => !p(x)
  }

  /** `s.filter(p)`: the elements of `s` that satisfy `p`. */
  function Filter<T(!new)>(p: T -> bool, s: seq<T>): (r: seq<T>)
    ensures |r| <= |s|
    ensures forall x :: x in r <==> x in s && p(x)
  {
    if s == [] then []
    else
      assert forall x :: x in s <==> x == s[0] || x in s[1..];
      (if p(s[0]) then [s[0]] else []) + Filter(p, s[1..])
  }

  /** `s.find(p)`: some element of `s` that satisfies `p`, or None (`undefined`) when there is none. */
  function Find<T(!new)>(p: T -> bool, s: seq<T>): (r: Option<T>)
    ensures r.None? <==> forall x :: x in s ==> !p(x)
    ensures r.Some? ==> r.value in s && p(r.value)
  {
    if s == [] then None
    else if p(s[0]) then Some(s[0])
    else
      assert forall x :: x in s <==> x == s[0] || x in s[1..];
      Find(p, s[1..])
  }

  /**
   * The values of a sequence of optional values when every one of them is
   * present, and None as soon as one is missing.
   */
  function Present<T(!new)>(s: seq<Option<T>>): (r: Option<seq<T>>)
    ensures r.Some? <==> forall i :: 0 <= i < |s| ==> s[i].Some?
    ensures r.Some? ==> |r.value| == |s| && forall i :: 0 <= i < |s| ==> s[i] == Some(r.value[i])
  {
    if s == [] then Some([])
    else if s[0].None? then None
    else
      var rest := Present(s[1..]);
      assert forall i :: 1 <= i < |s| ==> s[i] == s[1..][i - 1];
      if rest.None? then None else Some([s[0].value] + rest.value)
  }

  /** `find` returns the first element that satisfies `p`. */
  lemma {:induction false} FindFirst<T(!new)>(p: T -> bool, s: seq<T>, i: nat)
    requires i < |s| && p(s[i])
    requires forall j :: 0 <= j < i ==> !p(s[j])
    ensures Find(p, s) == Some(s[i])
  {
    if i > 0 {
      assert !p(s[0]);
      FindFirst(p, s[1..], i - 1);
    }
  }

  /** `find` returns the head of what `filter` keeps, and nothing when `filter` keeps nothing. */
  lemma {:induction false} FindIsHeadOfFilter<T(!new)>(p: T -> bool, s: seq<T>)
    ensures Find(p, s) == if Filter(p, s) == [] then None else Some(Filter(p, s)[0])
  {
    if s != [] && !p(s[0]) {
      FindIsHeadOfFilter(p, s[1..]);
    }
  }

  /** Filtering keeps the relative order of the elements it keeps. */
  lemma {:induction false} FilterIsSubsequence<T(!new)>(p: T -> bool, s: seq<T>)
    ensures IsSubsequence(Filter(p, s), s)
  {
    if s != [] {
      FilterIsSubsequence(p, s[1..]);
      var r := Filter(p, s);
      if p(s[0]) {
        assert r == [s[0]] + Filter(p, s[1..]);
        assert r[0] == s[0] && r[1..] == Filter(p, s[1..]);
      } else {
        assert r == Filter(p, s[1..]);
      }
    }
  }

  /** Filtering keeps every occurrence of an element that satisfies `p` and none of one that does not. */
  lemma {:induction false} FilterCounts<T(!new)>(p: T -> bool, s: seq<T>)
    ensures forall x :: multiset(Filter(p, s))[x] == if p(x) then multiset(s)[x] else 0
  {
    if s != [] {
      FilterCounts(p, s[1..]);
      assert s == [s[0]] + s[1..];
      assert multiset(s) == multiset{s[0]} + multiset(s[1..]);
    }
  }

  /** Filtering a one-element sequence keeps the element exactly when it satisfies `p`. */
  lemma FilterSingleton<T(!new)>(p: T -> bool, x: T)
    ensures Filter(p, [x]) == if p(x) then [x] else []
  {
  }

  /** Filtering distributes over concatenation. */
  lemma {:induction false} FilterConcat<T(!new)>(p: T -> bool, s: seq<T>, t: seq<T>)
    ensures Filter(p, s + t) == Filter(p, s) + Filter(p, t)
  {
    if s != [] {
      assert (s + t)[0] == s[0];
      assert (s + t)[1..] == s[1..] + t;
      FilterConcat(p, s[1..], t);
    } else {
      assert s + t == t;
    }
  }

  /** Filtering a sequence whose elements all satisfy `p` returns it unchanged. */
  lemma {:induction false} FilterAll<T(!new)>(p: T -> bool, s: seq<T>)
    requires forall x :: x in s ==> p(x)
    ensures Filter(p, s) == s
  {
    if s != [] {
      assert s[0] in s;
      assert forall x :: x in s[1..] ==> x in s;
      FilterAll(p, s[1..]);
      assert s == [s[0]] + s[1..];
    }
  }

  /** A filter and its complement split a sequence: their lengths add up to its length. */
  lemma {:induction false} FilterSplit<T(!new)>(p: T -> bool, s: seq<T>)
    ensures |Filter(p, s)| + |Filter(Not(p), s)| == |s|
  {
    if s != [] {
      FilterSplit(p, s[1..]);
    }
  }

  /** Filtering out a single element that fails `p`, between parts that satisfy it, removes just that element. */
  lemma {:induction false} FilterDropsOne<T(!new)>(p: T -> bool, a: seq<T>, x: T, b: seq<T>)
    requires forall y :: y in a ==> p(y)
    requires forall y :: y in b ==> p(y)
    requires !p(x)
    ensures Filter(p, a + [x] + b) == a + b
  {
    FilterAll(p, a);
    FilterAll(p, b);
    FilterSingleton(p, x);
    FilterConcat(p, a, [x]);
    FilterConcat(p, a + [x], b);
    calc {
      Filter(p, a + [x] + b);
      Filter(p, a + [x]) + Filter(p, b);
      Filter(p, a) + Filter(p, [x]) + Filter(p, b);
      a + [] + b;
      { assert a + [] == a; }
      a + b;
    }
  }

  /** A sequence is what comes before position `i`, the element at `i`, and what comes after. */
  lemma {:induction false} SplitAt<T(!new)>(s: seq<T>, i: nat)
    requires i < |s|
    ensures s == s[..i] + [s[i]] + s[i + 1..]
    ensures multiset(s[..i] + s[i + 1..]) + multiset{s[i]} == multiset(s)
  {
    assert s == s[..i] + [s[i]] + s[i + 1..];
    calc {
      multiset(s);
      multiset(s[..i] + [s[i]] + s[i + 1..]);
      multiset(s[..i]) + multiset{s[i]} + multiset(s[i + 1..]);
      multiset(s[..i] + s[i + 1..]) + multiset{s[i]};
    }
  }
}
