/** Scans over sequences shared by the record lookups and the passes. */
module Seqs {
  import opened Wrappers

  /** Position of the first element satisfying `p`, if there is one. */
  function FirstIndex<T>(s: seq<T>, p: T -> bool): (r: Option<nat>)
    ensures r.Some? ==> r.value < |s| && p(s[r.value])
    ensures r.Some? ==> forall j :: 0 <= j < r.value ==> !p(s[j])
    ensures r.None? <==> forall j :: 0 <= j < |s| ==> !p(s[j])
    decreases |s|
  {
    if |s| == 0 then None
    else if p(s[0]) then Some(0)
    else match FirstIndex(s[1..], p)
      case None => None
      case Some(i) => Some(i + 1)
  }

  /** The first-match characterisation determines `FirstIndex` completely. */
  lemma FirstIndexIs<T>(s: seq<T>, p: T -> bool, r: Option<nat>)
    requires r.Some? ==> r.value < |s| && p(s[r.value])
    requires r.Some? ==> forall j :: 0 <= j < r.value ==> !p(s[j])
    requires r.None? ==> forall j :: 0 <= j < |s| ==> !p(s[j])
    ensures FirstIndex(s, p) == r
  {
  }

  /** The elements of `s` satisfying `p`, in their original order. */
  function Filter<T>(s: seq<T>, p: T -> bool): (r: seq<T>)
    ensures |r| <= |s|
    ensures forall i :: 0 <= i < |r| ==> r[i] in s && p(r[i])
    ensures forall j :: 0 <= j < |s| && p(s[j]) ==> s[j] in r
    decreases |s|
  {
    if |s| == 0 then []
    else if p(s[0]) then [s[0]] + Filter(s[1..], p)
    else Filter(s[1..], p)
  }

  /** Filtering distributes over concatenation: survivors keep their relative order. */
  lemma {:induction false} FilterAppend<T>(a: seq<T>, b: seq<T>, p: T -> bool)
    ensures Filter(a + b, p) == Filter(a, p) + Filter(b, p)
    decreases |a|
  {
    if |a| > 0 {
      assert (a + b)[1..] == a[1..] + b;
      FilterAppend(a[1..], b, p);
    } else {
      assert a + b == b;
    }
  }

  /** Each value occurs in the filtered sequence exactly as often as in the input if it passes, else never. */
  lemma {:induction false} FilterCount<T>(s: seq<T>, p: T -> bool, x: T)
    ensures multiset(Filter(s, p))[x] == if p(x) then multiset(s)[x] else 0
    decreases |s|
  {
    if |s| > 0 {
      FilterCount(s[1..], p, x);
      assert s == [s[0]] + s[1..];
      assert multiset(s) == multiset{s[0]} + multiset(s[1..]);
    }
  }

  /** Filtering twice with the same predicate changes nothing. */
  lemma {:induction false} FilterIdempotent<T>(s: seq<T>, p: T -> bool)
    ensures Filter(Filter(s, p), p) == Filter(s, p)
    decreases |s|
  {
    if |s| > 0 {
      FilterIdempotent(s[1..], p);
      if p(s[0]) {
        assert ([s[0]] + Filter(s[1..], p))[1..] == Filter(s[1..], p);
      }
    }
  }

  /** Both predicates at once. */
  function Both<T>(p: T -> bool, q: T -> bool): T -> bool {
    (x: T) => p(x) && q(x)
  }

  /**
   * Searching the filtered sequence for `q` finds the first element of the
   * whole sequence satisfying both `p` and `q`.
   */
  ghost predicate FilterFinds<T>(s: seq<T>, p: T -> bool, q: T -> bool) {
    && (FirstIndex(Filter(s, p), q).None? <==> FirstIndex(s, Both(p, q)).None?)
    && (FirstIndex(Filter(s, p), q).Some? ==>
          Filter(s, p)[FirstIndex(Filter(s, p), q).value] == s[FirstIndex(s, Both(p, q)).value])
  }

  lemma {:induction false} FirstInFilter<T>(s: seq<T>, p: T -> bool, q: T -> bool)
    ensures FilterFinds(s, p, q)
    decreases |s|
  {
    if |s| > 0 {
      FirstInFilter(s[1..], p, q);
      if !p(s[0]) {
        FilterFindsSkip(s, p, q);
      } else if !q(s[0]) {
        FilterFindsKeep(s, p, q);
      } else {
        assert Both(p, q)(s[0]);
      }
    }
  }

  /** A first element that `p` drops leaves the search where it was, one position later in `s`. */
  lemma FilterFindsSkip<T>(s: seq<T>, p: T -> bool, q: T -> bool)
    requires |s| > 0 && !p(s[0]) && FilterFinds(s[1..], p, q)
    ensures FilterFinds(s, p, q)
  {
    assert !Both(p, q)(s[0]);
    FirstIndexTail(s, Both(p, q));
    assert Filter(s, p) == Filter(s[1..], p);
  }

  /** A first element that `p` keeps but `q` rejects moves both searches one position on. */
  lemma FilterFindsKeep<T>(s: seq<T>, p: T -> bool, q: T -> bool)
    requires |s| > 0 && p(s[0]) && !q(s[0]) && FilterFinds(s[1..], p, q)
    ensures FilterFinds(s, p, q)
  {
    var t := s[1..];
    assert !Both(p, q)(s[0]);
    FirstIndexTail(s, Both(p, q));
    var f, ft := Filter(s, p), Filter(t, p);
    assert f == [s[0]] + ft;
    assert f[1..] == ft;
    FirstIndexTail(f, q);
    var kt := FirstIndex(ft, q);
    if kt.Some? {
      var mt := FirstIndex(t, Both(p, q));
      assert f[kt.value + 1] == ft[kt.value];
      assert s[mt.value + 1] == t[mt.value];
    }
  }

  /** A search whose first element fails continues one position on. */
  lemma FirstIndexTail<T>(s: seq<T>, p: T -> bool)
    requires |s| > 0 && !p(s[0])
    ensures var m := FirstIndex(s[1..], p);
      FirstIndex(s, p) == if m.None? then None else Some(m.value + 1)
  {
  }

  /**
   * A loop that may raise and collects what each iteration produces: `f` is
   * applied to the elements in order, the first failure is the result, and
   * otherwise the outputs are concatenated.
   */
  function ConcatMap<X, Y, E>(xs: seq<X>, f: X -> Result<seq<Y>, E>): (r: Result<seq<Y>, E>)
    ensures r.Success? <==> forall i :: 0 <= i < |xs| ==> f(xs[i]).Success?
    ensures r.Success? ==> forall i, y :: 0 <= i < |xs| && f(xs[i]).Success? && y in f(xs[i]).value ==> y in r.value
    ensures r.Success? ==> forall y :: y in r.value ==> exists i :: 0 <= i < |xs| && f(xs[i]).Success? && y in f(xs[i]).value
    ensures r.Failure? ==>
      exists i :: (0 <= i < |xs| && f(xs[i]) == Failure(r.error) && forall j :: 0 <= j < i ==> f(xs[j]).Success?)
    decreases |xs|
  {
    if |xs| == 0 then Success([])
    else
      var a :- f(xs[0]);
      var b :- ConcatMap(xs[1..], f);
      assert forall i :: 0 < i < |xs| ==> xs[i] == xs[1..][i - 1];
      Success(a + b)
  }
}
