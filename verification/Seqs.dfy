/** First-match searches, filters and projections over append-only lists. */
module Seqs {
  import opened Wrappers

  /** The least index from `start` on whose element satisfies `p`. */
  function PositionFrom<T>(s: seq<T>, p: T -> bool, start: nat): (r: Option<nat>)
    requires start <= |s|
    ensures r.None? ==> forall i :: start <= i < |s| ==> !p(s[i])
    ensures r.Some? ==> start <= r.value < |s| && p(s[r.value])
    ensures r.Some? ==> forall i :: start <= i < r.value ==> !p(s[i])
    decreases |s| - start
  {
    if start == |s| then None
    else if p(s[start]) then Some(start)
    else PositionFrom(s, p, start + 1)
  }

  /** The index of the first element satisfying `p`. */
  function Position<T>(s: seq<T>, p: T -> bool): (r: Option<nat>)
    ensures r.None? <==> forall i :: 0 <= i < |s| ==> !p(s[i])
    ensures r.Some? ==> r.value < |s| && p(s[r.value])
    ensures r.Some? ==> forall i :: 0 <= i < r.value ==> !p(s[i])
  {
    PositionFrom(s, p, 0)
  }

  /** The first element satisfying `p`. */
  function Find<T>(s: seq<T>, p: T -> bool): (r: Option<T>)
    ensures r.None? <==> forall i :: 0 <= i < |s| ==> !p(s[i])
    ensures r.Some? ==> r.value in s && p(r.value)
    ensures r.Some? ==> exists k :: 0 <= k < |s| && s[k] == r.value && forall i :: 0 <= i < k ==> !p(s[i])
  {
    match Position(s, p)
    case None => None
    case Some(k) => Some(s[k])
  }

  /** The first value that `f` yields. */
  function FindMap<T, U>(s: seq<T>, f: T -> Option<U>): (r: Option<U>)
    ensures r.None? <==> forall i :: 0 <= i < |s| ==> f(s[i]).None?
    ensures r.Some? ==> exists k :: 0 <= k < |s| && f(s[k]) == r && forall i :: 0 <= i < k ==> f(s[i]).None?
  {
    match Position(s, (x: T) => f(x).Some?)
    case None => None
    case Some(k) => f(s[k])
  }

  /** A first match is unaffected by what is appended behind it. */
  lemma PositionStable<T>(s: seq<T>, tail: seq<T>, p: T -> bool)
    ensures Position(s, p).Some? ==> Position(s + tail, p) == Position(s, p)
    ensures Position(s, p).None? && Position(s + tail, p).Some? ==> Position(s + tail, p).value >= |s|
  {
    assert forall i :: 0 <= i < |s| ==> (s + tail)[i] == s[i];
    var q := Position(s, p);
    if q.Some? {
      assert p((s + tail)[q.value]);
    }
  }

  /** The position of an element that no earlier one anticipates. */
  lemma PositionUnique<T>(s: seq<T>, p: T -> bool, k: nat)
    requires k < |s| && p(s[k]) && forall i :: 0 <= i < k ==> !p(s[i])
    ensures Position(s, p) == Some(k)
  {
    assert p(s[k]);
  }

  function Map<T, U>(s: seq<T>, f: T -> U): (r: seq<U>)
    ensures |r| == |s|
    ensures forall i :: 0 <= i < |s| ==> r[i] == f(s[i])
  {
    seq(|s|, i requires 0 <= i < |s| => f(s[i]))
  }

  function Filter<T>(s: seq<T>, p: T -> bool): seq<T> {
    if s == [] then []
    else
      var rest := Filter(s[..|s| - 1], p);
      if p(s[|s| - 1]) then rest + [s[|s| - 1]] else rest
  }

  lemma {:induction false} FilterMembers<T>(s: seq<T>, p: T -> bool, x: T)
    ensures x in Filter(s, p) <==> x in s && p(x)
  {
    if s != [] {
      FilterMembers(s[..|s| - 1], p, x);
      assert s == s[..|s| - 1] + [s[|s| - 1]];
    }
  }

  lemma FilterAppend<T>(s: seq<T>, x: T, p: T -> bool)
    ensures Filter(s + [x], p) == if p(x) then Filter(s, p) + [x] else Filter(s, p)
  {
    assert (s + [x])[..|s + [x]| - 1] == s;
  }

  lemma {:induction false} FilterConcat<T>(s: seq<T>, t: seq<T>, p: T -> bool)
    ensures Filter(s + t, p) == Filter(s, p) + Filter(t, p)
  {
    if t == [] {
      assert s + t == s;
    } else {
      var u, x := t[..|t| - 1], t[|t| - 1];
      assert t == u + [x] && s + t == (s + u) + [x];
      FilterConcat(s, u, p);
      FilterAppend(s + u, x, p);
      FilterAppend(u, x, p);
    }
  }

  lemma {:induction false} FilterNone<T>(s: seq<T>, p: T -> bool)
    requires forall i :: 0 <= i < |s| ==> !p(s[i])
    ensures Filter(s, p) == []
  {
    if s != [] {
      FilterNone(s[..|s| - 1], p);
    }
  }

  lemma {:induction false} FilterAll<T>(s: seq<T>, p: T -> bool)
    requires forall i :: 0 <= i < |s| ==> p(s[i])
    ensures Filter(s, p) == s
  {
    if s != [] {
      FilterAll(s[..|s| - 1], p);
    }
  }

  function RemoveAt<T>(s: seq<T>, k: nat): (r: seq<T>)
    requires k < |s|
    ensures |r| == |s| - 1
    ensures multiset(r) + multiset{s[k]} == multiset(s)
  {
    assert s == s[..k] + [s[k]] + s[k + 1..];
    s[..k] + s[k + 1..]
  }

  function Extend<T>(s: seq<T>, x: Option<T>): seq<T> {
    match x
    case None => s
    case Some(value) => s + [value]
  }

  /** The values `f` extracts, in list order. */
  function Project<T, U>(s: seq<T>, f: T -> Option<U>): seq<U> {
    if s == [] then [] else Extend(Project(s[..|s| - 1], f), f(s[|s| - 1]))
  }

  lemma ProjectAppend<T, U>(s: seq<T>, x: T, f: T -> Option<U>)
    ensures Project(s + [x], f) == Extend(Project(s, f), f(x))
  {
    assert (s + [x])[..|s + [x]| - 1] == s;
  }

  lemma {:induction false} ProjectConcat<T, U>(s: seq<T>, t: seq<T>, f: T -> Option<U>)
    ensures Project(s + t, f) == Project(s, f) + Project(t, f)
  {
    if t == [] {
      assert s + t == s;
    } else {
      var u, x := t[..|t| - 1], t[|t| - 1];
      assert t == u + [x] && s + t == (s + u) + [x];
      ProjectConcat(s, u, f);
      ProjectAppend(s + u, x, f);
      ProjectAppend(u, x, f);
    }
  }

  /** Every projected value comes from an element of the list. */
  lemma {:induction false} ProjectedFrom<T, U>(s: seq<T>, f: T -> Option<U>, u: U)
    ensures u in Project(s, f) <==> exists i :: 0 <= i < |s| && f(s[i]) == Some(u)
  {
    if s != [] {
      var t, x := s[..|s| - 1], s[|s| - 1];
      ProjectedFrom(t, f, u);
      if i :| 0 <= i < |s| && f(s[i]) == Some(u) {
        if i < |t| {
          assert f(t[i]) == Some(u);
        }
      }
      if u in Project(t, f) {
        var i :| 0 <= i < |t| && f(t[i]) == Some(u);
        assert f(s[i]) == Some(u);
      } else if f(x) == Some(u) {
        assert f(s[|s| - 1]) == Some(u);
      }
    }
  }

  /** The concatenation of what `f` yields for each element. */
  function Gather<T, U>(s: seq<T>, f: T -> seq<U>): seq<U> {
    if s == [] then [] else Gather(s[..|s| - 1], f) + f(s[|s| - 1])
  }

  lemma GatherAppend<T, U>(s: seq<T>, x: T, f: T -> seq<U>)
    ensures Gather(s + [x], f) == Gather(s, f) + f(x)
  {
    assert (s + [x])[..|s + [x]| - 1] == s;
  }

  function First<T>(s: seq<T>): Option<T> {
    if s == [] then None else Some(s[0])
  }

  function Last<T>(s: seq<T>): Option<T> {
    if s == [] then None else Some(s[|s| - 1])
  }

  function OrElse<T>(a: Option<T>, b: Option<T>): Option<T> {
    if a.Some? then a else b
  }

  ghost predicate Distinct<T>(s: seq<T>) {
    forall i, j :: 0 <= i < j < |s| ==> s[i] != s[j]
  }

  /** A list without repetition is no longer than a list that holds all its elements. */
  lemma {:induction false} DistinctFitsIn<T>(s: seq<T>, t: seq<T>)
    requires Distinct(s)
    requires forall x :: x in s ==> x in t
    ensures |s| <= |t|
  {
    if s != [] {
      var x := s[|s| - 1];
      var rest := s[..|s| - 1];
      assert x in t;
      var k :| 0 <= k < |t| && t[k] == x;
      var smaller := t[..k] + t[k + 1..];
      forall y | y in rest
        ensures y in smaller
      {
        assert y in s && y in t;
        var j :| 0 <= j < |t| && t[j] == y;
        if j < k {
          assert smaller[j] == y;
        } else {
          assert j != k;
          assert smaller[j - 1] == y;
        }
      }
      DistinctFitsIn(rest, smaller);
    }
  }
}
