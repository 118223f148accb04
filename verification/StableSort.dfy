/** Stable sorting and consecutive deduplication, pinned down independently of the algorithm. */
module StableSort {
  import opened Seqs

  ghost predicate TotalPreorder<T(!new)>(le: (T, T) -> bool) {
    && (forall x, y :: le(x, y) || le(y, x))
    && (forall x, y, z :: le(x, y) && le(y, z) ==> le(x, z))
  }

  predicate Sorted<T>(s: seq<T>, le: (T, T) -> bool) {
    forall i, j :: 0 <= i < j < |s| ==> le(s[i], s[j])
  }

  /** Later elements are strictly greater, so no two elements have equal keys. */
  predicate StrictlySorted<T>(s: seq<T>, le: (T, T) -> bool) {
    forall i, j :: 0 <= i < j < |s| ==> le(s[i], s[j]) && !le(s[j], s[i])
  }

  predicate Same<T>(le: (T, T) -> bool, x: T, y: T) {
    le(x, y) && le(y, x)
  }

  function SameKey<T>(le: (T, T) -> bool, x: T): T -> bool {
    y => Same(le, x, y)
  }

  /** `a` and `b` hold, for every key, the same elements in the same order. */
  ghost predicate SameByKey<T(!new)>(a: seq<T>, b: seq<T>, le: (T, T) -> bool) {
    forall z :: Filter(a, SameKey(le, z)) == Filter(b, SameKey(le, z))
  }

  function InsertBehind<T(!new)>(s: seq<T>, x: T, le: (T, T) -> bool): (r: seq<T>) {
    if s == [] || le(s[|s| - 1], x) then s + [x]
    else InsertBehind(s[..|s| - 1], x, le) + [s[|s| - 1]]
  }

  /** Sorts by `le`, keeping elements with equal keys in their original order. */
  function Sort<T(!new)>(s: seq<T>, le: (T, T) -> bool): seq<T> {
    if s == [] then [] else InsertBehind(Sort(s[..|s| - 1], le), s[|s| - 1], le)
  }

  lemma {:induction false} InsertBehindSorts<T(!new)>(s: seq<T>, x: T, le: (T, T) -> bool)
    requires TotalPreorder(le) && Sorted(s, le)
    ensures Sorted(InsertBehind(s, x, le), le)
    ensures multiset(InsertBehind(s, x, le)) == multiset(s) + multiset{x}
  {
    if s != [] && !le(s[|s| - 1], x) {
      var t, y := s[..|s| - 1], s[|s| - 1];
      assert s == t + [y];
      InsertBehindSorts(t, x, le);
      hide TotalPreorder;
      Total(le, x, y);
      var r := InsertBehind(t, x, le);
      forall i | 0 <= i < |r|
        ensures le(r[i], y)
      {
        assert r[i] in multiset(r);
        assert r[i] == x || r[i] in t;
      }
    } else if s != [] {
      hide TotalPreorder;
      forall i | 0 <= i < |s|
        ensures le(s[i], x)
      {
        LastIsGreatest(s, le, s[i]);
        Transitive(le, s[i], s[|s| - 1], x);
      }
    }
  }

  lemma Total<T(!new)>(le: (T, T) -> bool, x: T, y: T)
    requires TotalPreorder(le)
    ensures le(x, y) || le(y, x)
  {}

  lemma Transitive<T(!new)>(le: (T, T) -> bool, x: T, y: T, z: T)
    requires TotalPreorder(le) && le(x, y) && le(y, z)
    ensures le(x, z)
  {}

  lemma {:induction false} InsertBehindStable<T(!new)>(s: seq<T>, x: T, le: (T, T) -> bool, z: T)
    requires TotalPreorder(le) && Sorted(s, le)
    ensures Filter(InsertBehind(s, x, le), SameKey(le, z)) == Filter(s + [x], SameKey(le, z))
  {
    if s != [] && !le(s[|s| - 1], x) {
      var t, y, p := s[..|s| - 1], s[|s| - 1], SameKey(le, z);
      InsertBehindStable(t, x, le, z);
      FilterAppend(InsertBehind(t, x, le), y, p);
      FilterAppend(t, x, p);
      FilterAppend(t, y, p);
      assert s == t + [y];
      FilterAppend(s, x, p);
      assert !(p(x) && p(y));
    }
  }

  /** The result is ordered, is a permutation of the input, and never swaps equal keys. */
  lemma {:induction false} SortIsStable<T(!new)>(s: seq<T>, le: (T, T) -> bool)
    requires TotalPreorder(le)
    ensures Sorted(Sort(s, le), le)
    ensures multiset(Sort(s, le)) == multiset(s)
    ensures SameByKey(Sort(s, le), s, le)
  {
    if s != [] {
      var t, x := s[..|s| - 1], s[|s| - 1];
      assert s == t + [x];
      SortIsStable(t, le);
      InsertBehindSorts(Sort(t, le), x, le);
      forall z
        ensures Filter(Sort(s, le), SameKey(le, z)) == Filter(s, SameKey(le, z))
      {
        InsertBehindStable(Sort(t, le), x, le, z);
        FilterAppend(Sort(t, le), x, SameKey(le, z));
        FilterAppend(t, x, SameKey(le, z));
      }
    }
  }

  /** A sorted list ends with an element at least as great as any of its elements. */
  lemma LastIsGreatest<T(!new)>(s: seq<T>, le: (T, T) -> bool, x: T)
    requires TotalPreorder(le) && Sorted(s, le) && x in s
    ensures le(x, s[|s| - 1])
  {
    var k :| 0 <= k < |s| && s[k] == x;
    assert k == |s| - 1 || le(s[k], s[|s| - 1]);
  }

  lemma SharedElement<T(!new)>(a: seq<T>, b: seq<T>, le: (T, T) -> bool, x: T)
    requires TotalPreorder(le) && SameByKey(a, b, le) && x in a
    ensures x in b
  {
    FilterMembers(a, SameKey(le, x), x);
    FilterMembers(b, SameKey(le, x), x);
    assert Filter(a, SameKey(le, x)) == Filter(b, SameKey(le, x));
  }

  lemma FilterEndsWith<T>(s: seq<T>, p: T -> bool)
    requires s != [] && p(s[|s| - 1])
    ensures Filter(s, p) != [] && Filter(s, p)[|Filter(s, p)| - 1] == s[|s| - 1]
  {}

  lemma LastsAgree<T(!new)>(a: seq<T>, b: seq<T>, le: (T, T) -> bool)
    requires TotalPreorder(le) && Sorted(a, le) && Sorted(b, le)
    requires SameByKey(a, b, le) && a != []
    ensures b != [] && a[|a| - 1] == b[|b| - 1]
  {
    var x := a[|a| - 1];
    SharedElement(a, b, le, x);
    var y := b[|b| - 1];
    LastIsGreatest(b, le, x);
    SharedElement(b, a, le, y);
    LastIsGreatest(a, le, y);
    LastsWithSameKey(a, b, le);
  }

  lemma LastsWithSameKey<T(!new)>(a: seq<T>, b: seq<T>, le: (T, T) -> bool)
    requires a != [] && b != [] && Same(le, a[|a| - 1], b[|b| - 1]) && Same(le, a[|a| - 1], a[|a| - 1])
    requires SameByKey(a, b, le)
    ensures a[|a| - 1] == b[|b| - 1]
  {
    var p := SameKey(le, a[|a| - 1]);
    FilterEndsWith(a, p);
    FilterEndsWith(b, p);
    assert Filter(a, p) == Filter(b, p);
  }

  lemma SameByKeyWithoutLast<T(!new)>(a: seq<T>, b: seq<T>, x: T, le: (T, T) -> bool)
    requires SameByKey(a + [x], b + [x], le)
    ensures SameByKey(a, b, le)
  {
    forall z
      ensures Filter(a, SameKey(le, z)) == Filter(b, SameKey(le, z))
    {
      var p := SameKey(le, z);
      var fa, fb := Filter(a, p), Filter(b, p);
      assert Filter(a + [x], p) == Filter(b + [x], p);
      FilterAppend(a, x, p);
      FilterAppend(b, x, p);
      assert p(x) ==> fa == (fa + [x])[..|fa|] && fb == (fb + [x])[..|fb|];
    }
  }

  /** Order plus the per-key sequences determine a list completely. */
  lemma {:induction false} SortedUnique<T(!new)>(a: seq<T>, b: seq<T>, le: (T, T) -> bool)
    requires TotalPreorder(le) && Sorted(a, le) && Sorted(b, le)
    requires SameByKey(a, b, le)
    ensures a == b
  {
    if a == [] {
      if b != [] {
        LastsAgree(b, a, le);
      }
    } else {
      LastsAgree(a, b, le);
      var x, a', b' := a[|a| - 1], a[..|a| - 1], b[..|b| - 1];
      assert a == a' + [x] && b == b' + [x];
      SameByKeyWithoutLast(a', b', x, le);
      SortedUnique(a', b', le);
    }
  }

  /** Any arrangement that keeps equal keys in order sorts to the same list. */
  lemma SortIgnoresOtherOrder<T(!new)>(s: seq<T>, t: seq<T>, le: (T, T) -> bool)
    requires TotalPreorder(le)
    requires SameByKey(s, t, le)
    ensures Sort(s, le) == Sort(t, le)
  {
    SortIsStable(s, le);
    SortIsStable(t, le);
    SortedUnique(Sort(s, le), Sort(t, le), le);
  }

  /** Drops every element whose key equals that of the last kept one. */
  function Dedup<T(!new)>(s: seq<T>, le: (T, T) -> bool): seq<T> {
    if s == [] then []
    else
      var kept := Dedup(s[..|s| - 1], le);
      var x := s[|s| - 1];
      if kept != [] && Same(le, kept[|kept| - 1], x) then kept else kept + [x]
  }

  /** `x` is the earliest element of `s` with its key. */
  ghost predicate FirstWithKey<T>(s: seq<T>, le: (T, T) -> bool, x: T) {
    exists k :: 0 <= k < |s| && s[k] == x && forall i :: 0 <= i < k ==> !Same(le, x, s[i])
  }

  lemma FirstWithKeyAppend<T>(s: seq<T>, y: T, le: (T, T) -> bool, x: T)
    ensures FirstWithKey(s, le, x) ==> FirstWithKey(s + [y], le, x)
    ensures FirstWithKey(s + [y], le, x) ==>
      FirstWithKey(s, le, x) || (x == y && forall i :: 0 <= i < |s| ==> !Same(le, x, s[i]))
    ensures (forall i :: 0 <= i < |s| ==> !Same(le, y, s[i])) ==> FirstWithKey(s + [y], le, y)
  {
    var t := s + [y];
    assert forall i :: 0 <= i < |s| ==> t[i] == s[i];
    if FirstWithKey(s, le, x) {
      var k :| 0 <= k < |s| && s[k] == x && forall i :: 0 <= i < k ==> !Same(le, x, s[i]);
      assert t[k] == x;
    }
    if FirstWithKey(t, le, x) {
      var k :| 0 <= k < |t| && t[k] == x && forall i :: 0 <= i < k ==> !Same(le, x, t[i]);
      if k < |s| {
        assert s[k] == x;
      }
    }
    assert t[|s|] == y;
  }

  /** An element above the last one of a sorted list shares its key with none of them. */
  lemma AboveLastIsNew<T(!new)>(s: seq<T>, le: (T, T) -> bool, x: T)
    requires TotalPreorder(le) && Sorted(s + [x], le)
    requires s == [] || !Same(le, s[|s| - 1], x)
    ensures forall i :: 0 <= i < |s| ==> !Same(le, x, s[i])
  {
    forall i | 0 <= i < |s|
      ensures !Same(le, x, s[i])
    {
      var t := s + [x];
      assert le(t[|s| - 1], t[|s|]);
      LastIsGreatest(s, le, s[i]) by {
        assert forall j :: 0 <= j < |s| ==> t[j] == s[j];
      }
    }
  }

  /** On a sorted list deduplication keeps exactly the first element of every key, in strict order. */
  lemma {:induction false} DedupKeepsFirsts<T(!new)>(s: seq<T>, le: (T, T) -> bool)
    requires TotalPreorder(le) && Sorted(s, le)
    ensures StrictlySorted(Dedup(s, le), le)
    ensures s != [] ==> Dedup(s, le) != [] && Same(le, Dedup(s, le)[|Dedup(s, le)| - 1], s[|s| - 1])
    ensures forall x :: x in Dedup(s, le) <==> FirstWithKey(s, le, x)
  {
    if s != [] {
      var t, x := s[..|s| - 1], s[|s| - 1];
      assert s == t + [x];
      DedupKeepsFirsts(t, le);
      DedupStep(t, x, le);
    }
  }

  lemma DedupStep<T(!new)>(t: seq<T>, x: T, le: (T, T) -> bool)
    requires TotalPreorder(le) && Sorted(t + [x], le)
    requires StrictlySorted(Dedup(t, le), le)
    requires t != [] ==> Dedup(t, le) != [] && Same(le, Dedup(t, le)[|Dedup(t, le)| - 1], t[|t| - 1])
    requires forall y :: y in Dedup(t, le) <==> FirstWithKey(t, le, y)
    ensures StrictlySorted(Dedup(t + [x], le), le)
    ensures Same(le, Dedup(t + [x], le)[|Dedup(t + [x], le)| - 1], x)
    ensures forall y :: y in Dedup(t + [x], le) <==> FirstWithKey(t + [x], le, y)
  {
    hide TotalPreorder, Sorted, StrictlySorted, FirstWithKey;
    var kept := Dedup(t, le);
    assert (t + [x])[..|t + [x]| - 1] == t;
    if kept != [] && Same(le, kept[|kept| - 1], x) {
      var l := kept[|kept| - 1];
      assert l in kept;
      forall y
        ensures FirstWithKey(t + [x], le, y) <==> FirstWithKey(t, le, y)
      {
        KnownKeyIsNotFirst(t, x, le, l, y);
      }
    } else {
      if t != [] {
        NotSameAsLast(le, kept[|kept| - 1], t[|t| - 1], x);
      }
      AboveLastIsNew(t, le, x);
      forall y
        ensures FirstWithKey(t + [x], le, y) <==> FirstWithKey(t, le, y) || y == x
        ensures FirstWithKey(t, le, y) ==> y in t
      {
        FirstWithKeyAppend(t, x, le, y);
        if FirstWithKey(t, le, y) {
          FirstWithKeyMember(t, le, y);
        }
      }
      DedupExtends(t, x, kept, le);
      Total(le, x, x);
    }
  }

  lemma FirstWithKeyMember<T>(t: seq<T>, le: (T, T) -> bool, y: T)
    requires FirstWithKey(t, le, y)
    ensures y in t
  {}

  lemma KnownKeyIsNotFirst<T>(t: seq<T>, x: T, le: (T, T) -> bool, l: T, y: T)
    requires FirstWithKey(t, le, l) && Same(le, l, x)
    ensures FirstWithKey(t + [x], le, y) <==> FirstWithKey(t, le, y)
  {
    FirstWithKeyAppend(t, x, le, y);
    assert l in t;
  }

  lemma NotSameAsLast<T(!new)>(le: (T, T) -> bool, l: T, last: T, x: T)
    requires TotalPreorder(le) && Same(le, l, last) && !Same(le, l, x)
    ensures !Same(le, last, x)
  {}

  lemma DedupExtends<T(!new)>(t: seq<T>, x: T, kept: seq<T>, le: (T, T) -> bool)
    requires TotalPreorder(le) && Sorted(t + [x], le)
    requires StrictlySorted(kept, le)
    requires forall y :: y in kept ==> y in t
    requires forall i :: 0 <= i < |t| ==> !Same(le, x, t[i])
    ensures StrictlySorted(kept + [x], le)
  {
    forall i | 0 <= i < |kept|
      ensures le(kept[i], x) && !le(x, kept[i])
    {
      assert kept[i] in t;
      var k :| 0 <= k < |t| && t[k] == kept[i];
      assert le((t + [x])[k], (t + [x])[|t|]);
      assert !Same(le, x, t[k]);
    }
  }

  /** Being first with one's key survives a stable sort. */
  lemma FirstWithKeyFilter<T(!new)>(s: seq<T>, le: (T, T) -> bool, x: T)
    requires TotalPreorder(le)
    ensures FirstWithKey(s, le, x) <==> Filter(s, SameKey(le, x)) != [] && Filter(s, SameKey(le, x))[0] == x
  {
    var p := SameKey(le, x);
    if s == [] {
    } else {
      var t, y := s[..|s| - 1], s[|s| - 1];
      assert s == t + [y];
      FirstWithKeyFilter(t, le, x);
      FirstWithKeyAppend(t, y, le, x);
      FilterAppend(t, y, p);
      if Filter(t, p) == [] {
        forall i | 0 <= i < |t|
          ensures !Same(le, x, t[i])
        {
          FilterMembers(t, p, t[i]);
        }
      } else {
        var u := Filter(t, p)[0];
        FilterMembers(t, p, u);
      }
    }
  }

  /** Sorting then deduplicating keeps, for each key, the first element of the unsorted list. */
  lemma SortDedupKeepsFirsts<T(!new)>(s: seq<T>, le: (T, T) -> bool)
    requires TotalPreorder(le)
    ensures StrictlySorted(Dedup(Sort(s, le), le), le)
    ensures forall x :: x in Dedup(Sort(s, le), le) <==> FirstWithKey(s, le, x)
  {
    SortIsStable(s, le);
    DedupKeepsFirsts(Sort(s, le), le);
    forall x
      ensures FirstWithKey(Sort(s, le), le, x) <==> FirstWithKey(s, le, x)
    {
      FirstWithKeyFilter(s, le, x);
      FirstWithKeyFilter(Sort(s, le), le, x);
    }
  }
}
