/** Resolution of fleet overlays: later tiers override earlier ones, key by key. */
module Overlay {
  import opened Wrappers
  import opened Seqs
  import opened Strings
  import opened StableSort
  import opened Domain

  datatype FleetOverlayTier =
    | Global
    | Os(os: OperatingSystem)
    | Layer(layer: OperationalLayer)
    | Role(role: string)
    | Environment(environment: string)
    | Node(node: string)

  function Rank(tier: FleetOverlayTier): nat {
    match tier
    case Global => 0
    case Os(_) => 1
    case Layer(_) => 2
    case Role(_) => 3
    case Environment(_) => 4
    case Node(_) => 5
  }

  /** Global gives way to OS, OS to layer, layer to role, role to environment, and environment to node. */
  lemma TiersInOrder(os: OperatingSystem, layer: OperationalLayer, role: string, environment: string, node: string)
    ensures Rank(Global) < Rank(Os(os)) < Rank(Layer(layer)) < Rank(Role(role))
    ensures Rank(Role(role)) < Rank(Environment(environment)) < Rank(Node(node))
  {}

  /** Fragments of one tier have one rank, whatever they name. */
  lemma TiersAreLevel(
      os: OperatingSystem, os': OperatingSystem, layer: OperationalLayer, layer': OperationalLayer, a: string,
      b: string)
    ensures Rank(Os(os)) == Rank(Os(os')) && Rank(Layer(layer)) == Rank(Layer(layer'))
    ensures Rank(Role(a)) == Rank(Role(b)) && Rank(Environment(a)) == Rank(Environment(b))
    ensures Rank(Node(a)) == Rank(Node(b))
  {}

  datatype FleetIntentSetting = FleetIntentSetting(key: string, value: string)

  datatype FleetOverlayFragment = FleetOverlayFragment(tier: FleetOverlayTier, settings: seq<FleetIntentSetting>)

  predicate ByRank(a: FleetOverlayFragment, b: FleetOverlayFragment) {
    Rank(a.tier) <= Rank(b.tier)
  }

  /** The value that a resolved intent gives a key. */
  function Get(settings: seq<FleetIntentSetting>, key: string): Option<string> {
    if settings == [] then None
    else if settings[0].key == key then Some(settings[0].value)
    else Get(settings[1..], key)
  }

  /** Insertion into a map kept as its entries in key order. */
  function Insert(m: seq<FleetIntentSetting>, s: FleetIntentSetting): seq<FleetIntentSetting> {
    if m == [] then [s]
    else if m[0].key == s.key then [s] + m[1..]
    else if AtMost(m[0].key, s.key) then [m[0]] + Insert(m[1..], s)
    else [s] + m
  }

  function InsertAll(m: seq<FleetIntentSetting>, settings: seq<FleetIntentSetting>): seq<FleetIntentSetting> {
    if settings == [] then m
    else Insert(InsertAll(m, settings[..|settings| - 1]), settings[|settings| - 1])
  }

  function SettingsOf(f: FleetOverlayFragment): seq<FleetIntentSetting> {
    f.settings
  }

  function Resolve(fragments: seq<FleetOverlayFragment>): seq<FleetIntentSetting> {
    InsertAll([], Gather(Sort(fragments, ByRank), SettingsOf))
  }

  method ResolveFleetOverlays(fragments: seq<FleetOverlayFragment>) returns (settings: seq<FleetIntentSetting>)
    ensures settings == Resolve(fragments)
  {
    hide Sort, Insert, InsertAll, Gather, ByRank;
    NothingYet();
    var sorted := Sort(fragments, ByRank);
    var resolved: seq<FleetIntentSetting> := [];
    for n := 0 to |sorted|
      invariant resolved == InsertAll([], Gather(sorted[..n], SettingsOf))
    {
      GatherAppend(sorted[..n], sorted[n], SettingsOf);
      assert sorted[..n + 1] == sorted[..n] + [sorted[n]];
      ghost var before := Gather(sorted[..n], SettingsOf);
      var own := sorted[n].settings;
      for m := 0 to |own|
        invariant resolved == InsertAll(InsertAll([], before), own[..m])
      {
        assert own[..m + 1] == own[..m] + [own[m]];
        InsertAllAppend(InsertAll([], before), own[..m], own[m]);
        resolved := Insert(resolved, own[m]);
      }
      assert own[..|own|] == own;
      InsertAllConcat([], before, own);
    }
    assert sorted[..|sorted|] == sorted;
    return resolved;
  }

  lemma NothingYet()
    ensures forall s: seq<FleetOverlayFragment> :: InsertAll([], Gather(s[..0], SettingsOf)) == []
    ensures forall m, s: seq<FleetIntentSetting> :: InsertAll(m, s[..0]) == m
  {}

  lemma {:induction false} InsertAllConcat(
      m: seq<FleetIntentSetting>, a: seq<FleetIntentSetting>, b: seq<FleetIntentSetting>)
    ensures InsertAll(m, a + b) == InsertAll(InsertAll(m, a), b)
  {
    if b == [] {
      assert a + b == a;
    } else {
      var rest, s := b[..|b| - 1], b[|b| - 1];
      assert a + b == (a + rest) + [s];
      InsertAllConcat(m, a, rest);
      InsertAllAppend(m, a + rest, s);
    }
  }

  lemma InsertAllAppend(m: seq<FleetIntentSetting>, settings: seq<FleetIntentSetting>, s: FleetIntentSetting)
    ensures InsertAll(m, settings + [s]) == Insert(InsertAll(m, settings), s)
  {
    assert (settings + [s])[..|settings + [s]| - 1] == settings;
  }

  // ----- The map -----

  ghost predicate KeyOrdered(m: seq<FleetIntentSetting>) {
    forall i, j :: 0 <= i < j < |m| ==> AtMost(m[i].key, m[j].key) && m[i].key != m[j].key
  }

  lemma {:induction false} InsertUpdates(m: seq<FleetIntentSetting>, s: FleetIntentSetting, key: string)
    ensures Get(Insert(m, s), key) == if key == s.key then Some(s.value) else Get(m, key)
    ensures forall x :: x in Insert(m, s) ==> x in m || x == s
  {
    if m != [] {
      if m[0].key == s.key {
      } else if AtMost(m[0].key, s.key) {
        InsertUpdates(m[1..], s, key);
        assert forall x :: x in m[1..] ==> x in m;
      }
    }
  }

  lemma {:induction false} InsertKeepsOrder(m: seq<FleetIntentSetting>, s: FleetIntentSetting)
    requires KeyOrdered(m)
    ensures KeyOrdered(Insert(m, s))
  {
    if m != [] {
      var rest := m[1..];
      assert KeyOrdered(rest);
      if m[0].key == s.key {
      } else if AtMost(m[0].key, s.key) {
        InsertKeepsOrder(rest, s);
        InsertUpdates(rest, s, s.key);
        var r := Insert(rest, s);
        forall i | 0 <= i < |r|
          ensures AtMost(m[0].key, r[i].key) && m[0].key != r[i].key
        {
          assert r[i] in r;
        }
      } else {
        forall i | 0 <= i < |m|
          ensures AtMost(s.key, m[i].key) && s.key != m[i].key
        {
          AtMostTotal(s.key, m[0].key);
          if i > 0 {
            assert AtMost(m[0].key, m[i].key) && m[0].key != m[i].key;
            AtMostTransitive(s.key, m[0].key, m[i].key);
          }
        }
      }
    }
  }

  function ValueFor(key: string): FleetIntentSetting -> Option<string> {
    (s: FleetIntentSetting) => if s.key == key then Some(s.value) else None
  }

  /** The value of the last setting of `key`. */
  function LastSetting(settings: seq<FleetIntentSetting>, key: string): Option<string> {
    Last(Project(settings, ValueFor(key)))
  }

  lemma {:induction false} InsertAllExact(settings: seq<FleetIntentSetting>, key: string)
    ensures KeyOrdered(InsertAll([], settings))
    ensures Get(InsertAll([], settings), key) == LastSetting(settings, key)
  {
    if settings != [] {
      var rest, s := settings[..|settings| - 1], settings[|settings| - 1];
      InsertAllExact(rest, key);
      InsertKeepsOrder(InsertAll([], rest), s);
      InsertUpdates(InsertAll([], rest), s, key);
    }
  }

  // ----- Which setting wins -----

  function Mentions(key: string): FleetOverlayFragment -> bool {
    (f: FleetOverlayFragment) => LastSetting(f.settings, key).Some?
  }

  /** Among the fragments mentioning the key, the i-th has the highest rank and is the last of that rank. */
  ghost predicate Wins(fragments: seq<FleetOverlayFragment>, i: nat, key: string) {
    && i < |fragments| && Mentions(key)(fragments[i])
    && forall j :: 0 <= j < |fragments| && Mentions(key)(fragments[j]) ==>
         Rank(fragments[j].tier) < Rank(fragments[i].tier)
         || (Rank(fragments[j].tier) == Rank(fragments[i].tier) && j <= i)
  }

  lemma {:induction false} WinnerExists(fragments: seq<FleetOverlayFragment>, key: string) returns (i: nat)
    requires exists f :: f in fragments && Mentions(key)(f)
    ensures Wins(fragments, i, key)
  {
    var rest, last := fragments[..|fragments| - 1], fragments[|fragments| - 1];
    assert fragments == rest + [last];
    if exists f :: f in rest && Mentions(key)(f) {
      i := WinnerExists(rest, key);
      if Mentions(key)(last) && Rank(last.tier) >= Rank(rest[i].tier) {
        i := |rest|;
      }
    } else {
      i := |rest|;
      forall j | 0 <= j < |rest|
        ensures !Mentions(key)(fragments[j])
      {
        assert fragments[j] in rest;
      }
    }
  }

  lemma ProjectLastConcat(a: seq<FleetIntentSetting>, b: seq<FleetIntentSetting>, key: string)
    ensures LastSetting(a + b, key) == OrElse(LastSetting(b, key), LastSetting(a, key))
  {
    ProjectConcat(a, b, ValueFor(key));
  }

  /** When fragments are applied in list order, the last one mentioning the key decides. */
  lemma {:induction false} LastMentionDecides(s: seq<FleetOverlayFragment>, key: string)
    ensures LastSetting(Gather(s, SettingsOf), key)
            == match Last(Filter(s, Mentions(key))) case None => None case Some(f) => LastSetting(f.settings, key)
  {
    if s != [] {
      var rest, last := s[..|s| - 1], s[|s| - 1];
      LastMentionDecides(rest, key);
      ProjectLastConcat(Gather(rest, SettingsOf), last.settings, key);
    }
  }

  /** The fragments of one rank. */
  function OfRank(f: FleetOverlayFragment): FleetOverlayFragment -> bool {
    SameKey(ByRank, f)
  }

  /** Within its own rank the winner is the last fragment that mentions the key. */
  lemma {:induction false} WinnerIsLastOfRank(s: seq<FleetOverlayFragment>, i: nat, key: string, n: nat)
    requires Wins(s, i, key) && i < n <= |s|
    ensures Last(Filter(Filter(s[..n], OfRank(s[i])), Mentions(key))) == Some(s[i])
    decreases n
  {
    var before, last := s[..n - 1], s[n - 1];
    assert s[..n] == before + [last];
    FilterTwiceAppend(before, last, OfRank(s[i]), Mentions(key));
    if n > i + 1 {
      WinnerIsLastOfRank(s, i, key, n - 1);
    }
  }

  lemma FilterTwiceAppend(
      s: seq<FleetOverlayFragment>, x: FleetOverlayFragment, p: FleetOverlayFragment -> bool,
      q: FleetOverlayFragment -> bool)
    ensures Filter(Filter(s + [x], p), q)
            == if p(x) && q(x) then Filter(Filter(s, p), q) + [x] else Filter(Filter(s, p), q)
  {
    FilterAppend(s, x, p);
    FilterAppend(Filter(s, p), x, q);
  }

  /** In a list sorted by rank nothing behind the winner mentions the key. */
  lemma {:induction false} WinnerIsLastSorted(s: seq<FleetOverlayFragment>, i: nat, key: string, n: nat)
    requires Wins(s, i, key) && Sorted(s, ByRank) && i < n <= |s|
    ensures Last(Filter(s[..n], Mentions(key))) == Some(s[i])
    decreases n
  {
    var before, last := s[..n - 1], s[n - 1];
    assert s[..n] == before + [last];
    FilterAppend(before, last, Mentions(key));
    if n > i + 1 {
      WinnerIsLastSorted(s, i, key, n - 1);
      assert ByRank(s[i], s[n - 1]);
    }
  }

  lemma RankIsPreorder()
    ensures TotalPreorder(ByRank)
  {}

  /** Sorting does not change who wins. */
  lemma SameWinner(fragments: seq<FleetOverlayFragment>, i: nat, sorted: seq<FleetOverlayFragment>, j: nat, key: string)
    requires Wins(fragments, i, key) && Wins(sorted, j, key)
    requires multiset(fragments) == multiset(sorted) && SameByKey(fragments, sorted, ByRank)
    ensures fragments[i] == sorted[j]
  {
    var f, g := fragments[i], sorted[j];
    assert f in multiset(sorted) && g in multiset(fragments);
    assert f in sorted && g in fragments;
    assert Rank(f.tier) == Rank(g.tier);
    WinnerIsLastOfRank(fragments, i, key, |fragments|);
    WinnerIsLastOfRank(sorted, j, key, |sorted|);
    assert fragments[..|fragments|] == fragments && sorted[..|sorted|] == sorted;
    OfRankSame(fragments, f, g);
    assert Filter(fragments, OfRank(g)) == Filter(sorted, OfRank(g));
  }

  lemma {:induction false} OfRankSame(s: seq<FleetOverlayFragment>, f: FleetOverlayFragment, g: FleetOverlayFragment)
    requires Rank(f.tier) == Rank(g.tier)
    ensures Filter(s, OfRank(f)) == Filter(s, OfRank(g))
  {
    if s != [] {
      OfRankSame(s[..|s| - 1], f, g);
    }
  }

  /**
   The resolved value of a key is the last setting of that key in the last fragment among the highest-ranked
   fragments that mention it.
   */
  lemma WinnerDecides(fragments: seq<FleetOverlayFragment>, i: nat, key: string)
    requires Wins(fragments, i, key)
    ensures Get(Resolve(fragments), key) == LastSetting(fragments[i].settings, key)
    ensures Get(Resolve(fragments), key).Some?
  {
    var sorted := Sort(fragments, ByRank);
    RankIsPreorder();
    SortIsStable(fragments, ByRank);
    assert fragments[i] in multiset(sorted);
    assert fragments[i] in sorted;
    var j := WinnerExists(sorted, key);
    SameWinner(fragments, i, sorted, j, key);
    WinnerIsLastSorted(sorted, j, key, |sorted|);
    assert sorted[..|sorted|] == sorted;
    LastMentionDecides(sorted, key);
    InsertAllExact(Gather(sorted, SettingsOf), key);
  }

  /** The setting's key, and that no later setting of the list has it. */
  ghost predicate LastOf(settings: seq<FleetIntentSetting>, j: nat, key: string) {
    && j < |settings| && settings[j].key == key
    && forall k :: j < k < |settings| ==> settings[k].key != key
  }

  ghost predicate SetIn(f: FleetOverlayFragment, key: string) {
    exists j :: 0 <= j < |f.settings| && f.settings[j].key == key
  }

  lemma {:induction false} LastSettingAt(settings: seq<FleetIntentSetting>, key: string)
    ensures LastSetting(settings, key).None? <==> forall j :: 0 <= j < |settings| ==> settings[j].key != key
    ensures forall j: nat :: LastOf(settings, j, key) ==> LastSetting(settings, key) == Some(settings[j].value)
  {
    if settings != [] {
      var rest, last := settings[..|settings| - 1], settings[|settings| - 1];
      LastSettingAt(rest, key);
      assert forall j :: 0 <= j < |rest| ==> rest[j] == settings[j];
      forall j: nat | LastOf(settings, j, key)
        ensures LastSetting(settings, key) == Some(settings[j].value)
      {
        assert j < |rest| ==> LastOf(rest, j, key) && settings[|rest|].key != key;
      }
      if LastSetting(settings, key).None? {
        assert last.key != key;
      }
      if last.key == key {
        assert settings[|rest|].key == key;
      }
    }
  }

  lemma MentionsExact(f: FleetOverlayFragment, key: string)
    ensures Mentions(key)(f) <==> SetIn(f, key)
  {
    LastSettingAt(f.settings, key);
  }

  lemma {:induction false} GetIsEntry(m: seq<FleetIntentSetting>, key: string)
    ensures Get(m, key).Some? ==> FleetIntentSetting(key, Get(m, key).value) in m
    ensures Get(m, key).None? ==> forall i :: 0 <= i < |m| ==> m[i].key != key
  {
    if m != [] {
      GetIsEntry(m[1..], key);
      assert forall i :: 1 <= i < |m| ==> m[i] == m[1..][i - 1];
    }
  }

  /** In the i-th fragment the j-th setting decides: the last of its key in the last fragment of the highest rank. */
  ghost predicate Decides(fragments: seq<FleetOverlayFragment>, i: nat, j: nat, key: string) {
    && i < |fragments| && LastOf(fragments[i].settings, j, key)
    && forall k :: 0 <= k < |fragments| && SetIn(fragments[k], key) ==>
         Rank(fragments[k].tier) < Rank(fragments[i].tier)
         || (Rank(fragments[k].tier) == Rank(fragments[i].tier) && k <= i)
  }

  /** The setting that decides is the resolved one. */
  lemma DecidingSettingResolves(fragments: seq<FleetOverlayFragment>, i: nat, j: nat, key: string)
    requires Decides(fragments, i, j, key)
    ensures FleetIntentSetting(key, fragments[i].settings[j].value) in Resolve(fragments)
  {
    hide Rank, Resolve, Get, LastSetting;
    assert SetIn(fragments[i], key);
    forall k | 0 <= k < |fragments|
      ensures Mentions(key)(fragments[k]) <==> SetIn(fragments[k], key)
    {
      MentionsExact(fragments[k], key);
    }
    WinnerDecides(fragments, i, key);
    LastSettingAt(fragments[i].settings, key);
    GetIsEntry(Resolve(fragments), key);
  }

  /** Resolution yields its keys in dictionary order and once each: exactly the keys that some fragment sets. */
  lemma ResolvedKeysExact(fragments: seq<FleetOverlayFragment>, key: string)
    ensures var m := Resolve(fragments); forall i, j :: 0 <= i < j < |m| ==> Earlier(m[i].key, m[j].key)
    ensures (exists i :: 0 <= i < |Resolve(fragments)| && Resolve(fragments)[i].key == key)
            <==> exists k :: 0 <= k < |fragments| && SetIn(fragments[k], key)
  {
    ResolvedKeys(fragments, key);
    OrderedIsEarlier(Resolve(fragments));
    GetIsEntry(Resolve(fragments), key);
    forall k | 0 <= k < |fragments|
      ensures Mentions(key)(fragments[k]) <==> SetIn(fragments[k], key)
    {
      MentionsExact(fragments[k], key);
    }
    hide Resolve, SetIn, Mentions, Earlier;
    if Get(Resolve(fragments), key).Some? {
      var entry := FleetIntentSetting(key, Get(Resolve(fragments), key).value);
      assert entry in Resolve(fragments);
    }
    if k :| 0 <= k < |fragments| && SetIn(fragments[k], key) {
      assert fragments[k] in fragments;
    }
    EntryIsGot(Resolve(fragments), key);
  }

  lemma {:induction false} EntryIsGot(m: seq<FleetIntentSetting>, key: string)
    ensures Get(m, key).Some? <==> exists i :: 0 <= i < |m| && m[i].key == key
  {
    if m != [] {
      EntryIsGot(m[1..], key);
      if i :| 0 <= i < |m[1..]| && m[1..][i].key == key {
        assert m[i + 1].key == key;
      }
      if i :| 0 <= i < |m| && m[i].key == key {
        assert i > 0 ==> m[1..][i - 1].key == key;
      }
      assert m[0].key == key ==> exists i :: 0 <= i < |m| && m[i].key == key;
    }
  }

  lemma OrderedIsEarlier(m: seq<FleetIntentSetting>)
    requires KeyOrdered(m)
    ensures forall i, j :: 0 <= i < j < |m| ==> Earlier(m[i].key, m[j].key)
  {
    hide AtMost, Earlier;
    forall i, j | 0 <= i < j < |m|
      ensures Earlier(m[i].key, m[j].key)
    {
      AtMostExact(m[i].key, m[j].key);
    }
  }

  lemma ResolvedKeys(fragments: seq<FleetOverlayFragment>, key: string)
    ensures KeyOrdered(Resolve(fragments))
    ensures Get(Resolve(fragments), key).Some? <==> exists f :: f in fragments && Mentions(key)(f)
  {
    InsertAllExact(Gather(Sort(fragments, ByRank), SettingsOf), key);
    if exists f :: f in fragments && Mentions(key)(f) {
      var i := WinnerExists(fragments, key);
      WinnerDecides(fragments, i, key);
    } else {
      var sorted := Sort(fragments, ByRank);
      RankIsPreorder();
      SortIsStable(fragments, ByRank);
      LastMentionDecides(sorted, key);
      forall k | 0 <= k < |sorted|
        ensures !Mentions(key)(sorted[k])
      {
        assert sorted[k] in multiset(sorted);
        assert sorted[k] in fragments;
      }
      FilterNone(sorted, Mentions(key));
    }
  }

  /** Any reordering that keeps fragments of one rank in order resolves to the same intent. */
  lemma ReorderingIsHarmless(a: seq<FleetOverlayFragment>, b: seq<FleetOverlayFragment>)
    requires forall f :: Filter(a, OfRank(f)) == Filter(b, OfRank(f))
    ensures Resolve(a) == Resolve(b)
  {
    RankIsPreorder();
    forall f
      ensures Filter(a, SameKey(ByRank, f)) == Filter(b, SameKey(ByRank, f))
    {
      assert Filter(a, OfRank(f)) == Filter(b, OfRank(f));
    }
    SortIgnoresOtherOrder(a, b, ByRank);
  }

  lemma {:induction false} InsertAtEnd(m: seq<FleetIntentSetting>, s: FleetIntentSetting)
    requires KeyOrdered(m + [s])
    ensures Insert(m, s) == m + [s]
  {
    if m != [] {
      var all := m + [s];
      assert all[0] == m[0] && all[|m|] == s;
      assert m[1..] + [s] == all[1..];
      InsertAtEnd(m[1..], s);
    }
  }

  lemma {:induction false} OrderedStays(m: seq<FleetIntentSetting>)
    requires KeyOrdered(m)
    ensures InsertAll([], m) == m
  {
    if m != [] {
      var rest, last := m[..|m| - 1], m[|m| - 1];
      OrderedStays(rest);
      assert m == rest + [last];
      InsertAtEnd(rest, last);
    }
  }

  /** Resolving a resolved intent again, as a fragment of any tier, returns it. */
  lemma ResolutionIsIdempotent(fragments: seq<FleetOverlayFragment>, tier: FleetOverlayTier)
    ensures Resolve([FleetOverlayFragment(tier, Resolve(fragments))]) == Resolve(fragments)
  {
    var m := Resolve(fragments);
    var f := FleetOverlayFragment(tier, m);
    ResolvedKeys(fragments, "");
    OrderedStays(m);
    assert [f][..0] == [];
    assert Sort([f], ByRank) == InsertBehind(Sort([], ByRank), f, ByRank) == [f];
    assert Gather([f], SettingsOf) == Gather([], SettingsOf) + m == m;
  }
}
