/** Properties of the registry over whole runs of discoveries, and of the routing order. */
module RegistryProofs {
  import opened Entries
  import opened Configs
  import opened Registries

  // ------------------------------------------------------- the view determines the contents

  lemma {:induction false} NewEntriesPriority(p: string, d: Discovery, b: Basis, configured: set<string>, n: nat,
          k: nat)
    requires n <= |d.models| && k < |NewEntries(p, d, b, configured, n)|
    ensures NewEntries(p, d, b, configured, n)[k].priority == b.priority + k
  {
    if k < |NewEntries(p, d, b, configured, n - 1)| {
      NewEntriesPriority(p, d, b, configured, n - 1, k);
    }
  }

  /** Two discovered entries of a provider with the same priority are one and the same. */
  lemma FoundByPriority(v: RegView, p: string, k: nat, l: nat)
    requires k < |FoundEntries(v, p)| && l < |FoundEntries(v, p)|
    requires FoundEntries(v, p)[k].priority == FoundEntries(v, p)[l].priority
    ensures k == l
  {
    var b, c, n := BasisOf(v, p).value, ConfigModels(v.base, p), |v.found[p].models|;
    NewEntriesPriority(p, v.found[p], b, c, n, k);
    NewEntriesPriority(p, v.found[p], b, c, n, l);
  }

  lemma {:induction false} CountAtMostOne(es: seq<Entry>, e: Entry)
    requires forall k, l :: 0 <= k < l < |es| ==> !(es[k] == e && es[l] == e)
    ensures multiset(es)[e] <= 1
  {
    if es != [] {
      assert es == [es[0]] + es[1..];
      CountAtMostOne(es[1..], e);
      if es[0] == e {
        forall k | 0 <= k < |es[1..]|
          ensures es[1..][k] != e
        {
          assert es[1..][k] == es[k + 1];
        }
      }
    }
  }

  lemma {:induction false} CountTwice(es: seq<Entry>, k: nat, l: nat)
    requires k < l < |es| && es[k] == es[l]
    ensures multiset(es)[es[k]] >= 2
  {
    assert es == [es[0]] + es[1..];
    if k == 0 {
      assert es[1..][l - 1] == es[0];
      assert es[0] in es[1..];
    } else {
      CountTwice(es[1..], k - 1, l - 1);
    }
  }

  /** No entry is called for twice. */
  lemma CensusAtMostOne(v: RegView, e: Entry)
    requires Sane(v) && KeysDistinct(v.base)
    ensures Census(v, e) <= 1
  {
    if e.isDiscovered {
      var es := FoundEntries(v, e.providerID);
      forall k, l | 0 <= k < l < |es|
        ensures !(es[k] == e && es[l] == e)
      {
        if es[k] == e && es[l] == e {
          FoundByPriority(v, e.providerID, k, l);
        }
      }
      CountAtMostOne(es, e);
    } else {
      forall k, l | 0 <= k < l < |v.base|
        ensures !(v.base[k] == e && v.base[l] == e)
      {
        assert !SameKey(v.base[k], v.base[l]);
      }
      CountAtMostOne(v.base, e);
    }
  }

  /** A discovered entry never shares provider and model with a configured one. */
  lemma NotShadowed(v: RegView, e: Entry, f: Entry)
    requires Census(v, e) > 0 && e.isDiscovered
    requires Census(v, f) > 0 && !f.isDiscovered
    ensures !(e.providerID == f.providerID && e.modelID == f.modelID)
  {
    FoundMembers(v, e.providerID, e);
    if e.providerID == f.providerID {
      assert f in v.base && f.modelID in ConfigModels(v.base, f.providerID);
    }
  }

  /** No two different entries called for share a key. */
  lemma CensusKeys(v: RegView, e: Entry, f: Entry)
    requires Sane(v) && KeysDistinct(v.base)
    requires Census(v, e) > 0 && Census(v, f) > 0 && SameKey(e, f)
    ensures e == f
  {
    var p := e.providerID;
    if e.isDiscovered && f.isDiscovered {
      var es := FoundEntries(v, p);
      var k :| 0 <= k < |es| && es[k] == e;
      var l :| 0 <= l < |es| && es[l] == f;
      FoundByPriority(v, p, k, l);
    } else if e.isDiscovered {
      NotShadowed(v, e, f);
    } else if f.isDiscovered {
      NotShadowed(v, f, e);
    } else {
      var k :| 0 <= k < |v.base| && v.base[k] == e;
      var l :| 0 <= l < |v.base| && v.base[l] == f;
      assert SameKey(v.base[k], v.base[l]);
    }
  }

  lemma DescribedKeysDistinct(v: RegView, all: seq<Entry>)
    requires Sane(v) && KeysDistinct(v.base) && Describes(v, all)
    ensures KeysDistinct(all)
  {
    forall i, j | 0 <= i < |all| && 0 <= j < |all| && i != j
      ensures !SameKey(all[i], all[j])
    {
      InAll(v, all, all[i]);
      InAll(v, all, all[j]);
      if SameKey(all[i], all[j]) {
        CensusKeys(v, all[i], all[j]);
        CountTwice(all, if i < j then i else j, if i < j then j else i);
        assert multiset(all)[all[i]] == Census(v, all[i]);
        CensusAtMostOne(v, all[i]);
      }
    }
  }

  /** With distinct configured keys the view has exactly one global list. */
  lemma DescribedOnce(v: RegView, a: seq<Entry>, b: seq<Entry>)
    requires Sane(v) && KeysDistinct(v.base) && Describes(v, a) && Describes(v, b)
    ensures a == b
  {
    DescribedKeysDistinct(v, a);
    forall e: Entry
      ensures multiset(a)[e] == multiset(b)[e]
    {
      assert multiset(a)[e] == Census(v, e) == multiset(b)[e];
    }
    assert multiset(a) == multiset(b);
    SortedUnique(a, b);
  }

  // --------------------------------------------------------------- discovered entries, exactly

  /** The models that are not in `listed`, in order. */
  function Unlisted(models: seq<string>, listed: set<string>): seq<string> {
    if models == [] then []
    else
      var n := |models| - 1;
      Unlisted(models[..n], listed) + if models[n] in listed then [] else [models[n]]
  }

  /** The models configured for a provider, as the global list shows them. */
  function Listed(all: seq<Entry>, p: string): set<string> {
    set e | e in all && !e.isDiscovered && e.providerID == p :: e.modelID
  }

  lemma {:induction false} NewEntriesExact(p: string, d: Discovery, b: Basis, configured: set<string>, n: nat)
    requires n <= |d.models|
    ensures var es, ms := NewEntries(p, d, b, configured, n), Unlisted(d.models[..n], configured);
            && |es| == |ms|
            && forall k :: 0 <= k < |ms| ==>
                 es[k] == Entry(p, ms[k], b.priority + k, false, ms[k] == d.defaultModel, b.isRemote, NO_PARAMS, true)
  {
    if n > 0 {
      NewEntriesExact(p, d, b, configured, n - 1);
      assert d.models[..n][..n - 1] == d.models[..n - 1];
    } else {
      assert d.models[..0] == [];
    }
  }

  /** Where the discovered entries of p start and whether they are remote: as its wildcard record says; or else
      right above every configured entry, and remote iff its configured entries are. */
  ghost predicate StartsAt(v: RegView, all: seq<Entry>, p: string, start: int, remote: bool) {
    || (exists a :: a in v.wild && a.providerID == p && start == a.priority && remote == a.isRemote)
    || (&& (forall a :: a in v.wild ==> a.providerID != p)
        && (exists e :: e in all && !e.isDiscovered && e.providerID == p)
        && (forall e :: e in all && !e.isDiscovered && e.providerID == p ==> e.isRemote == remote)
        && (forall e :: e in all && !e.isDiscovered ==> e.priority < start)
        && (start == 1 || exists e :: e in all && !e.isDiscovered && e.priority == start - 1))
  }

  lemma DiscoveredAre(v: RegView, all: seq<Entry>, p: string, start: int, remote: bool)
    requires forall e: Entry :: e.providerID == p ==> (e in all && e.isDiscovered <==> e in FoundEntries(v, p))
    requires p in v.found ==>
      var ms, es := Unlisted(v.found[p].models, Listed(all, p)), FoundEntries(v, p);
      |es| == |ms| && forall k :: 0 <= k < |ms| ==>
        es[k] == Entry(p, ms[k], start + k, false, ms[k] == v.found[p].defaultModel, remote, NO_PARAMS, true)
    ensures p in v.found ==>
      var ms := Unlisted(v.found[p].models, Listed(all, p));
      forall e :: e in all && e.isDiscovered && e.providerID == p <==>
        exists k :: 0 <= k < |ms| && e == Entry(p, ms[k], start + k, false, ms[k] == v.found[p].defaultModel,
                                                remote, NO_PARAMS, true)
  {
    if p in v.found {
      var ms, es := Unlisted(v.found[p].models, Listed(all, p)), FoundEntries(v, p);
      forall e: Entry
        ensures e in all && e.isDiscovered && e.providerID == p <==>
          exists k :: 0 <= k < |ms| && e == Entry(p, ms[k], start + k, false, ms[k] == v.found[p].defaultModel,
                                                  remote, NO_PARAMS, true)
      {
        if e in es {
          var k :| 0 <= k < |es| && es[k] == e;
        }
        if k :| 0 <= k < |ms| && e == Entry(p, ms[k], start + k, false, ms[k] == v.found[p].defaultModel, remote,
                                            NO_PARAMS, true) {
          assert es[k] == e && e in es;
        }
      }
    }
  }

  /** The discovered entries of a provider are one for each model that was last reported for it and is not
      configured for it, with consecutive priorities in the order reported; nothing else is discovered. */
  lemma DiscoveryExact(v: RegView, all: seq<Entry>, p: string) returns (start: int, remote: bool)
    requires Sane(v) && Describes(v, all)
    ensures p !in v.found ==> forall e :: e in all && e.providerID == p ==> !e.isDiscovered
    ensures p in v.found ==>
      var ms := Unlisted(v.found[p].models, Listed(all, p));
      && StartsAt(v, all, p, start, remote)
      && forall e :: e in all && e.isDiscovered && e.providerID == p <==>
           exists k :: 0 <= k < |ms| && e == Entry(p, ms[k], start + k, false, ms[k] == v.found[p].defaultModel,
                                                   remote, NO_PARAMS, true)
  {
    start, remote := 0, false;
    ConfiguredMembers(v, all);
    if p in v.found {
      var d, b := v.found[p], BasisOf(v, p).value;
      start, remote := b.priority, b.isRemote;
      BasisExact(v, all, p);
      assert Listed(all, p) == ConfigModels(v.base, p);
      assert d.models[..|d.models|] == d.models;
      NewEntriesExact(p, d, b, ConfigModels(v.base, p), |d.models|);
    }
    forall e: Entry | e.providerID == p
      ensures e in all && e.isDiscovered <==> e in FoundEntries(v, p)
    {
      InAll(v, all, e);
      if e in FoundEntries(v, p) {
        FoundMembers(v, p, e);
      }
    }
    DiscoveredAre(v, all, p, start, remote);
  }

  // ------------------------------------------------------------------- configured entries, exactly

  /** Rank of a wildcard at position n: behind each earlier provider that is not skipped, counted once per model it
      lists, and once if it lists none. */
  function RankAt(ps: seq<ProviderConfig>, n: nat): nat
    requires n <= |ps|
  {
    if n == 0 then 1
    else RankAt(ps, n - 1) + if ps[n - 1].skipped then 0 else if |ps[n - 1].models| == 0 then 1 else |ps[n - 1].models|
  }

  lemma {:induction false} RankCounts(ps: seq<ProviderConfig>, n: nat, dm: string)
    requires n <= |ps|
    ensures RankAt(ps, n) == |WildOf(ps, n, dm)| + |BaseOf(ps, n, dm)| + 1
  {
    if n > 0 {
      RankCounts(ps, n - 1, dm);
    }
  }

  /** Is `a` the wildcard record of provider i? */
  predicate Ranks(ps: seq<ProviderConfig>, i: nat, a: AnyModel)
    requires i < |ps|
  {
    && !ps[i].skipped && |ps[i].models| == 0
    && a.providerID == ps[i].id && a.priority == RankAt(ps, i) && a.isRemote == ps[i].isRemote
  }

  lemma WildStep(ps: seq<ProviderConfig>, n: nat, dm: string)
    requires n < |ps|
    ensures WildOf(ps, n + 1, dm)
            == WildOf(ps, n, dm) + if ps[n].skipped || ps[n].models != [] then []
                                   else [AnyModel(ps[n].id, RankAt(ps, n), ps[n].isRemote)]
  {
    RankCounts(ps, n, dm);
  }

  lemma {:induction false} WildExact(ps: seq<ProviderConfig>, n: nat, dm: string, a: AnyModel)
    requires n <= |ps|
    ensures a in WildOf(ps, n, dm) <==>
      exists i :: 0 <= i < n && Ranks(ps, i, a)
  {
    if n > 0 {
      WildExact(ps, n - 1, dm, a);
      WildStep(ps, n - 1, dm);
      hide WildOf, RankAt;
      var p := ps[n - 1];
      assert Ranks(ps, n - 1, a) <==>
        !p.skipped && p.models == [] && a == AnyModel(p.id, RankAt(ps, n - 1), p.isRemote);
    }
  }

  /** Is `e` the entry of the provider's model j, all settings included? */
  predicate Configures(p: ProviderConfig, j: nat, dm: string, e: Entry)
    requires j < |p.models|
  {
    && e.providerID == p.id && e.isRemote == p.isRemote && !e.isDiscovered
    && e.modelID == p.models[j].id && e.priority == p.models[j].priority && e.isFree == p.models[j].isFree
    && e.params == p.models[j].params && e.isDefault == (p.models[j].id == dm)
  }

  lemma {:induction false} OwnExact(p: ProviderConfig, n: nat, dm: string, e: Entry)
    requires n <= |p.models|
    ensures e in EntriesOf(p, n, dm) <==> exists j :: 0 <= j < n && Configures(p, j, dm, e)
  {
    if n > 0 {
      OwnExact(p, n - 1, dm, e);
      assert Configures(p, n - 1, dm, e) <==> e == EntryOf(p, n - 1, dm);
    }
  }

  lemma {:induction false} BaseExact(ps: seq<ProviderConfig>, n: nat, dm: string, e: Entry)
    requires n <= |ps|
    ensures e in BaseOf(ps, n, dm) <==>
      exists i, j :: 0 <= i < n && 0 <= j < |ps[i].models| && !ps[i].skipped && Configures(ps[i], j, dm, e)
  {
    if n > 0 {
      BaseExact(ps, n - 1, dm, e);
      OwnExact(ps[n - 1], |ps[n - 1].models|, dm, e);
    }
  }

  /** A freshly built registry: the global list has an entry for each model of each provider that is not skipped,
      with the model's settings; the wildcards are the providers without models, ranked behind all that comes
      before them; and nothing is missing, as the counts agree. */
  lemma BuildExact(ps: seq<ProviderConfig>, dm: string, all: seq<Entry>)
    requires UniqueIDs(ps) && Describes(BuildView(ps, dm), all)
    ensures forall e :: e in all <==>
      exists i, j :: 0 <= i < |ps| && 0 <= j < |ps[i].models| && !ps[i].skipped && Configures(ps[i], j, dm, e)
    ensures forall a :: a in BuildView(ps, dm).wild <==>
      exists i :: 0 <= i < |ps| && Ranks(ps, i, a)
    ensures |all| + |BuildView(ps, dm).wild| + 1 == RankAt(ps, |ps|)
  {
    var v := BuildView(ps, dm);
    BuildSane(ps, dm);
    forall e
      ensures e in all <==>
        exists i, j :: 0 <= i < |ps| && 0 <= j < |ps[i].models| && !ps[i].skipped && Configures(ps[i], j, dm, e)
    {
      InAll(v, all, e);
      BaseExact(ps, |ps|, dm, e);
    }
    forall a
      ensures a in v.wild <==>
        exists i :: 0 <= i < |ps| && Ranks(ps, i, a)
    {
      WildExact(ps, |ps|, dm, a);
    }
    RankCounts(ps, |ps|, dm);
    forall e: Entry
      ensures multiset(all)[e] == multiset(v.base)[e]
    {
      BaseCount(v, e);
    }
    assert multiset(all) == multiset(v.base);
    assert |multiset(all)| == |all| && |multiset(v.base)| == |v.base|;
  }

  // ------------------------------------------------------------------------- confluence

  datatype Call = Call(provider: string, discovery: Discovery)

  /** The view after a run of SetDiscoveredModels calls. */
  function DiscoverAll(v: RegView, calls: seq<Call>): RegView
    decreases |calls|
  {
    if calls == [] then v else DiscoverAll(Discover(v, calls[0].provider, calls[0].discovery), calls[1..])
  }

  ghost predicate DistinctProviders(calls: seq<Call>) {
    forall i, j :: 0 <= i < j < |calls| ==> calls[i].provider != calls[j].provider
  }

  /** Discovery for every provider that answers, one call each. */
  method RunDiscoveries(r: Registry, calls: seq<Call>)
    requires r.Valid()
    modifies r
    ensures r.Valid() && r.View() == DiscoverAll(old(r.View()), calls)
  {
    ghost var v := r.View();
    for i := 0 to |calls|
      invariant r.Valid() && DiscoverAll(r.View(), calls[i..]) == DiscoverAll(v, calls)
    {
      assert calls[i..][1..] == calls[i + 1..];
      r.SetDiscoveredModels(calls[i].provider, calls[i].discovery.models, calls[i].discovery.defaultModel);
    }
    assert calls[|calls|..] == [];
  }

  lemma {:induction false} DiscoverAllSane(v: RegView, calls: seq<Call>)
    requires Sane(v)
    ensures Sane(DiscoverAll(v, calls))
    ensures DiscoverAll(v, calls).base == v.base && DiscoverAll(v, calls).wild == v.wild
    decreases |calls|
  {
    if calls != [] {
      DiscoverSane(v, calls[0].provider, calls[0].discovery);
      DiscoverAllSane(Discover(v, calls[0].provider, calls[0].discovery), calls[1..]);
    }
  }

  /** Providers never called keep what they had; a provider called once ends up with that call. */
  lemma {:induction false} DiscoverAllFound(v: RegView, calls: seq<Call>, p: string)
    requires DistinctProviders(calls)
    ensures var u := DiscoverAll(v, calls);
            && (forall c :: c in calls && c.provider == p && BasisOf(v, p).Some? ==>
                  p in u.found && u.found[p] == c.discovery)
            && ((forall c :: c in calls && c.provider == p ==> BasisOf(v, p).None?) ==>
                 (p in u.found <==> p in v.found) && (p in v.found ==> u.found[p] == v.found[p]))
    decreases |calls|
  {
    if calls != [] {
      var c0 := calls[0];
      var v' := Discover(v, c0.provider, c0.discovery);
      assert BasisOf(v', p) == BasisOf(v, p);
      DiscoverAllFound(v', calls[1..], p);
      forall c | c in calls[1..]
        ensures c in calls && c.provider != c0.provider
      {
        var k :| 0 <= k < |calls[1..]| && calls[1..][k] == c;
        assert calls[k + 1] == c;
      }
      if c0.provider == p && BasisOf(v, p).Some? {
        assert forall c :: c in calls[1..] ==> c.provider != p;
        assert v'.found[p] == c0.discovery;
        assert forall c :: c in calls && c.provider == p ==> c == c0;
      }
      assert c0 in calls;
    }
  }

  lemma SameFound(v: RegView, calls1: seq<Call>, calls2: seq<Call>, p: string)
    requires DistinctProviders(calls1) && DistinctProviders(calls2)
    requires forall c :: c in calls1 <==> c in calls2
    ensures var a, b := DiscoverAll(v, calls1), DiscoverAll(v, calls2);
            (p in a.found <==> p in b.found) && (p in a.found ==> a.found[p] == b.found[p])
  {
    DiscoverAllFound(v, calls1, p);
    DiscoverAllFound(v, calls2, p);
    if c :| c in calls1 && c.provider == p && BasisOf(v, p).Some? {
      assert c in calls2;
    }
  }

  lemma SameCalls(v: RegView, calls1: seq<Call>, calls2: seq<Call>)
    requires Sane(v)
    requires DistinctProviders(calls1) && DistinctProviders(calls2) && multiset(calls1) == multiset(calls2)
    ensures DiscoverAll(v, calls1) == DiscoverAll(v, calls2)
  {
    var a, b := DiscoverAll(v, calls1), DiscoverAll(v, calls2);
    DiscoverAllSane(v, calls1);
    DiscoverAllSane(v, calls2);
    assert forall c :: c in calls1 <==> c in calls2 by {
      assert forall c :: c in calls1 <==> c in multiset(calls1);
      assert forall c :: c in calls2 <==> c in multiset(calls2);
    }
    forall p
      ensures (p in a.found <==> p in b.found) && (p in a.found ==> a.found[p] == b.found[p])
    {
      SameFound(v, calls1, calls2, p);
    }
    assert a.found == b.found;
  }

  /** Discovery is confluent: for calls on pairwise distinct providers every order of execution gives the
      same list, the same indexes and the same injected set. */
  lemma Confluence(v: RegView, calls1: seq<Call>, calls2: seq<Call>, all1: seq<Entry>, all2: seq<Entry>)
    requires Sane(v) && KeysDistinct(v.base)
    requires DistinctProviders(calls1) && DistinctProviders(calls2) && multiset(calls1) == multiset(calls2)
    requires Describes(DiscoverAll(v, calls1), all1) && Describes(DiscoverAll(v, calls2), all2)
    ensures DiscoverAll(v, calls1) == DiscoverAll(v, calls2)
    ensures all1 == all2
    ensures forall k :: Sift(k, all1) == Sift(k, all2)
  {
    SameCalls(v, calls1, calls2);
    DiscoverAllSane(v, calls1);
    DescribedOnce(DiscoverAll(v, calls1), all1, all2);
  }

  /** Two registries with the same view hold the same data throughout. */
  lemma SameView(a: Registry, b: Registry)
    requires a.Valid() && b.Valid() && a.View() == b.View() && KeysDistinct(a.base)
    ensures a.all == b.all && a.injected == b.injected && a.anyModel == b.anyModel
    ensures forall k :: Lookup(a.byModel, k) == Lookup(b.byModel, k)
                        && Lookup(a.byProvider, k) == Lookup(b.byProvider, k)
  {
    DescribedOnce(a.View(), a.all, b.all);
  }

  /** Last write wins: discovering A and then B for a provider is discovering B. */
  lemma LastWriteWins(v: RegView, p: string, a: Discovery, b: Discovery, all1: seq<Entry>, all2: seq<Entry>)
    requires Sane(v) && KeysDistinct(v.base)
    requires Describes(Discover(Discover(v, p, a), p, b), all1) && Describes(Discover(v, p, b), all2)
    ensures all1 == all2
  {
    DiscoverSane(v, p, b);
    assert BasisOf(Discover(v, p, a), p) == BasisOf(v, p);
    if BasisOf(v, p).Some? {
      assert v.found[p := a][p := b] == v.found[p := b];
    }
    DescribedOnce(Discover(v, p, b), all1, all2);
  }

  lemma SiftDistinct(k: Pick, es: seq<Entry>)
    requires KeysDistinct(es)
    ensures KeysDistinct(Sift(k, es))
  {
    SubsequenceReflexive(Sift(k, es));
    SubsequenceOfSift(Sift(k, es), k, es);
    var at := SubsequencePositions(Sift(k, es), es);
    forall i, j | 0 <= i < |Sift(k, es)| && 0 <= j < |Sift(k, es)| && i != j
      ensures !SameKey(Sift(k, es)[i], Sift(k, es)[j])
    {
      assert at[i] < at[j] || at[j] < at[i];
    }
  }

  /** No run of discoveries touches the configured entries or their relative order, and none of the
      entries it adds shadows a configured one. */
  lemma ConfigurationPreserved(v: RegView, calls: seq<Call>, before: seq<Entry>, after: seq<Entry>)
    requires Sane(v) && KeysDistinct(v.base)
    requires Describes(v, before) && Describes(DiscoverAll(v, calls), after)
    ensures Sift(Configured, after) == Sift(Configured, before)
    ensures forall e, f :: e in after && f in after && e.isDiscovered && !f.isDiscovered ==>
              !(e.providerID == f.providerID && e.modelID == f.modelID)
  {
    var u := DiscoverAll(v, calls);
    DiscoverAllSane(v, calls);
    ConfiguredIsBase(v, before);
    ConfiguredIsBase(u, after);
    SiftSorted(Configured, before);
    SiftSorted(Configured, after);
    DescribedKeysDistinct(v, before);
    SiftDistinct(Configured, before);
    SortedUnique(Sift(Configured, before), Sift(Configured, after));
    forall e, f | e in after && f in after && e.isDiscovered && !f.isDiscovered
      ensures !(e.providerID == f.providerID && e.modelID == f.modelID)
    {
      InAll(u, after, e);
      InAll(u, after, f);
      NotShadowed(u, e, f);
    }
  }

  // ------------------------------------------------------------------------ routing order

  /** Position of model j of provider i in configuration order is position in BaseOf. */
  lemma {:induction false} EntriesOfAt(p: ProviderConfig, n: nat, dm: string, j: nat)
    requires j < n <= |p.models|
    ensures EntriesOf(p, n, dm)[j] == EntryOf(p, j, dm)
  {
    if j < n - 1 {
      EntriesOfAt(p, n - 1, dm, j);
    }
  }

  lemma {:induction false} InBase(ps: seq<ProviderConfig>, n: nat, dm: string, i: nat, j: nat)
    requires i < n <= |ps| && j < |ps[i].models| && !ps[i].skipped
    ensures EntryOf(ps[i], j, dm) in BaseOf(ps, n, dm)
  {
    if i < n - 1 {
      InBase(ps, n - 1, dm, i, j);
    } else {
      EntriesOfAt(ps[i], |ps[i].models|, dm, j);
      assert EntryOf(ps[i], j, dm) in OwnEntries(ps[i], dm);
    }
  }

  /** Does `e` come strictly before `f` wherever they occur? */
  ghost predicate Precedes(all: seq<Entry>, e: Entry, f: Entry) {
    && e in all && f in all
    && forall x, y :: 0 <= x < |all| && 0 <= y < |all| && all[x] == e && all[y] == f ==> x < y
  }

  lemma SmallerPriorityFirst(all: seq<Entry>, e: Entry, f: Entry)
    requires Sorted(all) && e in all && f in all && e.priority < f.priority
    ensures Precedes(all, e, f)
  {
    forall x, y | 0 <= x < |all| && 0 <= y < |all| && all[x] == e && all[y] == f
      ensures x < y
    {
      assert EntryLess(all[x], all[y]);
    }
  }

  /** Configuration order becomes routing order: in the global list built from a filled configuration,
      a model without a configured priority comes after every model with one, and such models come
      in configuration order. */
  lemma FilledRoutingOrder(ps: seq<ProviderConfig>, dm: string, all: seq<Entry>, i: nat, j: nat, k: nat, l: nat)
    requires UniqueIDs(ps)
    requires Describes(BuildView(Filled(ps), dm), all)
    requires i < |ps| && j < |ps[i].models| && !ps[i].skipped
    requires k < |ps| && l < |ps[k].models| && !ps[k].skipped
    requires PriorityAt(ps, k, l) <= 0
    requires PriorityAt(ps, i, j) > 0 || ConfigBefore(i, j, k, l)
    ensures |Filled(ps)[i].models| == |ps[i].models| && |Filled(ps)[k].models| == |ps[k].models|
    ensures Precedes(all, EntryOf(Filled(ps)[i], j, dm), EntryOf(Filled(ps)[k], l, dm))
  {
    var qs := Filled(ps);
    FilledShape(ps, i);
    FilledShape(ps, k);
    FilledPositive(ps, i, j);
    FilledPositive(ps, k, l);
    if PriorityAt(ps, i, j) <= 0 {
      FilledIncreasing(ps, i, j, k, l);
    }
    var e, f := EntryOf(qs[i], j, dm), EntryOf(qs[k], l, dm);
    InBase(qs, |qs|, dm, i, j);
    InBase(qs, |qs|, dm, k, l);
    InAll(BuildView(qs, dm), all, e);
    InAll(BuildView(qs, dm), all, f);
    SmallerPriorityFirst(all, e, f);
  }

  /** The i-th provider as the wildcard of rank i + 1. */
  function WildAt(ps: seq<ProviderConfig>, i: nat): AnyModel
    requires i < |ps|
  {
    AnyModel(ps[i].id, i + 1, ps[i].isRemote)
  }

  function Wilds(ps: seq<ProviderConfig>, n: nat): (r: seq<AnyModel>)
    requires n <= |ps|
    ensures |r| == n
  {
    if n == 0 then [] else Wilds(ps, n - 1) + [WildAt(ps, n - 1)]
  }

  lemma {:induction false} WildsAt(ps: seq<ProviderConfig>, n: nat, i: nat)
    requires i < n <= |ps|
    ensures Wilds(ps, n)[i] == WildAt(ps, i)
  {
    if i < n - 1 {
      WildsAt(ps, n - 1, i);
    }
  }

  /** No provider lists models and none is skipped. */
  ghost predicate NoModels(ps: seq<ProviderConfig>) {
    forall i :: 0 <= i < |ps| ==> ps[i].models == [] && !ps[i].skipped
  }

  lemma NothingBuilt(ps: seq<ProviderConfig>, dm: string)
    ensures BaseOf(ps, 0, dm) == [] && WildOf(ps, 0, dm) == [] && Wilds(ps, 0) == []
  {
  }

  lemma NoneOwn(ps: seq<ProviderConfig>, n: nat, dm: string)
    requires n < |ps| && ps[n].models == [] && BaseOf(ps, n, dm) == []
    ensures BaseOf(ps, n + 1, dm) == []
  {
    assert OwnEntries(ps[n], dm) == [];
  }

  lemma WildsSnoc(ps: seq<ProviderConfig>, n: nat)
    requires n < |ps|
    ensures Wilds(ps, n + 1) == Wilds(ps, n) + [AnyModel(ps[n].id, n + 1, ps[n].isRemote)]
  {
  }

  /** Then all of them become wildcards, ranked in configuration order. */
  lemma {:induction false} AllWild(ps: seq<ProviderConfig>, n: nat, dm: string)
    requires n <= |ps| && NoModels(ps)
    ensures BaseOf(ps, n, dm) == [] && WildOf(ps, n, dm) == Wilds(ps, n)
  {
    hide BaseOf, WildOf, Wilds, RankAt;
    if n == 0 {
      NothingBuilt(ps, dm);
    } else {
      AllWild(ps, n - 1, dm);
      NoneOwn(ps, n - 1, dm);
      WildStep(ps, n - 1, dm);
      RankCounts(ps, n - 1, dm);
      WildsSnoc(ps, n - 1);
    }
  }

  /** What a new-schema configuration resolves a model to before any discovery. */
  function InConfigOrder(ps: seq<ProviderConfig>, model: string, n: nat): (r: seq<Entry>)
    requires n <= |ps|
    ensures |r| == n
  {
    if n == 0 then [] else InConfigOrder(ps, model, n - 1) + [Synthesized(WildAt(ps, n - 1), model)]
  }

  lemma {:induction false} InConfigOrderAt(ps: seq<ProviderConfig>, model: string, n: nat, i: nat)
    requires i < n <= |ps|
    ensures InConfigOrder(ps, model, n)[i] == Synthesized(WildAt(ps, i), model)
  {
    if i < n - 1 {
      InConfigOrderAt(ps, model, n - 1, i);
    }
  }

  /** Ranks grow along the list, so it is sorted and free of ties. */
  lemma InConfigOrderSorted(ps: seq<ProviderConfig>, model: string)
    ensures var want := InConfigOrder(ps, model, |ps|); Sorted(want) && KeysDistinct(want)
  {
    var want := InConfigOrder(ps, model, |ps|);
    forall i, j | 0 <= i < |want| && 0 <= j < |want| && i != j
      ensures !SameKey(want[i], want[j]) && (i < j ==> !EntryLess(want[j], want[i]))
    {
      InConfigOrderAt(ps, model, |ps|, i);
      InConfigOrderAt(ps, model, |ps|, j);
    }
  }

  lemma NothingExplicit(v: RegView, all: seq<Entry>)
    requires v.base == [] && v.found == map[] && Describes(v, all)
    ensures all == []
  {
    if all != [] {
      InAll(v, all, all[0]);
    }
  }

  lemma WantedOnce(ps: seq<ProviderConfig>, model: string, e: Entry)
    ensures var want := InConfigOrder(ps, model, |ps|); multiset(want)[e] == if e in want then 1 else 0
  {
    var want := InConfigOrder(ps, model, |ps|);
    InConfigOrderSorted(ps, model);
    forall k, l | 0 <= k < l < |want|
      ensures !(want[k] == e && want[l] == e)
    {
      assert !SameKey(want[k], want[l]);
    }
    CountAtMostOne(want, e);
  }

  lemma WantedIsFiller(ps: seq<ProviderConfig>, v: RegView, all: seq<Entry>, model: string, e: Entry)
    requires v.wild == Wilds(ps, |ps|) && all == []
    ensures e in InConfigOrder(ps, model, |ps|) <==> SynthesizedBy(v, all, model, e)
  {
    var want := InConfigOrder(ps, model, |ps|);
    forall i | 0 <= i < |ps|
      ensures FillerAt(v, all, model, e, i) <==> e == want[i]
    {
      InConfigOrderAt(ps, model, |ps|, i);
      WildsAt(ps, |ps|, i);
    }
  }

  lemma OnlyWildcards(ps: seq<ProviderConfig>, dm: string, all: seq<Entry>, model: string, r: seq<Entry>)
    requires NoModels(ps)
    requires Describes(BuildView(ps, dm), all) && Resolves(BuildView(ps, dm), all, model, r)
    ensures r == InConfigOrder(ps, model, |ps|)
  {
    var v, want := BuildView(ps, dm), InConfigOrder(ps, model, |ps|);
    AllWild(ps, |ps|, dm);
    NothingExplicit(v, all);
    InConfigOrderSorted(ps, model);
    forall e: Entry
      ensures multiset(want)[e] == multiset(r)[e]
    {
      assert multiset(r)[e] == ExplicitCount(all, model, e) + WildCount(v, all, model, e);
      WantedOnce(ps, model, e);
      WantedIsFiller(ps, v, all, model, e);
    }
    assert multiset(want) == multiset(r);
    SortedUnique(want, r);
  }

  /** For a pure new-schema configuration and any model, every local node is listed in configuration
      order, and then every remote provider in configuration order. */
  lemma NewSchemaOrder(locals: seq<NodeConfig>, remotes: seq<NodeConfig>, dm: string, all: seq<Entry>,
          model: string, r: seq<Entry>)
    requires var ps := FromNodes(locals, false) + FromNodes(remotes, true);
             Describes(BuildView(ps, dm), all) && Resolves(BuildView(ps, dm), all, model, r)
    ensures |r| == |locals| + |remotes|
    ensures forall i :: 0 <= i < |r| ==>
              && r[i].modelID == model
              && r[i].isRemote == (i >= |locals|)
              && r[i].providerID == if i < |locals| then locals[i].id else remotes[i - |locals|].id
  {
    var ps := FromNodes(locals, false) + FromNodes(remotes, true);
    OnlyWildcards(ps, dm, all, model, r);
    forall i | 0 <= i < |r|
      ensures r[i] == Synthesized(WildAt(ps, i), model)
    {
      InConfigOrderAt(ps, model, |ps|, i);
    }
  }
}
