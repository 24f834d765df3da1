/** The routing registry: a globally sorted entry list with two indexes, wildcard providers,
    and model discovery at run time. */
module Registries {
  import opened Prelude
  import opened Entries
  import opened Configs

  /** A provider configured without models: it takes any model name. */
  datatype AnyModel = AnyModel(providerID: string, priority: int, isRemote: bool)

  /** One SetDiscoveredModels call: the models found and the default model at that time. */
  datatype Discovery = Discovery(models: seq<string>, defaultModel: string)

  /** What determines the registry's contents: the configured entries in configuration order, the
      wildcard providers, and the last discovery of each provider. */
  datatype RegView = RegView(base: seq<Entry>, wild: seq<AnyModel>, found: map<string, Discovery>)

  // ------------------------------------------------------------------ building from config

  function EntryOf(p: ProviderConfig, j: nat, defaultModel: string): Entry
    requires j < |p.models|
  {
    var m := p.models[j];
    Entry(p.id, m.id, m.priority, m.isFree, m.id == defaultModel, p.isRemote, m.params, false)
  }

  function EntriesOf(p: ProviderConfig, n: nat, defaultModel: string): (r: seq<Entry>)
    requires n <= |p.models|
    ensures |r| == n
  {
    if n == 0 then [] else EntriesOf(p, n - 1, defaultModel) + [EntryOf(p, n - 1, defaultModel)]
  }

  function OwnEntries(p: ProviderConfig, defaultModel: string): seq<Entry> {
    if p.skipped then [] else EntriesOf(p, |p.models|, defaultModel)
  }

  /** Explicit entries of the first n providers, in configuration order. */
  function BaseOf(ps: seq<ProviderConfig>, n: nat, defaultModel: string): seq<Entry>
    requires n <= |ps|
  {
    if n == 0 then []
    else BaseOf(ps, n - 1, defaultModel) + OwnEntries(ps[n - 1], defaultModel)
  }

  /** Wildcard providers among the first n, each ranked behind everything collected before it. */
  function WildOf(ps: seq<ProviderConfig>, n: nat, defaultModel: string): seq<AnyModel>
    requires n <= |ps|
  {
    if n == 0 then []
    else
      var before, p := WildOf(ps, n - 1, defaultModel), ps[n - 1];
      if p.skipped || p.models != [] then before
      else before + [AnyModel(p.id, |before| + |BaseOf(ps, n - 1, defaultModel)| + 1, p.isRemote)]
  }

  /** What provider n adds. */
  lemma CollectStep(ps: seq<ProviderConfig>, n: nat, dm: string)
    requires n <= |ps|
    ensures BaseOf(ps, 0, dm) == [] && WildOf(ps, 0, dm) == []
    ensures n < |ps| ==>
      var p, base, wild := ps[n], BaseOf(ps, n, dm), WildOf(ps, n, dm);
      && BaseOf(ps, n + 1, dm) == (if p.skipped || |p.models| == 0 then base else base + EntriesOf(p, |p.models|, dm))
      && WildOf(ps, n + 1, dm)
         == if p.skipped || |p.models| != 0 then wild else wild + [AnyModel(p.id, |wild| + |base| + 1, p.isRemote)]
  {
    if n < |ps| && (ps[n].skipped || |ps[n].models| == 0) {
      assert OwnEntries(ps[n], dm) == [];
    }
  }

  function BuildView(ps: seq<ProviderConfig>, defaultModel: string): RegView {
    RegView(BaseOf(ps, |ps|, defaultModel), WildOf(ps, |ps|, defaultModel), map[])
  }

  // ----------------------------------------------------------------------------- discovery

  /** First wildcard record of p, if any. */
  function WildFor(wild: seq<AnyModel>, p: string): Option<AnyModel> {
    if wild == [] then None
    else if wild[0].providerID == p then Some(wild[0])
    else WildFor(wild[1..], p)
  }

  function TopEntry(es: seq<Entry>): int {
    if es == [] then 0 else Max(es[0].priority, TopEntry(es[1..]))
  }

  predicate HasProvider(es: seq<Entry>, p: string) {
    exists e :: e in es && e.providerID == p
  }

  predicate RemoteIn(es: seq<Entry>, p: string) {
    exists e :: e in es && e.providerID == p && e.isRemote
  }

  /** Where the discovered entries of a provider start, and whether they are remote. */
  datatype Basis = Basis(priority: int, isRemote: bool)

  /** None for an unknown provider. */
  function BasisOf(v: RegView, p: string): Option<Basis> {
    match WildFor(v.wild, p)
    case Some(a) => Some(Basis(a.priority, a.isRemote))
    case None => if HasProvider(v.base, p) then Some(Basis(TopEntry(v.base) + 1, RemoteIn(v.base, p))) else None
  }

  function ConfigModels(base: seq<Entry>, p: string): set<string> {
    set e | e in base && e.providerID == p :: e.modelID
  }

  /** Entries for the first n discovered models, skipping the configured ones. */
  function NewEntries(p: string, d: Discovery, b: Basis, configured: set<string>, n: nat): seq<Entry>
    requires n <= |d.models|
  {
    if n == 0 then []
    else
      var before, m := NewEntries(p, d, b, configured, n - 1), d.models[n - 1];
      if m in configured then before
      else before + [Entry(p, m, b.priority + |before|, false, m == d.defaultModel, b.isRemote, NO_PARAMS, true)]
  }

  /** The discovered entries of p. */
  function FoundEntries(v: RegView, p: string): seq<Entry> {
    if p in v.found && BasisOf(v, p).Some?
    then NewEntries(p, v.found[p], BasisOf(v, p).value, ConfigModels(v.base, p), |v.found[p].models|)
    else []
  }

  function Discover(v: RegView, p: string, d: Discovery): RegView {
    if BasisOf(v, p).None? then v else v.(found := v.found[p := d])
  }

  /** How many copies of `e` the registry holds. */
  function Census(v: RegView, e: Entry): nat {
    if e.isDiscovered then multiset(FoundEntries(v, e.providerID))[e] else multiset(v.base)[e]
  }

  /** `all` is a sorted list of exactly the entries that `v` calls for. */
  ghost predicate Describes(v: RegView, all: seq<Entry>) {
    Sorted(all) && forall e: Entry :: multiset(all)[e] == Census(v, e)
  }

  /** What Build guarantees about a view when provider ids are unique. */
  ghost predicate Sane(v: RegView) {
    && (forall e :: e in v.base ==> !e.isDiscovered)
    && (forall e, f :: e in v.base && f in v.base && e.providerID == f.providerID ==> e.isRemote == f.isRemote)
    && (forall i, j :: 0 <= i < j < |v.wild| ==>
          v.wild[i].providerID != v.wild[j].providerID && v.wild[i].priority < v.wild[j].priority)
    && (forall i, e :: 0 <= i < |v.wild| && e in v.base ==> v.wild[i].providerID != e.providerID)
    && (forall p :: p in v.found ==> BasisOf(v, p).Some?)
  }

  // ------------------------------------------------------------------------------ indexes

  function Lookup(m: map<string, seq<Entry>>, key: string): seq<Entry> {
    if key in m then m[key] else []
  }

  ghost predicate Indexes(byModel: map<string, seq<Entry>>, byProvider: map<string, seq<Entry>>, es: seq<Entry>) {
    && (forall m :: Lookup(byModel, m) == Sift(OfModel(m), es))
    && (forall p :: Lookup(byProvider, p) == Sift(OfProvider(p), es))
  }

  lemma SiftOne(k: Pick, e: Entry)
    ensures Sift(k, [e]) == if Keeps(k, e) then [e] else []
  {
    assert [e][1..] == [];
  }

  lemma IndexStep(byModel: map<string, seq<Entry>>, byProvider: map<string, seq<Entry>>, es: seq<Entry>, e: Entry)
    requires Indexes(byModel, byProvider, es)
    ensures Indexes(byModel[e.modelID := Lookup(byModel, e.modelID) + [e]],
                    byProvider[e.providerID := Lookup(byProvider, e.providerID) + [e]], es + [e])
  {
    var m' := byModel[e.modelID := Lookup(byModel, e.modelID) + [e]];
    var p' := byProvider[e.providerID := Lookup(byProvider, e.providerID) + [e]];
    forall m
      ensures Lookup(m', m) == Sift(OfModel(m), es + [e])
    {
      SiftAppend(OfModel(m), es, [e]);
      SiftOne(OfModel(m), e);
    }
    forall p
      ensures Lookup(p', p) == Sift(OfProvider(p), es + [e])
    {
      SiftAppend(OfProvider(p), es, [e]);
      SiftOne(OfProvider(p), e);
    }
  }

  /** Builds both indexes in one pass. */
  method IndexEntries(es: seq<Entry>) returns (byModel: map<string, seq<Entry>>, byProvider: map<string, seq<Entry>>)
    ensures Indexes(byModel, byProvider, es)
  {
    byModel, byProvider := map[], map[];
    for i := 0 to |es|
      invariant Indexes(byModel, byProvider, es[..i])
    {
      var e := es[i];
      assert es[..i + 1] == es[..i] + [e];
      IndexStep(byModel, byProvider, es[..i], e);
      byModel := byModel[e.modelID := Lookup(byModel, e.modelID) + [e]];
      byProvider := byProvider[e.providerID := Lookup(byProvider, e.providerID) + [e]];
    }
    assert es[..|es|] == es;
  }

  // --------------------------------------------------------------------- model resolution

  /** The entry a wildcard provider contributes for a model. */
  function Synthesized(a: AnyModel, model: string): Entry {
    Entry(a.providerID, model, a.priority, false, false, a.isRemote, NO_PARAMS, false)
  }

  /** Entries synthesized by the first n wildcard providers not already explicit in `explicit`. */
  function Fillers(wild: seq<AnyModel>, explicit: seq<Entry>, injected: set<string>, model: string, n: nat): seq<Entry>
    requires n <= |wild|
  {
    if n == 0 then []
    else
      var before, a := Fillers(wild, explicit, injected, model, n - 1), wild[n - 1];
      if a.providerID in injected && HasProvider(explicit, a.providerID) then before
      else before + [Synthesized(a, model)]
  }

  class Registry {
    var all: seq<Entry>
    var byModel: map<string, seq<Entry>>
    var byProvider: map<string, seq<Entry>>
    var anyModel: seq<AnyModel>
    var injected: set<string>
    ghost var base: seq<Entry>
    ghost var found: map<string, Discovery>

    ghost function View(): RegView
      reads this
    {
      RegView(base, anyModel, found)
    }

    /** Sorted, complete, and consistently indexed. */
    ghost predicate Valid()
      reads this
    {
      && Sane(View())
      && Describes(View(), all)
      && Indexes(byModel, byProvider, all)
      && injected == found.Keys
    }

    /** Is there a wildcard provider, or a configured entry, of this id? */
    ghost predicate Known(providerID: string)
      reads this
    {
      || (exists a :: a in anyModel && a.providerID == providerID)
      || exists e :: e in all && !e.isDiscovered && e.providerID == providerID
    }

    /** The explicit entries and the wildcard providers of a configuration, in configuration order. */
    static method Collect(ps: seq<ProviderConfig>, defaultModel: string) returns (entries: seq<Entry>,
            wild: seq<AnyModel>)
      ensures entries == BaseOf(ps, |ps|, defaultModel) && wild == WildOf(ps, |ps|, defaultModel)
    {
      hide BaseOf, WildOf, EntriesOf, OwnEntries;
      entries, wild := [], [];
      CollectStep(ps, 0, defaultModel);
      for i := 0 to |ps|
        invariant entries == BaseOf(ps, i, defaultModel) && wild == WildOf(ps, i, defaultModel)
      {
        var p := ps[i];
        CollectStep(ps, i, defaultModel);
        if p.skipped {
          continue;
        }
        if |p.models| == 0 {
          wild := wild + [AnyModel(p.id, |wild| + |entries| + 1, p.isRemote)];
        } else {
          var own := CollectModels(p, defaultModel);
          entries := entries + own;
        }
      }
    }

    static method CollectModels(p: ProviderConfig, defaultModel: string) returns (entries: seq<Entry>)
      ensures entries == EntriesOf(p, |p.models|, defaultModel)
    {
      entries := [];
      for j := 0 to |p.models|
        invariant entries == EntriesOf(p, j, defaultModel)
      {
        var m := p.models[j];
        var e := Entry(p.id, m.id, m.priority, m.isFree, m.id == defaultModel, p.isRemote, m.params, false);
        entries := entries + [e];
      }
    }

    /** The wildcard list comes out in priority order already, so sorting it changes nothing. */
    constructor (ps: seq<ProviderConfig>, defaultModel: string)
      requires UniqueIDs(ps)
      ensures Valid() && View() == BuildView(ps, defaultModel)
    {
      var entries, wild := Collect(ps, defaultModel);
      var sorted := SortEntries(entries);
      var m, p := IndexEntries(sorted);
      all, byModel, byProvider := sorted, m, p;
      anyModel, injected := wild, {};
      base, found := entries, map[];
      BuildSane(ps, defaultModel);
      BuildDescribed(ps, defaultModel, sorted);
    }

    /** The explicit entries, configured and discovered, each as often as called for, in canonical order. */
    method GlobalList() returns (r: seq<Entry>)
      requires Valid()
      ensures r == all && Sorted(r)
      ensures forall e :: e in r <==> Census(View(), e) > 0
    {
      r := all;
      forall e
        ensures e in r <==> Census(View(), e) > 0
      {
        InAll(View(), all, e);
      }
    }

    method ForProviderID(p: string) returns (r: seq<Entry>)
      requires Valid()
      ensures r == Sift(OfProvider(p), all) && Sorted(r)
      ensures forall e :: e in r <==> e in all && e.providerID == p
    {
      r := Lookup(byProvider, p);
      SiftSorted(OfProvider(p), all);
      forall e
        ensures e in r <==> e in all && e.providerID == p
      {
        SiftCount(OfProvider(p), all, e);
      }
    }

    /** Explicit entries for the model plus one synthesized entry for every wildcard provider that is
        not explicit for it: no wildcard provider is missing and none appears in both forms. */
    method ForModel(model: string) returns (r: seq<Entry>)
      requires Valid()
      ensures Resolves(View(), all, model, r)
      ensures forall e :: e in r <==>
        || (e in all && e.modelID == model)
        || exists a :: a in anyModel && !Serves(all, a.providerID, model)
                       && e == Entry(a.providerID, model, a.priority, false, false, a.isRemote, NO_PARAMS, false)
    {
      hide Sane, Describes, Resolves, Serves;
      var explicit := Lookup(byModel, model);
      if |explicit| == 0 && |anyModel| == 0 {
        ResolvedBy(View(), all, model, []);
        return [];
      }
      var result := explicit;
      for i := 0 to |anyModel|
        invariant result == explicit + Fillers(anyModel, explicit, injected, model, i)
      {
        var a := anyModel[i];
        if a.providerID in injected {
          var already := false;
          for j := 0 to |explicit|
            invariant already <==> exists k :: 0 <= k < j && explicit[k].providerID == a.providerID
          {
            if explicit[j].providerID == a.providerID {
              already := true;
            }
          }
          if already {
            continue;
          }
          assert !HasProvider(explicit, a.providerID);
        }
        result := result + [Entry(a.providerID, model, a.priority, false, false, a.isRemote, NO_PARAMS, false)];
      }
      r := SortEntries(result);
      ResolvedBy(View(), all, model, r);
    }

    /** Replaces what was discovered for the provider; configured entries are left alone. */
    method SetDiscoveredModels(providerID: string, modelIDs: seq<string>, defaultModel: string)
      requires Valid()
      modifies this
      ensures Valid() && View() == Discover(old(View()), providerID, Discovery(modelIDs, defaultModel))
      ensures base == old(base) && anyModel == old(anyModel)
      ensures found == if old(Known(providerID)) then old(found)[providerID := Discovery(modelIDs, defaultModel)]
                       else old(found)
    {
      hide Sane, Describes, Indexes, BasisOf, Known;
      var basis := FindBasis(providerID);
      if basis.None? {
        return;
      }
      ghost var v := View();
      ghost var d := Discovery(modelIDs, defaultModel);
      var configModels := CollectConfigModels(providerID);
      var kept := DropFound(providerID);
      var news := MakeEntries(providerID, modelIDs, defaultModel, basis.value, configModels);
      var sorted := SortEntries(kept + news);
      Rediscovered(v, all, providerID, d, news, sorted);
      all := sorted;
      byModel, byProvider := IndexEntries(sorted);
      injected := injected + {providerID};
      found := found[providerID := d];
      assert View() == Discover(v, providerID, d);
    }

    /** Base priority and remoteness of a provider's discovered entries; none if it is unknown. */
    method FindBasis(providerID: string) returns (b: Option<Basis>)
      requires Valid()
      ensures b == BasisOf(View(), providerID)
      ensures b.Some? <==> Known(providerID)
      ensures forall a :: a in anyModel && a.providerID == providerID ==> b == Some(Basis(a.priority, a.isRemote))
      ensures forall e :: b.Some? && e in all && !e.isDiscovered && e.providerID == providerID ==>
        && b.value.isRemote == e.isRemote
        && forall f :: f in all && !f.isDiscovered ==> f.priority < b.value.priority
    {
      hide Sane, Describes, Indexes, BasisOf;
      b := SearchBasis(providerID);
      BasisExact(View(), all, providerID);
    }

    /** First among the wildcard providers, then among the configured entries. */
    method SearchBasis(providerID: string) returns (b: Option<Basis>)
      requires Valid()
      ensures b == BasisOf(View(), providerID)
    {
      var i := 0;
      while i < |anyModel|
        invariant 0 <= i <= |anyModel|
        invariant WildFor(anyModel, providerID) == WildFor(anyModel[i..], providerID)
      {
        if anyModel[i].providerID == providerID {
          return Some(Basis(anyModel[i].priority, anyModel[i].isRemote));
        }
        assert anyModel[i..][1..] == anyModel[i + 1..];
        i := i + 1;
      }
      var maxPriority := MaxConfigured();
      var es := Lookup(byProvider, providerID);
      for j := 0 to |es|
        invariant forall k :: 0 <= k < j ==> es[k].isDiscovered
      {
        if !es[j].isDiscovered {
          assert es[j] in es;
          ConfiguredMember(View(), all, providerID, es[j]);
          return Some(Basis(maxPriority + 1, es[j].isRemote));
        }
      }
      NoConfiguredMember(View(), all, providerID);
      return None;
    }

    /** Greatest priority of a configured entry, at least 0. */
    method MaxConfigured() returns (maxPriority: int)
      requires Sane(View()) && Describes(View(), all)
      ensures maxPriority == TopEntry(base) && maxPriority >= 0
      ensures forall e :: e in all && !e.isDiscovered ==> e.priority <= maxPriority
      ensures maxPriority > 0 ==> exists e :: e in all && !e.isDiscovered && e.priority == maxPriority
    {
      maxPriority := 0;
      for j := 0 to |all|
        invariant maxPriority == TopEntry(Sift(Configured, all[..j]))
      {
        TopEntryStep(all[..j], all[j]);
        assert all[..j + 1] == all[..j] + [all[j]];
        if !all[j].isDiscovered && all[j].priority > maxPriority {
          maxPriority := all[j].priority;
        }
      }
      assert all[..|all|] == all;
      ConfiguredIsBase(View(), all);
      TopEntrySame(Sift(Configured, all), base);
      TopEntryBounds(base);
      ConfiguredMembers(View(), all);
    }

    method CollectConfigModels(providerID: string) returns (models: set<string>)
      requires Valid()
      ensures models == ConfigModels(base, providerID)
      ensures forall m :: m in models <==>
        exists e :: e in all && !e.isDiscovered && e.providerID == providerID && e.modelID == m
    {
      models := {};
      var es := Lookup(byProvider, providerID);
      for j := 0 to |es|
        invariant models == set k | 0 <= k < j && !es[k].isDiscovered :: es[k].modelID
      {
        if !es[j].isDiscovered {
          models := models + {es[j].modelID};
        }
      }
      ConfigModelsSeen(View(), all, providerID, es);
      ConfiguredMembers(View(), all);
    }

    method DropFound(providerID: string) returns (kept: seq<Entry>)
      ensures kept == Sift(NotFoundOf(providerID), all)
    {
      kept := [];
      for j := 0 to |all|
        invariant kept == Sift(NotFoundOf(providerID), all[..j])
      {
        SiftAppend(NotFoundOf(providerID), all[..j], [all[j]]);
        SiftOne(NotFoundOf(providerID), all[j]);
        assert all[..j + 1] == all[..j] + [all[j]];
        if all[j].providerID == providerID && all[j].isDiscovered {
          continue;
        }
        kept := kept + [all[j]];
      }
      assert all[..|all|] == all;
    }
  }

  /** New entries with consecutive priorities from the basis on. */
  method MakeEntries(providerID: string, modelIDs: seq<string>, defaultModel: string, b: Basis, configured: set<string>)
    returns (news: seq<Entry>)
    ensures news == NewEntries(providerID, Discovery(modelIDs, defaultModel), b, configured, |modelIDs|)
  {
    news := [];
    var currentPriority := b.priority;
    for i := 0 to |modelIDs|
      invariant news == NewEntries(providerID, Discovery(modelIDs, defaultModel), b, configured, i)
      invariant currentPriority == b.priority + |news|
    {
      if modelIDs[i] in configured {
        continue;
      }
      var isDefault := modelIDs[i] == defaultModel;
      news := news + [Entry(providerID, modelIDs[i], currentPriority, false, isDefault, b.isRemote, NO_PARAMS, true)];
      currentPriority := currentPriority + 1;
    }
  }

  // ---------------------------------------------------------------- lemmas about building

  lemma {:induction false} EntriesOfMembers(p: ProviderConfig, n: nat, dm: string, e: Entry)
    requires n <= |p.models| && e in EntriesOf(p, n, dm)
    ensures e.providerID == p.id && !e.isDiscovered && e.isRemote == p.isRemote
  {
    if n > 0 && e in EntriesOf(p, n - 1, dm) {
      EntriesOfMembers(p, n - 1, dm, e);
    }
  }

  lemma {:induction false} BaseOfMembers(ps: seq<ProviderConfig>, n: nat, dm: string, e: Entry) returns (i: nat)
    requires n <= |ps| && e in BaseOf(ps, n, dm)
    ensures i < n && ps[i].id == e.providerID && ps[i].isRemote == e.isRemote && ps[i].models != [] && !e.isDiscovered
  {
    if e in OwnEntries(ps[n - 1], dm) {
      i := n - 1;
      EntriesOfMembers(ps[i], |ps[i].models|, dm, e);
    } else {
      assert e in BaseOf(ps, n - 1, dm);
      i := BaseOfMembers(ps, n - 1, dm, e);
    }
  }

  lemma {:induction false} WildOfMembers(ps: seq<ProviderConfig>, n: nat, dm: string, k: nat) returns (i: nat)
    requires n <= |ps| && k < |WildOf(ps, n, dm)|
    ensures i < n && ps[i].id == WildOf(ps, n, dm)[k].providerID && ps[i].models == []
    ensures WildOf(ps, n, dm)[k].priority <= |WildOf(ps, n, dm)| + |BaseOf(ps, n, dm)|
  {
    if k < |WildOf(ps, n - 1, dm)| {
      i := WildOfMembers(ps, n - 1, dm, k);
    } else {
      i := n - 1;
    }
  }

  lemma {:induction false} WildOfOrdered(ps: seq<ProviderConfig>, n: nat, dm: string, k: nat, l: nat)
    requires UniqueIDs(ps) && n <= |ps| && k < l < |WildOf(ps, n, dm)|
    ensures var w := WildOf(ps, n, dm); w[k].priority < w[l].priority && w[k].providerID != w[l].providerID
  {
    if l < |WildOf(ps, n - 1, dm)| {
      WildOfOrdered(ps, n - 1, dm, k, l);
    } else {
      var i := WildOfMembers(ps, n - 1, dm, k);
      assert ps[i].id != ps[n - 1].id;
    }
  }

  lemma BuildSane(ps: seq<ProviderConfig>, dm: string)
    requires UniqueIDs(ps)
    ensures Sane(BuildView(ps, dm))
  {
    var v := BuildView(ps, dm);
    forall e | e in v.base
      ensures !e.isDiscovered
    {
      var i := BaseOfMembers(ps, |ps|, dm, e);
    }
    forall e, f | e in v.base && f in v.base && e.providerID == f.providerID
      ensures e.isRemote == f.isRemote
    {
      var i := BaseOfMembers(ps, |ps|, dm, e);
      var j := BaseOfMembers(ps, |ps|, dm, f);
    }
    forall k, l | 0 <= k < l < |v.wild|
      ensures v.wild[k].providerID != v.wild[l].providerID && v.wild[k].priority < v.wild[l].priority
    {
      WildOfOrdered(ps, |ps|, dm, k, l);
    }
    forall k, e | 0 <= k < |v.wild| && e in v.base
      ensures v.wild[k].providerID != e.providerID
    {
      var i := WildOfMembers(ps, |ps|, dm, k);
      var j := BaseOfMembers(ps, |ps|, dm, e);
    }
  }

  lemma BuildDescribed(ps: seq<ProviderConfig>, dm: string, sorted: seq<Entry>)
    requires UniqueIDs(ps)
    requires Sorted(sorted) && multiset(sorted) == multiset(BaseOf(ps, |ps|, dm))
    ensures Describes(BuildView(ps, dm), sorted)
  {
    var v := BuildView(ps, dm);
    BuildSane(ps, dm);
    forall e: Entry
      ensures multiset(sorted)[e] == Census(v, e)
    {
      if e.isDiscovered {
        assert e !in v.base;
      }
    }
  }

  // -------------------------------------------------------------- lemmas about discovery

  lemma InAll(v: RegView, all: seq<Entry>, e: Entry)
    requires Describes(v, all)
    ensures e in all <==> Census(v, e) > 0
  {
    assert e in all <==> e in multiset(all);
  }

  lemma {:induction false} NewEntriesMembers(p: string, d: Discovery, b: Basis, configured: set<string>, n: nat,
          e: Entry)
    requires n <= |d.models| && e in NewEntries(p, d, b, configured, n)
    ensures e.providerID == p && e.isDiscovered && e.modelID !in configured && e.isRemote == b.isRemote
  {
    if n > 0 && e in NewEntries(p, d, b, configured, n - 1) {
      NewEntriesMembers(p, d, b, configured, n - 1, e);
    }
  }

  lemma FoundMembers(v: RegView, p: string, e: Entry)
    requires e in FoundEntries(v, p)
    ensures e.providerID == p && e.isDiscovered && e.modelID !in ConfigModels(v.base, p)
  {
    NewEntriesMembers(p, v.found[p], BasisOf(v, p).value, ConfigModels(v.base, p), |v.found[p].models|, e);
  }

  lemma BaseCount(v: RegView, e: Entry)
    requires Sane(v)
    ensures multiset(v.base)[e] == if e.isDiscovered then 0 else Census(v, e)
  {
    if e.isDiscovered {
      assert e !in v.base;
    }
  }

  lemma ConfiguredIsBase(v: RegView, all: seq<Entry>)
    requires Sane(v) && Describes(v, all)
    ensures multiset(Sift(Configured, all)) == multiset(v.base)
  {
    forall e: Entry
      ensures multiset(Sift(Configured, all))[e] == multiset(v.base)[e]
    {
      assert multiset(all)[e] == Census(v, e);
      SiftCount(Configured, all, e);
      BaseCount(v, e);
    }
  }

  /** The configured entries of the list are the configured entries. */
  lemma ConfiguredMembers(v: RegView, all: seq<Entry>)
    requires Sane(v) && Describes(v, all)
    ensures forall e :: e in v.base <==> e in all && !e.isDiscovered
  {
    forall e
      ensures e in v.base <==> e in all && !e.isDiscovered
    {
      InAll(v, all, e);
      BaseCount(v, e);
      assert e in v.base <==> e in multiset(v.base);
    }
  }

  lemma {:induction false} WildForFirst(wild: seq<AnyModel>, p: string)
    requires forall i, j :: 0 <= i < j < |wild| ==> wild[i].providerID != wild[j].providerID
    ensures forall a :: a in wild && a.providerID == p ==> WildFor(wild, p) == Some(a)
    ensures WildFor(wild, p).Some? ==> WildFor(wild, p).value in wild && WildFor(wild, p).value.providerID == p
  {
    if wild != [] {
      WildForFirst(wild[1..], p);
    }
  }

  /** Where discovered entries start and whether they are remote, without its computation. */
  lemma BasisExact(v: RegView, all: seq<Entry>, p: string)
    requires Sane(v) && Describes(v, all)
    ensures BasisOf(v, p).Some? <==>
      (exists a :: a in v.wild && a.providerID == p) || exists e :: e in all && !e.isDiscovered && e.providerID == p
    ensures forall a :: a in v.wild && a.providerID == p ==> BasisOf(v, p) == Some(Basis(a.priority, a.isRemote))
    ensures forall e :: e in all && !e.isDiscovered && e.providerID == p ==>
      && BasisOf(v, p).Some? && BasisOf(v, p).value.isRemote == e.isRemote
      && (forall f :: f in all && !f.isDiscovered ==> f.priority < BasisOf(v, p).value.priority)
      && (BasisOf(v, p).value.priority == 1
          || exists f :: f in all && !f.isDiscovered && f.priority == BasisOf(v, p).value.priority - 1)
  {
    WildForFirst(v.wild, p);
    ConfiguredMembers(v, all);
    TopEntryBounds(v.base);
    if e :| e in v.base && e.providerID == p {
      assert forall a :: a in v.wild ==> a.providerID != p;
    }
  }

  lemma {:induction false} TopEntryAppend(es: seq<Entry>, e: Entry)
    ensures TopEntry(es) >= 0 && TopEntry(es + [e]) == Max(TopEntry(es), e.priority)
  {
    if es == [] {
      assert es + [e] == [e] && [e][1..] == [];
    } else {
      assert (es + [e])[1..] == es[1..] + [e];
      TopEntryAppend(es[1..], e);
    }
  }

  lemma TopEntryStep(es: seq<Entry>, e: Entry)
    ensures var top := TopEntry(Sift(Configured, es));
            TopEntry(Sift(Configured, es + [e])) == if e.isDiscovered then top else Max(top, e.priority)
  {
    SiftAppend(Configured, es, [e]);
    SiftOne(Configured, e);
    if !e.isDiscovered {
      TopEntryAppend(Sift(Configured, es), e);
    } else {
      assert Sift(Configured, es) + [] == Sift(Configured, es);
    }
  }

  lemma {:induction false} TopEntryBounds(es: seq<Entry>)
    ensures TopEntry(es) >= 0
    ensures forall e :: e in es ==> e.priority <= TopEntry(es)
    ensures TopEntry(es) > 0 ==> exists e :: e in es && e.priority == TopEntry(es)
  {
    if es != [] {
      TopEntryBounds(es[1..]);
      if TopEntry(es) > 0 && TopEntry(es) != es[0].priority {
        var e :| e in es[1..] && e.priority == TopEntry(es[1..]);
        assert e in es;
      }
    }
  }

  lemma TopEntrySame(a: seq<Entry>, b: seq<Entry>)
    requires multiset(a) == multiset(b)
    ensures TopEntry(a) == TopEntry(b)
  {
    TopEntryBounds(a);
    TopEntryBounds(b);
    assert forall e :: e in a <==> e in multiset(a);
    assert forall e :: e in b <==> e in multiset(b);
  }

  lemma ConfiguredMember(v: RegView, all: seq<Entry>, p: string, e: Entry)
    requires Sane(v) && Describes(v, all)
    requires e in Sift(OfProvider(p), all) && !e.isDiscovered
    ensures HasProvider(v.base, p) && RemoteIn(v.base, p) == e.isRemote && e in v.base
  {
    SiftCount(OfProvider(p), all, e);
    InAll(v, all, e);
    assert e in v.base;
  }

  lemma NoConfiguredMember(v: RegView, all: seq<Entry>, p: string)
    requires Sane(v) && Describes(v, all)
    requires forall k :: 0 <= k < |Sift(OfProvider(p), all)| ==> Sift(OfProvider(p), all)[k].isDiscovered
    ensures !HasProvider(v.base, p)
  {
    if e :| e in v.base && e.providerID == p {
      InAll(v, all, e);
      SiftCount(OfProvider(p), all, e);
    }
  }

  lemma ConfigModelsSeen(v: RegView, all: seq<Entry>, p: string, es: seq<Entry>)
    requires Sane(v) && Describes(v, all) && es == Sift(OfProvider(p), all)
    ensures (set k | 0 <= k < |es| && !es[k].isDiscovered :: es[k].modelID) == ConfigModels(v.base, p)
  {
    var seen := set k | 0 <= k < |es| && !es[k].isDiscovered :: es[k].modelID;
    forall m | m in seen
      ensures m in ConfigModels(v.base, p)
    {
      var k :| 0 <= k < |es| && !es[k].isDiscovered && es[k].modelID == m;
      assert es[k] in es;
      SiftCount(OfProvider(p), all, es[k]);
      ConfiguredMember(v, all, p, es[k]);
    }
    forall m | m in ConfigModels(v.base, p)
      ensures m in seen
    {
      var e :| e in v.base && e.providerID == p && e.modelID == m;
      InAll(v, all, e);
      SiftCount(OfProvider(p), all, e);
      var k :| 0 <= k < |es| && es[k] == e;
    }
  }

  lemma OtherFound(v: RegView, p: string, d: Discovery, q: string)
    requires BasisOf(v, p).Some? && q != p
    ensures FoundEntries(Discover(v, p, d), q) == FoundEntries(v, q)
  {
    assert BasisOf(Discover(v, p, d), q) == BasisOf(v, q);
  }

  lemma DiscoveryCount(v: RegView, p: string, d: Discovery, e: Entry)
    requires BasisOf(v, p).Some?
    ensures var v' := Discover(v, p, d);
            Census(v', e) == (if Keeps(NotFoundOf(p), e) then Census(v, e) else 0) + multiset(FoundEntries(v', p))[e]
  {
    var v' := Discover(v, p, d);
    if e in FoundEntries(v', p) {
      FoundMembers(v', p, e);
    }
    if e.providerID != p {
      OtherFound(v, p, d, e.providerID);
    }
  }

  /** Dropping the old discoveries of p and adding the new ones gives the contents the new view calls for. */
  lemma DiscoveryCounts(v: RegView, all: seq<Entry>, p: string, d: Discovery)
    requires Sane(v) && Describes(v, all) && BasisOf(v, p).Some?
    ensures var v' := Discover(v, p, d);
            forall e: Entry :: multiset(Sift(NotFoundOf(p), all) + FoundEntries(v', p))[e] == Census(v', e)
  {
    var v' := Discover(v, p, d);
    forall e: Entry
      ensures multiset(Sift(NotFoundOf(p), all) + FoundEntries(v', p))[e] == Census(v', e)
    {
      assert multiset(all)[e] == Census(v, e);
      SiftCount(NotFoundOf(p), all, e);
      DiscoveryCount(v, p, d, e);
    }
  }

  lemma NewFound(v: RegView, p: string, d: Discovery, news: seq<Entry>)
    requires BasisOf(v, p).Some?
    requires news == NewEntries(p, d, BasisOf(v, p).value, ConfigModels(v.base, p), |d.models|)
    ensures FoundEntries(Discover(v, p, d), p) == news
  {
    assert BasisOf(Discover(v, p, d), p) == BasisOf(v, p);
  }

  lemma DiscoverSane(v: RegView, p: string, d: Discovery)
    requires Sane(v)
    ensures Sane(Discover(v, p, d))
  {
    var v' := Discover(v, p, d);
    forall q | q in v'.found
      ensures BasisOf(v', q).Some?
    {
      assert BasisOf(v', q) == BasisOf(v, q);
    }
  }

  lemma Rediscovered(v: RegView, all: seq<Entry>, p: string, d: Discovery, news: seq<Entry>, sorted: seq<Entry>)
    requires Sane(v) && Describes(v, all) && BasisOf(v, p).Some?
    requires news == NewEntries(p, d, BasisOf(v, p).value, ConfigModels(v.base, p), |d.models|)
    requires Sorted(sorted) && multiset(sorted) == multiset(Sift(NotFoundOf(p), all) + news)
    ensures Sane(Discover(v, p, d)) && Describes(Discover(v, p, d), sorted)
  {
    DiscoverSane(v, p, d);
    NewFound(v, p, d, news);
    DiscoveryCounts(v, all, p, d);
  }

  // ------------------------------------------------------- lemmas about model resolution

  function ExplicitCount(all: seq<Entry>, model: string, e: Entry): nat {
    if e.modelID == model then multiset(all)[e] else 0
  }

  function WildCount(v: RegView, all: seq<Entry>, model: string, e: Entry): nat {
    if SynthesizedBy(v, all, model, e) then 1 else 0
  }

  /** The list a model name resolves to, given the registry's explicit entries. */
  ghost predicate Resolves(v: RegView, all: seq<Entry>, model: string, r: seq<Entry>) {
    Sorted(r) && forall e: Entry :: multiset(r)[e] == ExplicitCount(all, model, e) + WildCount(v, all, model, e)
  }

  predicate Serves(all: seq<Entry>, p: string, model: string) {
    exists e :: e in all && e.providerID == p && e.modelID == model
  }

  /** What a model name resolves to, entry by entry. */
  lemma ResolvedExact(v: RegView, all: seq<Entry>, model: string, r: seq<Entry>)
    requires Resolves(v, all, model, r)
    ensures forall e :: e in r <==>
      || (e in all && e.modelID == model)
      || exists a :: a in v.wild && !Serves(all, a.providerID, model)
                     && e == Entry(a.providerID, model, a.priority, false, false, a.isRemote, NO_PARAMS, false)
  {
    forall e
      ensures e in r <==>
        || (e in all && e.modelID == model)
        || exists a :: a in v.wild && !Serves(all, a.providerID, model)
                       && e == Entry(a.providerID, model, a.priority, false, false, a.isRemote, NO_PARAMS, false)
    {
      assert e in r <==> multiset(r)[e] > 0;
      assert multiset(r)[e] == ExplicitCount(all, model, e) + WildCount(v, all, model, e);
      if i :| 0 <= i < |v.wild| && FillerAt(v, all, model, e, i) {
        assert v.wild[i] in v.wild;
      }
      if a :| a in v.wild && !Serves(all, a.providerID, model)
              && e == Entry(a.providerID, model, a.priority, false, false, a.isRemote, NO_PARAMS, false) {
        var i :| 0 <= i < |v.wild| && v.wild[i] == a;
        assert FillerAt(v, all, model, e, i);
      }
    }
  }

  predicate FillerAt(v: RegView, all: seq<Entry>, model: string, e: Entry, i: nat)
    requires i < |v.wild|
  {
    e == Synthesized(v.wild[i], model) && !Serves(all, v.wild[i].providerID, model)
  }

  predicate SynthesizedBy(v: RegView, all: seq<Entry>, model: string, e: Entry) {
    exists i :: 0 <= i < |v.wild| && FillerAt(v, all, model, e, i)
  }

  lemma ExplicitServes(v: RegView, all: seq<Entry>, model: string, i: nat)
    requires Sane(v) && Describes(v, all) && i < |v.wild|
    ensures var p := v.wild[i].providerID;
            p in v.found.Keys && HasProvider(Sift(OfModel(model), all), p) <==> Serves(all, p, model)
  {
    var p := v.wild[i].providerID;
    if e :| e in all && e.providerID == p && e.modelID == model {
      SiftCount(OfModel(model), all, e);
      InAll(v, all, e);
      assert e !in v.base;
      assert e.isDiscovered && e in FoundEntries(v, p);
    }
    if e :| e in Sift(OfModel(model), all) && e.providerID == p {
      SiftCount(OfModel(model), all, e);
    }
  }

  lemma FillersStep(v: RegView, all: seq<Entry>, model: string, n: nat)
    requires Sane(v) && Describes(v, all) && 0 < n <= |v.wild|
    ensures var explicit, a := Sift(OfModel(model), all), v.wild[n - 1];
            Fillers(v.wild, explicit, v.found.Keys, model, n)
            == Fillers(v.wild, explicit, v.found.Keys, model, n - 1)
               + if Serves(all, a.providerID, model) then [] else [Synthesized(a, model)]
  {
    ExplicitServes(v, all, model, n - 1);
  }

  lemma NotEarlier(v: RegView, all: seq<Entry>, model: string, n: nat, e: Entry)
    requires Sane(v) && 0 < n <= |v.wild| && e.providerID == v.wild[n - 1].providerID
    ensures forall i :: 0 <= i < n - 1 ==> !FillerAt(v, all, model, e, i)
  {
  }

  /** Is `e` synthesized by one of the first n wildcard providers? */
  predicate FilledBy(v: RegView, all: seq<Entry>, model: string, n: nat, e: Entry)
    requires n <= |v.wild|
  {
    exists i :: 0 <= i < n && FillerAt(v, all, model, e, i)
  }

  lemma FilledStep(v: RegView, all: seq<Entry>, model: string, n: nat, e: Entry)
    requires Sane(v) && 0 < n <= |v.wild|
    ensures var mine := e == Synthesized(v.wild[n - 1], model) && !Serves(all, v.wild[n - 1].providerID, model);
            && (FilledBy(v, all, model, n, e) <==> FilledBy(v, all, model, n - 1, e) || mine)
            && !(FilledBy(v, all, model, n - 1, e) && mine)
  {
    if FillerAt(v, all, model, e, n - 1) {
      NotEarlier(v, all, model, n, e);
    }
  }

  lemma NoFillers(v: RegView, all: seq<Entry>, model: string, explicit: seq<Entry>, e: Entry)
    ensures multiset(Fillers(v.wild, explicit, v.found.Keys, model, 0))[e] == 0 && !FilledBy(v, all, model, 0, e)
  {
  }

  lemma CountStep(before: seq<Entry>, after: seq<Entry>, served: bool, f: Entry, e: Entry, was: bool)
    requires after == before + if served then [] else [f]
    requires multiset(before)[e] == if was then 1 else 0
    requires !(was && e == f && !served)
    ensures multiset(after)[e] == if was || (e == f && !served) then 1 else 0
  {
  }

  lemma {:induction false} FillersCount(v: RegView, all: seq<Entry>, model: string, n: nat, e: Entry)
    requires Sane(v) && Describes(v, all) && n <= |v.wild|
    ensures multiset(Fillers(v.wild, Sift(OfModel(model), all), v.found.Keys, model, n))[e]
            == if FilledBy(v, all, model, n, e) then 1 else 0
  {
    hide Fillers, Sane, Describes, Sift, Serves, FilledBy, Synthesized;
    if n == 0 {
      NoFillers(v, all, model, Sift(OfModel(model), all), e);
    } else {
      var explicit, a := Sift(OfModel(model), all), v.wild[n - 1];
      var before, after := Fillers(v.wild, explicit, v.found.Keys, model, n - 1),
                           Fillers(v.wild, explicit, v.found.Keys, model, n);
      FillersCount(v, all, model, n - 1, e);
      FillersStep(v, all, model, n);
      FilledStep(v, all, model, n, e);
      CountStep(before, after, Serves(all, a.providerID, model), Synthesized(a, model), e,
                FilledBy(v, all, model, n - 1, e));
    }
  }

  lemma FillersMerge(v: RegView, all: seq<Entry>, model: string)
    requires Sane(v) && Describes(v, all)
    ensures var explicit := Sift(OfModel(model), all);
            forall e: Entry :: multiset(explicit + Fillers(v.wild, explicit, v.found.Keys, model, |v.wild|))[e]
                     == ExplicitCount(all, model, e) + WildCount(v, all, model, e)
  {
    var explicit := Sift(OfModel(model), all);
    forall e: Entry
      ensures multiset(explicit + Fillers(v.wild, explicit, v.found.Keys, model, |v.wild|))[e]
           == ExplicitCount(all, model, e) + WildCount(v, all, model, e)
    {
      SiftCount(OfModel(model), all, e);
      FillersCount(v, all, model, |v.wild|, e);
    }
  }

  /** The sorted merge of explicit and synthesized entries is what the model name resolves to. */
  lemma ResolvedBy(v: RegView, all: seq<Entry>, model: string, r: seq<Entry>)
    requires Sane(v) && Describes(v, all) && Sorted(r)
    requires var explicit := Sift(OfModel(model), all);
             multiset(r) == multiset(explicit + Fillers(v.wild, explicit, v.found.Keys, model, |v.wild|))
    ensures Resolves(v, all, model, r)
    ensures forall e :: e in r <==>
      || (e in all && e.modelID == model)
      || exists a :: a in v.wild && !Serves(all, a.providerID, model)
                     && e == Entry(a.providerID, model, a.priority, false, false, a.isRemote, NO_PARAMS, false)
  {
    FillersMerge(v, all, model);
    ResolvedExact(v, all, model, r);
  }
}
