/** Provider configuration: priority filling, schema normalisation, validation. */
module Configs {
  import opened Prelude
  import opened Entries

  /** A request window, as written, and a concurrency cap. */
  datatype LimitEntry = LimitEntry(requests: int, window: string, concurrent: int)

  datatype ModelConfig = ModelConfig(id: string, priority: int, isFree: bool, params: Params, limits: seq<LimitEntry>)

  datatype ProviderConfig = ProviderConfig(id: string, kind: string, endpoint: string, apiKey: string,
                                           timeoutMs: int, limits: seq<LimitEntry>, models: seq<ModelConfig>,
                                           isRemote: bool, skipped: bool)

  /** A local node or a remote provider of the new schema. */
  datatype NodeConfig = NodeConfig(id: string, kind: string, endpoint: string, timeoutMs: int, apiKey: string)

  datatype ConfigError = BadVersion | MissingID | DuplicateID | UnknownType | MissingEndpoint | BadPriority
                       | BadRequests | MissingWindow | BadConcurrency | NoDefaultModel

  const KINDS: set<string> := {"ollama", "openai-compatible", "anthropic", "google", "cohere", "mistral"}
  const ENDPOINT_KINDS: set<string> := {"ollama", "openai-compatible", "mistral"}

  ghost predicate UniqueIDs(ps: seq<ProviderConfig>) {
    forall i, j :: 0 <= i < j < |ps| ==> ps[i].id != ps[j].id
  }

  // ------------------------------------------------------------------ priority filling

  /** Greatest priority among the first n models, at least 0. */
  function TopModel(ms: seq<ModelConfig>, n: nat): int
    requires n <= |ms|
  {
    if n == 0 then 0 else Max(TopModel(ms, n - 1), ms[n - 1].priority)
  }

  /** Greatest priority configured in the first n providers, at least 0. */
  function TopPriority(ps: seq<ProviderConfig>, n: nat): int
    requires n <= |ps|
  {
    if n == 0 then 0 else Max(TopPriority(ps, n - 1), TopModel(ps[n - 1].models, |ps[n - 1].models|))
  }

  lemma {:induction false} TopModelBounds(ms: seq<ModelConfig>, n: nat, j: nat)
    requires j < n <= |ms|
    ensures ms[j].priority <= TopModel(ms, n)
  {
    if j < n - 1 {
      TopModelBounds(ms, n - 1, j);
    }
  }

  lemma {:induction false} TopPriorityBounds(ps: seq<ProviderConfig>, n: nat, i: nat, j: nat)
    requires i < n <= |ps| && j < |ps[i].models|
    ensures ps[i].models[j].priority <= TopPriority(ps, n)
  {
    if i < n - 1 {
      TopPriorityBounds(ps, n - 1, i, j);
    } else {
      TopModelBounds(ps[i].models, |ps[i].models|, j);
    }
  }

  lemma {:induction false} TopModelAttained(ms: seq<ModelConfig>, n: nat)
    requires n <= |ms|
    ensures TopModel(ms, n) > 0 ==> exists j :: 0 <= j < n && ms[j].priority == TopModel(ms, n)
  {
    if n > 0 {
      TopModelAttained(ms, n - 1);
    }
  }

  lemma {:induction false} TopPriorityAttained(ps: seq<ProviderConfig>, n: nat)
    requires n <= |ps|
    ensures TopPriority(ps, n) > 0 ==>
              exists i, j :: 0 <= i < n && 0 <= j < |ps[i].models| && ps[i].models[j].priority == TopPriority(ps, n)
  {
    if n > 0 {
      TopPriorityAttained(ps, n - 1);
      TopModelAttained(ps[n - 1].models, |ps[n - 1].models|);
    }
  }

  lemma {:induction false} TopPriorityNatural(ps: seq<ProviderConfig>, n: nat)
    requires n <= |ps|
    ensures TopPriority(ps, n) >= 0
  {
    if n > 0 {
      TopPriorityNatural(ps, n - 1);
    }
  }

  /** Number of models configured before provider n. */
  function Offset(ps: seq<ProviderConfig>, n: nat): nat
    requires n <= |ps|
  {
    if n == 0 then 0 else Offset(ps, n - 1) + |ps[n - 1].models|
  }

  /** All models of the first n providers, in configuration order. */
  function ModelsBefore(ps: seq<ProviderConfig>, n: nat): seq<ModelConfig>
    requires n <= |ps|
  {
    if n == 0 then [] else ModelsBefore(ps, n - 1) + ps[n - 1].models
  }

  lemma {:induction false} OffsetCounts(ps: seq<ProviderConfig>, n: nat)
    requires n <= |ps|
    ensures Offset(ps, n) == |ModelsBefore(ps, n)|
  {
    if n > 0 {
      OffsetCounts(ps, n - 1);
    }
  }

  function FilledModel(m: ModelConfig, fallback: int): ModelConfig {
    if m.priority <= 0 then m.(priority := fallback) else m
  }

  /** The first n models with their missing priorities replaced by start + position. */
  function FilledModels(ms: seq<ModelConfig>, start: int, n: nat): (r: seq<ModelConfig>)
    requires n <= |ms|
    ensures |r| == n
  {
    if n == 0 then [] else FilledModels(ms, start, n - 1) + [FilledModel(ms[n - 1], start + n - 1)]
  }

  lemma {:induction false} FilledModelsAt(ms: seq<ModelConfig>, start: int, n: nat, j: nat)
    requires j < n <= |ms|
    ensures FilledModels(ms, start, n)[j] == FilledModel(ms[j], start + j)
  {
    if j < n - 1 {
      FilledModelsAt(ms, start, n - 1, j);
    }
  }

  function Refilled(p: ProviderConfig, start: int): ProviderConfig {
    p.(models := FilledModels(p.models, start, |p.models|))
  }

  /** The first n providers with their missing priorities filled, counting on from `start`. */
  function FilledFrom(ps: seq<ProviderConfig>, start: int, n: nat): (r: seq<ProviderConfig>)
    requires n <= |ps|
    ensures |r| == n
  {
    if n == 0 then [] else FilledFrom(ps, start, n - 1) + [Refilled(ps[n - 1], start + Offset(ps, n - 1))]
  }

  lemma {:induction false} FilledAt(ps: seq<ProviderConfig>, start: int, n: nat, i: nat)
    requires i < n <= |ps|
    ensures FilledFrom(ps, start, n)[i] == Refilled(ps[i], start + Offset(ps, i))
  {
    if i < n - 1 {
      FilledAt(ps, start, n - 1, i);
    }
  }

  /** Every missing priority becomes (greatest configured priority) + 1 + (number of models before it). */
  function Filled(ps: seq<ProviderConfig>): (r: seq<ProviderConfig>)
    ensures |r| == |ps|
  {
    FilledFrom(ps, TopPriority(ps, |ps|) + 1, |ps|)
  }

  lemma FilledProviderAt(ps: seq<ProviderConfig>, i: nat)
    requires i < |ps|
    ensures Filled(ps)[i] == Refilled(ps[i], TopPriority(ps, |ps|) + 1 + Offset(ps, i))
  {
    FilledAt(ps, TopPriority(ps, |ps|) + 1, |ps|, i);
  }

  lemma RefilledAt(p: ProviderConfig, start: int, j: nat)
    requires j < |p.models|
    ensures |Refilled(p, start).models| == |p.models|
    ensures Refilled(p, start).models[j] == FilledModel(p.models[j], start + j)
  {
    FilledModelsAt(p.models, start, |p.models|, j);
  }

  /** The filled model at (i, j). */
  lemma FilledModelAt(ps: seq<ProviderConfig>, i: nat, j: nat)
    requires i < |ps| && j < |ps[i].models|
    ensures |Filled(ps)[i].models| == |ps[i].models|
    ensures Filled(ps)[i].models[j] == FilledModel(ps[i].models[j], TopPriority(ps, |ps|) + 1 + Offset(ps, i) + j)
  {
    FilledProviderAt(ps, i);
    RefilledAt(ps[i], TopPriority(ps, |ps|) + 1 + Offset(ps, i), j);
  }

  lemma FilledModelsStep(ms: seq<ModelConfig>, start: int, j: nat)
    requires j < |ms|
    ensures (FilledModels(ms, start, j) + ms[j..])[j := FilledModel(ms[j], start + j)]
            == FilledModels(ms, start, j + 1) + ms[j + 1..]
  {
  }

  /** The configuration with its first i providers filled. */
  function PartlyFilled(ps: seq<ProviderConfig>, start: int, i: nat): (r: seq<ProviderConfig>)
    requires i <= |ps|
    ensures |r| == |ps|
    ensures i < |ps| ==> r[i] == ps[i]
  {
    FilledFrom(ps, start, i) + ps[i..]
  }

  lemma FillingStarts(ps: seq<ProviderConfig>, start: int)
    ensures PartlyFilled(ps, start, 0) == ps
  {
  }

  lemma FillingEnds(ps: seq<ProviderConfig>, start: int, qs: seq<ProviderConfig>)
    requires start == TopPriority(ps, |ps|) + 1 && qs == PartlyFilled(ps, start, |ps|)
    ensures qs == Filled(ps)
  {
    assert ps[|ps|..] == [];
  }

  lemma FillingStep(ps: seq<ProviderConfig>, start: int, i: nat, at: int, before: seq<ProviderConfig>,
          qs: seq<ProviderConfig>)
    requires i < |ps| && at == start + Offset(ps, i) && before == PartlyFilled(ps, start, i)
    requires qs == before[i := Refilled(ps[i], at)]
    ensures qs == PartlyFilled(ps, start, i + 1)
    ensures at + |ps[i].models| == start + Offset(ps, i + 1)
  {
  }

  /** Does (i, j) come before (k, l) in configuration order? */
  predicate ConfigBefore(i: int, j: int, k: int, l: int) {
    i < k || (i == k && j < l)
  }

  lemma {:induction false} OffsetMonotone(ps: seq<ProviderConfig>, i: nat, k: nat)
    requires i < k <= |ps|
    ensures Offset(ps, i) + |ps[i].models| <= Offset(ps, k)
  {
    if k > i + 1 {
      OffsetMonotone(ps, i, k - 1);
    }
  }

  function PriorityAt(ps: seq<ProviderConfig>, i: nat, j: nat): int
    requires i < |ps| && j < |ps[i].models|
  {
    ps[i].models[j].priority
  }

  /** Filling keeps the shape of the configuration. */
  lemma FilledShape(ps: seq<ProviderConfig>, i: nat)
    requires i < |ps|
    ensures Filled(ps)[i] == ps[i].(models := Filled(ps)[i].models)
    ensures |Filled(ps)[i].models| == |ps[i].models|
  {
    FilledProviderAt(ps, i);
  }

  /** Positive priorities stay, all priorities become positive, and a missing one gets a value above
      every configured one. */
  lemma FilledPositive(ps: seq<ProviderConfig>, i: nat, j: nat)
    requires i < |ps| && j < |ps[i].models|
    ensures j < |Filled(ps)[i].models|
    ensures var p, q := PriorityAt(ps, i, j), PriorityAt(Filled(ps), i, j);
            && q > 0 && (p > 0 ==> q == p) && (p <= 0 ==> q > TopPriority(ps, |ps|))
            && p <= TopPriority(ps, |ps|)
  {
    FilledModelAt(ps, i, j);
    TopPriorityNatural(ps, |ps|);
    TopPriorityBounds(ps, |ps|, i, j);
  }

  /** Filling, exactly: a missing priority becomes the greatest configured one (or 0) plus one plus the number of
      models before it; everything else stays. */
  lemma FilledExact(ps: seq<ProviderConfig>, i: nat, j: nat) returns (top: int)
    requires i < |ps| && j < |ps[i].models|
    ensures top >= 0 && forall k, l :: 0 <= k < |ps| && 0 <= l < |ps[k].models| ==> PriorityAt(ps, k, l) <= top
    ensures top > 0 ==> exists k, l :: 0 <= k < |ps| && 0 <= l < |ps[k].models| && PriorityAt(ps, k, l) == top
    ensures Filled(ps)[i] == ps[i].(models := Filled(ps)[i].models) && |Filled(ps)[i].models| == |ps[i].models|
    ensures Filled(ps)[i].models[j]
            == if PriorityAt(ps, i, j) > 0 then ps[i].models[j]
               else ps[i].models[j].(priority := top + 1 + |ModelsBefore(ps, i)| + j)
  {
    top := TopPriority(ps, |ps|);
    FilledShape(ps, i);
    FilledModelAt(ps, i, j);
    OffsetCounts(ps, i);
    TopPriorityNatural(ps, |ps|);
    TopPriorityAttained(ps, |ps|);
    if top > 0 {
      var k, l :| 0 <= k < |ps| && 0 <= l < |ps[k].models| && ps[k].models[l].priority == top;
      assert PriorityAt(ps, k, l) == top;
    }
    forall k, l | 0 <= k < |ps| && 0 <= l < |ps[k].models|
      ensures PriorityAt(ps, k, l) <= top
    {
      TopPriorityBounds(ps, |ps|, k, l);
    }
  }

  /** Missing priorities are filled with distinct values, increasing in configuration order. */
  lemma FilledIncreasing(ps: seq<ProviderConfig>, i: nat, j: nat, k: nat, l: nat)
    requires i < |ps| && j < |ps[i].models| && k < |ps| && l < |ps[k].models|
    requires ConfigBefore(i, j, k, l)
    requires PriorityAt(ps, i, j) <= 0 && PriorityAt(ps, k, l) <= 0
    ensures j < |Filled(ps)[i].models| && l < |Filled(ps)[k].models|
    ensures PriorityAt(Filled(ps), i, j) < PriorityAt(Filled(ps), k, l)
  {
    FilledModelAt(ps, i, j);
    FilledModelAt(ps, k, l);
    if i < k {
      OffsetMonotone(ps, i, k);
    }
  }

  // ---------------------------------------------------------------- schema normalisation

  function FromNode(n: NodeConfig, isRemote: bool): ProviderConfig {
    ProviderConfig(n.id, n.kind, n.endpoint, n.apiKey, n.timeoutMs, [], [], isRemote, false)
  }

  function FromNodes(ns: seq<NodeConfig>, isRemote: bool): seq<ProviderConfig> {
    seq(|ns|, i requires 0 <= i < |ns| => FromNode(ns[i], isRemote))
  }

  class Config {
    var version: int
    var providers: seq<ProviderConfig>
    var localNodes: seq<NodeConfig>
    var remoteProviders: seq<NodeConfig>

    constructor (version: int, providers: seq<ProviderConfig>, localNodes: seq<NodeConfig>,
                 remoteProviders: seq<NodeConfig>)
      ensures this.version == version && this.providers == providers
      ensures this.localNodes == localNodes && this.remoteProviders == remoteProviders
    {
      this.version, this.providers := version, providers;
      this.localNodes, this.remoteProviders := localNodes, remoteProviders;
    }

    /** First pass of the filling: the greatest valid priority. */
    method MaxPriority() returns (m: int)
      ensures m == TopPriority(providers, |providers|)
    {
      m := 0;
      for i := 0 to |providers|
        invariant m == TopPriority(providers, i)
      {
        TopPriorityNatural(providers, i);
        for j := 0 to |providers[i].models|
          invariant m == Max(TopPriority(providers, i), TopModel(providers[i].models, j))
        {
          if providers[i].models[j].priority > m {
            m := providers[i].models[j].priority;
          }
        }
      }
    }

    /** Second pass of the filling, one provider: the counter moves on past every model. */
    static method FillModels(p: ProviderConfig, start: int) returns (q: ProviderConfig, counter: int)
      ensures counter == start + |p.models| && q == Refilled(p, start)
    {
      var ms := p.models;
      counter := start;
      for j := 0 to |p.models|
        invariant counter == start + j
        invariant |ms| == |p.models| && ms == FilledModels(p.models, start, j) + p.models[j..]
      {
        FilledModelsStep(p.models, start, j);
        assert ms[j] == p.models[j];
        if ms[j].priority <= 0 {
          ms := ms[j := ms[j].(priority := counter)];
        }
        counter := counter + 1;
      }
      assert ms == FilledModels(p.models, start, |p.models|);
      q := p.(models := ms);
    }

    /** Gives every model without a priority one above all configured ones. The counter moves on
        past models that already have a priority, so the new values may leave gaps. */
    method FillPriorities()
      modifies this`providers
      ensures providers == Filled(old(providers))
    {
      ghost var ps := providers;
      var maxPriority := MaxPriority();
      var counter := maxPriority + 1;
      ghost var start := counter;
      FillingStarts(ps, start);
      for i := 0 to |providers|
        invariant counter == start + Offset(ps, i)
        invariant |providers| == |ps| && providers == PartlyFilled(ps, start, i)
      {
        ghost var at, before := counter, providers;
        assert before[i] == ps[i];
        var p;
        p, counter := FillModels(providers[i], counter);
        assert p == Refilled(ps[i], at);
        providers := providers[i := p];
        FillingStep(ps, start, i, at, before, providers);
      }
      FillingEnds(ps, start, providers);
    }

    /** Appends the local nodes, then the remote providers. */
    method NormaliseNewSchema()
      modifies this`providers
      ensures providers == old(providers) + FromNodes(localNodes, false) + FromNodes(remoteProviders, true)
      ensures |providers| == |old(providers)| + |localNodes| + |remoteProviders|
      ensures forall i :: 0 <= i < |localNodes| ==>
        var n := localNodes[i];
        providers[|old(providers)| + i]
        == ProviderConfig(n.id, n.kind, n.endpoint, n.apiKey, n.timeoutMs, [], [], false, false)
      ensures forall i :: 0 <= i < |remoteProviders| ==>
        var n := remoteProviders[i];
        providers[|old(providers)| + |localNodes| + i]
        == ProviderConfig(n.id, n.kind, n.endpoint, n.apiKey, n.timeoutMs, [], [], true, false)
    {
      ghost var ps := providers;
      for i := 0 to |localNodes|
        invariant providers == ps + FromNodes(localNodes, false)[..i]
      {
        providers := providers + [FromNode(localNodes[i], false)];
      }
      assert FromNodes(localNodes, false)[..|localNodes|] == FromNodes(localNodes, false);
      for i := 0 to |remoteProviders|
        invariant providers == ps + FromNodes(localNodes, false) + FromNodes(remoteProviders, true)[..i]
      {
        providers := providers + [FromNode(remoteProviders[i], true)];
      }
      assert FromNodes(remoteProviders, true)[..|remoteProviders|] == FromNodes(remoteProviders, true);
    }

    /** First pass over the ids, shared by both schemas. */
    method CheckIDs() returns (e: Option<ConfigError>)
      ensures e == IDProblem(providers, |providers|)
      ensures e.None? <==> UniqueIDs(providers) && forall i :: 0 <= i < |providers| ==> providers[i].id != ""
    {
      IDsAccepted(providers, |providers|);
      var ids: set<string> := {};
      for i := 0 to |providers|
        invariant ids == set k | 0 <= k < i :: providers[k].id
        invariant IDProblem(providers, i).None?
      {
        var p := providers[i];
        if p.id == "" || p.id in ids {
          IDProblemStays(providers, i + 1, |providers|);
          return Some(if p.id == "" then MissingID else DuplicateID);
        }
        ids := ids + {p.id};
      }
      return None;
    }

    /** The limits of one provider: its own windows and caps, then the caps of its models. */
    static method CheckLimits(p: ProviderConfig) returns (e: Option<ConfigError>)
      ensures e == LimitsProblem(p)
      ensures e.None? <==>
        && (forall j :: 0 <= j < |p.limits| ==>
              p.limits[j].requests > 0 && p.limits[j].window != "" && p.limits[j].concurrent >= 0)
        && forall k, j :: 0 <= k < |p.models| && 0 <= j < |p.models[k].limits| ==>
             p.models[k].limits[j].concurrent >= 0
    {
      EntriesAccepted(p.limits, |p.limits|);
      for j := 0 to |p.limits|
        invariant EntriesProblem(p.limits, j).None?
      {
        var l := p.limits[j];
        if l.requests <= 0 || l.window == "" || l.concurrent < 0 {
          EntriesProblemStays(p.limits, j + 1, |p.limits|);
          return Some(if l.requests <= 0 then BadRequests else if l.window == "" then MissingWindow
                      else BadConcurrency);
        }
      }
      for k := 0 to |p.models|
        invariant CapsAllowed(p.models, k)
      {
        for j := 0 to |p.models[k].limits|
          invariant forall i :: 0 <= i < j ==> p.models[k].limits[i].concurrent >= 0
        {
          if p.models[k].limits[j].concurrent < 0 {
            return Some(BadConcurrency);
          }
        }
      }
      return None;
    }

    static method CheckProvider(p: ProviderConfig) returns (e: Option<ConfigError>)
      ensures e == ProviderProblem(p)
      ensures e == Some(UnknownType) <==>
        p.kind !in {"ollama", "openai-compatible", "anthropic", "google", "cohere", "mistral"}
      ensures e == Some(MissingEndpoint) <==>
        p.kind in {"ollama", "openai-compatible", "mistral"} && p.endpoint == ""
      ensures e == Some(BadPriority) ==> exists j :: 0 <= j < |p.models| && p.models[j].priority <= 0
      ensures e.None? <==> ProviderOK(p)
    {
      ProviderKinds(p);
      if p.kind !in KINDS {
        return Some(UnknownType);
      }
      if p.kind in ENDPOINT_KINDS && p.endpoint == "" {
        return Some(MissingEndpoint);
      }
      for j := 0 to |p.models|
        invariant forall l :: 0 <= l < j ==> p.models[l].priority > 0
      {
        if p.models[j].priority <= 0 {
          return Some(BadPriority);
        }
      }
      e := CheckLimits(p);
    }

    /** Rules of the version-2 schema; `defaultModel` is the configured default without surrounding space.
        The first violated rule is reported. */
    method Validate(defaultModel: string) returns (e: Option<ConfigError>)
      ensures e == FirstProblem(version, providers, defaultModel)
      ensures e.None? <==> Acceptable(version, providers, defaultModel)
    {
      Accepted(version, providers, defaultModel);
      if version != 2 {
        return Some(BadVersion);
      }
      e := CheckIDs();
      if e.Some? {
        return;
      }
      for i := 0 to |providers|
        invariant ProvidersProblem(providers, i).None?
      {
        e := CheckProvider(providers[i]);
        if e.Some? {
          ProvidersProblemStays(providers, i + 1, |providers|);
          return;
        }
      }
      if defaultModel != "" {
        var found := FindDefault(defaultModel);
        if !found {
          return Some(NoDefaultModel);
        }
      }
      return None;
    }

    /** Does a provider that is not skipped offer the default model? */
    method FindDefault(defaultModel: string) returns (found: bool)
      ensures found <==> exists k :: 0 <= k < |providers| && Offers(providers[k], defaultModel)
      ensures found <==>
        exists k, j :: 0 <= k < |providers| && 0 <= j < |providers[k].models|
                       && !providers[k].skipped && providers[k].models[j].id == defaultModel
    {
      found := false;
      for i := 0 to |providers|
        invariant found <==> exists k :: 0 <= k < i && Offers(providers[k], defaultModel)
      {
        if !found && !providers[i].skipped {
          var j := 0;
          while j < |providers[i].models| && providers[i].models[j].id != defaultModel
            invariant 0 <= j <= |providers[i].models|
            invariant forall l :: 0 <= l < j ==> providers[i].models[l].id != defaultModel
          {
            j := j + 1;
          }
          found := j < |providers[i].models|;
        }
      }
    }
  }

  // ------------------------------------------------------------------ the rules, in their order

  /** The first problem with the ids of the first n providers. */
  function IDProblem(ps: seq<ProviderConfig>, n: nat): Option<ConfigError>
    requires n <= |ps|
  {
    if n == 0 then None
    else if IDProblem(ps, n - 1).Some? then IDProblem(ps, n - 1)
    else if ps[n - 1].id == "" then Some(MissingID)
    else if exists k :: 0 <= k < n - 1 && ps[k].id == ps[n - 1].id then Some(DuplicateID)
    else None
  }

  lemma {:induction false} IDProblemStays(ps: seq<ProviderConfig>, n: nat, m: nat)
    requires n <= m <= |ps| && IDProblem(ps, n).Some?
    ensures IDProblem(ps, m) == IDProblem(ps, n)
  {
    if n < m {
      IDProblemStays(ps, n, m - 1);
    }
  }

  lemma {:induction false} IDsAccepted(ps: seq<ProviderConfig>, n: nat)
    requires n <= |ps|
    ensures IDProblem(ps, n).None? <==>
      (forall i, j :: 0 <= i < j < n ==> ps[i].id != ps[j].id) && forall i :: 0 <= i < n ==> ps[i].id != ""
  {
    if n > 0 {
      IDsAccepted(ps, n - 1);
    }
  }

  function EntryProblem(l: LimitEntry): Option<ConfigError> {
    if l.requests <= 0 then Some(BadRequests)
    else if l.window == "" then Some(MissingWindow)
    else if l.concurrent < 0 then Some(BadConcurrency)
    else None
  }

  /** The first problem with the first n limit entries of a provider. */
  function EntriesProblem(ls: seq<LimitEntry>, n: nat): Option<ConfigError>
    requires n <= |ls|
  {
    if n == 0 then None
    else if EntriesProblem(ls, n - 1).Some? then EntriesProblem(ls, n - 1)
    else EntryProblem(ls[n - 1])
  }

  lemma {:induction false} EntriesProblemStays(ls: seq<LimitEntry>, n: nat, m: nat)
    requires n <= m <= |ls| && EntriesProblem(ls, n).Some?
    ensures EntriesProblem(ls, m) == EntriesProblem(ls, n)
  {
    if n < m {
      EntriesProblemStays(ls, n, m - 1);
    }
  }

  lemma {:induction false} EntriesAccepted(ls: seq<LimitEntry>, n: nat)
    requires n <= |ls|
    ensures EntriesProblem(ls, n).None? <==> forall j :: 0 <= j < n ==> EntryProblem(ls[j]).None?
  {
    if n > 0 {
      EntriesAccepted(ls, n - 1);
    }
  }

  /** No model among the first n has a negative cap. */
  predicate CapsAllowed(ms: seq<ModelConfig>, n: nat)
    requires n <= |ms|
  {
    forall k, j :: 0 <= k < n && 0 <= j < |ms[k].limits| ==> ms[k].limits[j].concurrent >= 0
  }

  function LimitsProblem(p: ProviderConfig): Option<ConfigError> {
    if EntriesProblem(p.limits, |p.limits|).Some? then EntriesProblem(p.limits, |p.limits|)
    else if !CapsAllowed(p.models, |p.models|) then Some(BadConcurrency)
    else None
  }

  function ProviderProblem(p: ProviderConfig): Option<ConfigError> {
    if p.kind !in KINDS then Some(UnknownType)
    else if p.kind in ENDPOINT_KINDS && p.endpoint == "" then Some(MissingEndpoint)
    else if exists j :: 0 <= j < |p.models| && p.models[j].priority <= 0 then Some(BadPriority)
    else LimitsProblem(p)
  }

  lemma {:induction false} EntriesKinds(ls: seq<LimitEntry>, n: nat)
    requires n <= |ls|
    ensures EntriesProblem(ls, n) in {None, Some(BadRequests), Some(MissingWindow), Some(BadConcurrency)}
  {
    if n > 0 {
      EntriesKinds(ls, n - 1);
    }
  }

  lemma ProviderKinds(p: ProviderConfig)
    ensures var e := ProviderProblem(p);
            && (e == Some(UnknownType) <==>
                  p.kind !in {"ollama", "openai-compatible", "anthropic", "google", "cohere", "mistral"})
            && (e == Some(MissingEndpoint) <==>
                  p.kind in {"ollama", "openai-compatible", "mistral"} && p.endpoint == "")
            && (e == Some(BadPriority) ==> exists j :: 0 <= j < |p.models| && p.models[j].priority <= 0)
            && (e.None? <==> ProviderOK(p))
            && e !in {Some(BadVersion), Some(MissingID), Some(DuplicateID), Some(NoDefaultModel)}
  {
    EntriesKinds(p.limits, |p.limits|);
    EntriesAccepted(p.limits, |p.limits|);
  }

  lemma {:induction false} IDKinds(ps: seq<ProviderConfig>, n: nat)
    requires n <= |ps|
    ensures IDProblem(ps, n) in {None, Some(MissingID), Some(DuplicateID)}
  {
    if n > 0 {
      IDKinds(ps, n - 1);
    }
  }

  lemma {:induction false} ProvidersKinds(ps: seq<ProviderConfig>, n: nat)
    requires n <= |ps|
    ensures ProvidersProblem(ps, n) !in {Some(BadVersion), Some(MissingID), Some(DuplicateID), Some(NoDefaultModel)}
  {
    hide ProviderProblem;
    if n > 0 {
      ProvidersKinds(ps, n - 1);
      ProviderKinds(ps[n - 1]);
    }
  }

  /** Which of the rules is reported: the version's first, then those on ids, then those on the providers, and
      that on the default model only if all others are met. */
  lemma ProblemKinds(version: int, ps: seq<ProviderConfig>, defaultModel: string)
    ensures var e := FirstProblem(version, ps, defaultModel);
            && (e == Some(BadVersion) <==> version != 2)
            && (e == Some(MissingID) || e == Some(DuplicateID) <==>
                  version == 2 && !(UniqueIDs(ps) && forall i :: 0 <= i < |ps| ==> ps[i].id != ""))
            && (e == Some(NoDefaultModel) <==>
                  && Acceptable(version, ps, "") && defaultModel != ""
                  && !exists i :: 0 <= i < |ps| && Offers(ps[i], defaultModel))
  {
    hide ProviderOK, Offers, IDProblem, ProvidersProblem;
    IDKinds(ps, |ps|);
    ProvidersKinds(ps, |ps|);
    IDsAccepted(ps, |ps|);
    ProvidersAccepted(ps, |ps|);
  }

  /** The first problem with the first n providers. */
  function ProvidersProblem(ps: seq<ProviderConfig>, n: nat): Option<ConfigError>
    requires n <= |ps|
  {
    if n == 0 then None
    else if ProvidersProblem(ps, n - 1).Some? then ProvidersProblem(ps, n - 1)
    else ProviderProblem(ps[n - 1])
  }

  lemma {:induction false} ProvidersProblemStays(ps: seq<ProviderConfig>, n: nat, m: nat)
    requires n <= m <= |ps| && ProvidersProblem(ps, n).Some?
    ensures ProvidersProblem(ps, m) == ProvidersProblem(ps, n)
  {
    if n < m {
      ProvidersProblemStays(ps, n, m - 1);
    }
  }

  predicate ProviderOK(p: ProviderConfig) {
    && p.kind in KINDS
    && (p.kind in ENDPOINT_KINDS ==> p.endpoint != "")
    && (forall j :: 0 <= j < |p.models| ==> p.models[j].priority > 0)
    && LimitsOK(p)
  }

  lemma {:induction false} ProvidersAccepted(ps: seq<ProviderConfig>, n: nat)
    requires n <= |ps|
    ensures ProvidersProblem(ps, n).None? <==> forall i :: 0 <= i < n ==> ProviderOK(ps[i])
  {
    if n > 0 {
      ProvidersAccepted(ps, n - 1);
      EntriesAccepted(ps[n - 1].limits, |ps[n - 1].limits|);
    }
  }

  predicate Offers(p: ProviderConfig, model: string) {
    !p.skipped && exists j :: 0 <= j < |p.models| && p.models[j].id == model
  }

  function FirstProblem(version: int, ps: seq<ProviderConfig>, defaultModel: string): Option<ConfigError> {
    if version != 2 then Some(BadVersion)
    else if IDProblem(ps, |ps|).Some? then IDProblem(ps, |ps|)
    else if ProvidersProblem(ps, |ps|).Some? then ProvidersProblem(ps, |ps|)
    else if defaultModel != "" && !exists i :: 0 <= i < |ps| && Offers(ps[i], defaultModel) then Some(NoDefaultModel)
    else None
  }

  ghost predicate Acceptable(version: int, ps: seq<ProviderConfig>, defaultModel: string) {
    && version == 2
    && UniqueIDs(ps) && (forall i :: 0 <= i < |ps| ==> ps[i].id != "" && ProviderOK(ps[i]))
    && (defaultModel != "" ==> exists i :: 0 <= i < |ps| && Offers(ps[i], defaultModel))
  }

  /** Nothing is reported iff every rule is met. */
  lemma Accepted(version: int, ps: seq<ProviderConfig>, defaultModel: string)
    ensures FirstProblem(version, ps, defaultModel).None? <==> Acceptable(version, ps, defaultModel)
  {
    hide ProviderOK, Offers;
    IDsAccepted(ps, |ps|);
    ProvidersAccepted(ps, |ps|);
  }

  predicate LimitsOK(p: ProviderConfig) {
    && (forall j :: 0 <= j < |p.limits| ==>
          p.limits[j].requests > 0 && p.limits[j].window != "" && p.limits[j].concurrent >= 0)
    && forall k, j :: 0 <= k < |p.models| && 0 <= j < |p.models[k].limits| ==> p.models[k].limits[j].concurrent >= 0
  }

  /** What a provider has to meet besides positive priorities. */
  predicate OtherwiseOK(p: ProviderConfig) {
    p.kind in KINDS && (p.kind in ENDPOINT_KINDS ==> p.endpoint != "") && LimitsOK(p)
  }

  /** After filling, a configuration never fails validation for its priorities: it is accepted iff it
      meets the other rules. */
  lemma FilledAcceptable(version: int, ps: seq<ProviderConfig>, defaultModel: string)
    ensures Acceptable(version, Filled(ps), defaultModel) <==>
      && version == 2
      && UniqueIDs(ps)
      && (forall i :: 0 <= i < |ps| ==> ps[i].id != "" && OtherwiseOK(ps[i]))
      && (defaultModel != "" ==> exists i :: 0 <= i < |ps| && Offers(ps[i], defaultModel))
  {
    var qs := Filled(ps);
    forall i | 0 <= i < |ps|
      ensures qs[i].id == ps[i].id
      ensures Offers(qs[i], defaultModel) <==> Offers(ps[i], defaultModel)
      ensures ProviderOK(qs[i]) <==> OtherwiseOK(ps[i])
    {
      FilledProviderOK(ps, i, defaultModel);
    }
  }

  lemma FilledProviderOK(ps: seq<ProviderConfig>, i: nat, model: string)
    requires i < |ps|
    ensures var p, q := ps[i], Filled(ps)[i];
            && q.id == p.id
            && (Offers(q, model) <==> Offers(p, model))
            && (ProviderOK(q) <==> OtherwiseOK(p))
  {
    FilledShape(ps, i);
    var p, q := ps[i], Filled(ps)[i];
    forall j | 0 <= j < |p.models|
      ensures q.models[j].id == p.models[j].id && q.models[j].limits == p.models[j].limits && q.models[j].priority > 0
    {
      FilledModelAt(ps, i, j);
      FilledPositive(ps, i, j);
    }
  }
}
