/** The router as the program keeps it: one object that resolves, selects, calls and retries. Its
    methods are tied to the functions of module Routing. */
module Routers {
  import opened Prelude
  import opened Entries
  import opened Windows
  import opened States
  import opened Limits
  import opened Registries
  import opened Routing
  import opened RoutingProofs
  import opened Completeness

  /** The counters a request moves. */
  class Collector {
    var requests: int
    var failures: int
    var noCapacity: int
    var blockEvents: int
    var exhaustions: int
    var localRequests: int
    var remoteRequests: int
    var active: map<string, int>
    var rejected: map<string, int>

    constructor ()
      ensures View() == Metrics(0, 0, 0, 0, 0, 0, map[], map[]) && exhaustions == 0
    {
      requests, failures, noCapacity, blockEvents, exhaustions := 0, 0, 0, 0, 0;
      localRequests, remoteRequests := 0, 0;
      active, rejected := map[], map[];
    }

    ghost function View(): Metrics
      reads this`requests, this`failures, this`noCapacity, this`blockEvents, this`localRequests, this`remoteRequests
      reads this`active, this`rejected
    {
      Metrics(requests, failures, noCapacity, blockEvents, localRequests, remoteRequests, active, rejected)
    }

    method AddConcurrentActive(id: string, delta: int)
      modifies this`active
      ensures active == Bumped(old(active), id, delta)
      ensures active == old(active)[id := delta + if id in old(active) then old(active)[id] else 0]
    {
      var counter := if id in active then active[id] else 0;
      active := active[id := counter + delta];
    }

    method RecordConcurrencyRejected(id: string)
      modifies this`rejected
      ensures rejected == Bumped(old(rejected), id, 1)
      ensures rejected == old(rejected)[id := 1 + if id in old(rejected) then old(rejected)[id] else 0]
    {
      var counter := if id in rejected then rejected[id] else 0;
      rejected := rejected[id := counter + 1];
    }
  }

  datatype Choice = Choice(provider: Provider, entry: Entry)

  /** The right to return the slots of one call. The model tracker is the one the slot was taken from;
      the provider tracker is looked up when the slots are returned. */
  datatype Lease = Lease(entry: Entry, modelLimits: Tracker?)

  /** What one iteration comes to. */
  datatype Attempted = GiveUp | Done(lease: Lease) | Again(rest: seq<Entry>)

  class Router {
    var setup: Setup
    var registry: Registry
    const state: Manager
    var limits: Tracker
    var modelLimits: Tracker?
    const metrics: Collector
    const env: Env
    var tick: nat

    ghost predicate Valid()
      reads this, registry, limits, modelLimits
    {
      registry.Valid() && Wired()
    }

    /** Providers are kept under their own id, and the trackers share no counter. */
    ghost predicate Wired()
      reads this`setup, this`limits, this`modelLimits, limits, modelLimits
    {
      && Keyed(setup)
      && limits.Valid()
      && (modelLimits != null ==>
            modelLimits != limits && modelLimits.Valid() && modelLimits.concurrency.Values !! limits.concurrency.Values)
    }

    ghost function Gated(): Gate
      reads this, state, limits, modelLimits, metrics
    {
      var mlim := if modelLimits == null then None else Some(modelLimits.View());
      Gate(state.View(), limits.View(), mlim, metrics.exhaustions)
    }

    ghost function ModelSlots(): map<string, Slot>
      reads this, modelLimits, if modelLimits == null then {} else modelLimits.concurrency.Values
    {
      if modelLimits == null then map[] else modelLimits.Slots()
    }

    ghost function Counters(): set<object>
      reads this, limits, modelLimits
    {
      limits.concurrency.Values + if modelLimits == null then {} else modelLimits.concurrency.Values
    }

    ghost function Now(): World
      reads this, state, limits, modelLimits, metrics, Counters()
    {
      World(Gated(), limits.Slots(), ModelSlots(), metrics.View(), tick)
    }

    constructor (setup: Setup, registry: Registry, state: Manager, limits: Tracker, modelLimits: Tracker?,
                 metrics: Collector, env: Env)
      requires Keyed(setup) && registry.Valid() && limits.Valid()
      requires modelLimits != null ==>
        modelLimits != limits && modelLimits.Valid() && modelLimits.concurrency.Values !! limits.concurrency.Values
      ensures Valid() && tick == 0
      ensures this.setup == setup && this.registry == registry && this.state == state
      ensures this.limits == limits && this.modelLimits == modelLimits && this.metrics == metrics && this.env == env
    {
      this.setup, this.registry, this.state := setup, registry, state;
      this.limits, this.modelLimits, this.metrics, this.env := limits, modelLimits, metrics, env;
      this.tick := 0;
    }

    /** A reload: everything but the provider state and the counters is replaced. */
    method Update(setup: Setup, registry: Registry, limits: Tracker, modelLimits: Tracker?)
      requires Keyed(setup) && registry.Valid() && limits.Valid()
      requires modelLimits != null ==>
        modelLimits != limits && modelLimits.Valid() && modelLimits.concurrency.Values !! limits.concurrency.Values
      modifies this
      ensures Valid() && tick == old(tick)
      ensures this.setup == setup && this.registry == registry && this.limits == limits
              && this.modelLimits == modelLimits
    {
      this.setup, this.registry, this.limits, this.modelLimits := setup, registry, limits, modelLimits;
    }

    /** The candidates a model name stands for. */
    ghost predicate Candidates(model: string, es: seq<Entry>)
      reads this, registry
    {
      if model == "auto" || (model == "" && setup.defaultModel == "") then es == registry.all
      else Resolves(registry.View(), registry.all, if model == "" then setup.defaultModel else model, es)
    }

    method Resolve(model: string) returns (es: seq<Entry>)
      requires Valid()
      ensures Candidates(model, es) && Now() == old(Now())
      ensures model == "auto" ==> es == registry.all
      ensures model == "" && setup.defaultModel == "" ==> es == registry.all
      ensures model == "" && setup.defaultModel != "" ==>
        Resolves(registry.View(), registry.all, setup.defaultModel, es)
      ensures model != "" && model != "auto" ==> Resolves(registry.View(), registry.all, model, es)
    {
      hide Registry.Valid, Resolves, Keyed, Tracker.Slots, Tracker.View, Tracker.Valid, Manager.View, Collector.View;
      match model
      case "" =>
        if setup.defaultModel == "" {
          es := registry.GlobalList();
        } else {
          es := registry.ForModel(setup.defaultModel);
        }
      case "auto" => es := registry.GlobalList();
      case _ => es := registry.ForModel(model);
    }

    /** The per-model checks of the selection loop. */
    method AdmitModel(key: string, n: nat) returns (ok: bool)
      requires Wired()
      modifies if modelLimits == null then {} else {modelLimits}
      ensures Wired()
      ensures modelLimits != null ==> modelLimits.concurrency == old(modelLimits.concurrency)
      ensures var c := ModelCheck(old(Gated()), key, env.time(n + 1), env.time(n + 2));
              ok == c.admitted && Gated() == c.gate
    {
      hide Windows.Record, Cooling, Forget;
      if modelLimits == null {
        return true;
      }
      var cooling := modelLimits.IsBlocked(key, env.time(n + 1));
      if cooling {
        return false;
      }
      var spent, _ := modelLimits.Record(key, env.time(n + 2));
      return !spent;
    }

    /** The provider's windows in the selection loop. */
    method AdmitProvider(id: string, n: nat) returns (ok: bool)
      requires Wired()
      modifies state`exhausted, limits`windows, limits`log, metrics`exhaustions
      ensures Wired()
      ensures var c := ProviderCheck(old(Gated()), id, env.time(n + 3)); ok == c.admitted && Gated() == c.gate
    {
      hide Windows.Record;
      var exhausted, resetAt := limits.Record(id, env.time(n + 3));
      if exhausted && resetAt.Some? {
        state.SetExhausted(id, resetAt.value);
        metrics.exhaustions := metrics.exhaustions + 1;
        return false;
      }
      return true;
    }

    /** One candidate's turn in the selection loop. */
    method Admit(e: Entry) returns (p: Option<Provider>)
      requires Wired()
      modifies this`tick, state`exhausted, limits`windows, limits`log, metrics`exhaustions
      modifies if modelLimits == null then {} else {modelLimits}
      ensures Wired()
      ensures modelLimits != null ==> modelLimits.concurrency == old(modelLimits.concurrency)
      ensures tick == old(tick) + READINGS
      ensures var c := Visit(e, old(Gated()), setup, env, old(tick));
              && Gated() == c.gate
              && p == if c.admitted && e.providerID in setup.providers
                      then Some(setup.providers[e.providerID]) else None
    {
      hide Visit, ModelCheck, ProviderCheck, StateOf, Keyed;
      hide Tracker.Slots, Tracker.View, Tracker.Valid, Manager.View, Collector.View;
      VisitParts(e, Gated(), setup, env, tick);
      var n := tick;
      tick := tick + READINGS;
      var s := state.GetState(e.providerID, env.time(n), env.ready(n, e.providerID));
      if s != Available {
        return None;
      }
      if e.providerID !in setup.providers {
        return None;
      }
      var ok := AdmitModel(e.providerID + "/" + e.modelID, n);
      if ok {
        ok := AdmitProvider(e.providerID, n);
      }
      return if ok then Some(setup.providers[e.providerID]) else None;
    }

    /** The first candidate that passes every check. */
    method SelectProvider(entries: seq<Entry>) returns (choice: Option<Choice>)
      requires Wired()
      modifies this`tick, state`exhausted, limits`windows, limits`log, metrics`exhaustions
      modifies if modelLimits == null then {} else {modelLimits}
      ensures Wired()
      ensures var s := Scan(entries, old(Gated()), setup, env, old(tick));
              && Gated() == s.gate && tick == s.tick
              && choice == match s.pick
                           case None => None
                           case Some(e) => Some(Choice(setup.providers[e.providerID], e))
      ensures choice.Some? ==> choice.value.provider.id == choice.value.entry.providerID
      ensures modelLimits != null ==> modelLimits.concurrency == old(modelLimits.concurrency)
    {
      hide Visit;
      var i := 0;
      while i < |entries|
        invariant 0 <= i <= |entries| && Wired()
        invariant modelLimits != null ==> modelLimits.concurrency == old(modelLimits.concurrency)
        invariant Scan(entries[i..], Gated(), setup, env, tick) == Scan(entries, old(Gated()), setup, env, old(tick))
      {
        var e := entries[i];
        assert entries[i..][0] == e && entries[i..][1..] == entries[i + 1..];
        AdmittedKnown(e, Gated(), setup, env, tick);
        var p := Admit(e);
        if p.Some? {
          return Some(Choice(p.value, e));
        }
        i := i + 1;
      }
      return None;
    }

    /** Takes a provider slot and raises the gauge, or counts the rejection. */
    method TakeProvider(p: string) returns (ok: bool)
      requires Wired()
      modifies Counters(), metrics`active, metrics`rejected
      ensures Wired()
      ensures ok <==> old(HasRoom(limits.Slots(), p))
      ensures var w := old(Now());
              Now() == if ok then w.(slots := Taken(w.slots, p),
                                     metrics := w.metrics.(active := Bumped(w.metrics.active, p, 1)))
                       else w.(metrics := w.metrics.(rejected := Bumped(w.metrics.rejected, p, 1)))
    {
      hide HasRoom, Taken, Released, Tracker.Slots, Tracker.View, Tracker.Valid, Manager.View;
      ok := limits.TryAcquireConcurrency(p);
      assert Gated() == old(Gated()) && ModelSlots() == old(ModelSlots());
      if !ok {
        CountRejection(p);
        return;
      }
      metrics.AddConcurrentActive(p, 1);
    }

    /** Returns a provider slot and leaves the gauge. */
    method ReturnProvider(p: string)
      requires Wired()
      modifies limits.concurrency.Values, metrics`active
      ensures Wired()
      ensures limits.Slots() == Released(old(limits.Slots()), p) && metrics.active == Bumped(old(metrics.active), p, -1)
      ensures var w := old(Now());
              Now() == w.(slots := Released(w.slots, p),
                          metrics := w.metrics.(active := Bumped(w.metrics.active, p, -1)))
    {
      hide HasRoom, Taken, Released, Bumped, Tracker.Slots, Tracker.View, Tracker.Valid, Manager.View;
      limits.ReleaseConcurrency(p);
      assert Gated() == old(Gated()) && ModelSlots() == old(ModelSlots());
      metrics.AddConcurrentActive(p, -1);
    }

    method CountRejection(p: string)
      requires Wired()
      modifies metrics`rejected
      ensures Wired()
      ensures var w := old(Now()); Now() == w.(metrics := w.metrics.(rejected := Bumped(w.metrics.rejected, p, 1)))
    {
      hide Tracker.Slots, Tracker.View, Tracker.Valid, Manager.View, Bumped;
      metrics.RecordConcurrencyRejected(p);
    }

    /** Gives a provider slot back for want of a model slot. */
    method BackOut(p: string)
      requires Wired()
      modifies Counters(), metrics`active, metrics`rejected
      ensures Wired()
      ensures var w := old(Now());
              Now() == w.(slots := Released(w.slots, p),
                          metrics := w.metrics.(active := Bumped(w.metrics.active, p, -1),
                                                rejected := Bumped(w.metrics.rejected, p, 1)))
    {
      hide Now, Released, Bumped, Keyed, Tracker.Slots, Tracker.View, Tracker.Valid, Manager.View, Collector.View;
      ReturnProvider(p);
      CountRejection(p);
    }

    method TakeModel(key: string) returns (ok: bool)
      requires Wired() && modelLimits != null
      modifies Counters()
      ensures Wired()
      ensures ok <==> old(HasRoom(ModelSlots(), key))
      ensures Now() == if ok then old(Now()).(mslots := Taken(old(ModelSlots()), key)) else old(Now())
    {
      hide HasRoom, Taken, Released, Collector.View, Tracker.Slots, Tracker.View, Tracker.Valid, Manager.View;
      ok := modelLimits.TryAcquireConcurrency(key);
    }

    /** Takes the provider's slot, then the model's; without the latter the former is given back. */
    method AcquireConcurrency(entry: Entry) returns (lease: Option<Lease>)
      requires Wired()
      modifies Counters(), metrics`active, metrics`rejected
      ensures Wired()
      ensures var a := Acquire(old(Now()), entry);
              Now() == a.world && lease == if a.ok then Some(Lease(entry, modelLimits)) else None
    {
      hide HasRoom, Taken, Released, Collector.View, Tracker.Slots, Tracker.View, Tracker.Valid, Manager.View;
      hide Bumped, Valid, Keyed;
      var ok := TakeProvider(entry.providerID);
      if !ok {
        return None;
      }
      if modelLimits != null {
        ok := TakeModel(entry.providerID + "/" + entry.modelID);
        if !ok {
          BackOut(entry.providerID);
          return None;
        }
      }
      return Some(Lease(entry, modelLimits));
    }

    /** Returns a model slot to the tracker it was taken from. */
    method ReturnModel(tracker: Tracker, key: string)
      requires Wired() && tracker.Valid() && tracker.concurrency.Values !! limits.concurrency.Values
      modifies tracker.concurrency.Values
      ensures Wired() && limits.Slots() == old(limits.Slots())
      ensures tracker.Slots() == Released(old(tracker.Slots()), key)
      ensures tracker == modelLimits ==> Now() == old(Now()).(mslots := Released(old(ModelSlots()), key))
    {
      hide HasRoom, Taken, Released, Bumped, Tracker.Slots, Tracker.View, Tracker.Valid, Manager.View, Collector.View;
      tracker.ReleaseConcurrency(key);
    }

    /** Returns the slots of a lease, if need be after a reload: the provider's slot to the tracker of
        now, the model's slot to the tracker it came from. */
    method Release(lease: Lease)
      requires Wired()
      requires lease.modelLimits != null ==>
        lease.modelLimits.Valid() && lease.modelLimits.concurrency.Values !! limits.concurrency.Values
      modifies limits.concurrency.Values, metrics`active
      modifies if lease.modelLimits == null then {} else lease.modelLimits.concurrency.Values
      ensures Wired()
      ensures limits.Slots() == Released(old(limits.Slots()), lease.entry.providerID)
      ensures lease.modelLimits != null ==>
        lease.modelLimits.Slots()
        == Released(old(lease.modelLimits.Slots()), Key(lease.entry.providerID, lease.entry.modelID))
      ensures metrics.active == Bumped(old(metrics.active), lease.entry.providerID, -1)
      ensures lease.modelLimits == modelLimits ==> Now() == Drop(old(Now()), lease.entry)
    {
      hide Released, Bumped, Keyed, Tracker.Slots, Tracker.View, Tracker.Valid, Manager.View, Collector.View;
      ReturnProvider(lease.entry.providerID);
      if lease.modelLimits != null {
        ReturnModel(lease.modelLimits, lease.entry.providerID + "/" + lease.entry.modelID);
      }
    }

    function RecoveryWindow(p: Provider): int
      reads this`setup
    {
      if p.id in setup.recovery then setup.recovery[p.id] else 0
    }

    /** Cools a model down after a model-level error. */
    method CoolDown(p: Provider, entry: Entry, f: Failure)
      requires Wired() && p.id == entry.providerID
      modifies this`tick
      modifies if modelLimits == null then {} else {modelLimits}
      ensures Wired()
      ensures modelLimits != null ==> modelLimits.concurrency == old(modelLimits.concurrency)
      ensures var w := old(Now());
              Now() == if w.gate.mlim.None? then w
                       else
                         var until := env.time(w.tick) + RetryAfter(f, Fallback(setup, entry.providerID));
                         var key := Key(entry.providerID, entry.modelID);
                         w.(gate := w.gate.(mlim := Some(BlockKey(w.gate.mlim.value, key, until))),
                            tick := w.tick + 1)
      ensures modelLimits != null ==>
        var parsed := if f.Http? then f.retryAfter else None;
        modelLimits.blocked == old(modelLimits.blocked)[entry.providerID + "/" + entry.modelID :=
                                 env.time(old(tick)) + Pause(parsed, setup.recovery, entry.providerID)]
    {
      hide Tracker.Slots, Tracker.Valid, Manager.View;
      if modelLimits != null {
        var recoveryWindow := RecoveryWindow(p);
        if recoveryWindow == 0 {
          recoveryWindow := 60 * SECOND;
        }
        var cooldown := RetryAfter(f, recoveryWindow);
        modelLimits.Block(entry.providerID + "/" + entry.modelID, env.time(tick) + cooldown);
        tick := tick + 1;
      }
    }

    /** Blocks a provider for its recovery window. */
    method BlockProvider(p: Provider)
      requires Wired()
      modifies this`tick, state`blocked, metrics`blockEvents
      ensures Wired()
      ensures var w := old(Now());
              var until := env.time(w.tick) + RecoveryOf(setup, p.id);
              Now() == w.(gate := w.gate.(state := Barred(w.gate.state, p.id, until)),
                          metrics := w.metrics.(blockEvents := w.metrics.blockEvents + 1), tick := w.tick + 1)
      ensures state.blocked == old(state.blocked)[p.id := env.time(old(tick)) + WindowIn(setup.recovery, p.id)]
      ensures metrics.blockEvents == old(metrics.blockEvents) + 1
    {
      hide Tracker.Slots, Tracker.Valid, Tracker.View, Barred, Manager.View;
      state.Block(p.id, RecoveryWindow(p), env.time(tick));
      tick := tick + 1;
      metrics.blockEvents := metrics.blockEvents + 1;
    }

    method CountFailure()
      requires Wired()
      modifies metrics`failures
      ensures Wired()
      ensures var w := old(Now()); Now() == w.(metrics := w.metrics.(failures := w.metrics.failures + 1))
    {
      hide Tracker.Slots, Tracker.View, Tracker.Valid, Manager.View;
      metrics.failures := metrics.failures + 1;
    }

    /** The bookkeeping after a failed call, the same in Route and Stream: count, cool down the model or
        block the provider, and thin out the candidates. */
    method HandleFailure(choice: Choice, r: Reply, entries: seq<Entry>) returns (rest: seq<Entry>)
      requires Wired() && !r.Ok?
      requires choice.provider.id == choice.entry.providerID
      modifies this`tick, state`blocked, metrics`failures, metrics`blockEvents
      modifies if modelLimits == null then {} else {modelLimits}
      ensures Wired()
      ensures modelLimits != null ==> modelLimits.concurrency == old(modelLimits.concurrency)
      ensures Now() == AfterFailure(old(Now()), choice.entry, r, setup, env)
      ensures rest == Sift(Cut(choice.entry, Answered(r)), entries)
      ensures forall f :: f in rest <==>
        f in entries && if RateLimited(choice.entry, r) then !SamePair(f, choice.entry)
                        else f.providerID != choice.entry.providerID
      ensures if choice.entry.isRemote && !r.EmptyStream?
              then
                var id := choice.entry.providerID;
                && state.blocked == old(state.blocked)[id := env.time(old(tick)) + WindowIn(setup.recovery, id)]
                && metrics.blockEvents == old(metrics.blockEvents) + 1
              else state.blocked == old(state.blocked) && metrics.blockEvents == old(metrics.blockEvents)
      ensures modelLimits != null ==>
        var id, key := choice.entry.providerID, choice.entry.providerID + "/" + choice.entry.modelID;
        modelLimits.blocked == if RateLimited(choice.entry, r)
                               then old(modelLimits.blocked)[key := env.time(old(tick))
                                                                    + Pause(r.failure.retryAfter, setup.recovery, id)]
                               else old(modelLimits.blocked)
    {
      hide Now, Sift, RetryAfter, Tracker.Slots, Tracker.Valid, Tracker.View, Barred, BlockKey, Fallback, RecoveryOf;
      var Choice(p, entry) := choice;
      CountFailure();
      if r.Failed? && ModelLevel(r.failure) && !entry.isRemote {
        rest := FilterEntry(entries, entry.providerID, entry.modelID);
        CoolDown(p, entry, r.failure);
      } else {
        if entry.isRemote && !r.EmptyStream? {
          BlockProvider(p);
        }

        rest := FilterProvider(entries, p.id);
      }
    }

    method CountSuccess(entry: Entry)
      requires Wired()
      modifies metrics`requests, metrics`localRequests, metrics`remoteRequests
      ensures Wired()
      ensures Now() == AfterSuccess(old(Now()), entry)
      ensures metrics.requests == old(metrics.requests) + 1
      ensures metrics.localRequests == old(metrics.localRequests) + if entry.isRemote then 0 else 1
      ensures metrics.remoteRequests == old(metrics.remoteRequests) + if entry.isRemote then 1 else 0
    {
      hide Tracker.Slots, Tracker.View, Tracker.Valid, Manager.View;
      metrics.requests := metrics.requests + 1;
      if entry.isRemote {
        metrics.remoteRequests := metrics.remoteRequests + 1;
      } else {
        metrics.localRequests := metrics.localRequests + 1;
      }
    }

    /** Asks the provider. */
    method Call(kind: Kind, choice: Choice) returns (r: Reply)
      requires Wired()
      modifies this`tick
      ensures Wired()
      ensures var w := old(Now());
              r == ReplyTo(kind, env.reply(w.tick, choice.provider.id, choice.entry.modelID))
              && Now() == w.(tick := w.tick + 1)
    {
      hide Tracker.Slots, Tracker.View, Tracker.Valid, Manager.View;
      r := ReplyTo(kind, env.reply(tick, choice.provider.id, choice.entry.modelID));
      tick := tick + 1;
    }

    method CountNoCapacity()
      requires Wired()
      modifies metrics`noCapacity
      ensures Wired()
      ensures Now() == NoCapacity(old(Now()))
    {
      hide Tracker.Slots, Tracker.View, Tracker.Valid, Manager.View;
      metrics.noCapacity := metrics.noCapacity + 1;
    }

    /** What follows from the reply: return the slots, unless a stream is to use them, and book the outcome. */
    method Conclude(choice: Choice, lease: Lease, r: Reply, es: seq<Entry>, kind: Kind) returns (a: Attempted)
      requires Wired() && choice.provider.id == choice.entry.providerID && lease == Lease(choice.entry, modelLimits)
      modifies this`tick, state`blocked, metrics, Counters()
      modifies if modelLimits == null then {} else {modelLimits}
      ensures Wired()
      ensures modelLimits != null ==> modelLimits.concurrency == old(modelLimits.concurrency)
      ensures var w, e := old(Now()), choice.entry;
              if r.Ok?
              then Now() == AfterSuccess(if kind == Streaming then w else Drop(w, e), e) && a == Done(lease)
              else Now() == AfterFailure(Drop(w, e), e, r, setup, env) && a == Again(Sift(Cut(e, Answered(r)), es))
    {
      hide Now, Gated, ModelSlots, Tracker.Slots, Tracker.View, Tracker.Valid, Manager.View, Collector.View;
      hide Keyed, Released, Taken, AfterFailure, Drop, AfterSuccess, Sift, RateLimited, Pause, WindowIn, SamePair;
      if !r.Ok? || kind == Completion {
        Release(lease);
      }
      if !r.Ok? {
        var rest := HandleFailure(choice, r, es);
        return Again(rest);
      }
      CountSuccess(choice.entry);
      return Done(lease);
    }

    /** The iteration from the selected candidate on: take the slots, call, classify. */
    method TryCandidate(choice: Choice, es: seq<Entry>, kind: Kind) returns (a: Attempted)
      requires Wired() && choice.provider.id == choice.entry.providerID
      modifies this`tick, state`blocked, metrics, Counters()
      modifies if modelLimits == null then {} else {modelLimits}
      ensures Wired()
      ensures modelLimits != null ==> modelLimits.concurrency == old(modelLimits.concurrency)
      ensures var t := Try(choice.entry, old(Now()), setup, env, kind);
              && Now() == t.world
              && a == if t.Win? then Done(Lease(choice.entry, modelLimits))
                      else Again(Sift(Cut(choice.entry, t.verdict), es))
    {
      hide Now, Gated, ModelSlots, Tracker.Slots, Tracker.View, Tracker.Valid, Manager.View, Collector.View;
      hide Try, Keyed, Released, Taken, HasRoom, ReplyTo, Acquire, AfterFailure, Drop, AfterSuccess, Sift;
      TryParts(choice.entry, Now(), setup, env, kind);
      var lease := AcquireConcurrency(choice.entry);
      if lease.None? {
        var rest := FilterProvider(es, choice.entry.providerID);
        return Again(rest);
      }
      SlotsOnly(old(Now()), choice.entry);
      var r := Call(kind, choice);
      a := Conclude(choice, lease.value, r, es, kind);
    }

    /** Selection, as a step of the whole world. */
    method Select(es: seq<Entry>) returns (choice: Option<Choice>)
      requires Wired()
      modifies this`tick, state`exhausted, limits`windows, limits`log, metrics`exhaustions
      modifies if modelLimits == null then {} else {modelLimits}
      ensures Wired()
      ensures modelLimits != null ==> modelLimits.concurrency == old(modelLimits.concurrency)
      ensures var s := Scan(es, old(Now()).gate, setup, env, old(Now()).tick);
              && Now() == old(Now()).(gate := s.gate, tick := s.tick)
              && (choice.Some? ==> choice.value.provider.id == choice.value.entry.providerID)
              && s.pick == if choice.Some? then Some(choice.value.entry) else None
    {
      hide Tracker.Slots, Tracker.View, Tracker.Valid, Manager.View, Scan, Keyed;
      choice := SelectProvider(es);
    }

    /** One iteration of the loop in Route and Stream. */
    method Attempt(es: seq<Entry>, kind: Kind) returns (a: Attempted)
      requires Wired()
      modifies this`tick, state, limits`windows, limits`log, metrics, Counters()
      modifies if modelLimits == null then {} else {modelLimits}
      ensures Wired()
      ensures modelLimits != null ==> modelLimits.concurrency == old(modelLimits.concurrency)
      ensures var t := Turn(es, old(Now()), setup, env, kind);
              Now() == t.world &&
              match t
              case Stop(_) => a == GiveUp
              case Win(e, _) => a == Done(Lease(e, modelLimits))
              case GoOn(e, v, _) => a == Again(Sift(Cut(e, v), es))
    {
      hide Tracker.Slots, Tracker.View, Tracker.Valid, Manager.View, Collector.View, Now, Gated, ModelSlots;
      hide Turn, Scan, Try, NoCapacity, Sift, Keyed;
      TurnParts(es, Now(), setup, env, kind);
      var pick := Select(es);
      if pick.None? {
        CountNoCapacity();
        return GiveUp;
      }
      a := TryCandidate(pick.value, es, kind);
    }

    /** Serves a completion; `entries` are its candidates and `steps` its iterations. */
    method Route(model: string) returns (result: Result, ghost entries: seq<Entry>, ghost steps: seq<Step>)
      requires Valid()
      modifies this`tick, state, limits`windows, limits`log, metrics, Counters()
      modifies if modelLimits == null then {} else {modelLimits}
      ensures Valid() && old(Candidates(model, entries))
      ensures Outcome(result, Now(), steps) == Serve(entries, old(Now()), setup, env, Completion)
    {
      hide Registry.Valid, Resolves, Keyed, Now, Gated, ModelSlots, Tracker.Slots, Tracker.View, Tracker.Valid;
      hide Manager.View, Collector.View, Turn, NoCapacity, Sift, Loop, Cut;
      var es := Resolve(model);
      entries, steps := es, [];
      if |es| == 0 {
        CountNoCapacity();
        return ModelNotFound, entries, steps;
      }
      ghost var end := Loop(es, Now(), setup, env, Completion);
      while |es| > 0
        invariant Valid()
        invariant modelLimits != null ==> modelLimits.concurrency == old(modelLimits.concurrency)
        invariant Continues(end, steps, Loop(es, Now(), setup, env, Completion))
        decreases |es|
      {
        ghost var t := Turn(es, Now(), setup, env, Completion);
        LoopStep(end, steps, es, Now(), setup, env, Completion);
        var a := Attempt(es, Completion);
        match a
        case GiveUp =>
          return AllProvidersFailed, entries, steps;
        case Done(lease) =>
          steps := steps + [Step(es, lease.entry, SERVED)];
          return Success(lease.entry), entries, steps;
        case Again(rest) =>
          steps := steps + [Step(es, t.entry, t.verdict)];
          es := rest;
      }
      LoopEmpty(end, steps, Now(), setup, env, Completion);
      CountNoCapacity();
      return AllProvidersFailed, entries, steps;
    }

    /** Serves a stream. On success the slots stay taken: the lease is released when the upstream has
        ended and the consumer has taken every chunk. */
    method Stream(model: string)
      returns (result: Result, lease: Option<Lease>, ghost entries: seq<Entry>, ghost steps: seq<Step>)
      requires Valid()
      modifies this`tick, state, limits`windows, limits`log, metrics, Counters()
      modifies if modelLimits == null then {} else {modelLimits}
      ensures Valid() && old(Candidates(model, entries))
      ensures Outcome(result, Now(), steps) == Serve(entries, old(Now()), setup, env, Streaming)
      ensures lease == if result.Success? then Some(Lease(result.entry, modelLimits)) else None
    {
      hide Registry.Valid, Resolves, Keyed, Now, Gated, ModelSlots, Tracker.Slots, Tracker.View, Tracker.Valid;
      hide Manager.View, Collector.View, Turn, NoCapacity, Sift, Loop, Cut;
      var es := Resolve(model);
      entries, steps, lease := es, [], None;
      if |es| == 0 {
        CountNoCapacity();
        return ModelNotFound, None, entries, steps;
      }
      ghost var end := Loop(es, Now(), setup, env, Streaming);
      while |es| > 0
        invariant Valid()
        invariant modelLimits != null ==> modelLimits.concurrency == old(modelLimits.concurrency)
        invariant Continues(end, steps, Loop(es, Now(), setup, env, Streaming))
        decreases |es|
      {
        ghost var t := Turn(es, Now(), setup, env, Streaming);
        LoopStep(end, steps, es, Now(), setup, env, Streaming);
        var a := Attempt(es, Streaming);
        match a
        case GiveUp =>
          return AllProvidersFailed, None, entries, steps;
        case Done(l) =>
          steps := steps + [Step(es, l.entry, SERVED)];
          return Success(l.entry), Some(l), entries, steps;
        case Again(rest) =>
          steps := steps + [Step(es, t.entry, t.verdict)];
          es := rest;
      }
      LoopEmpty(end, steps, Now(), setup, env, Streaming);
      CountNoCapacity();
      return AllProvidersFailed, None, entries, steps;
    }

    method FilterProvider(entries: seq<Entry>, providerID: string) returns (r: seq<Entry>)
      ensures Now() == old(Now())
      ensures r == Sift(Without(providerID), entries)
      ensures forall f :: f in r <==> f in entries && f.providerID != providerID
    {
      r := [];
      for i := 0 to |entries|
        invariant r == Sift(Without(providerID), entries[..i])
      {
        SiftSnoc(Without(providerID), entries, i);
        if entries[i].providerID != providerID {
          r := r + [entries[i]];
        }
      }
      assert entries[..|entries|] == entries;
      forall f
        ensures f in r <==> f in entries && Keeps(Without(providerID), f)
      {
        SiftCount(Without(providerID), entries, f);
      }
    }

    method FilterEntry(entries: seq<Entry>, providerID: string, modelID: string) returns (r: seq<Entry>)
      ensures Now() == old(Now())
      ensures r == Sift(WithoutPair(providerID, modelID), entries)
      ensures forall f :: f in r <==> f in entries && !(f.providerID == providerID && f.modelID == modelID)
    {
      r := [];
      for i := 0 to |entries|
        invariant r == Sift(WithoutPair(providerID, modelID), entries[..i])
      {
        SiftSnoc(WithoutPair(providerID, modelID), entries, i);
        if entries[i].providerID == providerID && entries[i].modelID == modelID {
          continue;
        }
        r := r + [entries[i]];
      }
      assert entries[..|entries|] == entries;
      forall f
        ensures f in r <==> f in entries && Keeps(WithoutPair(providerID, modelID), f)
      {
        SiftCount(WithoutPair(providerID, modelID), entries, f);
      }
    }
  }

  /** `rest` is what is left of the run `end` after its first iterations `steps`. */
  predicate Continues(end: Outcome, steps: seq<Step>, rest: Outcome) {
    end.result == rest.result && end.world == rest.world && end.steps == steps + rest.steps
  }

  lemma LoopStep(end: Outcome, steps: seq<Step>, es: seq<Entry>, w: World, setup: Setup, env: Env, kind: Kind)
    requires Keyed(setup) && Continues(end, steps, Loop(es, w, setup, env, kind))
    ensures match Turn(es, w, setup, env, kind)
            case Stop(w') => end == Outcome(AllProvidersFailed, w', steps)
            case Win(e, w') => end == Outcome(Success(e), w', steps + [Step(es, e, SERVED)])
            case GoOn(e, v, w') =>
              && Continues(end, steps + [Step(es, e, v)], Loop(Sift(Cut(e, v), es), w', setup, env, kind))
              && |Sift(Cut(e, v), es)| < |es|
  {
    hide Turn, Sift;
    var t := Turn(es, w, setup, env, kind);
    LoopEnds(es, w, setup, env, kind);
    if t.GoOn? {
      LoopGoesOn(es, w, setup, env, kind);
      SiftShrinks(Cut(t.entry, t.verdict), es, t.entry);
      var rest := Loop(Sift(Cut(t.entry, t.verdict), es), t.world, setup, env, kind);
      Associative(steps, [Step(es, t.entry, t.verdict)], rest.steps);
    }
  }

  lemma LoopEmpty(end: Outcome, steps: seq<Step>, w: World, setup: Setup, env: Env, kind: Kind)
    requires Keyed(setup) && Continues(end, steps, Loop([], w, setup, env, kind))
    ensures end == Outcome(AllProvidersFailed, NoCapacity(w), steps)
  {
    assert w.(gate := w.gate, tick := w.tick) == w;
  }

  lemma SiftSnoc(k: Pick, es: seq<Entry>, i: nat)
    requires i < |es|
    ensures Sift(k, es[..i + 1]) == if Keeps(k, es[i]) then Sift(k, es[..i]) + [es[i]] else Sift(k, es[..i])
  {
    assert es[..i + 1] == es[..i] + [es[i]];
    SiftAppend(k, es[..i], [es[i]]);
    SiftOne(k, es[i]);
  }

  /** The checks of a visit, one after the other. */
  lemma VisitParts(e: Entry, g: Gate, setup: Setup, env: Env, n: nat)
    ensures var known := StateOf(g.state, e.providerID, env.time(n), env.ready(n, e.providerID)) == Available
                         && e.providerID in setup.providers;
            var m := ModelCheck(g, Key(e.providerID, e.modelID), env.time(n + 1), env.time(n + 2));
            Visit(e, g, setup, env, n)
            == if !known then Checked(false, g)
               else if m.admitted then ProviderCheck(m.gate, e.providerID, env.time(n + 3)) else m
  {
    hide ModelCheck, ProviderCheck, StateOf;
  }

  /** A selection, then an attempt on what was selected. */
  lemma TurnParts(es: seq<Entry>, w: World, setup: Setup, env: Env, kind: Kind)
    ensures var s := Scan(es, w.gate, setup, env, w.tick);
            var w1 := w.(gate := s.gate, tick := s.tick);
            Turn(es, w, setup, env, kind)
            == if s.pick.None? then Stop(NoCapacity(w1)) else Try(s.pick.value, w1, setup, env, kind)
  {
    hide Scan, Try, NoCapacity;
  }

  /** An attempt: the slots, the call, and what follows from the reply. */
  lemma TryParts(e: Entry, w: World, setup: Setup, env: Env, kind: Kind)
    ensures var a, r := Acquire(w, e), ReplyTo(kind, env.reply(w.tick, e.providerID, e.modelID));
            var w2 := a.world.(tick := w.tick + 1);
            Try(e, w, setup, env, kind)
            == if !a.ok then GoOn(e, Full, a.world)
               else if r.Ok? then Win(e, AfterSuccess(if kind == Streaming then w2 else Drop(w2, e), e))
               else GoOn(e, Answered(r), AfterFailure(Drop(w2, e), e, r, setup, env))
  {
    hide Acquire, Drop, AfterFailure, AfterSuccess, ReplyTo;
  }

  lemma AdmittedKnown(e: Entry, g: Gate, setup: Setup, env: Env, n: nat)
    ensures Visit(e, g, setup, env, n).admitted ==> e.providerID in setup.providers
  {
  }
}
