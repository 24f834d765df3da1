/** Routing with failover, on values: select an entry, take its slots, call, classify, thin out the
    list, try again. Clock readings, health flags and provider replies come from an environment
    that answers the n-th question asked. */
module Routing {
  import opened Prelude
  import opened Entries
  import opened Windows
  import opened States

  datatype Provider = Provider(id: string)

  /** What a reload replaces besides the trackers. */
  datatype Setup = Setup(providers: map<string, Provider>, recovery: map<string, int>, defaultModel: string)

  /** Providers are kept under their own id. */
  ghost predicate Keyed(setup: Setup) {
    forall id :: id in setup.providers ==> setup.providers[id].id == id
  }

  /** A provider error; `retryAfter` is the duration parsed from its text, if one could be. */
  datatype Failure = Http(status: int, retryAfter: Option<int>) | OtherFailure

  /** What a provider call comes to. The last two happen to streams only. */
  datatype Reply = Ok | Failed(failure: Failure) | EmptyStream | FirstChunkFailed

  datatype Kind = Completion | Streaming

  function ReplyTo(kind: Kind, r: Reply): Reply {
    if kind == Completion && (r.EmptyStream? || r.FirstChunkFailed?) then Failed(OtherFailure) else r
  }

  datatype Env = Env(time: nat -> Time, ready: (nat, string) -> bool, reply: (nat, string, string) -> Reply)

  // ---------------------------------------------------------------------------- selection

  /** What selection reads and writes. */
  datatype Gate = Gate(state: StateView, lim: TrackerView, mlim: Option<TrackerView>, exhaustions: int)

  function Key(provider: string, model: string): string {
    provider + "/" + model
  }

  /** Outcome of one check on an entry. */
  datatype Checked = Checked(admitted: bool, gate: Gate)

  /** The per-model checks: cooldown, then the model's own windows. */
  function ModelCheck(g: Gate, key: string, t1: Time, t2: Time): Checked {
    match g.mlim
    case None => Checked(true, g)
    case Some(ml) =>
      var ml' := Forget(ml, key, t1);
      if Cooling(ml, key, t1) then Checked(false, g.(mlim := Some(ml')))
      else
        var r := Record(ml', key, t2);
        Checked(!r.exhausted, g.(mlim := Some(r.view)))
  }

  /** The provider's windows; a refusal marks the provider exhausted until the reset. */
  function ProviderCheck(g: Gate, id: string, t: Time): Checked {
    var r := Record(g.lim, id, t);
    if r.exhausted && r.resetAt.Some?
    then Checked(false, g.(lim := r.view, state := Drained(g.state, id, r.resetAt.value),
                           exhaustions := g.exhaustions + 1))
    else Checked(true, g.(lim := r.view))
  }

  function Visit(e: Entry, g: Gate, setup: Setup, env: Env, n: nat): Checked {
    if StateOf(g.state, e.providerID, env.time(n), env.ready(n, e.providerID)) != Available
       || e.providerID !in setup.providers
    then Checked(false, g)
    else
      var m := ModelCheck(g, Key(e.providerID, e.modelID), env.time(n + 1), env.time(n + 2));
      if m.admitted then ProviderCheck(m.gate, e.providerID, env.time(n + 3)) else m
  }

  const READINGS: nat := 4

  datatype Selection = Selection(pick: Option<Entry>, gate: Gate, tick: nat)

  /** The first entry that passes every check, visited in list order. */
  function Scan(es: seq<Entry>, g: Gate, setup: Setup, env: Env, n: nat): (r: Selection)
    ensures r.pick.Some? ==> r.pick.value in es && r.pick.value.providerID in setup.providers
    ensures r.tick >= if r.pick.Some? then n + READINGS else n
  {
    if es == [] then Selection(None, g, n)
    else
      var c := Visit(es[0], g, setup, env, n);
      if c.admitted then Selection(Some(es[0]), c.gate, n + READINGS)
      else Scan(es[1..], c.gate, setup, env, n + READINGS)
  }

  // -------------------------------------------------------------------------------- slots

  function Count(m: map<string, int>, id: string): int {
    if id in m then m[id] else 0
  }

  function Bumped(m: map<string, int>, id: string, d: int): map<string, int> {
    m[id := Count(m, id) + d]
  }

  datatype Metrics = Metrics(requests: int, failures: int, noCapacity: int, blockEvents: int,
                             localRequests: int, remoteRequests: int,
                             active: map<string, int>, rejected: map<string, int>)

  /** Everything a request reads and writes. `tick` counts the questions put to the environment. */
  datatype World = World(gate: Gate, slots: map<string, Slot>, mslots: map<string, Slot>, metrics: Metrics, tick: nat)

  datatype Acquired = Acquired(ok: bool, world: World)

  /** Provider slot, then model slot; a missing model slot gives the provider slot back. */
  function Acquire(w: World, e: Entry): Acquired {
    var p, key := e.providerID, Key(e.providerID, e.modelID);
    if !HasRoom(w.slots, p) then
      Acquired(false, w.(metrics := w.metrics.(rejected := Bumped(w.metrics.rejected, p, 1))))
    else if w.gate.mlim.Some? && !HasRoom(w.mslots, key) then
      Acquired(false, w.(slots := Released(Taken(w.slots, p), p),
                         metrics := w.metrics.(active := Bumped(Bumped(w.metrics.active, p, 1), p, -1),
                                               rejected := Bumped(w.metrics.rejected, p, 1))))
    else
      Acquired(true, w.(slots := Taken(w.slots, p),
                        mslots := if w.gate.mlim.Some? then Taken(w.mslots, key) else w.mslots,
                        metrics := w.metrics.(active := Bumped(w.metrics.active, p, 1))))
  }

  function Drop(w: World, e: Entry): World {
    var p, key := e.providerID, Key(e.providerID, e.modelID);
    w.(slots := Released(w.slots, p),
       mslots := if w.gate.mlim.Some? then Released(w.mslots, key) else w.mslots,
       metrics := w.metrics.(active := Bumped(w.metrics.active, p, -1)))
  }

  // ------------------------------------------------------------------------------ failure

  predicate ModelLevel(f: Failure) {
    f.Http? && (f.status == 429 || f.status == 413)
  }

  /** The cooldown after a model-level error: the parsed duration, at least a second, or the fallback. */
  function RetryAfter(f: Failure, fallback: int): int {
    if !f.Http? || f.retryAfter.None? || f.retryAfter.value <= 0 then fallback
    else Max(f.retryAfter.value, SECOND)
  }

  function RecoveryOf(setup: Setup, id: string): int {
    Count(setup.recovery, id)
  }

  function Fallback(setup: Setup, id: string): int {
    if RecoveryOf(setup, id) == 0 then 60 * SECOND else RecoveryOf(setup, id)
  }

  /** What becomes of a selected entry: a slot is missing, or its provider replies. */
  datatype Verdict = Full | Answered(reply: Reply)

  const SERVED: Verdict := Answered(Ok)

  /** Is it the model that failed, and not its provider? */
  predicate Soft(e: Entry, r: Reply) {
    r.Failed? && ModelLevel(r.failure) && !e.isRemote
  }

  /** Which entries the verdict on `e` leaves in the list. */
  function Cut(e: Entry, v: Verdict): Pick {
    if v.Answered? && Soft(e, v.reply) then WithoutPair(e.providerID, e.modelID) else Without(e.providerID)
  }

  /** Does the failure block the provider? */
  predicate Blocks(e: Entry, r: Reply) {
    !r.Ok? && !Soft(e, r) && e.isRemote && !r.EmptyStream?
  }

  /** Bookkeeping after a failed call, its slots already returned. */
  function AfterFailure(w: World, e: Entry, r: Reply, setup: Setup, env: Env): World {
    var w1 := w.(metrics := w.metrics.(failures := w.metrics.failures + 1));
    if Soft(e, r) then
      if w.gate.mlim.Some? then
        var until := env.time(w.tick) + RetryAfter(r.failure, Fallback(setup, e.providerID));
        w1.(gate := w.gate.(mlim := Some(BlockKey(w.gate.mlim.value, Key(e.providerID, e.modelID), until))),
            tick := w.tick + 1)
      else w1
    else if Blocks(e, r) then
      var until := env.time(w.tick) + RecoveryOf(setup, e.providerID);
      w1.(gate := w.gate.(state := Barred(w.gate.state, e.providerID, until)),
          metrics := w1.metrics.(blockEvents := w.metrics.blockEvents + 1), tick := w.tick + 1)
    else w1
  }

  function AfterSuccess(w: World, e: Entry): World {
    var m := w.metrics.(requests := w.metrics.requests + 1);
    w.(metrics := if e.isRemote then m.(remoteRequests := m.remoteRequests + 1)
                  else m.(localRequests := m.localRequests + 1))
  }

  function NoCapacity(w: World): World {
    w.(metrics := w.metrics.(noCapacity := w.metrics.noCapacity + 1))
  }

  // ---------------------------------------------------------------------------- the loop

  /** One iteration: the list at the loop head, the entry selected from it, and what became of it. */
  datatype Step = Step(list: seq<Entry>, entry: Entry, verdict: Verdict)

  datatype Result = Success(entry: Entry) | ModelNotFound | AllProvidersFailed

  datatype Outcome = Outcome(result: Result, world: World, steps: seq<Step>)

  /** A successful stream keeps its slots until the consumer has drained it. */
  function Settled(w: World, e: Entry, kind: Kind): World {
    AfterSuccess(if kind == Streaming then w else Drop(w, e), e)
  }

  /** One iteration of the loop: it stops without capacity, succeeds with an entry, or goes on
      after a verdict on an entry. */
  datatype Turned =
    | Stop(world: World)
    | Win(entry: Entry, world: World)
    | GoOn(entry: Entry, verdict: Verdict, world: World)

  /** The iteration from the selected entry on. */
  function Try(e: Entry, w: World, setup: Setup, env: Env, kind: Kind): (r: Turned)
    ensures !r.Stop? && r.entry == e
    ensures r.GoOn? ==> r.verdict != SERVED
  {
    var a := Acquire(w, e);
    if !a.ok then GoOn(e, Full, a.world)
    else
      var r := ReplyTo(kind, env.reply(w.tick, e.providerID, e.modelID));
      var w2 := a.world.(tick := w.tick + 1);
      if r.Ok? then Win(e, Settled(w2, e, kind))
      else GoOn(e, Answered(r), AfterFailure(Drop(w2, e), e, r, setup, env))
  }

  function Turn(es: seq<Entry>, w: World, setup: Setup, env: Env, kind: Kind): (r: Turned)
    ensures !r.Stop? ==> r.entry in es
    ensures r.GoOn? ==> r.verdict != SERVED
  {
    var s := Scan(es, w.gate, setup, env, w.tick);
    var w1 := w.(gate := s.gate, tick := s.tick);
    match s.pick
    case None => Stop(NoCapacity(w1))
    case Some(e) => Try(e, w1, setup, env, kind)
  }

  function Loop(es: seq<Entry>, w: World, setup: Setup, env: Env, kind: Kind): Outcome
    requires Keyed(setup)
    decreases |es|
  {
    match Turn(es, w, setup, env, kind)
    case Stop(w') => Outcome(AllProvidersFailed, w', [])
    case Win(e, w') => Outcome(Success(e), w', [Step(es, e, SERVED)])
    case GoOn(e, v, w') =>
      SiftShrinks(Cut(e, v), es, e);
      var rest := Loop(Sift(Cut(e, v), es), w', setup, env, kind);
      rest.(steps := [Step(es, e, v)] + rest.steps)
  }

  /** Route and Stream on the list their model name resolves to. */
  function Serve(es: seq<Entry>, w: World, setup: Setup, env: Env, kind: Kind): Outcome
    requires Keyed(setup)
  {
    if es == [] then Outcome(ModelNotFound, NoCapacity(w), []) else Loop(es, w, setup, env, kind)
  }
}
