/** Any number of requests at once. Each process advances by small atomic steps, in any order: a load
    and a compare-and-swap of a concurrency counter are separate steps, and so are every check that selection
    makes on an entry and every update of a metric, of the provider state or of a cooldown. */
module Processes {
  import opened Prelude
  import opened Entries
  import opened Windows
  import opened States
  import opened Routing
  import opened Completeness

  datatype Tier = ProviderTier | ModelTier

  /** Names one concurrency counter. Every reload starts a new generation of counters. */
  datatype Counter = Counter(gen: nat, tier: Tier, key: string)

  /** What a request has added to each counter so far. */
  datatype Tally = Tally(requests: int, noCapacity: int, failures: int, blockEvents: int, local: int, remote: int)

  const NOTHING: Tally := Tally(0, 0, 0, 0, 0, 0)

  /** How far selection has come with an entry. */
  datatype Stage =
    | AtClock                                      // GetState reads the clock
    | AtState(now: Time)                           // GetState reads the expiries
    | AtCooldown                                   // IsBlocked on the model key
    | AtModel                                      // Record on the model key
    | AtProvider                                   // Record on the provider
    | AtMark(until: Time)                          // SetExhausted
    | AtEvent                                      // counts the exhaustion

  /** Where a process stands. While it selects it has `rest` still to visit, and goes by the provider map
      and the model tracker (named by its generation) that were in place when it began to. */
  datatype Pc =
    | Selecting                                    // loop head
    | Probe(stage: Stage, rest: seq<Entry>, providers: map<string, Provider>, models: Option<nat>)
    | Refused                                      // no candidate: NoCapacity is next
    | Capture                                      // notes which model tracker is in place
    | Take(tier: Tier)                             // looks its counter up
    | Load(tier: Tier, counter: Counter)           // TryAcquire reads
    | Swap(tier: Tier, counter: Counter, seen: int) // TryAcquire swaps
    | Raise                                        // gauge up
    | Call
    | Await
    | Return(tier: Tier)                           // looks the counter up again, or uses the captured one
    | RetLoad(tier: Tier, counter: Counter)        // Release reads
    | RetSwap(tier: Tier, counter: Counter, seen: int) // Release swaps
    | Lower                                        // gauge down
    | Reject                                       // a slot was missing
    | CountFailure
    | Cool                                         // cooldown of a model
    | Bar                                          // block of a provider
    | CountBlock
    | CountRequest
    | CountSource
    | Ended

  /** Positions in the history of the passed checks of a provider's state and of a model's cooldown, and of the
      admitted Record calls in the logs of the provider's and the model's tracker. */
  datatype Marks = Marks(look: nat, keyLook: Option<nat>, ticket: nat, mticket: nat)

  /** A Route or Stream call, or the forwarder of a stream. `held` and `mheld` name the counters in
      which it has a slot, `raised` says that it is in the gauge; `reply` is absent while it backs out.
      `marks` notes what its entry has passed. */
  datatype Process = Process(kind: Kind, forwarder: bool, resolved: seq<Entry>, list: seq<Entry>, steps: seq<Step>,
                             entry: Entry, models: Option<nat>, held: Option<Counter>, mheld: Option<Counter>,
                             raised: bool, reply: Option<Reply>, marks: Marks, tally: Tally, pc: Pc)

  /** What the proofs remember: passed checks of a provider's state (with the position at which its health was
      asked for) and of a model's cooldown, exhaustions, blocks and cooldowns, with the clock readings they
      rest on. */
  datatype Event =
    | Passed(provider: string, at: Time, asked: nat)
    | Marked(provider: string, until: Time)
    | Thawed(key: string, at: Time)
    | BarredFor(provider: string, at: Time, d: int)
    | Cooled(key: string, at: Time, d: int)

  /** A provider call and the checks and admitted Record calls it rests on. */
  datatype Called = Called(entry: Entry, marks: Marks)

  /** `retired` holds the model trackers of earlier generations. */
  datatype Shared = Shared(gate: Gate, setup: Setup, gen: nat, retired: map<nat, TrackerView>,
                           caps: map<Counter, int>, active: map<Counter, int>, base: map<Counter, int>,
                           metrics: Metrics, tick: nat, history: seq<Event>, calls: seq<Called>)

  datatype System = System(shared: Shared, ps: seq<Process>)

  const NO_ENTRY: Entry := Entry("", "", 0, false, false, false, NO_PARAMS, false)

  function NewProcess(kind: Kind, resolved: seq<Entry>): Process {
    Process(kind, false, resolved, resolved, [], NO_ENTRY, None, None, None, false, None, Marks(0, None, 0, 0),
            NOTHING, Selecting)
  }

  function ActiveOf(sh: Shared, q: Counter): int {
    if q in sh.active then sh.active[q] else 0
  }

  function CapOf(sh: Shared, q: Counter): int {
    if q in sh.caps then sh.caps[q] else 0
  }

  /** The counter a process has to use on a tier, if there is one. */
  function CounterFor(sh: Shared, p: Process, t: Tier): Option<Counter> {
    var q := if t == ProviderTier then Some(Counter(sh.gen, t, p.entry.providerID))
             else if p.models.Some? then Some(Counter(p.models.value, t, Key(p.entry.providerID, p.entry.modelID)))
             else None;
    if q.Some? && q.value in sh.caps then q else None
  }

  /** A slot is taken (of `h`, if there is a cap). */
  function Got(p: Process, t: Tier, h: Option<Counter>): Process {
    if t == ProviderTier then p.(held := h, pc := Raise) else p.(mheld := h, pc := Call)
  }

  /** A slot is given back. */
  function Gave(p: Process, t: Tier): Process {
    if t == ProviderTier then p.(held := None, pc := Lower)
    else p.(mheld := None,
            pc := if p.forwarder then Ended else if p.reply == Some(Ok) then CountRequest else CountFailure)
  }

  function VerdictOf(p: Process): Verdict {
    if p.reply.Some? then Answered(p.reply.value) else Full
  }

  /** Records the iteration and thins the list. */
  function Thin(p: Process, v: Verdict): Process {
    p.(steps := p.steps + [Step(p.list, p.entry, v)], list := Sift(Cut(p.entry, v), p.list), pc := Selecting)
  }

  /** The forwarder takes over the slots of a successful stream. */
  function Forwarder(p: Process): Process {
    p.(forwarder := true, reply := Some(Ok), tally := NOTHING, pc := Return(ProviderTier))
  }

  datatype Advanced = Advanced(shared: Shared, process: Process, spawned: seq<Process>)

  function Stay(sh: Shared, p: Process): Advanced {
    Advanced(sh, p, [])
  }

  function ModelsNow(sh: Shared): Option<nat> {
    if sh.gate.mlim.Some? then Some(sh.gen) else None
  }

  /** Selection begins: it notes the provider map and the model tracker in place. */
  function SelectStep(sh: Shared, p: Process): Advanced {
    Stay(sh, p.(pc := Probe(AtClock, p.list, sh.setup.providers, ModelsNow(sh))))
  }

  /** The model tracker of a generation. */
  function ModelTracker(sh: Shared, gen: nat): Option<TrackerView> {
    if gen == sh.gen then sh.gate.mlim else if gen in sh.retired then Some(sh.retired[gen]) else None
  }

  function WithModelTracker(sh: Shared, gen: nat, v: TrackerView): Shared {
    if gen == sh.gen then sh.(gate := sh.gate.(mlim := Some(v))) else sh.(retired := sh.retired[gen := v])
  }

  /** Goes on selecting. */
  function Onto(p: Process, stage: Stage): Process
    requires p.pc.Probe?
  {
    p.(pc := p.pc.(stage := stage))
  }

  /** The state of the entry's provider. A visit uses up as many clock positions as in Routing.Visit. */
  function StateCheck(sh: Shared, p: Process, now: Time, env: Env): Advanced
    requires p.pc.Probe?
  {
    var id := p.entry.providerID;
    if StateOf(sh.gate.state, id, now, env.ready(sh.tick, id)) != Available || id !in p.pc.providers
    then Stay(sh.(tick := sh.tick + 4), Onto(p, AtClock))
    else
      Stay(sh.(tick := sh.tick + if p.pc.models.Some? then 1 else 3,
               history := sh.history + [Passed(id, now, sh.tick)]),
           Onto(p, if p.pc.models.Some? then AtCooldown else AtProvider)
           .(marks := p.marks.(look := |sh.history|, keyLook := None)))
  }

  /** The model's cooldown. */
  function CooldownStep(sh: Shared, p: Process, gen: nat, ml: TrackerView, env: Env): Advanced
    requires p.pc.Probe?
  {
    var key, now := Key(p.entry.providerID, p.entry.modelID), env.time(sh.tick);
    var sh1 := WithModelTracker(sh, gen, Forget(ml, key, now));
    if Cooling(ml, key, now) then Stay(sh1.(tick := sh.tick + 3), Onto(p, AtClock))
    else
      Stay(sh1.(tick := sh.tick + 1, history := sh.history + [Thawed(key, now)]),
           Onto(p, AtModel).(marks := p.marks.(keyLook := Some(|sh.history|))))
  }

  /** Position of the latest Record call. */
  function LastOf(v: TrackerView): nat {
    if v.log == [] then 0 else |v.log| - 1
  }

  /** The model's windows. */
  function WindowStep(sh: Shared, p: Process, gen: nat, ml: TrackerView, env: Env): Advanced
    requires p.pc.Probe?
  {
    var r := Record(ml, Key(p.entry.providerID, p.entry.modelID), env.time(sh.tick));
    var sh1 := WithModelTracker(sh, gen, r.view);
    if r.exhausted then Stay(sh1.(tick := sh.tick + 2), Onto(p, AtClock))
    else Stay(sh1.(tick := sh.tick + 1), Onto(p, AtProvider).(marks := p.marks.(mticket := LastOf(r.view))))
  }

  /** The provider's windows; a refusal marks the provider, and the selection goes on. */
  function ProviderStep(sh: Shared, p: Process, env: Env): Advanced
    requires p.pc.Probe?
  {
    var id, g := p.entry.providerID, sh.gate;
    match p.pc.stage
    case AtMark(until) =>
      Stay(sh.(gate := g.(state := Drained(g.state, id, until)), history := sh.history + [Marked(id, until)]),
           Onto(p, AtEvent))
    case AtEvent => Stay(sh.(gate := g.(exhaustions := g.exhaustions + 1)), Onto(p, AtClock))
    case _ =>
      var r := Record(g.lim, id, env.time(sh.tick));
      Stay(sh.(gate := g.(lim := r.view), tick := sh.tick + 1),
           if r.resetAt.Some? then Onto(p, AtMark(r.resetAt.value))
           else p.(reply := None, marks := p.marks.(ticket := LastOf(r.view)), pc := Capture))
  }

  /** The checks on the model, on the tracker noted. */
  function ModelStep(sh: Shared, p: Process, env: Env): Advanced
    requires p.pc.Probe?
  {
    var ml := if p.pc.models.Some? then ModelTracker(sh, p.pc.models.value) else None;
    if ml.None? then Stay(sh, Onto(p, AtProvider))
    else if p.pc.stage == AtCooldown then CooldownStep(sh, p, p.pc.models.value, ml.value, env)
    else WindowStep(sh, p, p.pc.models.value, ml.value, env)
  }

  /** One check of a selection. */
  function ProbeStep(sh: Shared, p: Process, env: Env): Advanced
    requires p.pc.Probe?
  {
    match p.pc.stage
    case AtClock =>
      Stay(sh, if p.pc.rest == [] then p.(pc := Refused)
               else p.(entry := p.pc.rest[0],
                       pc := p.pc.(stage := AtState(env.time(sh.tick)), rest := p.pc.rest[1..])))
    case AtState(now) => StateCheck(sh, p, now, env)
    case AtCooldown => ModelStep(sh, p, env)
    case AtModel => ModelStep(sh, p, env)
    case _ => ProviderStep(sh, p, env)
  }

  /** TryAcquire: one atomic access to the counter per step. */
  function AcquireStep(sh: Shared, p: Process): Advanced {
    match p.pc
    case Take(t) =>
      var q := CounterFor(sh, p, t);
      Stay(sh, if q.Some? then p.(pc := Load(t, q.value)) else Got(p, t, None))
    case Load(t, q) =>
      if CapOf(sh, q) == 0 then Stay(sh.(active := sh.active[q := ActiveOf(sh, q) + 1]), Got(p, t, Some(q)))
      else if ActiveOf(sh, q) >= CapOf(sh, q) then
        Stay(sh, p.(pc := if t == ProviderTier then Reject else Return(ProviderTier)))
      else Stay(sh, p.(pc := Swap(t, q, ActiveOf(sh, q))))
    case Swap(t, q, seen) =>
      if ActiveOf(sh, q) == seen then Stay(sh.(active := sh.active[q := seen + 1]), Got(p, t, Some(q)))
      else Stay(sh, p.(pc := Load(t, q)))
    case _ => Stay(sh, p)
  }

  /** Release: one atomic access to the counter per step. */
  function ReleaseStep(sh: Shared, p: Process): Advanced {
    match p.pc
    case Return(t) =>
      var q := CounterFor(sh, p, t);
      Stay(sh, if q.Some? then p.(pc := RetLoad(t, q.value)) else Gave(p, t))
    case RetLoad(t, q) =>
      if ActiveOf(sh, q) <= 0 then Stay(sh, Gave(p, t)) else Stay(sh, p.(pc := RetSwap(t, q, ActiveOf(sh, q))))
    case RetSwap(t, q, seen) =>
      if ActiveOf(sh, q) == seen then Stay(sh.(active := sh.active[q := seen - 1]), Gave(p, t))
      else Stay(sh, p.(pc := RetLoad(t, q)))
    case _ => Stay(sh, p)
  }

  /** In and out of the gauge. */
  function GaugeStep(sh: Shared, p: Process): Advanced {
    var m, id := sh.metrics, p.entry.providerID;
    match p.pc
    case Raise =>
      Stay(sh.(metrics := m.(active := Bumped(m.active, id, 1))), p.(raised := true, pc := Take(ModelTier)))
    case Lower =>
      Stay(sh.(metrics := m.(active := Bumped(m.active, id, -1))),
           p.(raised := false, pc := if p.reply.None? then Reject else Return(ModelTier)))
    case _ => Stay(sh, p)
  }

  /** What a counting step adds. */
  function Gain(p: Process): Tally {
    match p.pc
    case Refused => NOTHING.(noCapacity := 1)
    case CountFailure => NOTHING.(failures := 1)
    case CountBlock => NOTHING.(blockEvents := 1)
    case CountRequest => NOTHING.(requests := 1)
    case CountSource => if p.entry.isRemote then NOTHING.(remote := 1) else NOTHING.(local := 1)
    case _ => NOTHING
  }

  function Plus(y: Tally, g: Tally): Tally {
    Tally(y.requests + g.requests, y.noCapacity + g.noCapacity, y.failures + g.failures,
          y.blockEvents + g.blockEvents, y.local + g.local, y.remote + g.remote)
  }

  function Counted(m: Metrics, g: Tally): Metrics {
    m.(requests := m.requests + g.requests, noCapacity := m.noCapacity + g.noCapacity,
       failures := m.failures + g.failures,
       blockEvents := m.blockEvents + g.blockEvents, localRequests := m.localRequests + g.local,
       remoteRequests := m.remoteRequests + g.remote)
  }

  /** Where a counted failure leads. */
  function Judged(p: Process): Process {
    if p.reply.None? then p
    else if Soft(p.entry, p.reply.value) then p.(pc := Cool)
    else if Blocks(p.entry, p.reply.value) then p.(pc := Bar)
    else Thin(p, VerdictOf(p))
  }

  /** Where a counting step leads. */
  function AfterCounting(p: Process): Process {
    match p.pc
    case Refused => p.(pc := Ended)
    case Reject => Thin(p, Full)
    case CountFailure => Judged(p)
    case CountBlock => Thin(p, VerdictOf(p))
    case CountRequest => p.(steps := p.steps + [Step(p.list, p.entry, VerdictOf(p))], pc := CountSource)
    case CountSource => p.(pc := Ended)
    case _ => p
  }

  /** The steps that count something; each adds the same to a metric and to the process's own tally. */
  function CountStep(sh: Shared, p: Process): Advanced {
    var m := Counted(sh.metrics, Gain(p));
    var rejected := if p.pc == Reject then Bumped(m.rejected, p.entry.providerID, 1) else m.rejected;
    Stay(sh.(metrics := m.(rejected := rejected)), AfterCounting(p).(tally := Plus(p.tally, Gain(p))))
  }

  /** The steps that cool a model down or block a provider. */
  function PenaltyStep(sh: Shared, p: Process, env: Env): Advanced {
    var id, now := p.entry.providerID, env.time(sh.tick);
    match p.pc
    case Cool =>
      if sh.gate.mlim.None? || p.reply.None? || !p.reply.value.Failed? then Stay(sh, Thin(p, VerdictOf(p)))
      else
        var key, d := Key(id, p.entry.modelID), RetryAfter(p.reply.value.failure, Fallback(sh.setup, id));
        Stay(sh.(gate := sh.gate.(mlim := Some(BlockKey(sh.gate.mlim.value, key, now + d))), tick := sh.tick + 1,
                 history := sh.history + [Cooled(key, now, d)]),
             Thin(p, VerdictOf(p)))
    case Bar =>
      var d := RecoveryOf(sh.setup, id);
      Stay(sh.(gate := sh.gate.(state := Barred(sh.gate.state, id, now + d)), tick := sh.tick + 1,
               history := sh.history + [BarredFor(id, now, d)]),
           p.(pc := CountBlock))
    case _ => Stay(sh, p)
  }

  /** The call and its answer. */
  function CallStep(sh: Shared, p: Process, reply: Reply): Advanced {
    match p.pc
    case Call => Stay(sh.(calls := sh.calls + [Called(p.entry, p.marks)]), p.(pc := Await))
    case Await =>
      var r, sh1 := ReplyTo(p.kind, reply), sh.(tick := sh.tick + 1);
      if r.Ok? && p.kind == Streaming
      then Advanced(sh1, p.(reply := Some(r), held := None, mheld := None, raised := false, pc := CountRequest),
                    [Forwarder(p)])
      else Stay(sh1, p.(reply := Some(r), pc := Return(ProviderTier)))
    case _ => Stay(sh, p)
  }

  /** One step of a process. */
  function Advance(sh: Shared, p: Process, reply: Reply, env: Env): Advanced {
    match p.pc
    case Selecting => SelectStep(sh, p)
    case Probe(_, _, _, _) => ProbeStep(sh, p, env)
    case Capture => Stay(sh, p.(models := ModelsNow(sh), pc := Take(ProviderTier)))
    case Take(_) => AcquireStep(sh, p)
    case Load(_, _) => AcquireStep(sh, p)
    case Swap(_, _, _) => AcquireStep(sh, p)
    case Return(_) => ReleaseStep(sh, p)
    case RetLoad(_, _) => ReleaseStep(sh, p)
    case RetSwap(_, _, _) => ReleaseStep(sh, p)
    case Call => CallStep(sh, p, reply)
    case Await => CallStep(sh, p, reply)
    case Cool => PenaltyStep(sh, p, env)
    case Bar => PenaltyStep(sh, p, env)
    case Raise => GaugeStep(sh, p)
    case Lower => GaugeStep(sh, p)
    case _ => CountStep(sh, p)
  }

  /** What can happen next: a request begins, a process takes a step, the configuration is reloaded. */
  datatype Action =
    | Begin(kind: Kind, resolved: seq<Entry>)
    | Act(i: nat, reply: Reply)
    | Reload(setup: Setup, lim: TrackerView, mlim: Option<TrackerView>, caps: map<Counter, int>)

  /** The counters that a reload creates: one for each positive cap of the next generation. */
  function NewCaps(sh: Shared, caps: map<Counter, int>): map<Counter, int> {
    map q | q in caps && q.gen == sh.gen + 1 && caps[q] > 0 :: caps[q]
  }

  /** Reloading puts new trackers in place, with fresh counters. */
  function Reloaded(sh: Shared, setup: Setup, lim: TrackerView, mlim: Option<TrackerView>,
                    caps: map<Counter, int>): Shared {
    var added := NewCaps(sh, caps);
    sh.(setup := setup, gen := sh.gen + 1, gate := sh.gate.(lim := lim, mlim := mlim),
        retired := if sh.gate.mlim.Some? then sh.retired[sh.gen := sh.gate.mlim.value] else sh.retired,
        caps := sh.caps + added,
        active := sh.active + map q | q in added :: 0,
        base := sh.base + map q | q in added :: 0)
  }

  function Next(s: System, a: Action, env: Env): System {
    match a
    case Begin(kind, resolved) => s.(ps := s.ps + [NewProcess(kind, resolved)])
    case Act(i, reply) =>
      if i < |s.ps| then
        var r := Advance(s.shared, s.ps[i], reply, env);
        System(r.shared, s.ps[i := r.process] + r.spawned)
      else s
    case Reload(setup, lim, mlim, caps) => s.(shared := Reloaded(s.shared, setup, lim, mlim, caps))
  }

  function Run(s: System, actions: seq<Action>, env: Env): System
    decreases |actions|
  {
    if actions == [] then s
    else
      var n := |actions| - 1;
      Next(Run(s, actions[..n], env), actions[n], env)
  }

  /** The start: no process yet; restored counters within their caps. */
  ghost predicate Initial(s: System) {
    && s.ps == [] && s.shared.gen == 0 && s.shared.retired == map[] && s.shared.history == [] && s.shared.calls == []
    && s.shared.active.Keys == s.shared.caps.Keys && s.shared.base == s.shared.active
    && forall q :: q in s.shared.caps ==>
         q.gen == 0 && 0 <= s.shared.active[q] && (s.shared.caps[q] > 0 ==> s.shared.active[q] <= s.shared.caps[q])
  }

  // ------------------------------------------------------------------- sums over processes

  /** A number attached to each process. */
  datatype Measure =
    | SlotIn(counter: Counter)
    | InGauge(provider: string)
    | Between(provider: string)
    | Requests
    | NoCap
    | Failures
    | BlockEvents
    | Locals
    | Remotes
    | Finished
    | Unsourced
    | FailedAttempts
    | Deserved(penalty: Penalty)
    | Owed(penalty: Penalty)
    | Unjudged

  /** A failure was counted, and the iteration is not over. */
  predicate AfterCount(pc: Pc) {
    pc == Cool || pc == Bar || pc == CountBlock
  }

  /** The block has been set, and the iteration is not over. */
  predicate Imposing(p: Process, x: Penalty) {
    p.pc == CountBlock && (x == AnyBlock || x == BlockOf(p.entry.providerID))
  }

  function Weigh(m: Measure, p: Process): int {
    match m
    case SlotIn(q) => (if p.held == Some(q) then 1 else 0) + if p.mheld == Some(q) then 1 else 0
    case InGauge(id) => if p.raised && p.entry.providerID == id then 1 else 0
    case Between(id) =>
      if p.entry.providerID != id then 0 else if p.pc == Raise then 1 else if p.pc == Lower then -1 else 0
    case Requests => p.tally.requests
    case NoCap => p.tally.noCapacity
    case Failures => p.tally.failures
    case BlockEvents => p.tally.blockEvents
    case Locals => p.tally.local
    case Remotes => p.tally.remote
    case Finished => if !p.forwarder && p.pc == Ended then 1 else 0
    case Unsourced => if p.pc == CountSource then 1 else 0
    case FailedAttempts => if p.forwarder then 0 else FailedCalls(p.steps)
    case Deserved(x) => if p.forwarder then 0 else Earned(p.steps, x)
    case Owed(x) => if p.forwarder then 0 else Earned(p.steps, x) + if Imposing(p, x) then 1 else 0
    case Unjudged => if AfterCount(p.pc) then 1 else 0
  }

  function Total(m: Measure, ps: seq<Process>): int {
    if ps == [] then 0 else Total(m, ps[..|ps| - 1]) + Weigh(m, ps[|ps| - 1])
  }

  lemma TotalSnoc(m: Measure, ps: seq<Process>, p: Process)
    ensures Total(m, ps + [p]) == Total(m, ps) + Weigh(m, p)
  {
    assert (ps + [p])[..|ps|] == ps;
  }

  lemma {:induction false} TotalUpdate(m: Measure, ps: seq<Process>, i: nat, p: Process)
    requires i < |ps|
    ensures Total(m, ps[i := p]) == Total(m, ps) - Weigh(m, ps[i]) + Weigh(m, p)
  {
    var n := |ps| - 1;
    if i < n {
      TotalUpdate(m, ps[..n], i, p);
      assert ps[i := p][..n] == ps[..n][i := p];
    } else {
      assert ps[i := p][..n] == ps[..n];
    }
  }
}
