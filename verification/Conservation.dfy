/** Concurrency slots under every interleaving: what the counters and the gauge hold at any moment. */
module Conservation {
  import opened Prelude
  import opened Entries
  import opened Windows
  import opened Routing
  import opened Processes

  // ------------------------------------------------------------------ where a slot is held

  /** Between taking a provider slot and returning it. */
  predicate HoldsProvider(pc: Pc) {
    match pc
    case Raise => true
    case Take(t) => t == ModelTier
    case Load(t, _) => t == ModelTier
    case Swap(t, _, _) => t == ModelTier
    case Call => true
    case Await => true
    case Return(t) => t == ProviderTier
    case RetLoad(t, _) => t == ProviderTier
    case RetSwap(t, _, _) => t == ProviderTier
    case _ => false
  }

  predicate InTheGauge(pc: Pc) {
    (HoldsProvider(pc) && pc != Raise) || pc == Lower
  }

  predicate Returning(pc: Pc) {
    pc.Return? || pc.RetLoad? || pc.RetSwap? || pc == Lower
  }

  /** Between taking a model slot and returning it. */
  predicate HoldsModel(p: Process) {
    p.pc == Call || p.pc == Await || (Returning(p.pc) && p.reply.Some?)
  }

  function ProviderCounter(gen: nat, p: Process): Counter {
    Counter(gen, ProviderTier, p.entry.providerID)
  }

  function ModelCounter(p: Process): Option<Counter> {
    if p.models.Some? then Some(Counter(p.models.value, ModelTier, Key(p.entry.providerID, p.entry.modelID))) else None
  }

  function IfCapped(caps: map<Counter, int>, q: Option<Counter>): Option<Counter> {
    if q.Some? && q.value in caps then q else None
  }

  /** What processes go by: caps, restored values and the current generation. `tied` says that no reload so
      far has parted a process from the provider counter it uses. */
  datatype Law = Law(caps: map<Counter, int>, base: map<Counter, int>, gen: nat, tied: bool)

  function LawOf(sh: Shared, tied: bool): Law {
    Law(sh.caps, sh.base, sh.gen, tied)
  }

  /** A counter that its restored value keeps full for good. */
  predicate Closed(l: Law, q: Counter) {
    q in l.caps && q in l.base && l.caps[q] != 0 && l.base[q] >= l.caps[q]
  }

  /** About to take a provider slot, the counter looked up already. */
  predicate Arriving(pc: Pc) {
    (pc.Load? || pc.Swap?) && pc.tier == ProviderTier
  }

  /** About to return a provider slot, the counter looked up already. */
  predicate Departing(pc: Pc) {
    (pc.RetLoad? || pc.RetSwap?) && pc.tier == ProviderTier
  }

  /** The provider slot of a process that was never parted from its counter. */
  function TiedSlot(l: Law, p: Process): Option<Counter> {
    if Departing(p.pc) then Some(p.pc.counter)
    else if HoldsProvider(p.pc) then IfCapped(l.caps, Some(ProviderCounter(l.gen, p)))
    else None
  }

  /** Is `q` the counter that `p` uses on tier `t`? Provider counters are looked up anew each time, so
      after a reload only the provider is certain. */
  predicate Uses(l: Law, p: Process, t: Tier, q: Counter) {
    && q in l.caps
    && if t == ProviderTier then q.tier == ProviderTier && q.key == p.entry.providerID && q.gen <= l.gen
       else Some(q) == ModelCounter(p)
  }

  /** What a process holds. */
  predicate Holding(l: Law, p: Process) {
    && (p.models.Some? ==> p.models.value <= l.gen)
    && (p.held.Some? ==> p.held.value.tier == ProviderTier)
    && (l.tied ==> p.held == TiedSlot(l, p))
    && p.mheld == (if HoldsModel(p) then IfCapped(l.caps, ModelCounter(p)) else None)
    && p.raised == InTheGauge(p.pc)
  }

  /** A provider slot is taken of the current counter, unless there is none to be had. */
  predicate MayTake(l: Law, t: Tier, q: Counter) {
    t == ProviderTier && l.tied ==> q.gen == l.gen || Closed(l, q)
  }

  /** What its position says about a process. */
  predicate Placed(l: Law, p: Process) {
    match p.pc
    case Capture => p.reply.None?
    case Take(t) => p.reply.None?
    case Load(t, q) => p.reply.None? && Uses(l, p, t, q) && MayTake(l, t, q)
    case Swap(t, q, seen) => p.reply.None? && Uses(l, p, t, q) && MayTake(l, t, q) && 0 <= seen < l.caps[q]
    case Raise => p.reply.None?
    case Call => p.reply.None?
    case Await => p.reply.None?
    case Return(t) => t == ModelTier ==> p.reply.Some?
    case RetLoad(t, q) => (t == ModelTier ==> p.reply.Some?) && Uses(l, p, t, q)
    case RetSwap(t, q, seen) => (t == ModelTier ==> p.reply.Some?) && Uses(l, p, t, q) && seen > 0
    case _ => true
  }

  /** What is true of every process. */
  predicate Orderly(l: Law, p: Process) {
    Holding(l, p) && Placed(l, p)
  }

  /** No counter falls below its restored value. */
  ghost predicate Afloat(sh: Shared, tied: bool) {
    tied ==> forall q :: q in sh.caps && q.tier == ProviderTier ==> q in sh.base && ActiveOf(sh, q) >= sh.base[q]
  }

  /** Every counter lies between zero and its cap. */
  ghost predicate Bounded(sh: Shared) {
    && sh.active.Keys == sh.caps.Keys == sh.base.Keys
    && forall q :: q in sh.caps ==>
         && q.gen <= sh.gen && sh.base[q] >= 0
         && 0 <= sh.active[q] && (sh.caps[q] > 0 ==> sh.active[q] <= sh.caps[q])
  }

  /** Moving on without taking or returning anything. */
  lemma MovedOn(l: Law, p: Process, pc: Pc)
    requires Holding(l, p)
    requires HoldsProvider(pc) == HoldsProvider(p.pc) && InTheGauge(pc) == InTheGauge(p.pc)
    requires HoldsModel(p.(pc := pc)) == HoldsModel(p)
    requires l.tied ==> TiedSlot(l, p.(pc := pc)) == TiedSlot(l, p)
    ensures Holding(l, p.(pc := pc))
  {
  }

  lemma GotHolding(l: Law, p: Process, t: Tier, h: Option<Counter>)
    requires Holding(l, p) && p.reply.None? && (p.pc.Take? || p.pc.Load? || p.pc.Swap?) && p.pc.tier == t
    requires t == ProviderTier ==>
               (h.Some? ==> h.value.tier == t) && (l.tied ==> h == IfCapped(l.caps, Some(ProviderCounter(l.gen, p))))
    requires t == ModelTier ==> h == IfCapped(l.caps, ModelCounter(p))
    ensures Orderly(l, Got(p, t, h))
  {
  }

  lemma GaveHolding(l: Law, p: Process, t: Tier)
    requires Orderly(l, p) && (p.pc.Return? || p.pc.RetLoad? || p.pc.RetSwap?) && p.pc.tier == t
    ensures Orderly(l, Gave(p, t))
  {
  }

  /** The counter in use is the counter to be held. */
  lemma UsedIsHeld(l: Law, p: Process, t: Tier, q: Counter)
    requires Uses(l, p, t, q)
    ensures t == ProviderTier && q.gen == l.gen ==> Some(q) == IfCapped(l.caps, Some(ProviderCounter(l.gen, p)))
    ensures t == ModelTier ==> Some(q) == IfCapped(l.caps, ModelCounter(p))
  {
  }

  lemma Unmoved(l: Law, p: Process, pc: Pc)
    requires Holding(l, p)
    requires (p.pc.Take? || p.pc.Load? || p.pc.Swap?) && p.reply.None?
    requires || ((pc.Take? || pc.Load? || pc.Swap?) && pc.tier == p.pc.tier)
             || pc == if p.pc.tier == ProviderTier then Reject else Return(ProviderTier)
    ensures Holding(l, p.(pc := pc))
  {
    MovedOn(l, p, pc);
  }

  lemma TakeOrderly(sh: Shared, tied: bool, p: Process)
    requires Orderly(LawOf(sh, tied), p) && Bounded(sh) && p.pc.Take?
    ensures Orderly(LawOf(sh, tied), AcquireStep(sh, p).process)
  {
    hide Key, Holding, HoldsProvider, HoldsModel, InTheGauge, Got;
    var r, t := AcquireStep(sh, p).process, p.pc.tier;
    if CounterFor(sh, p, t).None? {
      GotHolding(LawOf(sh, tied), p, t, None);
    } else {
      Unmoved(LawOf(sh, tied), p, r.pc);
    }
  }

  lemma AcquireOrderly(sh: Shared, tied: bool, p: Process)
    requires Orderly(LawOf(sh, tied), p) && Bounded(sh) && Afloat(sh, tied) && (p.pc.Take? || p.pc.Load? || p.pc.Swap?)
    ensures var r := AcquireStep(sh, p);
            Orderly(LawOf(sh, tied), r.process) && r.spawned == []
  {
    hide Key, Holding, HoldsProvider, HoldsModel, InTheGauge, Got, CounterFor;
    var l, r := LawOf(sh, tied), AcquireStep(sh, p).process;
    match p.pc
    case Take(t) => TakeOrderly(sh, tied, p);
    case Load(t, q) =>
      UsedIsHeld(l, p, t, q);
      if sh.caps[q] == 0 {
        GotHolding(l, p, t, Some(q));
      } else {
        Unmoved(l, p, r.pc);
      }
    case Swap(t, q, seen) =>
      UsedIsHeld(l, p, t, q);
      if ActiveOf(sh, q) == seen {
        GotHolding(l, p, t, Some(q));
      } else {
        Unmoved(l, p, r.pc);
      }
  }

  lemma Unreturned(l: Law, p: Process, pc: Pc)
    requires Holding(l, p)
    requires (p.pc.Return? || p.pc.RetLoad? || p.pc.RetSwap?) && (pc.Return? || pc.RetLoad? || pc.RetSwap?)
             && p.pc.tier == pc.tier
    requires l.tied ==> TiedSlot(l, p.(pc := pc)) == TiedSlot(l, p)
    ensures Holding(l, p.(pc := pc))
  {
    hide TiedSlot;
    MovedOn(l, p, pc);
  }

  lemma ReleaseOrderly(sh: Shared, tied: bool, p: Process)
    requires Orderly(LawOf(sh, tied), p) && Bounded(sh) && (p.pc.Return? || p.pc.RetLoad? || p.pc.RetSwap?)
    ensures var r := ReleaseStep(sh, p);
            Orderly(LawOf(sh, tied), r.process) && r.spawned == []
  {
    hide Key, Holding, HoldsModel, InTheGauge, Gave;
    var r := ReleaseStep(sh, p).process;
    GaveHolding(LawOf(sh, tied), p, p.pc.tier);
    if r != Gave(p, p.pc.tier) {
      Unreturned(LawOf(sh, tied), p, r.pc);
    }
  }

  lemma AwaitReturns(l: Law, p: Process, r: Reply, forwarder: bool, tally: Tally)
    requires Orderly(l, p) && p.pc == Await
    ensures Orderly(l, p.(forwarder := forwarder, tally := tally, reply := Some(r), pc := Return(ProviderTier)))
  {
    hide IfCapped;
  }

  lemma HandedOver(l: Law, p: Process, r: Reply)
    requires Orderly(l, p) && p.pc == Await
    ensures Orderly(l, p.(reply := Some(r), held := None, mheld := None, raised := false, pc := CountRequest))
  {
    hide IfCapped;
  }

  lemma CallOrderly(sh: Shared, tied: bool, p: Process, reply: Reply)
    requires Orderly(LawOf(sh, tied), p) && (p.pc == Call || p.pc == Await)
    ensures var r := CallStep(sh, p, reply);
            Orderly(LawOf(sh, tied), r.process) && forall c :: c in r.spawned ==> Orderly(LawOf(sh, tied), c)
  {
    hide Holding, ReplyTo;
    if p.pc == Call {
      MovedOn(LawOf(sh, tied), p, Await);
    } else {
      hide Placed;
      var r := ReplyTo(p.kind, reply);
      AwaitReturns(LawOf(sh, tied), p, r, p.forwarder, p.tally);
      AwaitReturns(LawOf(sh, tied), p, Ok, true, NOTHING);
      HandedOver(LawOf(sh, tied), p, r);
    }
  }

  /** Positions at which nothing is held. */
  predicate IdleAt(pc: Pc) {
    match pc
    case Selecting => true
    case Probe(_, _, _, _) => true
    case Refused => true
    case Capture => true
    case Reject => true
    case CountFailure => true
    case Cool => true
    case Bar => true
    case CountBlock => true
    case CountRequest => true
    case CountSource => true
    case Ended => true
    case _ => false
  }

  /** A candidate is being chosen. */
  predicate Picking(pc: Pc) {
    pc == Selecting || pc.Probe?
  }

  /** Same counters, same caps. */
  predicate SameCounters(a: Shared, b: Shared) {
    a.caps == b.caps && a.gen == b.gen && a.base == b.base && a.active == b.active
  }

  /** A step from one idle position to another. */
  predicate Quiet(sh: Shared, p: Process, r: Advanced) {
    var p' := r.process;
    && SameCounters(sh, r.shared) && r.shared.metrics.active == sh.metrics.active && r.spawned == []
    && p'.held == p.held && p'.mheld == p.mheld && p'.raised == p.raised && p'.models == p.models
    && IdleAt(p'.pc) && (p'.pc == Capture ==> p'.reply.None?)
  }

  lemma CountQuiet(sh: Shared, p: Process)
    requires IdleAt(p.pc) && !p.pc.Probe? && p.pc != Capture
    ensures Quiet(sh, p, CountStep(sh, p))
  {
    hide Sift, Cut, Bumped, Blocks;
  }

  /** A selection visits its entries one after the other. */
  predicate Visiting(p: Process, p': Process)
    requires p.pc.Probe?
  {
    && (p'.pc.Probe? ==> p'.pc.providers == p.pc.providers && p'.pc.models == p.pc.models)
    && if p.pc.stage != AtClock then p'.entry == p.entry && (p'.pc.Probe? ==> p'.pc.rest == p.pc.rest)
       else if p.pc.rest == [] then p'.entry == p.entry && p'.pc == Refused
       else p'.entry == p.pc.rest[0] && p'.pc.Probe? && p'.pc.rest == p.pc.rest[1..]
  }

  /** All that a step of selection can change. */
  predicate Choosing(sh: Shared, p: Process, r: Advanced) {
    var a, p' := r.shared, r.process;
    && a == sh.(gate := a.gate, retired := a.retired, tick := a.tick, history := a.history)
    && p' == p.(entry := p'.entry, reply := p'.reply, marks := p'.marks, pc := p'.pc)
    && r.spawned == []
    && (p'.pc.Probe? || p'.pc == Refused || (p'.pc == Capture && p'.reply.None?))
    && (p.pc.Probe? ==> Visiting(p, p'))
  }

  /** Going on with the same entry. */
  lemma OntoChoosing(sh: Shared, a: Shared, p: Process, stage: Stage, marks: Marks)
    requires p.pc.Probe? && p.pc.stage != AtClock
    requires a == sh.(gate := a.gate, retired := a.retired, tick := a.tick, history := a.history)
    ensures Choosing(sh, p, Stay(a, Onto(p, stage))) && Choosing(sh, p, Stay(a, Onto(p, stage).(marks := marks)))
  {
  }

  lemma StateChoosing(sh: Shared, p: Process, now: Time, env: Env)
    requires p.pc.Probe?
    ensures p.pc.stage != AtClock ==> Choosing(sh, p, StateCheck(sh, p, now, env))
  {
  }

  /** Putting a model tracker back changes nothing else. */
  lemma TrackerPut(sh: Shared, gen: nat, v: TrackerView)
    ensures var a := WithModelTracker(sh, gen, v);
            a == sh.(gate := sh.gate.(mlim := a.gate.mlim), retired := a.retired)
  {
  }

  lemma CooldownChoosing(sh: Shared, p: Process, gen: nat, ml: TrackerView, env: Env)
    requires p.pc.Probe?
    ensures p.pc.stage != AtClock ==> Choosing(sh, p, CooldownStep(sh, p, gen, ml, env))
  {
    hide Forget, Cooling, Key, WithModelTracker, Onto, Choosing;
    TrackerPut(sh, gen, Forget(ml, Key(p.entry.providerID, p.entry.modelID), env.time(sh.tick)));
    if p.pc.stage != AtClock {
      var r := CooldownStep(sh, p, gen, ml, env);
      OntoChoosing(sh, r.shared, p, AtClock, p.marks);
      OntoChoosing(sh, r.shared, p, AtModel, p.marks.(keyLook := Some(|sh.history|)));
    }
  }

  lemma WindowChoosing(sh: Shared, p: Process, gen: nat, ml: TrackerView, env: Env)
    requires p.pc.Probe?
    ensures p.pc.stage != AtClock ==> Choosing(sh, p, WindowStep(sh, p, gen, ml, env))
  {
    hide Record, Key, LastOf, WithModelTracker;
    TrackerPut(sh, gen, Record(ml, Key(p.entry.providerID, p.entry.modelID), env.time(sh.tick)).view);
  }

  lemma ModelChoosing(sh: Shared, p: Process, env: Env)
    requires p.pc.Probe?
    ensures p.pc.stage != AtClock ==> Choosing(sh, p, ModelStep(sh, p, env))
  {
    hide CooldownStep, WindowStep, ModelTracker;
    var ml := if p.pc.models.Some? then ModelTracker(sh, p.pc.models.value) else None;
    if ml.Some? {
      CooldownChoosing(sh, p, p.pc.models.value, ml.value, env);
      WindowChoosing(sh, p, p.pc.models.value, ml.value, env);
    }
  }

  lemma ProviderChoosing(sh: Shared, p: Process, env: Env)
    requires p.pc.Probe?
    ensures p.pc.stage != AtClock ==> Choosing(sh, p, ProviderStep(sh, p, env))
  {
    hide Record;
  }

  lemma SelectChoosing(sh: Shared, p: Process, env: Env)
    requires Picking(p.pc)
    ensures Choosing(sh, p, if p.pc.Probe? then ProbeStep(sh, p, env) else SelectStep(sh, p))
  {
    hide StateCheck, ModelStep, ProviderStep;
    if p.pc.Probe? {
      match p.pc.stage
      case AtClock =>
      case AtState(now) => StateChoosing(sh, p, now, env);
      case AtCooldown => ModelChoosing(sh, p, env);
      case AtModel => ModelChoosing(sh, p, env);
      case _ => ProviderChoosing(sh, p, env);
    }
  }

  lemma SelectQuiet(sh: Shared, p: Process, env: Env)
    requires Picking(p.pc)
    ensures Quiet(sh, p, if p.pc.Probe? then ProbeStep(sh, p, env) else SelectStep(sh, p))
  {
    hide ProbeStep, SelectStep;
    SelectChoosing(sh, p, env);
  }

  lemma PenaltyQuiet(sh: Shared, p: Process, env: Env)
    requires p.pc == Cool || p.pc == Bar
    ensures Quiet(sh, p, PenaltyStep(sh, p, env))
  {
    hide Sift, Cut, RetryAfter, BlockKey, Fallback, RecoveryOf, Key;
  }

  lemma IdleQuiet(sh: Shared, p: Process, reply: Reply, env: Env)
    requires IdleAt(p.pc) && p.pc != Capture
    ensures Quiet(sh, p, Advance(sh, p, reply, env))
  {
    hide CountStep, SelectStep, ProbeStep, PenaltyStep, Quiet;
    match p.pc
    case Selecting => SelectQuiet(sh, p, env);
    case Probe(_, _, _, _) => SelectQuiet(sh, p, env);
    case Cool => PenaltyQuiet(sh, p, env);
    case Bar => PenaltyQuiet(sh, p, env);
    case _ => CountQuiet(sh, p);
  }

  lemma QuietOrderly(l: Law, sh: Shared, p: Process, r: Advanced)
    requires Holding(l, p) && IdleAt(p.pc) && Quiet(sh, p, r)
    ensures Orderly(l, r.process)
  {
  }

  lemma GaugeOrderly(sh: Shared, tied: bool, p: Process)
    requires Orderly(LawOf(sh, tied), p) && (p.pc == Raise || p.pc == Lower)
    ensures var r := GaugeStep(sh, p);
            Orderly(LawOf(sh, tied), r.process) && r.spawned == [] && SameCounters(sh, r.shared)
  {
    hide Key, Bumped;
  }

  lemma CaptureOrderly(sh: Shared, tied: bool, p: Process)
    requires Orderly(LawOf(sh, tied), p) && p.pc == Capture
    ensures Orderly(LawOf(sh, tied), p.(models := ModelsNow(sh), pc := Take(ProviderTier)))
  {
  }

  lemma AdvanceOrderly(sh: Shared, tied: bool, p: Process, reply: Reply, env: Env)
    requires Orderly(LawOf(sh, tied), p) && Bounded(sh) && Afloat(sh, tied)
    ensures var r := Advance(sh, p, reply, env);
            Orderly(LawOf(sh, tied), r.process) && forall c :: c in r.spawned ==> Orderly(LawOf(sh, tied), c)
  {
    hide Placed, Holding, Bounded, AcquireStep, ReleaseStep, CallStep, CountStep, GaugeStep, PenaltyStep;
    hide SelectStep, ProbeStep;
    match p.pc
    case Capture => CaptureOrderly(sh, tied, p);
    case Take(_) => AcquireOrderly(sh, tied, p);
    case Load(_, _) => AcquireOrderly(sh, tied, p);
    case Swap(_, _, _) => AcquireOrderly(sh, tied, p);
    case Return(_) => ReleaseOrderly(sh, tied, p);
    case RetLoad(_, _) => ReleaseOrderly(sh, tied, p);
    case RetSwap(_, _, _) => ReleaseOrderly(sh, tied, p);
    case Call => CallOrderly(sh, tied, p, reply);
    case Await => CallOrderly(sh, tied, p, reply);
    case Raise => GaugeOrderly(sh, tied, p);
    case Lower => GaugeOrderly(sh, tied, p);
    case _ =>
      IdleQuiet(sh, p, reply, env);
      QuietOrderly(LawOf(sh, tied), sh, p, Advance(sh, p, reply, env));
  }

  // ------------------------------------------------------------------- what a step leaves alone

  predicate OnCounter(pc: Pc) {
    pc.Take? || pc.Load? || pc.Swap? || pc.Return? || pc.RetLoad? || pc.RetSwap?
  }

  lemma CallCounters(sh: Shared, p: Process, reply: Reply)
    ensures SameCounters(sh, CallStep(sh, p, reply).shared)
  {
    hide Forwarder, ReplyTo;
  }

  lemma GaugeCounters(sh: Shared, p: Process)
    ensures SameCounters(sh, GaugeStep(sh, p).shared)
  {
    hide Bumped;
  }

  lemma OtherCounters(sh: Shared, p: Process, reply: Reply, env: Env)
    requires !OnCounter(p.pc)
    ensures SameCounters(sh, Advance(sh, p, reply, env).shared)
  {
    hide CountStep, SelectStep, ProbeStep, PenaltyStep, CallStep, GaugeStep;
    CallCounters(sh, p, reply);
    GaugeCounters(sh, p);
    if IdleAt(p.pc) && p.pc != Capture {
      IdleQuiet(sh, p, reply, env);
    }
  }

  /** All that a step on a counter can change. */
  predicate Mechanical(sh: Shared, p: Process, r: Advanced) {
    && r.process == p.(pc := r.process.pc, held := r.process.held, mheld := r.process.mheld)
    && r.spawned == [] && r.shared == sh.(active := r.shared.active)
    && InTheGauge(r.process.pc) == InTheGauge(p.pc)
  }

  lemma AcquireMechanical(sh: Shared, p: Process)
    requires p.pc.Take? || p.pc.Load? || p.pc.Swap?
    ensures Mechanical(sh, p, AcquireStep(sh, p))
  {
    hide CounterFor;
  }

  lemma ReleaseMechanical(sh: Shared, p: Process)
    requires p.pc.Return? || p.pc.RetLoad? || p.pc.RetSwap?
    ensures Mechanical(sh, p, ReleaseStep(sh, p))
  {
    hide CounterFor;
  }

  lemma AcquireActive(sh: Shared, tied: bool, p: Process)
    requires Placed(LawOf(sh, tied), p) && Bounded(sh) && (p.pc.Take? || p.pc.Load? || p.pc.Swap?)
    ensures var active := AcquireStep(sh, p).shared.active;
            active == sh.active ||
            (!p.pc.Take? && var q := p.pc.counter;
             q in sh.caps && (sh.caps[q] != 0 ==> sh.active[q] < sh.caps[q])
             && active == sh.active[q := sh.active[q] + 1])
  {
    hide Key, CounterFor, Got;
  }

  lemma ReleaseActive(sh: Shared, tied: bool, p: Process)
    requires Placed(LawOf(sh, tied), p) && Bounded(sh) && (p.pc.Return? || p.pc.RetLoad? || p.pc.RetSwap?)
    ensures var active := ReleaseStep(sh, p).shared.active;
            active == sh.active ||
            (!p.pc.Return? && var q := p.pc.counter;
             q in sh.caps && sh.active[q] > 0 && active == sh.active[q := sh.active[q] - 1])
  {
    hide Key, CounterFor, Gave, ModelCounter;
  }

  lemma CounterBounded(sh: Shared, q: Counter, v: int)
    requires Bounded(sh) && q in sh.caps && 0 <= v && (sh.caps[q] > 0 ==> v <= sh.caps[q])
    ensures Bounded(sh.(active := sh.active[q := v]))
  {
  }

  /** A slot is refused only by a load that finds its counter at a cap; a swap that comes too late, because the
      counter has moved, changes nothing and loads again, and so does a late swap on the way back. */
  lemma RefusedOnlyFull(sh: Shared, p: Process)
    requires OnCounter(p.pc)
    ensures p.pc.Take? || p.pc.Load? || p.pc.Swap? ==>
              var r := AcquireStep(sh, p);
              && (r.process.pc == Reject || r.process.pc == Return(ProviderTier) ==>
                    p.pc.Load? && 0 != CapOf(sh, p.pc.counter) <= ActiveOf(sh, p.pc.counter))
              && (p.pc.Swap? && ActiveOf(sh, p.pc.counter) != p.pc.seen ==>
                    r.shared == sh && r.process == p.(pc := Load(p.pc.tier, p.pc.counter)))
    ensures p.pc.RetSwap? && ActiveOf(sh, p.pc.counter) != p.pc.seen ==>
              var r := ReleaseStep(sh, p);
              r.shared == sh && r.process == p.(pc := RetLoad(p.pc.tier, p.pc.counter))
  {
    hide CounterFor;
  }

  lemma AcquireBounded(sh: Shared, tied: bool, p: Process)
    requires Orderly(LawOf(sh, tied), p) && Bounded(sh) && (p.pc.Take? || p.pc.Load? || p.pc.Swap?)
    ensures Bounded(AcquireStep(sh, p).shared)
  {
    hide Holding, Placed, AcquireStep;
    AcquireMechanical(sh, p);
    AcquireActive(sh, tied, p);
    var active := AcquireStep(sh, p).shared.active;
    if active != sh.active {
      CounterBounded(sh, p.pc.counter, sh.active[p.pc.counter] + 1);
    }
  }

  lemma ReleaseBounded(sh: Shared, tied: bool, p: Process)
    requires Orderly(LawOf(sh, tied), p) && Bounded(sh) && (p.pc.Return? || p.pc.RetLoad? || p.pc.RetSwap?)
    ensures Bounded(ReleaseStep(sh, p).shared)
  {
    hide Holding, Placed, ReleaseStep;
    ReleaseMechanical(sh, p);
    ReleaseActive(sh, tied, p);
    var active := ReleaseStep(sh, p).shared.active;
    if active != sh.active {
      CounterBounded(sh, p.pc.counter, sh.active[p.pc.counter] - 1);
    }
  }

  lemma AdvanceBounded(sh: Shared, tied: bool, p: Process, reply: Reply, env: Env)
    requires Orderly(LawOf(sh, tied), p) && Bounded(sh)
    ensures var r := Advance(sh, p, reply, env);
            Bounded(r.shared) && r.shared.caps == sh.caps && r.shared.gen == sh.gen && r.shared.base == sh.base
  {
    hide Orderly, AcquireStep, ReleaseStep, SelectStep, ProbeStep, CountStep, GaugeStep, PenaltyStep, CallStep;
    if !OnCounter(p.pc) {
      OtherCounters(sh, p, reply, env);
    } else {
      hide Bounded;
      if p.pc.Take? || p.pc.Load? || p.pc.Swap? {
        AcquireMechanical(sh, p);
        AcquireBounded(sh, tied, p);
      } else {
        ReleaseMechanical(sh, p);
        ReleaseBounded(sh, tied, p);
      }
    }
  }

  /** A Release never finds its counter at zero (provider counters: as long as there was no reload). */
  ghost predicate Unclamped(sh: Shared, tied: bool, p: Process) {
    p.pc.RetLoad? && (tied || p.pc.tier == ModelTier) ==> ActiveOf(sh, p.pc.counter) > 0
  }

  lemma TotalOne(m: Measure, p: Process)
    ensures Total(m, [p]) == Weigh(m, p) && Total(m, []) == 0
  {
    TotalSnoc(m, [], p);
    assert [] + [p] == [p];
  }

  lemma GotWeight(l: Law, p: Process, t: Tier, h: Option<Counter>, q: Counter)
    requires Orderly(l, p) && (p.pc.Take? || p.pc.Load? || p.pc.Swap?) && p.pc.tier == t
    requires (l.tied || q.tier == ModelTier) && (h.Some? ==> h.value.tier == t)
    ensures Weigh(SlotIn(q), Got(p, t, h)) == Weigh(SlotIn(q), p) + if h == Some(q) then 1 else 0
  {
  }

  lemma GaveWeight(l: Law, p: Process, t: Tier, q: Counter)
    requires Orderly(l, p) && (p.pc.Return? || p.pc.RetLoad? || p.pc.RetSwap?) && p.pc.tier == t
    requires l.tied || q.tier == ModelTier
    ensures var h := if t == ProviderTier then p.held else p.mheld;
            Weigh(SlotIn(q), Gave(p, t)) == Weigh(SlotIn(q), p) - if h == Some(q) then 1 else 0
  {
  }

  /** What a step of TryAcquire comes to. */
  lemma AcquireShape(sh: Shared, p: Process)
    requires p.pc.Take? || p.pc.Load? || p.pc.Swap?
    ensures var r, t := AcquireStep(sh, p), p.pc.tier;
            || (r.shared.active == sh.active && (r.process == p.(pc := r.process.pc) || r.process == Got(p, t, None)))
            || (!p.pc.Take? && r.process == Got(p, t, Some(p.pc.counter))
                && r.shared.active == sh.active[p.pc.counter := ActiveOf(sh, p.pc.counter) + 1])
  {
    hide Got, CounterFor;
  }

  lemma AcquireSlot(sh: Shared, tied: bool, p: Process, q: Counter)
    requires Orderly(LawOf(sh, tied), p) && Bounded(sh) && (p.pc.Take? || p.pc.Load? || p.pc.Swap?)
    requires q in sh.caps && (tied || q.tier == ModelTier)
    ensures var r := AcquireStep(sh, p);
            ActiveOf(r.shared, q) - ActiveOf(sh, q) == Weigh(SlotIn(q), r.process) - Weigh(SlotIn(q), p)
  {
    hide AcquireStep, Got, Holding;
    AcquireShape(sh, p);
    GotWeight(LawOf(sh, tied), p, p.pc.tier, None, q);
    if !p.pc.Take? {
      GotWeight(LawOf(sh, tied), p, p.pc.tier, Some(p.pc.counter), q);
    }
  }

  /** Looking the counter up again finds the one in which the slot is held. */
  lemma HeldInUse(sh: Shared, tied: bool, p: Process)
    requires Orderly(LawOf(sh, tied), p) && (p.pc.Return? || p.pc.RetLoad? || p.pc.RetSwap?)
    ensures var t := p.pc.tier;
            && (tied || t == ModelTier ==>
                 (if t == ProviderTier then p.held else p.mheld) == if p.pc.Return? then CounterFor(sh, p, t)
                 else Some(p.pc.counter))
            && (!p.pc.Return? ==> p.pc.counter in sh.caps && p.pc.counter.tier == t)
            && (p.held.Some? ==> p.held.value.tier == ProviderTier)
            && (p.pc.RetSwap? ==> p.pc.seen > 0)
  {
    hide Key;
  }

  /** What a step of Release comes to. */
  lemma ReleaseShape(sh: Shared, p: Process)
    requires p.pc.Return? || p.pc.RetLoad? || p.pc.RetSwap?
    ensures var r, t := ReleaseStep(sh, p), p.pc.tier;
            || (r.shared.active == sh.active && r.process == p.(pc := r.process.pc))
            || (r.shared.active == sh.active && r.process == Gave(p, t) && p.pc.Return? && CounterFor(sh, p, t).None?)
            || (r.shared.active == sh.active && r.process == Gave(p, t) && p.pc.RetLoad?
                && ActiveOf(sh, p.pc.counter) <= 0)
            || (p.pc.RetSwap? && r.process == Gave(p, t)
                && r.shared.active == sh.active[p.pc.counter := ActiveOf(sh, p.pc.counter) - 1])
  {
    hide Gave, CounterFor;
  }

  lemma ReleaseSlot(sh: Shared, tied: bool, p: Process, q: Counter)
    requires Orderly(LawOf(sh, tied), p) && Bounded(sh) && (p.pc.Return? || p.pc.RetLoad? || p.pc.RetSwap?)
             && Unclamped(sh, tied, p)
    requires q in sh.caps && (tied || q.tier == ModelTier)
    ensures var r := ReleaseStep(sh, p);
            ActiveOf(r.shared, q) - ActiveOf(sh, q) == Weigh(SlotIn(q), r.process) - Weigh(SlotIn(q), p)
  {
    hide ReleaseStep, Gave, CounterFor, Orderly;
    GaveWeight(LawOf(sh, tied), p, p.pc.tier, q);
    HeldInUse(sh, tied, p);
    ReleaseShape(sh, p);
  }

  lemma CallSlot(sh: Shared, p: Process, reply: Reply, q: Counter)
    ensures var r := CallStep(sh, p, reply);
            Weigh(SlotIn(q), r.process) + Total(SlotIn(q), r.spawned) == Weigh(SlotIn(q), p)
  {
    TotalOne(SlotIn(q), Forwarder(p));
  }

  lemma OtherSlot(sh: Shared, p: Process, reply: Reply, env: Env, q: Counter)
    requires !OnCounter(p.pc)
    ensures var r := Advance(sh, p, reply, env);
            Weigh(SlotIn(q), r.process) + Total(SlotIn(q), r.spawned) == Weigh(SlotIn(q), p)
  {
    hide CountStep, SelectStep, ProbeStep, PenaltyStep, Bumped, CallStep;
    TotalOne(SlotIn(q), p);
    match p.pc
    case Capture =>
    case Raise =>
    case Lower =>
    case Call => CallSlot(sh, p, reply, q);
    case Await => CallSlot(sh, p, reply, q);
    case _ => IdleQuiet(sh, p, reply, env);
  }

  /** A step moves a counter exactly as it moves the number of slots its process holds in it. */
  lemma SlotStep(sh: Shared, tied: bool, p: Process, reply: Reply, env: Env, q: Counter)
    requires Orderly(LawOf(sh, tied), p) && Bounded(sh) && Unclamped(sh, tied, p)
    requires q in sh.caps && (tied || q.tier == ModelTier)
    ensures var r := Advance(sh, p, reply, env);
            ActiveOf(r.shared, q) - ActiveOf(sh, q)
            == Weigh(SlotIn(q), r.process) + Total(SlotIn(q), r.spawned) - Weigh(SlotIn(q), p)
  {
    hide Orderly, AcquireStep, ReleaseStep, SelectStep, ProbeStep, CountStep, GaugeStep, PenaltyStep, CallStep, Weigh;
    TotalOne(SlotIn(q), p);
    if !OnCounter(p.pc) {
      OtherCounters(sh, p, reply, env);
      OtherSlot(sh, p, reply, env, q);
    } else if p.pc.Take? || p.pc.Load? || p.pc.Swap? {
      AcquireMechanical(sh, p);
      AcquireSlot(sh, tied, p, q);
    } else {
      ReleaseMechanical(sh, p);
      ReleaseSlot(sh, tied, p, q);
    }
  }

  // ------------------------------------------------------------------------- whole systems

  /** Slots in use of a counter, over all processes. */
  function Holders(s: System, q: Counter): int {
    Total(SlotIn(q), s.ps)
  }

  /** Does the counter show its restored value plus its holders? */
  predicate Right(s: System, q: Counter) {
    q in s.shared.active && q in s.shared.base && s.shared.active[q] == s.shared.base[q] + Holders(s, q)
  }

  /** Provider counters are bound to their holders as long as no reload parts them. */
  predicate Tracked(s: System, tied: bool, q: Counter) {
    q in s.shared.caps && (tied || q.tier == ModelTier)
  }

  ghost predicate Accountable(s: System, tied: bool) {
    && Bounded(s.shared)
    && (forall i :: 0 <= i < |s.ps| ==> Orderly(LawOf(s.shared, tied), s.ps[i]))
    && (forall q :: Tracked(s, tied, q) ==> Right(s, q))
  }

  lemma {:induction false} HoldersNatural(q: Counter, ps: seq<Process>)
    ensures Total(SlotIn(q), ps) >= 0
  {
    if ps != [] {
      HoldersNatural(q, ps[..|ps| - 1]);
    }
  }

  lemma {:induction false} TotalAtLeast(q: Counter, ps: seq<Process>, i: nat)
    requires i < |ps|
    ensures Total(SlotIn(q), ps) >= Weigh(SlotIn(q), ps[i])
    decreases |ps|
  {
    var n := |ps| - 1;
    if i < n {
      TotalAtLeast(q, ps[..n], i);
    } else {
      HoldersNatural(q, ps[..n]);
    }
  }

  lemma StaysAfloat(s: System, tied: bool)
    requires Accountable(s, tied)
    ensures Afloat(s.shared, tied)
  {
    hide Orderly, Total;
    if tied {
      forall q | q in s.shared.caps && q.tier == ProviderTier
        ensures q in s.shared.base && ActiveOf(s.shared, q) >= s.shared.base[q]
      {
        assert Tracked(s, tied, q);
        HoldersNatural(q, s.ps);
      }
    }
  }

  lemma HeldWhileReturning(l: Law, p: Process)
    requires Orderly(l, p) && p.pc.RetLoad? && (l.tied || p.pc.tier == ModelTier)
    ensures Weigh(SlotIn(p.pc.counter), p) >= 1 && p.pc.counter in l.caps && p.pc.counter.tier == p.pc.tier
  {
  }

  /** A process about to return a slot still holds it, so the counter is not at zero. */
  lemma NeverClamped(s: System, tied: bool, i: nat)
    requires Accountable(s, tied) && i < |s.ps|
    ensures Unclamped(s.shared, tied, s.ps[i])
  {
    hide Total, Orderly;
    var p := s.ps[i];
    if p.pc.RetLoad? && (tied || p.pc.tier == ModelTier) {
      HeldWhileReturning(LawOf(s.shared, tied), p);
      TotalAtLeast(p.pc.counter, s.ps, i);
      assert Tracked(s, tied, p.pc.counter);
    }
  }

  lemma TotalAct(m: Measure, ps: seq<Process>, i: nat, p: Process, spawned: seq<Process>)
    requires i < |ps| && |spawned| <= 1
    ensures Total(m, ps[i := p] + spawned) == Total(m, ps) - Weigh(m, ps[i]) + Weigh(m, p) + Total(m, spawned)
  {
    TotalUpdate(m, ps, i, p);
    if spawned == [] {
      assert ps[i := p] + spawned == ps[i := p];
    } else {
      TotalSnoc(m, ps[i := p], spawned[0]);
      TotalOne(m, spawned[0]);
      assert spawned == [spawned[0]];
    }
  }

  lemma FewSpawned(sh: Shared, p: Process, reply: Reply, env: Env)
    ensures |Advance(sh, p, reply, env).spawned| <= 1
  {
    hide CountStep, SelectStep, ProbeStep, PenaltyStep, Bumped;
    if IdleAt(p.pc) && p.pc != Capture {
      IdleQuiet(sh, p, reply, env);
    }
  }

  lemma ActAccountable(s: System, tied: bool, i: nat, reply: Reply, env: Env)
    requires Accountable(s, tied) && i < |s.ps|
    ensures Accountable(Next(s, Act(i, reply), env), tied)
  {
    hide Advance, Orderly, Total, Weigh, Unclamped, Afloat;
    var p, s' := s.ps[i], Next(s, Act(i, reply), env);
    var r := Advance(s.shared, p, reply, env);
    StaysAfloat(s, tied);
    NeverClamped(s, tied, i);
    FewSpawned(s.shared, p, reply, env);
    AdvanceOrderly(s.shared, tied, p, reply, env);
    AdvanceBounded(s.shared, tied, p, reply, env);
    assert LawOf(r.shared, tied) == LawOf(s.shared, tied);
    forall q | Tracked(s', tied, q)
      ensures Right(s', q)
    {
      assert Tracked(s, tied, q);
      SlotStep(s.shared, tied, p, reply, env, q);
      TotalAct(SlotIn(q), s.ps, i, r.process, r.spawned);
    }
  }

  lemma NewOrderly(l: Law, kind: Kind, resolved: seq<Entry>)
    ensures Orderly(l, NewProcess(kind, resolved))
  {
  }

  lemma BeginAccountable(s: System, tied: bool, kind: Kind, resolved: seq<Entry>, env: Env)
    requires Accountable(s, tied)
    ensures Accountable(Next(s, Begin(kind, resolved), env), tied)
  {
    hide Orderly, Total;
    var s' := Next(s, Begin(kind, resolved), env);
    NewOrderly(LawOf(s.shared, tied), kind, resolved);
    forall q | Tracked(s', tied, q)
      ensures Right(s', q)
    {
      assert Tracked(s, tied, q);
      TotalSnoc(SlotIn(q), s.ps, NewProcess(kind, resolved));
    }
  }

  /** Would a reload with these caps part the process from its provider counter? It would if the process
      has a slot, or can still get one, of a counter that exists before or after, and has yet to look up
      the counter to which it will return it. */
  predicate Exposed(sh: Shared, caps: map<Counter, int>, p: Process) {
    || (HoldsProvider(p.pc) && !Departing(p.pc)
        && (ProviderCounter(sh.gen, p) in sh.caps || ProviderCounter(sh.gen + 1, p) in NewCaps(sh, caps)))
    || (Arriving(p.pc) && !Closed(LawOf(sh, true), p.pc.counter))
  }

  ghost predicate Harmless(s: System, caps: map<Counter, int>) {
    forall i :: 0 <= i < |s.ps| ==> !Exposed(s.shared, caps, s.ps[i])
  }

  /** A reload adds counters of the next generation and changes no other. */
  lemma LawGrows(sh: Shared, tied: bool, setup: Setup, lim: TrackerView, mlim: Option<TrackerView>,
                 caps: map<Counter, int>)
    requires Bounded(sh)
    ensures var l, l' := LawOf(sh, tied), LawOf(Reloaded(sh, setup, lim, mlim, caps), tied);
            && l'.gen == l.gen + 1
            && (forall q :: q in l'.caps <==> q in l.caps || q in NewCaps(sh, caps))
            && (forall q :: q in l.caps ==>
                  q.gen <= l.gen && l'.caps[q] == l.caps[q] && q in l.base && q in l'.base && l'.base[q] == l.base[q])
            && (forall q :: q in NewCaps(sh, caps) ==> q.gen == l.gen + 1)
  {
  }

  lemma PlacedAfter(l: Law, l': Law, p: Process)
    requires Placed(l, p) && l'.gen == l.gen + 1 && (l'.tied ==> l.tied && (Arriving(p.pc) ==> Closed(l, p.pc.counter)))
    requires forall q :: q in l.caps ==>
               q in l'.caps && l'.caps[q] == l.caps[q] && q in l.base && q in l'.base && l'.base[q] == l.base[q]
    ensures Placed(l', p)
  {
    hide Key;
  }

  lemma HoldingAfter(l: Law, l': Law, p: Process)
    requires Holding(l, p) && l'.gen == l.gen + 1 && (l'.tied ==> l.tied)
    requires forall q :: q in l.caps ==> q in l'.caps
    requires forall q :: q in l'.caps && q !in l.caps ==> q.gen == l'.gen
    requires l'.tied && HoldsProvider(p.pc) && !Departing(p.pc) ==>
      ProviderCounter(l.gen, p) !in l.caps && ProviderCounter(l'.gen, p) !in l'.caps
    ensures Holding(l', p)
  {
    hide Key, InTheGauge, HoldsModel;
  }

  /** A process that a reload does not part from its counter goes by the new law as well. */
  lemma ReloadOrderly(sh: Shared, tied: bool, p: Process, setup: Setup, lim: TrackerView, mlim: Option<TrackerView>,
          caps: map<Counter, int>, tied': bool)
    requires Orderly(LawOf(sh, tied), p) && Bounded(sh) && (tied' ==> tied && !Exposed(sh, caps, p))
    ensures Orderly(LawOf(Reloaded(sh, setup, lim, mlim, caps), tied'), p)
  {
    hide Holding, Placed, HoldsProvider, Reloaded, NewCaps, Bounded;
    var l, l' := LawOf(sh, tied), LawOf(Reloaded(sh, setup, lim, mlim, caps), tied');
    LawGrows(sh, tied, setup, lim, mlim, caps);
    PlacedAfter(l, l', p);
    HoldingAfter(l, l', p);
  }

  lemma {:induction false} NoHolders(q: Counter, ps: seq<Process>)
    requires forall i :: 0 <= i < |ps| ==> ps[i].mheld != Some(q) && ps[i].held != Some(q)
    ensures Total(SlotIn(q), ps) == 0
  {
    if ps != [] {
      NoHolders(q, ps[..|ps| - 1]);
    }
  }

  lemma NotYetHeld(l: Law, p: Process, q: Counter)
    requires Orderly(l, p) && (l.tied || q.tier == ModelTier) && q !in l.caps
    ensures p.mheld != Some(q) && p.held != Some(q)
  {
  }

  /** A counter after a reload: as before, or new and unused. */
  lemma ReloadCounter(s: System, tied: bool, setup: Setup, lim: TrackerView, mlim: Option<TrackerView>,
          caps: map<Counter, int>, env: Env, q: Counter)
    requires Accountable(s, tied)
    requires Tracked(Next(s, Reload(setup, lim, mlim, caps), env), tied, q)
    ensures Right(Next(s, Reload(setup, lim, mlim, caps), env), q)
  {
    hide Orderly, Weigh, Total;
    if q in s.shared.caps {
      assert Tracked(s, tied, q);
    } else {
      forall i | 0 <= i < |s.ps|
        ensures s.ps[i].mheld != Some(q) && s.ps[i].held != Some(q)
      {
        NotYetHeld(LawOf(s.shared, tied), s.ps[i], q);
      }
      NoHolders(q, s.ps);
    }
  }

  lemma ReloadBounded(sh: Shared, setup: Setup, lim: TrackerView, mlim: Option<TrackerView>, caps: map<Counter, int>)
    requires Bounded(sh)
    ensures Bounded(Reloaded(sh, setup, lim, mlim, caps))
  {
  }

  lemma ReloadAccountable(s: System, tied: bool, setup: Setup, lim: TrackerView, mlim: Option<TrackerView>,
          caps: map<Counter, int>, env: Env)
    requires Accountable(s, tied)
    ensures Accountable(Next(s, Reload(setup, lim, mlim, caps), env), tied && Harmless(s, caps))
  {
    hide Orderly, Bounded, Exposed, Right;
    var sh, sh' := s.shared, Reloaded(s.shared, setup, lim, mlim, caps);
    var s', tied' := Next(s, Reload(setup, lim, mlim, caps), env), tied && Harmless(s, caps);
    ReloadBounded(sh, setup, lim, mlim, caps);
    forall i | 0 <= i < |s.ps|
      ensures Orderly(LawOf(sh', tied'), s.ps[i])
    {
      ReloadOrderly(sh, tied, s.ps[i], setup, lim, mlim, caps, tied');
    }
    forall q | Tracked(s', tied', q)
      ensures Right(s', q)
    {
      ReloadCounter(s, tied, setup, lim, mlim, caps, env, q);
    }
  }

  /** Has no reload of the run parted a process from its provider counter? */
  ghost predicate Unparted(s: System, actions: seq<Action>, env: Env)
    decreases |actions|
  {
    actions == [] ||
    var n := |actions| - 1;
    Unparted(s, actions[..n], env) && (actions[n].Reload? ==> Harmless(Run(s, actions[..n], env), actions[n].caps))
  }

  lemma NextAccountable(s: System, tied: bool, a: Action, env: Env)
    requires Accountable(s, tied)
    ensures Accountable(Next(s, a, env), tied && (a.Reload? ==> Harmless(s, a.caps)))
  {
    hide Accountable, Advance, Harmless;
    match a
    case Begin(kind, resolved) => BeginAccountable(s, tied, kind, resolved, env);
    case Act(i, reply) =>
      if i < |s.ps| {
        ActAccountable(s, tied, i, reply, env);
      }
    case Reload(setup, lim, mlim, caps) => ReloadAccountable(s, tied, setup, lim, mlim, caps, env);
  }

  lemma {:induction false} RunAccountable(s: System, tied: bool, actions: seq<Action>, env: Env)
    requires Accountable(s, tied)
    ensures Accountable(Run(s, actions, env), tied && Unparted(s, actions, env))
    decreases |actions|
  {
    hide Accountable, Next, Harmless;
    if actions != [] {
      var n := |actions| - 1;
      RunAccountable(s, tied, actions[..n], env);
      NextAccountable(Run(s, actions[..n], env), tied && Unparted(s, actions[..n], env), actions[n], env);
    }
  }

  lemma InitialAccountable(s: System, tied: bool)
    requires Initial(s)
    ensures Accountable(s, tied)
  {
  }

  lemma SameGeneration(sh: Shared, p: Process, reply: Reply, env: Env)
    ensures Advance(sh, p, reply, env).shared.gen == sh.gen
  {
    hide CountStep, SelectStep, ProbeStep, PenaltyStep, Bumped;
    if IdleAt(p.pc) && p.pc != Capture {
      IdleQuiet(sh, p, reply, env);
    }
  }

  /** Without reload nothing is parted and the generation stays. */
  lemma {:induction false} RunGeneration(s: System, actions: seq<Action>, env: Env)
    requires forall a :: a in actions ==> !a.Reload?
    ensures Run(s, actions, env).shared.gen == s.shared.gen && Unparted(s, actions, env)
    decreases |actions|
  {
    hide Advance, Harmless;
    if actions != [] {
      var n := |actions| - 1;
      var before := Run(s, actions[..n], env);
      RunGeneration(s, actions[..n], env);
      if actions[n].Act? && actions[n].i < |before.ps| {
        SameGeneration(before.shared, before.ps[actions[n].i], actions[n].reply, env);
      }
    }
  }

  /** Slot conservation, under every interleaving of any number of requests and reloads: every counter
      stays between zero and its cap; a model counter always shows its restored value plus the number of
      its holders, and so does a provider counter, of whatever generation, unless a reload has parted a
      process from it; in those cases Release's clamp at zero never applies. */
  lemma SlotsConserved(s0: System, actions: seq<Action>, env: Env)
    requires Initial(s0)
    ensures var s := Run(s0, actions, env);
            && (forall q :: q in s.shared.caps ==>
                  && q in s.shared.active && 0 <= s.shared.active[q]
                  && (s.shared.caps[q] > 0 ==> s.shared.active[q] <= s.shared.caps[q]))
            && (forall q :: q in s.shared.caps && (q.tier == ModelTier || Unparted(s0, actions, env)) ==> Right(s, q))
            && (forall i :: 0 <= i < |s.ps| && s.ps[i].pc.RetLoad?
                            && (s.ps[i].pc.tier == ModelTier || Unparted(s0, actions, env)) ==>
                  ActiveOf(s.shared, s.ps[i].pc.counter) > 0)
  {
    hide Run, Orderly, Right, Unparted;
    var s, tied := Run(s0, actions, env), Unparted(s0, actions, env);
    InitialAccountable(s0, true);
    RunAccountable(s0, true, actions, env);
    forall q | q in s.shared.caps && (q.tier == ModelTier || tied)
      ensures Right(s, q)
    {
      assert Tracked(s, tied, q);
    }
    forall i | 0 <= i < |s.ps| && s.ps[i].pc.RetLoad? && (s.ps[i].pc.tier == ModelTier || tied)
      ensures ActiveOf(s.shared, s.ps[i].pc.counter) > 0
    {
      NeverClamped(s, tied, i);
    }
  }

  /** A restored count is never given back: for good, it leaves only the rest of the cap to the requests. */
  lemma RestoredShare(s0: System, actions: seq<Action>, env: Env, q: Counter)
    requires Initial(s0)
    requires var sh := Run(s0, actions, env).shared; q in sh.caps && sh.caps[q] > 0 && q in sh.base
    requires q.tier == ModelTier || Unparted(s0, actions, env)
    ensures var s := Run(s0, actions, env); 0 <= Holders(s, q) <= s.shared.caps[q] - s.shared.base[q]
  {
    hide Run, Total, Initial, Unparted;
    SlotsConserved(s0, actions, env);
    HoldersNatural(q, Run(s0, actions, env).ps);
  }

  // ------------------------------------------------------------------------------- the gauge

  ghost predicate GaugeRight(start: Metrics, s: System) {
    && (forall i :: 0 <= i < |s.ps| ==> s.ps[i].raised == InTheGauge(s.ps[i].pc))
    && (forall id :: Count(s.shared.metrics.active, id) == Count(start.active, id) + Total(InGauge(id), s.ps))
  }

  /** The gauge and its processes move together. */
  predicate InStep(sh: Shared, p: Process, r: Advanced, id: string) {
    && r.process.raised == InTheGauge(r.process.pc) && (forall c :: c in r.spawned ==> c.raised == InTheGauge(c.pc))
    && Count(r.shared.metrics.active, id) - Count(sh.metrics.active, id)
       == Weigh(InGauge(id), r.process) + Total(InGauge(id), r.spawned) - Weigh(InGauge(id), p)
  }

  lemma MechanicalInStep(sh: Shared, p: Process, r: Advanced, id: string)
    requires p.raised == InTheGauge(p.pc) && Mechanical(sh, p, r)
    ensures InStep(sh, p, r, id)
  {
    hide Count;
    TotalOne(InGauge(id), p);
  }

  lemma QuietInStep(sh: Shared, p: Process, r: Advanced, id: string)
    requires p.raised == InTheGauge(p.pc) && IdleAt(p.pc) && Quiet(sh, p, r)
    ensures InStep(sh, p, r, id)
  {
    hide Count;
    TotalOne(InGauge(id), p);
  }

  lemma RaiseInStep(sh: Shared, p: Process, id: string)
    requires p.raised == InTheGauge(p.pc) && (p.pc == Raise || p.pc == Lower)
    ensures InStep(sh, p, GaugeStep(sh, p), id)
  {
    TotalOne(InGauge(id), p);
  }

  lemma CallInStep(sh: Shared, p: Process, reply: Reply, id: string)
    requires p.raised == InTheGauge(p.pc) && (p.pc == Call || p.pc == Await)
    ensures InStep(sh, p, CallStep(sh, p, reply), id)
  {
    hide Count, ReplyTo;
    TotalOne(InGauge(id), Forwarder(p));
  }

  lemma CaptureInStep(sh: Shared, p: Process, models: Option<nat>, id: string)
    requires p.raised == InTheGauge(p.pc) && p.pc == Capture
    ensures InStep(sh, p, Stay(sh, p.(models := models, pc := Take(ProviderTier))), id)
  {
    hide Count;
    TotalOne(InGauge(id), p);
  }

  /** A step moves the gauge exactly as it moves its process in or out of it. */
  lemma GaugeMoves(sh: Shared, p: Process, reply: Reply, env: Env, id: string)
    requires p.raised == InTheGauge(p.pc)
    ensures InStep(sh, p, Advance(sh, p, reply, env), id)
  {
    hide CountStep, SelectStep, ProbeStep, PenaltyStep, AcquireStep, ReleaseStep, GaugeStep, CallStep, InStep;
    hide Mechanical;
    hide Quiet, Stay;
    match p.pc
    case Take(_) => AcquireMechanical(sh, p); MechanicalInStep(sh, p, AcquireStep(sh, p), id);
    case Load(_, _) => AcquireMechanical(sh, p); MechanicalInStep(sh, p, AcquireStep(sh, p), id);
    case Swap(_, _, _) => AcquireMechanical(sh, p); MechanicalInStep(sh, p, AcquireStep(sh, p), id);
    case Return(_) => ReleaseMechanical(sh, p); MechanicalInStep(sh, p, ReleaseStep(sh, p), id);
    case RetLoad(_, _) => ReleaseMechanical(sh, p); MechanicalInStep(sh, p, ReleaseStep(sh, p), id);
    case RetSwap(_, _, _) => ReleaseMechanical(sh, p); MechanicalInStep(sh, p, ReleaseStep(sh, p), id);
    case Capture => CaptureInStep(sh, p, ModelsNow(sh), id);
    case Call => CallInStep(sh, p, reply, id);
    case Await => CallInStep(sh, p, reply, id);
    case Raise => RaiseInStep(sh, p, id);
    case Lower => RaiseInStep(sh, p, id);
    case _ =>
      IdleQuiet(sh, p, reply, env);
      QuietInStep(sh, p, Advance(sh, p, reply, env), id);
  }

  lemma ActGauge(start: Metrics, s: System, i: nat, reply: Reply, env: Env)
    requires GaugeRight(start, s) && i < |s.ps|
    ensures GaugeRight(start, Next(s, Act(i, reply), env))
  {
    hide Advance, Total, Weigh, InTheGauge, Count;
    var p, s' := s.ps[i], Next(s, Act(i, reply), env);
    var r := Advance(s.shared, p, reply, env);
    FewSpawned(s.shared, p, reply, env);
    GaugeMoves(s.shared, p, reply, env, "");
    forall id
      ensures Count(s'.shared.metrics.active, id) == Count(start.active, id) + Total(InGauge(id), s'.ps)
    {
      GaugeMoves(s.shared, p, reply, env, id);
      TotalAct(InGauge(id), s.ps, i, r.process, r.spawned);
    }
  }

  lemma NextGauge(start: Metrics, s: System, a: Action, env: Env)
    requires GaugeRight(start, s)
    ensures GaugeRight(start, Next(s, a, env))
  {
    hide Advance;
    match a
    case Begin(kind, resolved) =>
      forall id
        ensures Total(InGauge(id), s.ps + [NewProcess(kind, resolved)]) == Total(InGauge(id), s.ps)
      {
        TotalSnoc(InGauge(id), s.ps, NewProcess(kind, resolved));
      }
    case Act(i, reply) =>
      if i < |s.ps| {
        ActGauge(start, s, i, reply, env);
      }
    case Reload(_, _, _, _) =>
  }

  lemma {:induction false} RunGauge(start: Metrics, s: System, actions: seq<Action>, env: Env)
    requires GaugeRight(start, s)
    ensures GaugeRight(start, Run(s, actions, env))
    decreases |actions|
  {
    hide GaugeRight, Next;
    if actions != [] {
      var n := |actions| - 1;
      RunGauge(start, s, actions[..n], env);
      NextGauge(start, Run(s, actions[..n], env), actions[n], env);
    }
  }

  lemma OneSlot(l: Law, p: Process, q: Counter)
    requires l.tied && l.gen == 0 && Orderly(l, p) && q in l.caps && q.gen == 0 && q.tier == ProviderTier
    ensures Weigh(SlotIn(q), p) == Weigh(InGauge(q.key), p) + Weigh(Between(q.key), p)
  {
  }

  lemma {:induction false} SlotsInGauge(l: Law, ps: seq<Process>, q: Counter)
    requires l.tied && l.gen == 0 && q in l.caps && q.gen == 0 && q.tier == ProviderTier
    requires forall i :: 0 <= i < |ps| ==> Orderly(l, ps[i])
    ensures Total(SlotIn(q), ps) == Total(InGauge(q.key), ps) + Total(Between(q.key), ps)
  {
    hide Orderly, Weigh;
    if ps != [] {
      SlotsInGauge(l, ps[..|ps| - 1], q);
      OneSlot(l, ps[|ps| - 1], q);
    }
  }

  lemma InitialGauge(s: System)
    requires Initial(s)
    ensures GaugeRight(s.shared.metrics, s)
  {
  }

  /** The gauge of a provider counts the processes between raising and lowering it, in every run. Without
      reload it moves with the provider's counter at every step, up to the processes that stand between
      the two updates of taking a slot, or of returning one. */
  lemma GaugeConserved(s0: System, actions: seq<Action>, env: Env, id: string)
    requires Initial(s0)
    ensures var s := Run(s0, actions, env);
            && Count(s.shared.metrics.active, id) == Count(s0.shared.metrics.active, id) + Total(InGauge(id), s.ps)
            && (forall i :: 0 <= i < |s.ps| && (s.ps[i].pc == Call || s.ps[i].pc == Await) ==> s.ps[i].raised)
            && ((forall a :: a in actions ==> !a.Reload?) ==>
                  var q := Counter(0, ProviderTier, id);
                  q in s.shared.caps ==>
                    q in s.shared.active && q in s.shared.base &&
                    s.shared.active[q] - s.shared.base[q]
                    == Count(s.shared.metrics.active, id) - Count(s0.shared.metrics.active, id)
                    + Total(Between(id), s.ps))
  {
    hide Run, Orderly, Count, Total, Weigh;
    InitialAccountable(s0, true);
    RunAccountable(s0, true, actions, env);
    InitialGauge(s0);
    RunGauge(s0.shared.metrics, s0, actions, env);
    var s, q := Run(s0, actions, env), Counter(0, ProviderTier, id);
    if (forall a :: a in actions ==> !a.Reload?) && q in s.shared.caps {
      RunGeneration(s0, actions, env);
      SlotsInGauge(LawOf(s.shared, true), s.ps, q);
      assert Tracked(s, true, q);
    }
  }
}
