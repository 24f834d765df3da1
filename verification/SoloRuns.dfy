/** The step machine and the sequential functions describe the same router: a process that runs alone
    does what Routing.Serve says, step by step and counter by counter. */
module SoloRuns {
  import opened Prelude
  import opened Entries
  import opened Windows
  import opened States
  import opened Routing
  import opened RoutingProofs
  import opened Processes
  import opened Conservation

  /** The counters of one tier in the current generation, as slots. */
  function SlotsOf(sh: Shared, t: Tier): map<string, Slot> {
    map q | q in sh.caps && q.gen == sh.gen && q.tier == t :: q.key := Slot(sh.caps[q], ActiveOf(sh, q))
  }

  function WorldOf(sh: Shared): World {
    World(sh.gate, SlotsOf(sh, ProviderTier), SlotsOf(sh, ModelTier), sh.metrics, sh.tick)
  }

  // ------------------------------------------------------------------- one process, alone

  datatype Spot = Spot(shared: Shared, process: Process)

  function StepAlone(a: Spot, env: Env): Spot {
    var r := Advance(a.shared, a.process,
                     env.reply(a.shared.tick, a.process.entry.providerID, a.process.entry.modelID), env);
    Spot(r.shared, r.process)
  }

  function Alone(a: Spot, env: Env, n: nat): Spot {
    if n == 0 then a else StepAlone(Alone(a, env, n - 1), env)
  }

  ghost predicate Leads(a: Spot, b: Spot, env: Env) {
    exists n: nat :: Alone(a, env, n) == b
  }

  lemma {:induction false} AloneAdd(a: Spot, env: Env, n: nat, m: nat)
    ensures Alone(a, env, n + m) == Alone(Alone(a, env, n), env, m)
  {
    hide StepAlone;
    if m > 0 {
      AloneAdd(a, env, n, m - 1);
      assert n + m - 1 == n + (m - 1);
    }
  }

  lemma LeadsOn(a: Spot, b: Spot, c: Spot, env: Env)
    requires Leads(a, b, env) && Leads(b, c, env)
    ensures Leads(a, c, env)
  {
    hide StepAlone, Alone;
    var n: nat :| Alone(a, env, n) == b;
    var m: nat :| Alone(b, env, m) == c;
    AloneAdd(a, env, n, m);
  }

  lemma LeadsStep(a: Spot, env: Env)
    ensures Leads(a, StepAlone(a, env), env) && Leads(a, a, env)
  {
    hide StepAlone;
    assert Alone(a, env, 0) == a;
    assert Alone(a, env, 1) == StepAlone(a, env);
  }

  /** One more step at the end of the way. */
  lemma LeadsThen(a: Spot, b: Spot, env: Env)
    requires Leads(a, b, env)
    ensures Leads(a, StepAlone(b, env), env)
  {
    hide StepAlone, Leads;
    LeadsStep(b, env);
    LeadsOn(a, b, StepAlone(b, env), env);
  }

  /** Which part of Advance a step is. */
  lemma StepIs(a: Spot, env: Env)
    ensures var sh, p, b := a.shared, a.process, StepAlone(a, env);
            var r := env.reply(sh.tick, p.entry.providerID, p.entry.modelID);
            match p.pc
            case Selecting => b == Spot(SelectStep(sh, p).shared, SelectStep(sh, p).process)
            case Probe(_, _, _, _) => b == Spot(ProbeStep(sh, p, env).shared, ProbeStep(sh, p, env).process)
            case Capture => b == Spot(sh, p.(models := ModelsNow(sh), pc := Take(ProviderTier)))
            case Take(_) => b == Spot(AcquireStep(sh, p).shared, AcquireStep(sh, p).process)
            case Load(_, _) => b == Spot(AcquireStep(sh, p).shared, AcquireStep(sh, p).process)
            case Swap(_, _, _) => b == Spot(AcquireStep(sh, p).shared, AcquireStep(sh, p).process)
            case Return(_) => b == Spot(ReleaseStep(sh, p).shared, ReleaseStep(sh, p).process)
            case RetLoad(_, _) => b == Spot(ReleaseStep(sh, p).shared, ReleaseStep(sh, p).process)
            case RetSwap(_, _, _) => b == Spot(ReleaseStep(sh, p).shared, ReleaseStep(sh, p).process)
            case Raise => b == Spot(GaugeStep(sh, p).shared, GaugeStep(sh, p).process)
            case Lower => b == Spot(GaugeStep(sh, p).shared, GaugeStep(sh, p).process)
            case Call => b == Spot(CallStep(sh, p, r).shared, CallStep(sh, p, r).process)
            case Await => b == Spot(CallStep(sh, p, r).shared, CallStep(sh, p, r).process)
            case Cool => b == Spot(PenaltyStep(sh, p, env).shared, PenaltyStep(sh, p, env).process)
            case Bar => b == Spot(PenaltyStep(sh, p, env).shared, PenaltyStep(sh, p, env).process)
            case _ => b == Spot(CountStep(sh, p).shared, CountStep(sh, p).process)
  {
    hide SelectStep, ProbeStep, AcquireStep, ReleaseStep, GaugeStep, CallStep, PenaltyStep, CountStep;
  }

  // ----------------------------------------------------------------------------- the slots

  /** Everything but the counters' values, the metrics, the gate and the clock. */
  predicate SameFrame(a: Shared, b: Shared) {
    a.setup == b.setup && a.gen == b.gen && a.caps == b.caps
  }

  lemma SlotFound(sh: Shared, t: Tier, key: string)
    ensures var q, slots := Counter(sh.gen, t, key), SlotsOf(sh, t);
            if q in sh.caps then key in slots && slots[key] == Slot(sh.caps[q], ActiveOf(sh, q)) else key !in slots
  {
    var q, slots := Counter(sh.gen, t, key), SlotsOf(sh, t);
    if key in slots {
      assert exists r :: r in sh.caps && r.gen == sh.gen && r.tier == t && r.key == key;
    }
  }

  lemma SlotMoved(sh: Shared, q: Counter, v: int)
    requires q in sh.caps && q.gen == sh.gen
    ensures var sh' := sh.(active := sh.active[q := v]);
            SlotsOf(sh', q.tier) == SlotsOf(sh, q.tier)[q.key := Slot(sh.caps[q], v)]
    ensures var sh' := sh.(active := sh.active[q := v]);
            forall t :: t != q.tier ==> SlotsOf(sh', t) == SlotsOf(sh, t)
  {
    var sh' := sh.(active := sh.active[q := v]);
    var a, b := SlotsOf(sh', q.tier), SlotsOf(sh, q.tier);
    forall key
      ensures key in a <==> key in b[q.key := Slot(sh.caps[q], v)]
      ensures key in a ==> a[key] == b[q.key := Slot(sh.caps[q], v)][key]
    {
      SlotFound(sh', q.tier, key);
      SlotFound(sh, q.tier, key);
    }
    forall t | t != q.tier
      ensures SlotsOf(sh', t) == SlotsOf(sh, t)
    {
      forall key
        ensures key in SlotsOf(sh', t) <==> key in SlotsOf(sh, t)
        ensures key in SlotsOf(sh, t) ==> SlotsOf(sh', t)[key] == SlotsOf(sh, t)[key]
      {
        SlotFound(sh', t, key);
        SlotFound(sh, t, key);
      }
    }
  }

  function KeyOn(p: Process, t: Tier): string {
    if t == ProviderTier then p.entry.providerID else Key(p.entry.providerID, p.entry.modelID)
  }

  /** Does this tier ask for a slot at all? */
  predicate Wanted(w: World, t: Tier) {
    t == ProviderTier || w.gate.mlim.Some?
  }

  function SlotsIn(w: World, t: Tier): map<string, Slot> {
    if t == ProviderTier then w.slots else w.mslots
  }

  function WithSlots(w: World, t: Tier, slots: map<string, Slot>): World {
    if t == ProviderTier then w.(slots := slots) else w.(mslots := slots)
  }

  /** The model tracker noted is the one in place. */
  predicate UpToDate(sh: Shared, p: Process) {
    p.models == ModelsNow(sh)
  }

  lemma CounterFound(sh: Shared, p: Process, t: Tier)
    requires t == ModelTier ==> UpToDate(sh, p)
    ensures var q := CounterFor(sh, p, t);
            var c := Counter(sh.gen, t, KeyOn(p, t));
            q == if Wanted(WorldOf(sh), t) && c in sh.caps then Some(c) else None
  {
  }

  /** The world after a counter took the value v. */
  lemma CounterMoved(sh: Shared, t: Tier, key: string, v: int)
    requires Counter(sh.gen, t, key) in sh.caps
    ensures var q, w := Counter(sh.gen, t, key), WorldOf(sh);
            WorldOf(sh.(active := sh.active[q := v])) == WithSlots(w, t, SlotsIn(w, t)[key := Slot(sh.caps[q], v)])
  {
    hide SlotsOf;
    SlotMoved(sh, Counter(sh.gen, t, key), v);
  }

  lemma GotAgain(p: Process, pc: Pc, t: Tier, h: Option<Counter>)
    ensures Got(p.(pc := pc), t, h) == Got(p, t, h) && Gave(p.(pc := pc), t) == Gave(p, t)
    ensures Got(p, t, h).pc == (if t == ProviderTier then Raise else Call) && !Gave(p, t).pc.RetLoad?
  {
  }

  predicate Vacant(sh: Shared, q: Counter) {
    CapOf(sh, q) == 0 || ActiveOf(sh, q) < CapOf(sh, q)
  }

  function PlusOne(sh: Shared, q: Counter): Shared {
    sh.(active := sh.active[q := ActiveOf(sh, q) + 1])
  }

  function MinusOne(sh: Shared, q: Counter): Shared {
    if ActiveOf(sh, q) > 0 then sh.(active := sh.active[q := ActiveOf(sh, q) - 1]) else sh
  }

  /** TryAcquire from its load on, with nobody in between. */
  lemma LoadsAlone(sh: Shared, p: Process, t: Tier, q: Counter, env: Env) returns (b: Spot)
    requires p.pc == Load(t, q)
    ensures Leads(Spot(sh, p), b, env)
    ensures b == if Vacant(sh, q) then Spot(PlusOne(sh, q), Got(p, t, Some(q)))
                 else Spot(sh, p.(pc := if t == ProviderTier then Reject else Return(ProviderTier)))
  {
    hide Leads, StepAlone, SelectStep, ProbeStep, ReleaseStep, GaugeStep, CallStep, PenaltyStep, CountStep, Got;
    var a := Spot(sh, p);
    GotAgain(p, Swap(t, q, ActiveOf(sh, q)), t, Some(q));
    LeadsStep(a, env);
    StepIs(a, env);
    b := StepAlone(a, env);
    if Vacant(sh, q) && CapOf(sh, q) != 0 {
      LeadsThen(a, b, env);
      StepIs(b, env);
      b := StepAlone(b, env);
    }
  }

  /** Release from its load on, with nobody in between. */
  lemma RetLoadsAlone(sh: Shared, p: Process, t: Tier, q: Counter, env: Env) returns (b: Spot)
    requires p.pc == RetLoad(t, q)
    ensures Leads(Spot(sh, p), b, env) && b == Spot(MinusOne(sh, q), Gave(p, t))
  {
    hide Leads, StepAlone, SelectStep, ProbeStep, AcquireStep, GaugeStep, CallStep, PenaltyStep, CountStep, Gave;
    var a := Spot(sh, p);
    GotAgain(p, RetSwap(t, q, ActiveOf(sh, q)), t, None);
    LeadsStep(a, env);
    StepIs(a, env);
    b := StepAlone(a, env);
    if ActiveOf(sh, q) > 0 {
      LeadsThen(a, b, env);
      StepIs(b, env);
      b := StepAlone(b, env);
    }
  }

  lemma LoadAlone(sh: Shared, p: Process, t: Tier, key: string, env: Env) returns (b: Spot)
    requires p.pc == Load(t, Counter(sh.gen, t, key)) && Counter(sh.gen, t, key) in sh.caps
    ensures Leads(Spot(sh, p), b, env) && SameFrame(sh, b.shared)
    ensures var w := WorldOf(sh);
            if HasRoom(SlotsIn(w, t), key)
            then b.process == Got(p, t, Some(Counter(sh.gen, t, key)))
                 && WorldOf(b.shared) == WithSlots(w, t, Taken(SlotsIn(w, t), key))
            else b == Spot(sh, p.(pc := if t == ProviderTier then Reject else Return(ProviderTier)))
  {
    hide SlotsOf, Leads, Got;
    SlotFound(sh, t, key);
    CounterMoved(sh, t, key, ActiveOf(sh, Counter(sh.gen, t, key)) + 1);
    hide WorldOf;
    b := LoadsAlone(sh, p, t, Counter(sh.gen, t, key), env);
  }

  /** A process on its own takes a slot, or is refused one, as Acquire has it. */
  lemma TakeAlone(sh: Shared, p: Process, t: Tier, env: Env) returns (b: Spot)
    requires p.pc == Take(t) && (t == ModelTier ==> UpToDate(sh, p))
    ensures Leads(Spot(sh, p), b, env) && SameFrame(sh, b.shared)
    ensures var w, key := WorldOf(sh), KeyOn(p, t);
            if Wanted(w, t) && !HasRoom(SlotsIn(w, t), key)
            then b == Spot(sh, p.(pc := if t == ProviderTier then Reject else Return(ProviderTier)))
            else b.process == Got(p, t, if t == ProviderTier then b.process.held else b.process.mheld)
                 && WorldOf(b.shared) == if Wanted(w, t) then WithSlots(w, t, Taken(SlotsIn(w, t), key)) else w
  {
    hide SlotsOf, CounterFor, KeyOn, Leads, StepAlone, SelectStep, ProbeStep, ReleaseStep, GaugeStep, CallStep;
    hide PenaltyStep;
    hide CountStep;
    var a, key := Spot(sh, p), KeyOn(p, t);
    CounterFound(sh, p, t);
    SlotFound(sh, t, key);
    LeadsStep(a, env);
    StepIs(a, env);
    b := StepAlone(a, env);
    if CounterFor(sh, p, t).Some? {
      var c := b;
      b := LoadAlone(sh, c.process, t, key, env);
      LeadsOn(a, c, b, env);
    }
  }

  lemma RetLoadAlone(sh: Shared, p: Process, t: Tier, key: string, env: Env) returns (b: Spot)
    requires p.pc == RetLoad(t, Counter(sh.gen, t, key)) && Counter(sh.gen, t, key) in sh.caps
    ensures Leads(Spot(sh, p), b, env) && SameFrame(sh, b.shared) && b.process == Gave(p, t)
    ensures var w := WorldOf(sh); WorldOf(b.shared) == WithSlots(w, t, Released(SlotsIn(w, t), key))
  {
    hide SlotsOf, Leads, Gave;
    SlotFound(sh, t, key);
    CounterMoved(sh, t, key, ActiveOf(sh, Counter(sh.gen, t, key)) - 1);
    hide WorldOf;
    b := RetLoadsAlone(sh, p, t, Counter(sh.gen, t, key), env);
  }

  /** A process on its own gives a slot back as Drop has it. */
  lemma ReturnAlone(sh: Shared, p: Process, t: Tier, env: Env) returns (b: Spot)
    requires p.pc == Return(t) && (t == ModelTier ==> UpToDate(sh, p))
    ensures Leads(Spot(sh, p), b, env) && SameFrame(sh, b.shared) && b.process == Gave(p, t)
    ensures var w, key := WorldOf(sh), KeyOn(p, t);
            WorldOf(b.shared) == if Wanted(w, t) then WithSlots(w, t, Released(SlotsIn(w, t), key)) else w
  {
    hide SlotsOf, CounterFor, KeyOn, Leads, StepAlone, SelectStep, ProbeStep, AcquireStep, GaugeStep, CallStep;
    hide PenaltyStep;
    hide CountStep;
    var a, key := Spot(sh, p), KeyOn(p, t);
    CounterFound(sh, p, t);
    SlotFound(sh, t, key);
    LeadsStep(a, env);
    StepIs(a, env);
    b := StepAlone(a, env);
    if CounterFor(sh, p, t).Some? {
      var c := b;
      b := RetLoadAlone(sh, c.process, t, key, env);
      LeadsOn(a, c, b, env);
    }
  }

  // ------------------------------------------------------------------- one iteration, in stages

  /** The same request, with this list, this record and at this place. */
  predicate Became(p: Process, q: Process, list: seq<Entry>, steps: seq<Step>, pc: Pc) {
    q.kind == p.kind && q.forwarder == p.forwarder && q.resolved == p.resolved && q.list == list && q.steps == steps
    && q.pc == pc
  }

  /** Back to selecting, without the provider that had no slot. */
  predicate WasRefused(p: Process, q: Process) {
    Became(p, q, Sift(Cut(p.entry, Full), p.list), p.steps + [Step(p.list, p.entry, Full)], Selecting)
  }

  function Gauged(w: World, id: string, d: int): World {
    w.(metrics := w.metrics.(active := Bumped(w.metrics.active, id, d)))
  }

  function Refusal(w: World, id: string): World {
    w.(metrics := w.metrics.(rejected := Bumped(w.metrics.rejected, id, 1)))
  }

  lemma SameSlots(a: Shared, b: Shared)
    requires a.caps == b.caps && a.active == b.active && a.gen == b.gen
    ensures forall t :: SlotsOf(a, t) == SlotsOf(b, t)
  {
  }

  lemma GaugeAlone(sh: Shared, p: Process, env: Env) returns (b: Spot)
    requires p.pc == Raise || p.pc == Lower
    ensures Leads(Spot(sh, p), b, env) && SameFrame(sh, b.shared)
    ensures WorldOf(b.shared) == Gauged(WorldOf(sh), p.entry.providerID, if p.pc == Raise then 1 else -1)
    ensures b.process == if p.pc == Raise then p.(raised := true, pc := Take(ModelTier))
                         else p.(raised := false, pc := if p.reply.None? then Reject else Return(ModelTier))
  {
    hide Leads, StepAlone, SelectStep, ProbeStep, AcquireStep, ReleaseStep, CallStep, PenaltyStep, CountStep, Bumped;
    LeadsStep(Spot(sh, p), env);
    StepIs(Spot(sh, p), env);
    b := StepAlone(Spot(sh, p), env);
    SameSlots(sh, b.shared);
  }

  lemma RejectAlone(sh: Shared, p: Process, env: Env) returns (b: Spot)
    requires p.pc == Reject
    ensures Leads(Spot(sh, p), b, env) && SameFrame(sh, b.shared)
    ensures WorldOf(b.shared) == Refusal(WorldOf(sh), p.entry.providerID)
    ensures WasRefused(p, b.process)
  {
    hide Leads, StepAlone, SelectStep, ProbeStep, AcquireStep, ReleaseStep, CallStep, PenaltyStep, GaugeStep;
    hide Bumped, Sift, Cut;
    LeadsStep(Spot(sh, p), env);
    StepIs(Spot(sh, p), env);
    b := StepAlone(Spot(sh, p), env);
    SameSlots(sh, b.shared);
  }

  lemma GateOf(sh: Shared)
    ensures WorldOf(sh).gate == sh.gate && WorldOf(sh).tick == sh.tick && WorldOf(sh).metrics == sh.metrics
    ensures WorldOf(sh).slots == SlotsOf(sh, ProviderTier) && WorldOf(sh).mslots == SlotsOf(sh, ModelTier)
  {
  }

  /** Taking the provider's slot and entering the gauge. */
  lemma ProviderAlone(sh: Shared, p: Process, env: Env) returns (b: Spot)
    requires p.pc == Take(ProviderTier) && p.reply.None?
    ensures Leads(Spot(sh, p), b, env) && SameFrame(sh, b.shared)
    ensures var w, id := WorldOf(sh), p.entry.providerID;
            if HasRoom(w.slots, id)
            then WorldOf(b.shared) == Gauged(w.(slots := Taken(w.slots, id)), id, 1)
                 && b.process == p.(held := b.process.held, raised := true, pc := Take(ModelTier))
            else WorldOf(b.shared) == Refusal(w, id)
                 && WasRefused(p, b.process)
  {
    hide Leads, StepAlone, Bumped, Sift, Cut, WorldOf, HasRoom, Taken;
    var a := Spot(sh, p);
    GateOf(sh);
    var c := TakeAlone(sh, p, ProviderTier, env);
    if HasRoom(WorldOf(sh).slots, p.entry.providerID) {
      b := GaugeAlone(c.shared, c.process, env);
    } else {
      b := RejectAlone(sh, c.process, env);
    }
    LeadsOn(a, c, b, env);
  }

  lemma CaptureAlone(sh: Shared, p: Process, env: Env)
    requires p.pc == Capture
    ensures Leads(Spot(sh, p), Spot(sh, p.(models := ModelsNow(sh), pc := Take(ProviderTier))), env)
  {
    hide Leads, StepAlone;
    LeadsStep(Spot(sh, p), env);
    StepIs(Spot(sh, p), env);
  }

  /** Giving the provider slot back for want of a model slot. */
  lemma BackOutAlone(sh: Shared, p: Process, env: Env) returns (b: Spot)
    requires p.pc == Return(ProviderTier) && p.reply.None?
    ensures Leads(Spot(sh, p), b, env) && SameFrame(sh, b.shared)
    ensures var w, id := WorldOf(sh), p.entry.providerID;
            WorldOf(b.shared) == Refusal(Gauged(w.(slots := Released(w.slots, id)), id, -1), id)
    ensures WasRefused(p, b.process)
  {
    hide Leads, StepAlone, Bumped, Sift, Cut, WorldOf, Released;
    var a := Spot(sh, p);
    var c := ReturnAlone(sh, p, ProviderTier, env);
    var d := GaugeAlone(c.shared, c.process, env);
    LeadsOn(a, c, d, env);
    b := RejectAlone(d.shared, d.process, env);
    LeadsOn(a, d, b, env);
  }

  /** With the provider's slot taken, taking the model's. */
  lemma ModelAlone(sh: Shared, p: Process, env: Env) returns (b: Spot)
    requires p.pc == Take(ModelTier) && p.reply.None? && UpToDate(sh, p)
    ensures Leads(Spot(sh, p), b, env) && SameFrame(sh, b.shared)
    ensures var w, id, key := WorldOf(sh), p.entry.providerID, Key(p.entry.providerID, p.entry.modelID);
            if w.gate.mlim.Some? && !HasRoom(w.mslots, key)
            then WorldOf(b.shared) == Refusal(Gauged(w.(slots := Released(w.slots, id)), id, -1), id)
                 && WasRefused(p, b.process)
            else WorldOf(b.shared) == (if w.gate.mlim.Some? then w.(mslots := Taken(w.mslots, key)) else w)
                 && UpToDate(b.shared, b.process) && b.process == p.(mheld := b.process.mheld, pc := Call)
  {
    hide Leads, StepAlone, Bumped, Sift, Cut, WorldOf, HasRoom, Taken, Released, Key;
    b := TakeAlone(sh, p, ModelTier, env);
    GateOf(sh);
    GateOf(b.shared);
    if WorldOf(sh).gate.mlim.Some? && !HasRoom(WorldOf(sh).mslots, Key(p.entry.providerID, p.entry.modelID)) {
      var c := b;
      b := BackOutAlone(c.shared, c.process, env);
      LeadsOn(Spot(sh, p), c, b, env);
    }
  }

  /** Taking the slots of the selected entry. */
  lemma AcquireAlone(sh: Shared, p: Process, env: Env) returns (b: Spot)
    requires p.pc == Capture && p.reply.None?
    ensures Leads(Spot(sh, p), b, env) && SameFrame(sh, b.shared)
    ensures var a := Acquire(WorldOf(sh), p.entry);
            && WorldOf(b.shared) == a.world
            && if a.ok
               then UpToDate(b.shared, b.process)
                    && b.process == p.(models := b.process.models, held := b.process.held, mheld := b.process.mheld,
                                       raised := true, pc := Call)
               else WasRefused(p, b.process)
  {
    hide Leads, Bumped, Sift, Cut, WorldOf, HasRoom, Taken, Released, Key;
    var a, c := Spot(sh, p), Spot(sh, p.(models := ModelsNow(sh), pc := Take(ProviderTier)));
    CaptureAlone(sh, p, env);
    b := ProviderAlone(sh, c.process, env);
    LeadsOn(a, c, b, env);
    if HasRoom(WorldOf(sh).slots, p.entry.providerID) {
      GateOf(sh);
      GateOf(b.shared);
      var d := b;
      b := ModelAlone(d.shared, d.process, env);
      LeadsOn(a, d, b, env);
    }
  }

  /** Returning both slots after a reply. */
  lemma DropAlone(sh: Shared, p: Process, env: Env) returns (b: Spot)
    requires p.pc == Return(ProviderTier) && p.reply.Some? && UpToDate(sh, p)
    ensures Leads(Spot(sh, p), b, env) && SameFrame(sh, b.shared)
    ensures WorldOf(b.shared) == Drop(WorldOf(sh), p.entry)
    ensures b.process == Gave(p.(held := None, raised := false), ModelTier)
  {
    hide Leads, StepAlone, Bumped, WorldOf, Released, Key;
    var a := Spot(sh, p);
    var c := ReturnAlone(sh, p, ProviderTier, env);
    GateOf(sh);
    GateOf(c.shared);
    var d := GaugeAlone(c.shared, c.process, env);
    LeadsOn(a, c, d, env);
    GateOf(d.shared);
    b := ReturnAlone(d.shared, d.process, ModelTier, env);
    LeadsOn(a, d, b, env);
  }

  lemma CallAlone(sh: Shared, p: Process, env: Env) returns (b: Spot)
    requires p.pc == Call
    ensures Leads(Spot(sh, p), b, env) && SameFrame(sh, b.shared)
    ensures WorldOf(b.shared) == WorldOf(sh).(tick := sh.tick + 1)
    ensures var r := ReplyTo(p.kind, env.reply(sh.tick, p.entry.providerID, p.entry.modelID));
            b.process == if r.Ok? && p.kind == Streaming
                         then p.(reply := Some(r), held := None, mheld := None, raised := false, pc := CountRequest)
                         else p.(reply := Some(r), pc := Return(ProviderTier))
  {
    hide Leads, StepAlone, SelectStep, ProbeStep, AcquireStep, ReleaseStep, PenaltyStep, GaugeStep, CountStep, ReplyTo;
    var a := Spot(sh, p);
    LeadsStep(a, env);
    StepIs(a, env);
    var c := StepAlone(a, env);
    LeadsThen(a, c, env);
    StepIs(c, env);
    b := StepAlone(c, env);
    SameSlots(sh, b.shared);
  }

  /** One counting step. */
  lemma CountAlone(sh: Shared, p: Process, env: Env) returns (b: Spot)
    requires p.pc == CountFailure || p.pc == CountBlock || p.pc == CountRequest || p.pc == CountSource
             || p.pc == Refused
    ensures Leads(Spot(sh, p), b, env) && SameFrame(sh, b.shared)
    ensures WorldOf(b.shared) == WorldOf(sh).(metrics := Counted(sh.metrics, Gain(p)))
    ensures b.process == AfterCounting(p).(tally := b.process.tally)
  {
    hide Leads, StepAlone, SelectStep, ProbeStep, AcquireStep, ReleaseStep, PenaltyStep, GaugeStep, CallStep;
    hide Gain, AfterCounting;
    LeadsStep(Spot(sh, p), env);
    StepIs(Spot(sh, p), env);
    b := StepAlone(Spot(sh, p), env);
    SameSlots(sh, b.shared);
  }

  lemma PenaltyAlone(sh: Shared, p: Process, env: Env) returns (b: Spot)
    requires p.pc == Cool || p.pc == Bar
    ensures Leads(Spot(sh, p), b, env) && SameFrame(sh, b.shared)
    ensures b == Spot(PenaltyStep(sh, p, env).shared, PenaltyStep(sh, p, env).process)
    ensures WorldOf(b.shared) == WorldOf(sh).(gate := b.shared.gate, tick := b.shared.tick)
  {
    hide Leads, StepAlone, SelectStep, ProbeStep, AcquireStep, ReleaseStep, CountStep, GaugeStep, CallStep, Sift, Cut;
    hide RetryAfter, BlockKey, Key, Fallback, RecoveryOf, Barred;
    LeadsStep(Spot(sh, p), env);
    StepIs(Spot(sh, p), env);
    b := StepAlone(Spot(sh, p), env);
    SameSlots(sh, b.shared);
  }

  lemma CoolAlone(sh: Shared, p: Process, env: Env) returns (b: Spot)
    requires p.pc == Cool && p.reply.Some? && Soft(p.entry, p.reply.value)
    ensures Leads(Spot(sh, p), b, env) && SameFrame(sh, b.shared)
    ensures WorldOf(b.shared).(metrics := sh.metrics.(failures := sh.metrics.failures + 1))
            == AfterFailure(WorldOf(sh), p.entry, p.reply.value, sh.setup, env)
    ensures WorldOf(b.shared).metrics == sh.metrics
    ensures var v := Answered(p.reply.value);
            Became(p, b.process, Sift(Cut(p.entry, v), p.list), p.steps + [Step(p.list, p.entry, v)], Selecting)
  {
    hide Leads, Sift, Cut, RetryAfter, BlockKey, Key, Fallback;
    GateOf(sh);
    b := PenaltyAlone(sh, p, env);
    GateOf(b.shared);
    hide WorldOf;
  }

  lemma BarAlone(sh: Shared, p: Process, env: Env) returns (b: Spot)
    requires p.pc == Bar && p.reply.Some? && Blocks(p.entry, p.reply.value)
    ensures Leads(Spot(sh, p), b, env) && SameFrame(sh, b.shared)
    ensures var m := sh.metrics;
            WorldOf(b.shared).(metrics := m.(failures := m.failures + 1, blockEvents := m.blockEvents + 1))
            == AfterFailure(WorldOf(sh), p.entry, p.reply.value, sh.setup, env)
    ensures WorldOf(b.shared).metrics == sh.metrics.(blockEvents := sh.metrics.blockEvents + 1)
    ensures var v := Answered(p.reply.value);
            Became(p, b.process, Sift(Cut(p.entry, v), p.list), p.steps + [Step(p.list, p.entry, v)], Selecting)
  {
    hide Leads, Sift, Cut, RecoveryOf, Barred;
    GateOf(sh);
    var c := PenaltyAlone(sh, p, env);
    GateOf(c.shared);
    b := CountAlone(c.shared, c.process, env);
    LeadsOn(Spot(sh, p), c, b, env);
    GateOf(b.shared);
    hide WorldOf;
  }

  /** Counting the failure first makes no difference but to the count. */
  lemma FailureShift(w: World, v: World, e: Entry, r: Reply, setup: Setup, env: Env)
    requires v == w.(metrics := v.metrics)
    ensures var a, b := AfterFailure(w, e, r, setup, env), AfterFailure(v, e, r, setup, env);
            a == b.(metrics := w.metrics.(failures := w.metrics.failures + 1,
                                          blockEvents := w.metrics.blockEvents + if Blocks(e, r) then 1 else 0))
  {
    hide RetryAfter, BlockKey, Key, Fallback, RecoveryOf, Barred;
  }

  /** The bookkeeping after a failed call. */
  lemma FailAlone(sh: Shared, p: Process, env: Env) returns (b: Spot)
    requires p.pc == CountFailure && p.reply.Some? && !p.reply.value.Ok?
    ensures Leads(Spot(sh, p), b, env) && SameFrame(sh, b.shared)
    ensures WorldOf(b.shared) == AfterFailure(WorldOf(sh), p.entry, p.reply.value, sh.setup, env)
    ensures var v := Answered(p.reply.value);
            Became(p, b.process, Sift(Cut(p.entry, v), p.list), p.steps + [Step(p.list, p.entry, v)], Selecting)
  {
    hide Leads, Sift, Cut, RetryAfter, BlockKey, Key, Fallback, RecoveryOf, Barred, WorldOf;
    b := CountAlone(sh, p, env);
    GateOf(sh);
    GateOf(b.shared);
    if b.process.pc == Cool || b.process.pc == Bar {
      var c := b;
      FailureShift(WorldOf(sh), WorldOf(c.shared), p.entry, p.reply.value, sh.setup, env);
      hide AfterFailure;
      if c.process.pc == Cool {
        b := CoolAlone(c.shared, c.process, env);
      } else {
        b := BarAlone(c.shared, c.process, env);
      }
      LeadsOn(Spot(sh, p), c, b, env);
    }
  }

  /** The bookkeeping after a served call. */
  lemma WinAlone(sh: Shared, p: Process, env: Env) returns (b: Spot)
    requires p.pc == CountRequest && p.reply == Some(Ok)
    ensures Leads(Spot(sh, p), b, env) && SameFrame(sh, b.shared)
    ensures WorldOf(b.shared) == AfterSuccess(WorldOf(sh), p.entry)
    ensures Became(p, b.process, p.list, p.steps + [Step(p.list, p.entry, SERVED)], Ended)
  {
    hide Leads;
    var c := CountAlone(sh, p, env);
    GateOf(sh);
    GateOf(c.shared);
    hide WorldOf;
    b := CountAlone(c.shared, c.process, env);
    LeadsOn(Spot(sh, p), c, b, env);
  }

  /** What an iteration makes of a process. */
  predicate Follows(p: Process, q: Process, t: Turned) {
    match t
    case Stop(_) => Became(p, q, p.list, p.steps, Ended)
    case Win(e, _) => Became(p, q, p.list, p.steps + [Step(p.list, e, SERVED)], Ended)
    case GoOn(e, v, _) => Became(p, q, Sift(Cut(e, v), p.list), p.steps + [Step(p.list, e, v)], Selecting)
  }

  /** With both slots taken: the call and what follows from it. */
  lemma FinishAlone(sh: Shared, p: Process, env: Env) returns (b: Spot)
    requires p.pc == Call && !p.forwarder && UpToDate(sh, p)
    ensures Leads(Spot(sh, p), b, env) && SameFrame(sh, b.shared)
    ensures var w := WorldOf(sh).(tick := sh.tick + 1);
            var r := ReplyTo(p.kind, env.reply(sh.tick, p.entry.providerID, p.entry.modelID));
            if r.Ok?
            then WorldOf(b.shared) == Settled(w, p.entry, p.kind)
                 && Became(p, b.process, p.list, p.steps + [Step(p.list, p.entry, SERVED)], Ended)
            else WorldOf(b.shared) == AfterFailure(Drop(w, p.entry), p.entry, r, sh.setup, env)
                 && var v := Answered(r);
                    Became(p, b.process, Sift(Cut(p.entry, v), p.list), p.steps + [Step(p.list, p.entry, v)], Selecting)
  {
    hide Leads, Sift, Cut, Drop, AfterFailure, AfterSuccess, WorldOf, ReplyTo;
    var a := Spot(sh, p);
    var c := CallAlone(sh, p, env);
    GateOf(sh);
    GateOf(c.shared);
    if c.process.pc == CountRequest {
      b := WinAlone(c.shared, c.process, env);
      LeadsOn(a, c, b, env);
    } else {
      var d := DropAlone(c.shared, c.process, env);
      LeadsOn(a, c, d, env);
      if d.process.pc == CountRequest {
        b := WinAlone(d.shared, d.process, env);
      } else {
        b := FailAlone(d.shared, d.process, env);
      }
      LeadsOn(a, d, b, env);
    }
  }

  /** An iteration from the selected entry on. */
  lemma TryAlone(sh: Shared, p: Process, env: Env) returns (b: Spot)
    requires p.pc == Capture && p.reply.None? && !p.forwarder
    ensures Leads(Spot(sh, p), b, env) && SameFrame(sh, b.shared)
    ensures var t := Try(p.entry, WorldOf(sh), sh.setup, env, p.kind);
            WorldOf(b.shared) == t.world && Follows(p, b.process, t)
  {
    hide Leads, Sift, Cut, Acquire, Drop, AfterFailure, Settled, WorldOf, ReplyTo;
    var a := Spot(sh, p);
    b := AcquireAlone(sh, p, env);
    SlotsOnly(WorldOf(sh), p.entry);
    GateOf(sh);
    GateOf(b.shared);
    if Acquire(WorldOf(sh), p.entry).ok {
      var c := b;
      b := FinishAlone(c.shared, c.process, env);
      LeadsOn(a, c, b, env);
    }
  }

  // -------------------------------------------------------------------------------- selection

  /** One check of selection. */
  lemma CheckAlone(sh: Shared, p: Process, env: Env) returns (b: Spot)
    requires p.pc.Probe?
    ensures Leads(Spot(sh, p), b, env) && SameFrame(sh, b.shared)
    ensures b == Spot(ProbeStep(sh, p, env).shared, ProbeStep(sh, p, env).process)
    ensures WorldOf(b.shared) == WorldOf(sh).(gate := b.shared.gate, tick := b.shared.tick)
    ensures Became(p, b.process, p.list, p.steps, b.process.pc) && Visiting(p, b.process)
    ensures b.process.pc == Capture ==> b.process.reply.None?
  {
    hide Leads, StepAlone, ProbeStep, SlotsOf;
    var a := Spot(sh, p);
    LeadsStep(a, env);
    StepIs(a, env);
    SelectChoosing(sh, p, env);
    b := StepAlone(a, env);
    SameSlots(sh, b.shared);
  }

  /** The check of the model's cooldown on the tracker in place. */
  lemma CooldownChecked(sh: Shared, p: Process, env: Env)
    requires p.pc.Probe? && p.pc.stage == AtCooldown && sh.gate.mlim.Some? && p.pc.models == Some(sh.gen)
    ensures var r, key := ProbeStep(sh, p, env), Key(p.entry.providerID, p.entry.modelID);
            var cooling := Cooling(sh.gate.mlim.value, key, env.time(sh.tick));
            && r.process.pc == p.pc.(stage := if cooling then AtClock else AtModel)
            && r.shared.gate == sh.gate.(mlim := Some(Forget(sh.gate.mlim.value, key, env.time(sh.tick))))
            && r.shared.tick == sh.tick + if cooling then 3 else 1
  {
    hide Forget, Cooling, Key;
  }

  /** The check of the model's windows on the tracker in place. */
  lemma WindowChecked(sh: Shared, p: Process, env: Env)
    requires p.pc.Probe? && p.pc.stage == AtModel && sh.gate.mlim.Some? && p.pc.models == Some(sh.gen)
    ensures var r := ProbeStep(sh, p, env);
            var x := Record(sh.gate.mlim.value, Key(p.entry.providerID, p.entry.modelID), env.time(sh.tick));
            && r.process.pc == p.pc.(stage := if x.exhausted then AtClock else AtProvider)
            && r.shared.gate == sh.gate.(mlim := Some(x.view))
            && r.shared.tick == sh.tick + if x.exhausted then 2 else 1
  {
    hide Record, Key, LastOf;
  }

  /** The checks on the model, in two steps if they come so far. */
  lemma ModelCheckAlone(sh: Shared, p: Process, env: Env) returns (b: Spot)
    requires p.pc.Probe? && p.pc.stage == AtCooldown && sh.gate.mlim.Some? && p.pc.models == Some(sh.gen)
    ensures Leads(Spot(sh, p), b, env) && SameFrame(sh, b.shared)
    ensures var m := ModelCheck(sh.gate, Key(p.entry.providerID, p.entry.modelID), env.time(sh.tick),
                                env.time(sh.tick + 1));
            && WorldOf(b.shared) == WorldOf(sh).(gate := m.gate, tick := sh.tick + if m.admitted then 2 else 3)
            && Became(p, b.process, p.list, p.steps, p.pc.(stage := if m.admitted then AtProvider else AtClock))
            && b.process.entry == p.entry
  {
    hide Leads, WorldOf, Record, Forget, Cooling, Key, ProbeStep;
    CooldownChecked(sh, p, env);
    b := CheckAlone(sh, p, env);
    if b.process.pc.stage == AtModel {
      var c := b;
      WindowChecked(c.shared, c.process, env);
      b := CheckAlone(c.shared, c.process, env);
      LeadsOn(Spot(sh, p), c, b, env);
    }
  }

  /** What a refusal by the provider's windows entails. */
  lemma MarkAlone(sh: Shared, p: Process, env: Env) returns (b: Spot)
    requires p.pc.Probe? && p.pc.stage.AtMark?
    ensures Leads(Spot(sh, p), b, env) && SameFrame(sh, b.shared)
    ensures var g, id, until := sh.gate, p.entry.providerID, p.pc.stage.until;
            WorldOf(b.shared) == WorldOf(sh).(gate := g.(state := Drained(g.state, id, until),
                                                         exhaustions := g.exhaustions + 1))
    ensures Became(p, b.process, p.list, p.steps, p.pc.(stage := AtClock)) && b.process.entry == p.entry
  {
    hide Leads, WorldOf, Drained;
    var c := CheckAlone(sh, p, env);
    b := CheckAlone(c.shared, c.process, env);
    LeadsOn(Spot(sh, p), c, b, env);
    GateOf(sh);
  }

  /** The check on the provider's windows, and what follows a refusal. */
  lemma ProviderCheckAlone(sh: Shared, p: Process, env: Env) returns (b: Spot)
    requires p.pc.Probe? && p.pc.stage == AtProvider
    ensures Leads(Spot(sh, p), b, env) && SameFrame(sh, b.shared)
    ensures var c := ProviderCheck(sh.gate, p.entry.providerID, env.time(sh.tick));
            && WorldOf(b.shared) == WorldOf(sh).(gate := c.gate, tick := sh.tick + 1)
            && Became(p, b.process, p.list, p.steps, if c.admitted then Capture else p.pc.(stage := AtClock))
            && b.process.entry == p.entry && (c.admitted ==> b.process.reply.None?)
  {
    hide Leads, WorldOf, Record;
    b := CheckAlone(sh, p, env);
    if b.process.pc.Probe? {
      var c := b;
      b := MarkAlone(c.shared, c.process, env);
      LeadsOn(Spot(sh, p), c, b, env);
    }
  }

  /** What Visit makes of an entry of an available provider. */
  function ChecksFrom(e: Entry, g: Gate, env: Env, n: nat): Checked {
    var m := ModelCheck(g, Key(e.providerID, e.modelID), env.time(n + 1), env.time(n + 2));
    if m.admitted then ProviderCheck(m.gate, e.providerID, env.time(n + 3)) else m
  }

  /** The checks of a visit that began at position n, after that of the provider's state. */
  lemma ChecksAlone(sh: Shared, p: Process, env: Env, n: nat) returns (b: Spot)
    requires p.pc.Probe? && p.pc.models == ModelsNow(sh)
    requires p.pc.stage == if sh.gate.mlim.Some? then AtCooldown else AtProvider
    requires sh.tick == n + if sh.gate.mlim.Some? then 1 else 3
    ensures Leads(Spot(sh, p), b, env) && SameFrame(sh, b.shared)
    ensures var c := ChecksFrom(p.entry, sh.gate, env, n);
            && WorldOf(b.shared) == WorldOf(sh).(gate := c.gate, tick := n + READINGS)
            && Became(p, b.process, p.list, p.steps, if c.admitted then Capture else p.pc.(stage := AtClock))
            && b.process.entry == p.entry && (c.admitted ==> b.process.reply.None?)
  {
    hide Leads, WorldOf, ProviderCheck, Key, Record, Forget, Cooling;
    if sh.gate.mlim.Some? {
      var c := ModelCheckAlone(sh, p, env);
      GateOf(c.shared);
      b := c;
      if c.process.pc.stage == AtProvider {
        b := ProviderCheckAlone(c.shared, c.process, env);
        LeadsOn(Spot(sh, p), c, b, env);
      }
    } else {
      b := ProviderCheckAlone(sh, p, env);
    }
  }

  /** The check of the provider's state. */
  lemma StateAlone(sh: Shared, p: Process, env: Env) returns (b: Spot)
    requires p.pc.Probe? && p.pc.stage == AtClock && p.pc.rest != []
    requires p.pc.providers == sh.setup.providers && p.pc.models == ModelsNow(sh)
    ensures Leads(Spot(sh, p), b, env) && SameFrame(sh, b.shared)
    ensures var e := p.pc.rest[0];
            var barred := StateOf(sh.gate.state, e.providerID, env.time(sh.tick),
                                  env.ready(sh.tick, e.providerID)) != Available
                          || e.providerID !in sh.setup.providers;
            && b.shared.gate == sh.gate && b.process.entry == e
            && b.shared.tick == sh.tick + (if barred then READINGS else if sh.gate.mlim.Some? then 1 else 3)
            && WorldOf(b.shared) == WorldOf(sh).(tick := b.shared.tick)
            && Became(p, b.process, p.list, p.steps,
                      p.pc.(stage := if barred then AtClock else if sh.gate.mlim.Some? then AtCooldown else AtProvider,
                            rest := p.pc.rest[1..]))
  {
    hide Leads, WorldOf, StateOf;
    var c := CheckAlone(sh, p, env);
    b := CheckAlone(c.shared, c.process, env);
    LeadsOn(Spot(sh, p), c, b, env);
    GateOf(sh);
  }

  /** A visit of the next entry. */
  lemma VisitAlone(sh: Shared, p: Process, env: Env) returns (b: Spot)
    requires p.pc.Probe? && p.pc.stage == AtClock && p.pc.rest != []
    requires p.pc.providers == sh.setup.providers && p.pc.models == ModelsNow(sh)
    ensures Leads(Spot(sh, p), b, env) && SameFrame(sh, b.shared)
    ensures var e, rest := p.pc.rest[0], p.pc.rest[1..];
            var c := Visit(e, sh.gate, sh.setup, env, sh.tick);
            && WorldOf(b.shared) == WorldOf(sh).(gate := c.gate, tick := sh.tick + READINGS)
            && Became(p, b.process, p.list, p.steps, if c.admitted then Capture else p.pc.(rest := rest))
            && (c.admitted ==> b.process.entry == e && b.process.reply.None?)
  {
    hide Leads, WorldOf, ModelCheck, ProviderCheck, StateOf, Key;
    b := StateAlone(sh, p, env);
    GateOf(sh);
    if b.process.pc.stage != AtClock {
      var c := b;
      b := ChecksAlone(c.shared, c.process, env, sh.tick);
      LeadsOn(Spot(sh, p), c, b, env);
    }
  }

  /** Where a selection leads. */
  predicate Chose(p: Process, q: Process, pick: Option<Entry>) {
    && Became(p, q, p.list, p.steps, if pick.Some? then Capture else Refused)
    && (pick.Some? ==> q.entry == pick.value && q.reply.None?)
  }

  lemma VisitKeepsModels(e: Entry, sh: Shared, env: Env)
    ensures Visit(e, sh.gate, sh.setup, env, sh.tick).gate.mlim.Some? == sh.gate.mlim.Some?
  {
    hide Record, Forget, Cooling, Key;
  }

  lemma {:induction false} ScanAlone(sh: Shared, p: Process, env: Env) returns (b: Spot)
    requires p.pc.Probe? && p.pc.stage == AtClock
    requires p.pc.providers == sh.setup.providers && p.pc.models == ModelsNow(sh)
    ensures Leads(Spot(sh, p), b, env) && SameFrame(sh, b.shared)
    ensures var s := Scan(p.pc.rest, sh.gate, sh.setup, env, sh.tick);
            WorldOf(b.shared) == WorldOf(sh).(gate := s.gate, tick := s.tick) && Chose(p, b.process, s.pick)
    decreases |p.pc.rest|
  {
    hide Leads, WorldOf, Visit, Alone;
    if p.pc.rest == [] {
      b := CheckAlone(sh, p, env);
    } else {
      b := VisitAlone(sh, p, env);
      GateOf(b.shared);
      if b.process.pc.Probe? {
        var c := b;
        VisitKeepsModels(p.pc.rest[0], sh, env);
        b := ScanAlone(c.shared, c.process, env);
        LeadsOn(Spot(sh, p), c, b, env);
      }
    }
  }

  /** A whole selection. */
  lemma SelectAlone(sh: Shared, p: Process, env: Env) returns (b: Spot)
    requires p.pc == Selecting
    ensures Leads(Spot(sh, p), b, env) && SameFrame(sh, b.shared)
    ensures var s := Scan(p.list, sh.gate, sh.setup, env, sh.tick);
            WorldOf(b.shared) == WorldOf(sh).(gate := s.gate, tick := s.tick) && Chose(p, b.process, s.pick)
  {
    hide Leads, WorldOf, StepAlone, Scan;
    var a := Spot(sh, p);
    LeadsStep(a, env);
    StepIs(a, env);
    var c := StepAlone(a, env);
    b := ScanAlone(c.shared, c.process, env);
    LeadsOn(a, c, b, env);
  }

  /** A whole iteration. */
  lemma TurnAlone(sh: Shared, p: Process, env: Env) returns (b: Spot)
    requires p.pc == Selecting && !p.forwarder
    ensures Leads(Spot(sh, p), b, env) && SameFrame(sh, b.shared)
    ensures var t := Turn(p.list, WorldOf(sh), sh.setup, env, p.kind);
            WorldOf(b.shared) == t.world && Follows(p, b.process, t)
  {
    hide Leads, Sift, Cut, Try, Scan, WorldOf;
    var a := Spot(sh, p);
    GateOf(sh);
    var c := SelectAlone(sh, p, env);
    if c.process.pc == Refused {
      b := CountAlone(c.shared, c.process, env);
      GateOf(c.shared);
    } else {
      b := TryAlone(c.shared, c.process, env);
    }
    LeadsOn(a, c, b, env);
  }

  // ------------------------------------------------------------------------ a whole request

  lemma {:induction false} LoopAlone(sh: Shared, p: Process, env: Env) returns (b: Spot)
    requires p.pc == Selecting && !p.forwarder && Keyed(sh.setup)
    ensures Leads(Spot(sh, p), b, env) && b.process.pc == Ended
    ensures var out := Loop(p.list, WorldOf(sh), sh.setup, env, p.kind);
            WorldOf(b.shared) == out.world && b.process.steps == p.steps + out.steps
    decreases |p.list|
  {
    hide Leads, Turn, Sift, WorldOf;
    var w, setup := WorldOf(sh), sh.setup;
    var t := Turn(p.list, w, setup, env, p.kind);
    b := TurnAlone(sh, p, env);
    LoopEnds(p.list, w, setup, env, p.kind);
    if t.GoOn? {
      var c, s := b, Step(p.list, t.entry, t.verdict);
      LoopGoesOn(p.list, w, setup, env, p.kind);
      SiftShrinks(Cut(t.entry, t.verdict), p.list, t.entry);
      b := LoopAlone(c.shared, c.process, env);
      LeadsOn(Spot(sh, p), c, b, env);
      Associative(p.steps, [s], Loop(Sift(Cut(t.entry, t.verdict), p.list), t.world, setup, env, p.kind).steps);
    }
  }

  /** Steps of process i alone, as actions of the whole system. */
  lemma {:induction false} AsActions(s: System, i: nat, env: Env, n: nat) returns (actions: seq<Action>)
    requires i < |s.ps|
    ensures forall a :: a in actions ==> a.Act? && a.i == i
    ensures var s', b := Run(s, actions, env), Alone(Spot(s.shared, s.ps[i]), env, n);
            i < |s'.ps| && s'.shared == b.shared && s'.ps[i] == b.process
  {
    hide Advance;
    if n == 0 {
      actions := [];
    } else {
      var before := AsActions(s, i, env, n - 1);
      var b := Alone(Spot(s.shared, s.ps[i]), env, n - 1);
      var a := Act(i, env.reply(b.shared.tick, b.process.entry.providerID, b.process.entry.modelID));
      actions := before + [a];
      assert actions[..|actions| - 1] == before;
    }
  }

  lemma LeadsIn(a: Spot, b: Spot, env: Env) returns (n: nat)
    requires Leads(a, b, env)
    ensures Alone(a, env, n) == b
  {
    hide Alone;
    n :| Alone(a, env, n) == b;
  }

  lemma LoopNothing(w: World, setup: Setup, env: Env, kind: Kind)
    requires Keyed(setup)
    ensures Loop([], w, setup, env, kind).world == NoCapacity(w) && Loop([], w, setup, env, kind).steps == []
  {
    assert w.(gate := w.gate, tick := w.tick) == w;
  }

  /** The machine refines to the sequential router: in any state of the system there is a schedule in
      which a request that has just begun runs alone to its end, and it then has made the attempts, and
      left the gate, the slots and the metrics, that Serve says. */
  lemma RunsAlone(s: System, i: nat, kind: Kind, resolved: seq<Entry>, env: Env) returns (actions: seq<Action>)
    requires i < |s.ps| && s.ps[i] == NewProcess(kind, resolved) && Keyed(s.shared.setup)
    ensures forall a :: a in actions ==> a.Act? && a.i == i
    ensures var s', out := Run(s, actions, env), Serve(resolved, WorldOf(s.shared), s.shared.setup, env, kind);
            && i < |s'.ps| && s'.ps[i].pc == Ended
            && s'.ps[i].steps == out.steps && WorldOf(s'.shared) == out.world
  {
    hide Leads, Run, WorldOf, Alone, Loop;
    var a := Spot(s.shared, s.ps[i]);
    var b := LoopAlone(s.shared, s.ps[i], env);
    if resolved == [] {
      LoopNothing(WorldOf(s.shared), s.shared.setup, env, kind);
    }
    var n := LeadsIn(a, b, env);
    actions := AsActions(s, i, env, n);
    ghost var steps := Serve(resolved, WorldOf(s.shared), s.shared.setup, env, kind).steps;
    assert [] + steps == steps;
  }
}
