/** What the calls of a run rest on, and provider blocks over whole runs of any number of requests. */
module Histories {
  import opened Prelude
  import opened Entries
  import opened Windows
  import opened States
  import opened Routing
  import opened Processes
  import opened Conservation

  ghost predicate Monotone(env: Env) {
    forall n, m :: n <= m ==> env.time(n) <= env.time(m)
  }

  ghost predicate NoReload(actions: seq<Action>) {
    forall a :: a in actions ==> !a.Reload?
  }

  // ------------------------------------------------------------------ what a call rests on

  /** An entry is selected, and its call is still to come. */
  predicate Armed(pc: Pc) {
    match pc
    case Capture => true
    case Take(_) => true
    case Load(_, _) => true
    case Swap(_, _, _) => true
    case Raise => true
    case Call => true
    case _ => false
  }

  /** An entry is being checked, or selected with its call still to come. */
  predicate Candidate(pc: Pc) {
    Armed(pc) || pc.Probe?
  }

  /** The entry has passed the check of its provider's state, and its call is still to come. */
  predicate Cleared(pc: Pc) {
    Armed(pc) || (pc.Probe? && (pc.stage == AtCooldown || pc.stage == AtModel || pc.stage == AtProvider))
  }

  predicate SameTicket(p: Process, q: Process) {
    Armed(p.pc) && q == p.(pc := q.pc, models := q.models, held := q.held, mheld := q.mheld, raised := q.raised)
  }

  /** Away from selection and call, a step issues no ticket and uses none. */
  predicate TicketsKept(sh: Shared, p: Process, r: Advanced) {
    && !r.process.pc.Probe? && (Armed(r.process.pc) ==> SameTicket(p, r.process))
    && r.shared.calls == sh.calls && forall c :: c in r.spawned ==> !Candidate(c.pc)
  }

  lemma CountKeepsTickets(sh: Shared, p: Process)
    requires IdleAt(p.pc) && !Picking(p.pc) && p.pc != Capture
    ensures TicketsKept(sh, p, CountStep(sh, p))
  {
    hide Sift, Cut, Bumped, Blocks, Gain, Plus, Counted;
  }

  lemma AcquireNoProbe(sh: Shared, p: Process)
    requires p.pc.Take? || p.pc.Load? || p.pc.Swap?
    ensures !AcquireStep(sh, p).process.pc.Probe?
  {
    hide CounterFor;
  }

  lemma ReleaseDisarmed(sh: Shared, p: Process)
    requires p.pc.Return? || p.pc.RetLoad? || p.pc.RetSwap?
    ensures !Candidate(ReleaseStep(sh, p).process.pc)
  {
    hide CounterFor;
  }

  lemma GaugeKeepsTickets(sh: Shared, p: Process)
    requires p.pc == Raise || p.pc == Lower
    ensures TicketsKept(sh, p, GaugeStep(sh, p))
  {
    hide Bumped;
  }

  lemma ReplyKeepsTickets(sh: Shared, p: Process, reply: Reply)
    requires p.pc == Await
    ensures TicketsKept(sh, p, CallStep(sh, p, reply))
  {
    hide ReplyTo;
  }

  lemma PenaltyKeepsTickets(sh: Shared, p: Process, env: Env)
    requires p.pc == Cool || p.pc == Bar
    ensures TicketsKept(sh, p, PenaltyStep(sh, p, env))
  {
    hide Sift, Cut, Key, RetryAfter, BlockKey, Fallback, RecoveryOf;
  }

  lemma SlotKeepsTickets(sh: Shared, p: Process)
    requires OnCounter(p.pc)
    ensures p.pc.Take? || p.pc.Load? || p.pc.Swap? ==> TicketsKept(sh, p, AcquireStep(sh, p))
    ensures p.pc.Return? || p.pc.RetLoad? || p.pc.RetSwap? ==> TicketsKept(sh, p, ReleaseStep(sh, p))
  {
    hide AcquireStep, ReleaseStep, InTheGauge;
    if p.pc.Take? || p.pc.Load? || p.pc.Swap? {
      AcquireMechanical(sh, p);
      AcquireNoProbe(sh, p);
    } else {
      ReleaseMechanical(sh, p);
      ReleaseDisarmed(sh, p);
    }
  }

  lemma AdvanceKeepsTickets(sh: Shared, p: Process, reply: Reply, env: Env)
    requires !Picking(p.pc) && p.pc != Call
    ensures TicketsKept(sh, p, Advance(sh, p, reply, env))
  {
    hide AcquireStep, ReleaseStep, CountStep, GaugeStep, PenaltyStep, CallStep;
    match p.pc
    case Take(_) => SlotKeepsTickets(sh, p);
    case Load(_, _) => SlotKeepsTickets(sh, p);
    case Swap(_, _, _) => SlotKeepsTickets(sh, p);
    case Return(_) => SlotKeepsTickets(sh, p);
    case RetLoad(_, _) => SlotKeepsTickets(sh, p);
    case RetSwap(_, _, _) => SlotKeepsTickets(sh, p);
    case Capture =>
    case Raise => GaugeKeepsTickets(sh, p);
    case Lower => GaugeKeepsTickets(sh, p);
    case Await => ReplyKeepsTickets(sh, p, reply);
    case Cool => PenaltyKeepsTickets(sh, p, env);
    case Bar => PenaltyKeepsTickets(sh, p, env);
    case _ => CountKeepsTickets(sh, p);
  }

  /** Same gate, setup and memory, at the same time or later. */
  predicate SameGate(a: Shared, b: Shared) {
    a.gate == b.gate && a.setup == b.setup && a.retired == b.retired && a.tick <= b.tick && a.history == b.history
  }

  lemma SlotSameGate(sh: Shared, p: Process)
    requires OnCounter(p.pc)
    ensures p.pc.Take? || p.pc.Load? || p.pc.Swap? ==> SameGate(sh, AcquireStep(sh, p).shared)
    ensures p.pc.Return? || p.pc.RetLoad? || p.pc.RetSwap? ==> SameGate(sh, ReleaseStep(sh, p).shared)
  {
    hide AcquireStep, ReleaseStep, InTheGauge;
    if p.pc.Take? || p.pc.Load? || p.pc.Swap? {
      AcquireMechanical(sh, p);
    } else {
      ReleaseMechanical(sh, p);
    }
  }

  lemma StartSameGate(sh: Shared, p: Process)
    ensures SameGate(sh, SelectStep(sh, p).shared) && SameGate(sh, sh)
  {
    hide ModelsNow;
  }

  lemma CallSameGate(sh: Shared, p: Process, reply: Reply)
    ensures SameGate(sh, CallStep(sh, p, reply).shared)
  {
    hide ReplyTo, Forwarder;
  }

  lemma GaugeSameGate(sh: Shared, p: Process)
    ensures SameGate(sh, GaugeStep(sh, p).shared)
  {
    hide Bumped;
  }

  lemma CountSameGate(sh: Shared, p: Process)
    ensures SameGate(sh, CountStep(sh, p).shared)
  {
    hide AfterCounting, Gain, Bumped, Counted, Plus;
  }

  lemma OthersSameGate(sh: Shared, p: Process, reply: Reply, env: Env)
    requires !p.pc.Probe? && p.pc != Cool && p.pc != Bar
    ensures SameGate(sh, Advance(sh, p, reply, env).shared)
  {
    hide SelectStep, AcquireStep, ReleaseStep, GaugeStep, CallStep, CountStep, SameGate, ModelsNow;
    match p.pc
    case Take(_) => SlotSameGate(sh, p);
    case Load(_, _) => SlotSameGate(sh, p);
    case Swap(_, _, _) => SlotSameGate(sh, p);
    case Return(_) => SlotSameGate(sh, p);
    case RetLoad(_, _) => SlotSameGate(sh, p);
    case RetSwap(_, _, _) => SlotSameGate(sh, p);
    case Selecting => StartSameGate(sh, p);
    case Capture => StartSameGate(sh, p);
    case Call => CallSameGate(sh, p, reply);
    case Await => CallSameGate(sh, p, reply);
    case Raise => GaugeSameGate(sh, p);
    case Lower => GaugeSameGate(sh, p);
    case _ => CountSameGate(sh, p);
  }

  /** A step never forgets an event. */
  lemma AdvanceRemembers(sh: Shared, p: Process, reply: Reply, env: Env)
    requires !p.pc.Probe?
    ensures sh.history <= Advance(sh, p, reply, env).shared.history
  {
    if p.pc == Cool || p.pc == Bar {
      hide Key, RetryAfter, Fallback, RecoveryOf, Thin, BlockKey;
    } else {
      hide Advance;
      OthersSameGate(sh, p, reply, env);
    }
  }

  /** Position `look` of the history is a passed check of the provider's state. */
  predicate Looked(h: seq<Event>, look: nat, provider: string) {
    look < |h| && h[look].Passed? && h[look].provider == provider
  }

  /** Position `look` of the history is a passed check of the model's cooldown. */
  predicate KeyLooked(h: seq<Event>, look: nat, key: string) {
    look < |h| && h[look].Thawed? && h[look].key == key
  }

  predicate Backed(h: seq<Event>, e: Entry, m: Marks) {
    && Looked(h, m.look, e.providerID)
    && (m.keyLook.Some? ==> KeyLooked(h, m.keyLook.value, Key(e.providerID, e.modelID)))
  }

  /** Every candidate on its way to its call, and every call, rests on passed checks of its own entry. */
  ghost predicate Vouched(s: System) {
    && (forall i :: 0 <= i < |s.ps| && Cleared(s.ps[i].pc) ==>
          Backed(s.shared.history, s.ps[i].entry, s.ps[i].marks))
    && (forall k :: 0 <= k < |s.shared.calls| ==>
          var c := s.shared.calls[k]; Backed(s.shared.history, c.entry, c.marks))
  }

  /** The event that a check leaves behind, and how its process notes it. */
  predicate Noted(p: Process, e: Event, p': Process, at: nat) {
    match e
    case Passed(id, _, _) => id == p.entry.providerID && p'.marks.look == at && p'.marks.keyLook == None
    case Thawed(key, _) =>
      && key == Key(p.entry.providerID, p.entry.modelID)
      && p'.marks.look == p.marks.look && p'.marks.keyLook == Some(at) && Cleared(p.pc)
    case Marked(id, _) => id == p.entry.providerID && !Cleared(p'.pc)
    case _ => false
  }

  /** A provider passes its check only if it is healthy and neither blocked nor exhausted. */
  predicate Lawful(e: Event, v: StateView, env: Env) {
    e.Passed? ==>
      && env.ready(e.asked, e.provider)
      && (e.provider in v.blocked ==> v.blocked[e.provider] <= e.at)
      && (e.provider in v.exhausted ==> v.exhausted[e.provider] <= e.at)
  }

  /** What an event does to the provider state. */
  function Replayed(v: StateView, e: Event): StateView {
    match e
    case BarredFor(id, at, d) => v.(blocked := v.blocked[id := at + d])
    case Marked(id, until) => v.(exhausted := v.exhausted[id := until])
    case _ => v
  }

  /** What one check leaves in the history. */
  predicate Notes(sh: Shared, p: Process, r: Advanced, env: Env)
    requires p.pc.Probe?
  {
    var h, a, p' := sh.history, r.shared, r.process;
    && a.tick >= sh.tick
    && if a.history == h then
         && a.gate.state == sh.gate.state
         && p'.marks.look == p.marks.look && p'.marks.keyLook == p.marks.keyLook && (Cleared(p'.pc) ==> Cleared(p.pc))
       else
         && p.pc.stage != AtClock && |a.history| == |h| + 1 && a.history == h + [a.history[|h|]]
         && Noted(p, a.history[|h|], p', |h|) && Lawful(a.history[|h|], sh.gate.state, env)
         && a.gate.state == Replayed(sh.gate.state, a.history[|h|])
  }

  lemma StateNotes(sh: Shared, p: Process, now: Time, env: Env)
    requires p.pc.Probe? && p.pc.stage == AtState(now)
    ensures Notes(sh, p, StateCheck(sh, p, now, env), env)
  {
    hide Key;
  }

  lemma CooldownNotes(sh: Shared, p: Process, gen: nat, ml: TrackerView, env: Env)
    requires p.pc.Probe? && p.pc.stage == AtCooldown
    ensures Notes(sh, p, CooldownStep(sh, p, gen, ml, env), env)
  {
    hide Forget, Cooling, Key, WithModelTracker;
    TrackerPut(sh, gen, Forget(ml, Key(p.entry.providerID, p.entry.modelID), env.time(sh.tick)));
  }

  lemma WindowNotes(sh: Shared, p: Process, gen: nat, ml: TrackerView, env: Env)
    requires p.pc.Probe? && p.pc.stage == AtModel
    ensures Notes(sh, p, WindowStep(sh, p, gen, ml, env), env)
  {
    hide Record, Key, LastOf, WithModelTracker;
    TrackerPut(sh, gen, Record(ml, Key(p.entry.providerID, p.entry.modelID), env.time(sh.tick)).view);
  }

  lemma ModelNotes(sh: Shared, p: Process, env: Env)
    requires p.pc.Probe? && (p.pc.stage == AtCooldown || p.pc.stage == AtModel)
    ensures Notes(sh, p, ModelStep(sh, p, env), env)
  {
    hide CooldownStep, WindowStep, ModelTracker;
    var ml := if p.pc.models.Some? then ModelTracker(sh, p.pc.models.value) else None;
    if ml.Some? {
      if p.pc.stage == AtCooldown {
        CooldownNotes(sh, p, p.pc.models.value, ml.value, env);
      } else {
        WindowNotes(sh, p, p.pc.models.value, ml.value, env);
      }
    }
  }

  lemma ProviderNotes(sh: Shared, p: Process, env: Env)
    requires p.pc.Probe? && (p.pc.stage.AtProvider? || p.pc.stage.AtMark? || p.pc.stage.AtEvent?)
    ensures Notes(sh, p, ProviderStep(sh, p, env), env)
  {
    hide Record;
  }

  lemma ProbeNotes(sh: Shared, p: Process, env: Env)
    requires p.pc.Probe?
    ensures Notes(sh, p, ProbeStep(sh, p, env), env)
  {
    hide StateCheck, ModelStep, ProviderStep;
    match p.pc.stage
    case AtClock =>
    case AtState(now) => StateNotes(sh, p, now, env);
    case AtCooldown => ModelNotes(sh, p, env);
    case AtModel => ModelNotes(sh, p, env);
    case _ => ProviderNotes(sh, p, env);
  }

  /** What has been passed stays passed. */
  lemma StaysBacked(h: seq<Event>, h': seq<Event>, e: Entry, m: Marks)
    requires Backed(h, e, m) && h <= h'
    ensures Backed(h', e, m)
  {
  }

  /** A step of one process, as far as its own checks are concerned. */
  predicate StepVouched(sh: Shared, p: Process, r: Advanced) {
    && sh.history <= r.shared.history
    && (Cleared(r.process.pc) ==> Backed(r.shared.history, r.process.entry, r.process.marks))
    && (r.shared.calls == sh.calls
        || (Cleared(p.pc) && r.shared.calls == sh.calls + [Called(p.entry, p.marks)]))
    && forall c :: c in r.spawned ==> !Cleared(c.pc)
  }

  lemma ProbeVouched(sh: Shared, p: Process, env: Env)
    requires p.pc.Probe? && (Cleared(p.pc) ==> Backed(sh.history, p.entry, p.marks))
    ensures StepVouched(sh, p, ProbeStep(sh, p, env))
  {
    hide ProbeStep, Key;
    ProbeNotes(sh, p, env);
    SelectChoosing(sh, p, env);
  }

  lemma CallVouched(sh: Shared, p: Process, reply: Reply)
    requires p.pc == Call
    ensures StepVouched(sh, p, CallStep(sh, p, reply))
  {
    hide Backed;
  }

  lemma OtherVouched(sh: Shared, p: Process, reply: Reply, env: Env)
    requires !Picking(p.pc) && p.pc != Call && (Cleared(p.pc) ==> Backed(sh.history, p.entry, p.marks))
    ensures StepVouched(sh, p, Advance(sh, p, reply, env))
  {
    hide Advance, Backed, Armed;
    var r := Advance(sh, p, reply, env);
    AdvanceKeepsTickets(sh, p, reply, env);
    AdvanceRemembers(sh, p, reply, env);
    if Cleared(p.pc) {
      StaysBacked(sh.history, r.shared.history, p.entry, p.marks);
    }
  }

  lemma SelectVouched(sh: Shared, p: Process)
    ensures StepVouched(sh, p, SelectStep(sh, p))
  {
    hide Backed;
  }

  lemma AdvanceVouched(sh: Shared, p: Process, reply: Reply, env: Env)
    requires Cleared(p.pc) ==> Backed(sh.history, p.entry, p.marks)
    ensures StepVouched(sh, p, Advance(sh, p, reply, env))
  {
    hide ProbeStep, Backed, CallStep, AcquireStep, ReleaseStep, GaugeStep, PenaltyStep, CountStep, StepVouched;
    match p.pc
    case Selecting => SelectVouched(sh, p);
    case Probe(_, _, _, _) => ProbeVouched(sh, p, env);
    case Call => CallVouched(sh, p, reply);
    case _ => OtherVouched(sh, p, reply, env);
  }

  lemma ActVouched(s: System, i: nat, reply: Reply, env: Env)
    requires Vouched(s) && i < |s.ps|
    ensures Vouched(Next(s, Act(i, reply), env))
  {
    hide Advance, Backed, Cleared;
    var sh, r := s.shared, Advance(s.shared, s.ps[i], reply, env);
    AdvanceVouched(sh, s.ps[i], reply, env);
    forall e: Entry, m: Marks | Backed(sh.history, e, m)
      ensures Backed(r.shared.history, e, m)
    {
      StaysBacked(sh.history, r.shared.history, e, m);
    }
    var s' := Next(s, Act(i, reply), env);
    assert forall j :: |s.ps| <= j < |s'.ps| ==> s'.ps[j] in r.spawned;
  }

  /** Through reloads as well. */
  lemma {:induction false} RunVouched(s: System, actions: seq<Action>, env: Env)
    requires Vouched(s)
    ensures Vouched(Run(s, actions, env))
    decreases |actions|
  {
    hide Backed, Advance;
    if actions != [] {
      var n := |actions| - 1;
      var before, a := Run(s, actions[..n], env), actions[n];
      RunVouched(s, actions[..n], env);
      if a.Act? && a.i < |before.ps| {
        ActVouched(before, a.i, a.reply, env);
      }
    }
  }

  // -------------------------------------------------- which model tracker a selection goes by

  /** The entry has passed the check of its model's cooldown, and its call is still to come. */
  predicate Warm(pc: Pc) {
    Armed(pc) || (pc.Probe? && (pc.stage == AtModel || pc.stage == AtProvider))
  }

  predicate Attuned(sh: Shared, p: Process) {
    && (p.pc.Probe? ==> p.pc.models == ModelsNow(sh))
    && (sh.gate.mlim.Some? && Warm(p.pc) ==> p.marks.keyLook.Some?)
  }

  /** On one configuration every selection goes by the model tracker in place, and asks it. */
  ghost predicate AllAttuned(s: System) {
    && (forall i :: 0 <= i < |s.ps| ==> Attuned(s.shared, s.ps[i]))
    && (s.shared.gate.mlim.Some? ==> forall c :: c in s.shared.calls ==> c.marks.keyLook.Some?)
  }

  /** A step after which its process still goes by the tracker in place. */
  predicate StepAttuned(sh: Shared, p: Process, r: Advanced) {
    && ModelsNow(r.shared) == ModelsNow(sh) && Attuned(r.shared, r.process)
    && (r.shared.calls == sh.calls
        || (Warm(p.pc) && r.shared.calls == sh.calls + [Called(p.entry, p.marks)]))
    && forall c :: c in r.spawned ==> !Candidate(c.pc)
  }

  lemma RetiredCooldown(sh: Shared, p: Process, ml: TrackerView, env: Env)
    requires p.pc.Probe? && p.pc.models.Some? && p.pc.models.value != sh.gen
    ensures var r := CooldownStep(sh, p, p.pc.models.value, ml, env);
            && r.shared.gate.mlim == sh.gate.mlim && r.process.pc.Probe?
            && (r.process.pc.stage == AtModel
                <==> !Cooling(ml, Key(p.entry.providerID, p.entry.modelID), env.time(sh.tick)))
  {
    hide Forget, Cooling, Key;
  }

  lemma RetiredWindow(sh: Shared, p: Process, ml: TrackerView, env: Env)
    requires p.pc.Probe? && p.pc.models.Some? && p.pc.models.value != sh.gen
    ensures var r := WindowStep(sh, p, p.pc.models.value, ml, env);
            && r.shared.gate.mlim == sh.gate.mlim && p.pc.models.value in r.shared.retired
            && r.shared.retired[p.pc.models.value]
               == Record(ml, Key(p.entry.providerID, p.entry.modelID), env.time(sh.tick)).view
  {
    hide Record, Key, LastOf;
  }

  lemma KeepsModels(sh: Shared, p: Process, env: Env)
    requires p.pc.Probe?
    ensures ProviderStep(sh, p, env).shared.gate.mlim == sh.gate.mlim
    ensures p.pc.stage.AtState? ==>
              var r := StateCheck(sh, p, p.pc.stage.now, env);
              r.shared.gate.mlim == sh.gate.mlim && (Cleared(r.process.pc) ==> p.entry.providerID in p.pc.providers)
  {
    hide Record;
  }

  /** A selection begun before a reload goes by what it noted then: it asks and changes only the retired tracker,
      and passes only providers of the map it noted. */
  lemma KeepsToItsTracker(sh: Shared, p: Process, env: Env)
    requires p.pc.Probe? && p.pc.models.Some? && p.pc.models.value != sh.gen && p.pc.models.value in sh.retired
    ensures var r, key := ProbeStep(sh, p, env), Key(p.entry.providerID, p.entry.modelID);
            var ml := sh.retired[p.pc.models.value];
            && r.shared.gate.mlim == sh.gate.mlim
            && (p.pc.stage == AtCooldown ==> (r.process.pc.stage == AtModel <==> !Cooling(ml, key, env.time(sh.tick))))
            && (p.pc.stage == AtModel ==>
                  r.shared.retired[p.pc.models.value] == Record(ml, key, env.time(sh.tick)).view)
            && (p.pc.stage.AtState? && Cleared(r.process.pc) ==> p.entry.providerID in p.pc.providers)
  {
    hide StateCheck, CooldownStep, WindowStep, ProviderStep;
    var ml := sh.retired[p.pc.models.value];
    RetiredCooldown(sh, p, ml, env);
    RetiredWindow(sh, p, ml, env);
    KeepsModels(sh, p, env);
  }

  lemma StateAttuned(sh: Shared, p: Process, now: Time, env: Env)
    requires p.pc.Probe? && Attuned(sh, p)
    ensures StepAttuned(sh, p, StateCheck(sh, p, now, env))
  {
  }

  lemma OntoWarm(p: Process)
    requires p.pc.Probe?
    ensures !Warm(Onto(p, AtClock).pc) && Onto(p, AtClock).pc == p.pc.(stage := AtClock)
    ensures Onto(p, AtModel).pc == p.pc.(stage := AtModel)
  {
  }

  lemma CooldownAttuned(sh: Shared, p: Process, ml: TrackerView, env: Env)
    requires p.pc.Probe? && Attuned(sh, p) && sh.gate.mlim.Some?
    ensures StepAttuned(sh, p, CooldownStep(sh, p, sh.gen, ml, env))
  {
    hide Forget, Cooling, Key, Onto;
    OntoWarm(p);
  }

  lemma WindowAttuned(sh: Shared, p: Process, ml: TrackerView, env: Env)
    requires p.pc.Probe? && Attuned(sh, p) && sh.gate.mlim.Some? && p.pc.stage == AtModel
    ensures StepAttuned(sh, p, WindowStep(sh, p, sh.gen, ml, env))
  {
    hide Record, Key, LastOf;
  }

  lemma ModelAttuned(sh: Shared, p: Process, env: Env)
    requires p.pc.Probe? && Attuned(sh, p) && (p.pc.stage == AtCooldown || p.pc.stage == AtModel)
    ensures StepAttuned(sh, p, ModelStep(sh, p, env))
  {
    hide CooldownStep, WindowStep;
    if sh.gate.mlim.Some? {
      CooldownAttuned(sh, p, sh.gate.mlim.value, env);
      if p.pc.stage == AtModel {
        WindowAttuned(sh, p, sh.gate.mlim.value, env);
      }
    }
  }

  lemma ProviderAttuned(sh: Shared, p: Process, env: Env)
    requires p.pc.Probe? && Attuned(sh, p)
    requires p.pc.stage.AtProvider? || p.pc.stage.AtMark? || p.pc.stage.AtEvent?
    ensures StepAttuned(sh, p, ProviderStep(sh, p, env))
  {
    hide Record;
  }

  lemma ProbeAttuned(sh: Shared, p: Process, env: Env)
    requires p.pc.Probe? && Attuned(sh, p)
    ensures StepAttuned(sh, p, ProbeStep(sh, p, env))
  {
    hide StateCheck, ModelStep, ProviderStep;
    match p.pc.stage
    case AtClock =>
    case AtState(now) => StateAttuned(sh, p, now, env);
    case AtCooldown => ModelAttuned(sh, p, env);
    case AtModel => ModelAttuned(sh, p, env);
    case _ => ProviderAttuned(sh, p, env);
  }

  lemma AdvanceKeepsModels(sh: Shared, p: Process, reply: Reply, env: Env)
    requires !p.pc.Probe?
    ensures ModelsNow(Advance(sh, p, reply, env).shared) == ModelsNow(sh)
  {
    SameGeneration(sh, p, reply, env);
    if p.pc == Cool || p.pc == Bar {
      hide Key, RetryAfter, Fallback, RecoveryOf, Thin, BlockKey;
    } else {
      hide Advance;
      OthersSameGate(sh, p, reply, env);
    }
  }

  lemma OtherAttuned(sh: Shared, p: Process, reply: Reply, env: Env)
    requires !Picking(p.pc) && p.pc != Call && Attuned(sh, p)
    ensures StepAttuned(sh, p, Advance(sh, p, reply, env))
  {
    hide Advance, Armed;
    AdvanceKeepsTickets(sh, p, reply, env);
    AdvanceKeepsModels(sh, p, reply, env);
  }

  lemma StartsAttuned(sh: Shared, p: Process, reply: Reply)
    requires Attuned(sh, p)
    ensures StepAttuned(sh, p, SelectStep(sh, p))
    ensures p.pc == Call ==> StepAttuned(sh, p, CallStep(sh, p, reply))
  {
  }

  lemma AdvanceAttuned(sh: Shared, p: Process, reply: Reply, env: Env)
    requires Attuned(sh, p)
    ensures var r := Advance(sh, p, reply, env); StepAttuned(sh, p, r)
  {
    hide ProbeStep, SelectStep, AcquireStep, ReleaseStep, CallStep, GaugeStep, PenaltyStep, CountStep;
    hide StepAttuned;
    match p.pc
    case Selecting => StartsAttuned(sh, p, reply);
    case Probe(_, _, _, _) => ProbeAttuned(sh, p, env);
    case Call => StartsAttuned(sh, p, reply);
    case _ => OtherAttuned(sh, p, reply, env);
  }

  lemma ActAttuned(s: System, i: nat, reply: Reply, env: Env)
    requires AllAttuned(s) && i < |s.ps|
    ensures AllAttuned(Next(s, Act(i, reply), env))
            && ModelsNow(Next(s, Act(i, reply), env).shared) == ModelsNow(s.shared)
  {
    hide Advance;
    var r, s' := Advance(s.shared, s.ps[i], reply, env), Next(s, Act(i, reply), env);
    AdvanceAttuned(s.shared, s.ps[i], reply, env);
    assert forall j :: |s.ps| <= j < |s'.ps| ==> s'.ps[j] in r.spawned;
  }

  lemma {:induction false} RunAttuned(s: System, actions: seq<Action>, env: Env)
    requires AllAttuned(s) && NoReload(actions)
    ensures AllAttuned(Run(s, actions, env)) && ModelsNow(Run(s, actions, env).shared) == ModelsNow(s.shared)
    decreases |actions|
  {
    hide Advance;
    if actions != [] {
      var n := |actions| - 1;
      var before, a := Run(s, actions[..n], env), actions[n];
      RunAttuned(s, actions[..n], env);
      assert !a.Reload?;
      if a.Act? && a.i < |before.ps| {
        ActAttuned(before, a.i, a.reply, env);
      }
    }
  }

  predicate HasTracker(sh: Shared, p: Process) {
    p.pc.Probe? && p.pc.models.Some? ==> ModelTracker(sh, p.pc.models.value).Some?
  }

  /** The model tracker that a selection noted is there as long as the selection lasts, reloads or not. */
  ghost predicate Retained(s: System) {
    && (forall g :: g in s.shared.retired ==> g < s.shared.gen)
    && forall i :: 0 <= i < |s.ps| ==> HasTracker(s.shared, s.ps[i])
  }

  /** Same generations of trackers. */
  predicate SameTrackers(a: Shared, b: Shared) {
    a.gen == b.gen && a.gate.mlim.Some? == b.gate.mlim.Some? && a.retired.Keys == b.retired.Keys
  }

  lemma TrackerRetained(sh: Shared, gen: nat, v: TrackerView)
    requires ModelTracker(sh, gen).Some?
    ensures SameTrackers(sh, WithModelTracker(sh, gen, v))
  {
  }

  lemma ModelRetains(sh: Shared, p: Process, env: Env)
    requires p.pc.Probe? && HasTracker(sh, p)
    ensures SameTrackers(sh, ModelStep(sh, p, env).shared)
  {
    hide Record, Forget, Cooling, Key, LastOf, WithModelTracker, ModelTracker, Onto;
    if p.pc.models.Some? {
      var g, key, now := p.pc.models.value, Key(p.entry.providerID, p.entry.modelID), env.time(sh.tick);
      var ml := ModelTracker(sh, g).value;
      TrackerRetained(sh, g, Forget(ml, key, now));
      TrackerRetained(sh, g, Record(ml, key, now).view);
    }
  }

  lemma ProbeRetains(sh: Shared, p: Process, env: Env)
    requires p.pc.Probe? && HasTracker(sh, p)
    ensures SameTrackers(sh, ProbeStep(sh, p, env).shared)
  {
    hide ModelStep, Record;
    ModelRetains(sh, p, env);
  }

  lemma PenaltyRetains(sh: Shared, p: Process, env: Env)
    ensures SameTrackers(sh, PenaltyStep(sh, p, env).shared)
  {
    hide Key, RetryAfter, Fallback, RecoveryOf, Thin, BlockKey;
  }

  lemma OtherCandidates(sh: Shared, p: Process, reply: Reply, env: Env)
    requires !Picking(p.pc)
    ensures !Advance(sh, p, reply, env).process.pc.Probe?
    ensures forall c :: c in Advance(sh, p, reply, env).spawned ==> !c.pc.Probe?
  {
    if p.pc != Call {
      hide Advance, Armed;
      AdvanceKeepsTickets(sh, p, reply, env);
    }
  }

  lemma AdvanceRetains(sh: Shared, p: Process, reply: Reply, env: Env)
    requires HasTracker(sh, p)
    ensures var r := Advance(sh, p, reply, env);
            && SameTrackers(sh, r.shared) && HasTracker(r.shared, r.process)
            && forall c :: c in r.spawned ==> !c.pc.Probe?
  {
    hide ProbeStep, PenaltyStep, AcquireStep, ReleaseStep, GaugeStep, CallStep, CountStep;
    SameGeneration(sh, p, reply, env);
    if p.pc.Probe? {
      ProbeRetains(sh, p, env);
      SelectChoosing(sh, p, env);
    } else if p.pc == Cool || p.pc == Bar {
      PenaltyRetains(sh, p, env);
      PenaltyKeepsTickets(sh, p, env);
    } else if p.pc != Selecting {
      hide Advance;
      OthersSameGate(sh, p, reply, env);
      OtherCandidates(sh, p, reply, env);
    }
  }

  /** A reload keeps every tracker of an earlier generation, and the one it replaces, as they are. */
  lemma ReloadRetires(sh: Shared, setup: Setup, lim: TrackerView, mlim: Option<TrackerView>, caps: map<Counter, int>)
    requires forall g :: g in sh.retired ==> g < sh.gen
    ensures forall g: nat :: g <= sh.gen ==>
      ModelTracker(Reloaded(sh, setup, lim, mlim, caps), g) == ModelTracker(sh, g)
  {
  }

  lemma NextRetains(s: System, a: Action, env: Env)
    requires Retained(s)
    ensures Retained(Next(s, a, env))
  {
    hide Advance;
    if a.Act? && a.i < |s.ps| {
      var r, s' := Advance(s.shared, s.ps[a.i], a.reply, env), Next(s, a, env);
      AdvanceRetains(s.shared, s.ps[a.i], a.reply, env);
      assert forall j :: |s.ps| <= j < |s'.ps| ==> s'.ps[j] in r.spawned;
    } else if a.Reload? {
      ReloadRetires(s.shared, a.setup, a.lim, a.mlim, a.caps);
    }
  }

  /** So a selection never goes without the tracker it noted, in any run. */
  lemma {:induction false} RunRetains(s: System, actions: seq<Action>, env: Env)
    requires Initial(s)
    ensures Retained(Run(s, actions, env))
    decreases |actions|
  {
    hide Next;
    if actions != [] {
      hide Retained;
      var n := |actions| - 1;
      RunRetains(s, actions[..n], env);
      NextRetains(Run(s, actions[..n], env), actions[n], env);
    }
  }

  // -------------------------------------------------------------------------- blocking safety

  /** Blocks happen at clock readings made so far. */
  predicate Timely(h: seq<Event>, now: Time) {
    forall i :: 0 <= i < |h| && h[i].BarredFor? ==> h[i].at <= now
  }

  predicate Bars(e: Event, provider: string) {
    e.BarredFor? && e.provider == provider
  }

  /** Every block in the history is covered by the expiry in force. */
  predicate Covered(h: seq<Event>, setup: Setup, blocked: map<string, Time>) {
    forall i :: 0 <= i < |h| && h[i].BarredFor? ==>
      h[i].d == RecoveryOf(setup, h[i].provider) && h[i].provider in blocked
      && h[i].at + h[i].d <= blocked[h[i].provider]
  }

  /** No check lets a provider pass that was blocked before, at a reading before the block has expired. */
  predicate Respected(h: seq<Event>) {
    forall i, j :: 0 <= i < j < |h| && h[i].BarredFor? && h[j].Passed? && h[i].provider == h[j].provider ==>
      h[i].at + h[i].d <= h[j].at
  }

  /** The provider state that a history leads to. */
  function Replay(h: seq<Event>, start: StateView): StateView {
    if h == [] then start else Replayed(Replay(h[..|h| - 1], start), h[|h| - 1])
  }

  /** Every passed check was lawful in the state at its time. */
  ghost predicate AllLawful(h: seq<Event>, start: StateView, env: Env) {
    forall j :: 0 <= j < |h| ==> Lawful(h[j], Replay(h[..j], start), env)
  }

  /** What holds in every run, reloads included: they leave the provider state alone. */
  ghost predicate Enforced(start: StateView, sh: Shared, env: Env) {
    sh.gate.state == Replay(sh.history, start) && AllLawful(sh.history, start, env)
  }

  /** What holds in addition on one configuration. */
  ghost predicate Guarded(sh: Shared, env: Env) {
    && Timely(sh.history, env.time(sh.tick))
    && Covered(sh.history, sh.setup, sh.gate.state.blocked)
    && Respected(sh.history)
  }

  lemma EventKept(h: seq<Event>, start: StateView, e: Event, env: Env)
    requires AllLawful(h, start, env) && Lawful(e, Replay(h, start), env)
    ensures Replay(h + [e], start) == Replayed(Replay(h, start), e) && AllLawful(h + [e], start, env)
  {
    var h' := h + [e];
    assert h'[..|h|] == h;
    forall j | 0 <= j < |h'|
      ensures Lawful(h'[j], Replay(h'[..j], start), env)
    {
      if j < |h| {
        assert h'[..j] == h[..j];
      }
    }
  }

  /** A check passed under no block, or a cooldown, keeps the rest. */
  lemma OtherGuarded(h: seq<Event>, setup: Setup, blocked: map<string, Time>, e: Event, was: Time, now: Time)
    requires Timely(h, was) && Covered(h, setup, blocked) && Respected(h)
    requires was <= now && !e.BarredFor?
    requires e.Passed? ==> !Before(e.at, At(blocked, e.provider))
    ensures Timely(h + [e], now) && Covered(h + [e], setup, blocked) && Respected(h + [e])
  {
  }

  lemma BarredGuarded(h: seq<Event>, setup: Setup, blocked: map<string, Time>, p: string, at: Time, now: Time)
    requires Timely(h, at) && Covered(h, setup, blocked) && Respected(h)
    requires at <= now
    ensures var d := RecoveryOf(setup, p);
            var h', blocked' := h + [BarredFor(p, at, d)], blocked[p := at + d];
            Timely(h', now) && Covered(h', setup, blocked') && Respected(h')
  {
  }

  lemma ProbeGuarded(start: StateView, sh: Shared, p: Process, env: Env)
    requires p.pc.Probe?
    ensures Enforced(start, sh, env) ==> Enforced(start, ProbeStep(sh, p, env).shared, env)
    ensures Monotone(env) && Guarded(sh, env) ==> Guarded(ProbeStep(sh, p, env).shared, env)
  {
    hide ProbeStep, Covered, Respected, AllLawful, Replay, Key;
    var sh', blocked := ProbeStep(sh, p, env).shared, sh.gate.state.blocked;
    ProbeNotes(sh, p, env);
    SelectChoosing(sh, p, env);
    assert Monotone(env) ==> env.time(sh.tick) <= env.time(sh'.tick);
    if sh'.history != sh.history {
      var e := sh'.history[|sh.history|];
      if Enforced(start, sh, env) {
        EventKept(sh.history, start, e, env);
      }
      if Monotone(env) && Guarded(sh, env) {
        OtherGuarded(sh.history, sh.setup, blocked, e, env.time(sh.tick), env.time(sh'.tick));
      }
    }
  }

  lemma BarGuarded(start: StateView, sh: Shared, p: Process, env: Env)
    requires p.pc == Bar
    ensures Enforced(start, sh, env) ==> Enforced(start, PenaltyStep(sh, p, env).shared, env)
    ensures Monotone(env) && Guarded(sh, env) ==> Guarded(PenaltyStep(sh, p, env).shared, env)
  {
    hide Covered, Respected, AllLawful, Lawful, Replay, RecoveryOf, Timely;
    var id, now, blocked := p.entry.providerID, env.time(sh.tick), sh.gate.state.blocked;
    assert Monotone(env) ==> now <= env.time(sh.tick + 1);
    if Enforced(start, sh, env) {
      EventKept(sh.history, start, BarredFor(id, now, RecoveryOf(sh.setup, id)), env);
    }
    if Monotone(env) && Guarded(sh, env) {
      BarredGuarded(sh.history, sh.setup, blocked, id, now, env.time(sh.tick + 1));
    }
  }

  /** A cooldown is no matter of blocks. */
  lemma CoolKeeps(sh: Shared, p: Process, env: Env)
    requires p.pc == Cool
    ensures var sh' := PenaltyStep(sh, p, env).shared;
            && sh'.gate.state == sh.gate.state && sh'.setup == sh.setup && sh'.tick >= sh.tick
            && (sh'.history == sh.history
                || (sh'.history == sh.history + [sh'.history[|sh.history|]] && sh'.history[|sh.history|].Cooled?))
  {
    hide Thin, RetryAfter, BlockKey, RecoveryOf, Key, Fallback;
  }

  lemma CoolGuarded(start: StateView, sh: Shared, p: Process, env: Env)
    requires p.pc == Cool
    ensures Enforced(start, sh, env) ==> Enforced(start, PenaltyStep(sh, p, env).shared, env)
    ensures Monotone(env) && Guarded(sh, env) ==> Guarded(PenaltyStep(sh, p, env).shared, env)
  {
    hide PenaltyStep, Covered, Respected, AllLawful, Lawful, Replay;
    var sh' := PenaltyStep(sh, p, env).shared;
    CoolKeeps(sh, p, env);
    assert Monotone(env) ==> env.time(sh.tick) <= env.time(sh'.tick);
    if sh'.history != sh.history {
      var e := sh'.history[|sh.history|];
      if Enforced(start, sh, env) {
        EventKept(sh.history, start, e, env);
      }
      if Monotone(env) && Guarded(sh, env) {
        OtherGuarded(sh.history, sh.setup, sh.gate.state.blocked, e, env.time(sh.tick), env.time(sh'.tick));
      }
    }
  }

  lemma AdvanceGuarded(start: StateView, sh: Shared, p: Process, reply: Reply, env: Env)
    ensures Enforced(start, sh, env) ==> Enforced(start, Advance(sh, p, reply, env).shared, env)
    ensures Monotone(env) && Guarded(sh, env) ==> Guarded(Advance(sh, p, reply, env).shared, env)
  {
    hide Covered, Respected, AllLawful, Lawful, Replay;
    if p.pc.Probe? {
      ProbeGuarded(start, sh, p, env);
    } else if p.pc == Bar {
      BarGuarded(start, sh, p, env);
    } else if p.pc == Cool {
      CoolGuarded(start, sh, p, env);
    } else {
      hide Advance;
      OthersSameGate(sh, p, reply, env);
      assert Monotone(env) ==> env.time(sh.tick) <= env.time(Advance(sh, p, reply, env).shared.tick);
    }
  }

  lemma {:induction false} RunEnforced(start: StateView, s: System, actions: seq<Action>, env: Env)
    requires Enforced(start, s.shared, env)
    ensures Enforced(start, Run(s, actions, env).shared, env)
    decreases |actions|
  {
    hide AllLawful, Lawful, Replay, Advance;
    if actions != [] {
      var n := |actions| - 1;
      var before, a := Run(s, actions[..n], env), actions[n];
      RunEnforced(start, s, actions[..n], env);
      if a.Act? && a.i < |before.ps| {
        AdvanceGuarded(start, before.shared, before.ps[a.i], a.reply, env);
      }
    }
  }

  lemma {:induction false} RunGuarded(s: System, actions: seq<Action>, env: Env)
    requires Monotone(env) && Guarded(s.shared, env) && NoReload(actions)
    ensures Guarded(Run(s, actions, env).shared, env)
    decreases |actions|
  {
    hide Guarded, Advance;
    if actions != [] {
      var n := |actions| - 1;
      var before, a := Run(s, actions[..n], env), actions[n];
      RunGuarded(s, actions[..n], env);
      assert !a.Reload?;
      if a.Act? && a.i < |before.ps| {
        AdvanceGuarded(before.shared.gate.state, before.shared, before.ps[a.i], a.reply, env);
      }
    }
  }

  lemma NothingBarred(s: System, env: Env)
    requires Initial(s)
    ensures Enforced(s.shared.gate.state, s.shared, env) && Guarded(s.shared, env)
  {
  }

  /** Every call rests on a check of its own provider, and that check found the provider healthy and neither
      blocked nor exhausted: it was made at or after the expiry of the latest block and of the latest exhaustion
      set before it (or restored at the start). This holds through reloads and at any clock; and the state itself
      is at any moment what the blocks and exhaustions so far make of it, with no background step. */
  lemma CallsLawful(s0: System, actions: seq<Action>, env: Env, k: nat)
    requires Initial(s0)
    ensures var start, sh := s0.shared.gate.state, Run(s0, actions, env).shared;
            && sh.gate.state == Replay(sh.history, start)
            && (k < |sh.calls| ==>
                  var id, look := sh.calls[k].entry.providerID, sh.calls[k].marks.look;
                  && Looked(sh.history, look, id)
                  && var e, v := sh.history[look], Replay(sh.history[..look], start);
                     && env.ready(e.asked, id)
                     && (id in v.blocked ==> v.blocked[id] <= e.at)
                     && (id in v.exhausted ==> v.exhausted[id] <= e.at))
  {
    hide Run, Replay;
    NothingBarred(s0, env);
    RunEnforced(s0.shared.gate.state, s0, actions, env);
    RunVouched(s0, actions, env);
  }

  /** Expiry of the latest block of a provider. */
  function LatestExpiry(h: seq<Event>, p: string): Option<Time> {
    if h == [] then None
    else
      var e := h[|h| - 1];
      if e.BarredFor? && e.provider == p then Some(e.at + e.d) else LatestExpiry(h[..|h| - 1], p)
  }

  lemma {:induction false} ReplayLatest(h: seq<Event>, start: StateView, p: string)
    ensures At(Replay(h, start).blocked, p)
            == if LatestExpiry(h, p).Some? then LatestExpiry(h, p) else At(start.blocked, p)
  {
    if h != [] {
      ReplayLatest(h[..|h| - 1], start, p);
    }
  }

  /** Blocking over whole runs, reloads included, at any clock: a provider is blocked exactly up to the expiry
      of its latest block, with no background step to lift it; and every call rests on a check of its
      provider that was made at or after the expiry of the provider's latest block before the check. */
  lemma LatestBlockHolds(s0: System, actions: seq<Action>, env: Env, now: Time, ready: bool, p: string, k: nat)
    requires Initial(s0)
    ensures var sh := Run(s0, actions, env).shared;
            && (LatestExpiry(sh.history, p).Some? ==>
                  (StateOf(sh.gate.state, p, now, ready) == Blocked <==> now < LatestExpiry(sh.history, p).value))
            && (k < |sh.calls| ==>
                  var c := sh.calls[k];
                  && Looked(sh.history, c.marks.look, c.entry.providerID)
                  && var last := LatestExpiry(sh.history[..c.marks.look], c.entry.providerID);
                     last.Some? ==> last.value <= sh.history[c.marks.look].at)
  {
    hide Run, LatestExpiry, Replay;
    var sh := Run(s0, actions, env).shared;
    CallsLawful(s0, actions, env, k);
    ReplayLatest(sh.history, s0.shared.gate.state, p);
    if k < |sh.calls| {
      ReplayLatest(sh.history[..sh.calls[k].marks.look], s0.shared.gate.state, sh.calls[k].entry.providerID);
    }
  }

  /** Blocking safety over whole runs on one configuration, however the checks of the requests interleave:
      once a failure has blocked a provider at time t for its recovery window d, no later check lets it
      pass at a time before t + d, and every call rests on a check of its own provider. */
  lemma BlocksRespected(s0: System, actions: seq<Action>, env: Env)
    requires Initial(s0) && Monotone(env) && NoReload(actions)
    ensures var sh := Run(s0, actions, env).shared;
            forall k :: 0 <= k < |sh.calls| ==>
              var c := sh.calls[k];
              && Looked(sh.history, c.marks.look, c.entry.providerID)
              && forall i :: 0 <= i < c.marks.look && Bars(sh.history[i], c.entry.providerID) ==>
                   sh.history[c.marks.look].at >= sh.history[i].at + sh.history[i].d
  {
    hide Run;
    NothingBarred(s0, env);
    RunGuarded(s0, actions, env);
    RunVouched(s0, actions, env);
  }
}
