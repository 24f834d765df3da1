/** Provider slots across a reload: exactly which reloads keep the provider counters right. */
module Reloads {
  import opened Prelude
  import opened Entries
  import opened Windows
  import opened States
  import opened Routing
  import opened Processes
  import opened Conservation
  import opened Histories
  import opened SoloRuns

  /** Every provider counter shows its restored value plus its holders. */
  ghost predicate ProviderRight(s: System) {
    forall q :: q in s.shared.caps && q.tier == ProviderTier ==> Right(s, q)
  }

  /** One instant, everyone healthy, every call fails. */
  function FailEnv(t: Time): Env {
    Env((n: nat) => t, (n: nat, id: string) => true, (n: nat, id: string, m: string) => Failed(OtherFailure))
  }

  lemma {:induction false} RunAppend(s: System, a: seq<Action>, b: seq<Action>, env: Env)
    ensures Run(Run(s, a, env), b, env) == Run(s, a + b, env)
    decreases |b|
  {
    hide Next;
    if b == [] {
      assert a + b == a;
    } else {
      var n := |b| - 1;
      RunAppend(s, a, b[..n], env);
      assert (a + b)[..|a + b| - 1] == a + b[..n];
    }
  }

  // --------------------------------------------------------- one process on its own, all calls failing

  lemma NoSpawn(sh: Shared, p: Process, env: Env, t: Time)
    requires env == FailEnv(t)
    ensures Advance(sh, p, env.reply(sh.tick, p.entry.providerID, p.entry.modelID), env).spawned == []
  {
    hide CountStep, SelectStep, ProbeStep, PenaltyStep, AcquireStep, ReleaseStep, Bumped;
    if IdleAt(p.pc) && p.pc != Capture {
      IdleQuiet(sh, p, env.reply(sh.tick, p.entry.providerID, p.entry.modelID), env);
    } else if p.pc.Take? || p.pc.Load? || p.pc.Swap? {
      AcquireMechanical(sh, p);
    } else if p.pc.Return? || p.pc.RetLoad? || p.pc.RetSwap? {
      ReleaseMechanical(sh, p);
    }
  }

  lemma {:induction false} AloneActions(s: System, i: nat, t: Time, n: nat) returns (actions: seq<Action>)
    requires i < |s.ps|
    ensures NoReload(actions)
    ensures var b := Alone(Spot(s.shared, s.ps[i]), FailEnv(t), n);
            Run(s, actions, FailEnv(t)) == System(b.shared, s.ps[i := b.process])
  {
    hide Advance;
    var env := FailEnv(t);
    if n == 0 {
      actions := [];
      assert s.ps[i := s.ps[i]] == s.ps;
    } else {
      var before := AloneActions(s, i, t, n - 1);
      var b := Alone(Spot(s.shared, s.ps[i]), env, n - 1);
      var r := env.reply(b.shared.tick, b.process.entry.providerID, b.process.entry.modelID);
      actions := before + [Act(i, r)];
      assert actions[..|actions| - 1] == before;
      NoSpawn(b.shared, b.process, env, t);
      var c := Advance(b.shared, b.process, r, env).process;
      assert s.ps[i := b.process][i := c] + [] == s.ps[i := c];
    }
  }

  /** A process on its own, as a run of the whole system. */
  lemma LedActions(s: System, i: nat, b: Spot, t: Time) returns (actions: seq<Action>)
    requires i < |s.ps| && Leads(Spot(s.shared, s.ps[i]), b, FailEnv(t))
    ensures NoReload(actions) && Run(s, actions, FailEnv(t)) == System(b.shared, s.ps[i := b.process])
  {
    hide Leads, Alone, Run;
    var n := LeadsIn(Spot(s.shared, s.ps[i]), b, FailEnv(t));
    actions := AloneActions(s, i, t, n);
  }

  /** What a process keeps on its way to returning its provider slot, and what it leaves alone. */
  ghost predicate Kept(a: Spot, b: Spot) {
    && b.process.held == a.process.held && b.process.entry == a.process.entry
    && (b.process.mheld.Some? ==> b.process.mheld.value.tier == ModelTier)
    && b.shared.caps == a.shared.caps && b.shared.gen == a.shared.gen && b.shared.base == a.shared.base
    && forall q: Counter :: q.tier == ProviderTier ==> ActiveOf(b.shared, q) == ActiveOf(a.shared, q)
  }

  /** Processes between taking and returning a provider slot. */
  predicate Underway(p: Process) {
    && HoldsProvider(p.pc) && !Departing(p.pc)
    && (p.mheld.Some? ==> p.mheld.value.tier == ModelTier)
    && (p.pc.Load? || p.pc.Swap? ==> p.pc.counter.tier == ModelTier)
  }

  /** Where a step on the way to the return leads. */
  predicate Onwards(a: Spot, b: Spot) {
    match a.process.pc
    case Raise => b.process.pc.Take?
    case Take(_) => b.process.pc.Load? || b.process.pc == Call
    case Load(_, q) =>
      || b.process.pc == Call || b.process.pc == Return(ProviderTier)
      || (b.process.pc.Swap? && b.process.pc.seen == ActiveOf(b.shared, b.process.pc.counter))
    case Swap(_, q, seen) => b.process.pc == Call || (b.process.pc.Load? && ActiveOf(a.shared, q) != seen)
    case Call => b.process.pc == Await
    case Await => b.process.pc == Return(ProviderTier)
    case _ => false
  }

  lemma UnderwayTakes(a: Spot)
    requires Underway(a.process) && a.process.pc.Take?
    ensures var r := AcquireStep(a.shared, a.process);
            var b := Spot(r.shared, r.process);
            Underway(b.process) && Kept(a, b) && Onwards(a, b)
  {
    hide Key;
  }

  lemma UnderwayLoads(a: Spot)
    requires Underway(a.process) && a.process.pc.Load?
    ensures var r := AcquireStep(a.shared, a.process);
            var b := Spot(r.shared, r.process);
            Underway(b.process) && Kept(a, b) && Onwards(a, b)
  {
  }

  lemma UnderwaySwaps(a: Spot)
    requires Underway(a.process) && a.process.pc.Swap?
    ensures var r := AcquireStep(a.shared, a.process);
            var b := Spot(r.shared, r.process);
            Underway(b.process) && Kept(a, b) && Onwards(a, b)
  {
  }

  lemma UnderwayAcquires(a: Spot)
    requires Underway(a.process) && (a.process.pc.Load? || a.process.pc.Swap?)
    ensures var r := AcquireStep(a.shared, a.process);
            var b := Spot(r.shared, r.process);
            Underway(b.process) && Kept(a, b) && Onwards(a, b)
  {
    hide AcquireStep, Kept, Onwards, Underway;
    if a.process.pc.Load? {
      UnderwayLoads(a);
    } else {
      UnderwaySwaps(a);
    }
  }

  lemma UnderwayCalls(a: Spot, env: Env, t: Time)
    requires env == FailEnv(t) && Underway(a.process)
    ensures a.process.pc == Raise ==>
              var r := GaugeStep(a.shared, a.process);
              var b := Spot(r.shared, r.process); Underway(b.process) && Kept(a, b) && Onwards(a, b)
    ensures a.process.pc == Call || a.process.pc == Await ==>
              var r := CallStep(a.shared, a.process,
                                env.reply(a.shared.tick, a.process.entry.providerID, a.process.entry.modelID));
              var b := Spot(r.shared, r.process); Underway(b.process) && Kept(a, b) && Onwards(a, b)
  {
    hide Bumped;
  }

  /** One step towards the return. */
  lemma UnderwayStep(a: Spot, env: Env, t: Time)
    requires env == FailEnv(t) && Underway(a.process) && a.process.pc != Return(ProviderTier)
    ensures var b := StepAlone(a, env); Underway(b.process) && Kept(a, b) && Onwards(a, b)
  {
    hide SelectStep, ProbeStep, ReleaseStep, PenaltyStep, CountStep, StepAlone, AcquireStep, CallStep;
    hide GaugeStep, Kept, Onwards;
    StepIs(a, env);
    if a.process.pc.Take? {
      UnderwayTakes(a);
    } else if a.process.pc.Load? || a.process.pc.Swap? {
      UnderwayAcquires(a);
    } else {
      UnderwayCalls(a, env, t);
    }
  }

  lemma UnderwayOn(a: Spot, b: Spot, env: Env, t: Time)
    requires env == FailEnv(t) && Leads(a, b, env) && Underway(b.process) && Kept(a, b)
             && b.process.pc != Return(ProviderTier)
    ensures var c := StepAlone(b, env); Leads(a, c, env) && Underway(c.process) && Kept(a, c) && Onwards(b, c)
  {
    hide Leads, StepAlone, Underway, Onwards;
    UnderwayStep(b, env, t);
    LeadsThen(a, b, env);
  }

  lemma KeptSelf(a: Spot)
    requires Underway(a.process)
    ensures Kept(a, a)
  {
  }

  /** A process that has taken a provider slot comes to its return, the slot still noted. */
  lemma ComesToReturn(sh: Shared, p: Process, env: Env, t: Time) returns (b: Spot)
    requires env == FailEnv(t) && Underway(p)
    ensures Leads(Spot(sh, p), b, env) && Kept(Spot(sh, p), b) && b.process.pc == Return(ProviderTier)
  {
    hide Leads, StepAlone, Kept;
    var a := Spot(sh, p);
    KeptSelf(a);
    LeadsStep(a, env);
    b := a;
    if b.process.pc.Swap? {
      UnderwayOn(a, b, env, t);
      b := StepAlone(b, env);
    }
    if b.process.pc == Raise {
      UnderwayOn(a, b, env, t);
      b := StepAlone(b, env);
    }
    if b.process.pc.Take? {
      UnderwayOn(a, b, env, t);
      b := StepAlone(b, env);
    }
    if b.process.pc.Load? {
      UnderwayOn(a, b, env, t);
      b := StepAlone(b, env);
    }
    if b.process.pc.Swap? {
      UnderwayOn(a, b, env, t);
      b := StepAlone(b, env);
    }
    if b.process.pc == Call {
      UnderwayOn(a, b, env, t);
      b := StepAlone(b, env);
    }
    if b.process.pc == Await {
      UnderwayOn(a, b, env, t);
      b := StepAlone(b, env);
    }
  }

  /** From Return on: the current counter goes down, if it is not at zero; no other moves. */
  lemma Returns(sh: Shared, p: Process, env: Env) returns (b: Spot)
    requires p.pc == Return(ProviderTier)
    ensures Leads(Spot(sh, p), b, env) && b.process == Gave(p, ProviderTier)
    ensures b.shared.caps == sh.caps && b.shared.base == sh.base && b.shared.gen == sh.gen
    ensures var q := ProviderCounter(sh.gen, p);
            var taken := if q in sh.caps && ActiveOf(sh, q) > 0 then 1 else 0;
            forall r :: ActiveOf(b.shared, r) == ActiveOf(sh, r) - if r == q then taken else 0
  {
    hide Leads, StepAlone, SelectStep, ProbeStep, AcquireStep, GaugeStep, CallStep, PenaltyStep, CountStep, Key;
    var a := Spot(sh, p);
    LeadsStep(a, env);
    StepIs(a, env);
    b := StepAlone(a, env);
    if b.process.pc.RetLoad? {
      var c := b;
      GotAgain(p, c.process.pc, ProviderTier, None);
      b := RetLoadsAlone(c.shared, c.process, ProviderTier, c.process.pc.counter, env);
      LeadsOn(a, c, b, env);
    }
  }

  // --------------------------------------------------------------------- how a counter goes wrong

  /** One of two states has a wrong counter if, from one to the other, the counter and the slots held in it
      move differently. */
  lemma OneIsWrong(s: System, i: nat, b: Spot, q: Counter)
    requires i < |s.ps| && b.shared.base == s.shared.base
    requires ActiveOf(b.shared, q) - ActiveOf(s.shared, q) != Weigh(SlotIn(q), b.process) - Weigh(SlotIn(q), s.ps[i])
    ensures !(Right(s, q) && Right(System(b.shared, s.ps[i := b.process]), q))
  {
    TotalUpdate(SlotIn(q), s.ps, i, b.process);
  }

  /** A process that holds a slot of an earlier generation, or that will return a slot it does not hold. */
  predicate Misled(s: System, i: nat, q: Counter) {
    && i < |s.ps| && Underway(s.ps[i]) && q in s.shared.caps && q.tier == ProviderTier
    && (if s.ps[i].held == Some(q) then q.gen < s.shared.gen
        else q == ProviderCounter(s.shared.gen, s.ps[i]) && ActiveOf(s.shared, q) > 0)
  }

  lemma RunNothing(s: System, env: Env)
    ensures Run(s, [], env) == s
  {
  }

  /** Left to itself it makes the counter wrong, if that is not wrong already. */
  lemma MisledBreaks(s: System, i: nat, q: Counter, t: Time) returns (actions: seq<Action>)
    requires Misled(s, i, q)
    ensures NoReload(actions) && !ProviderRight(Run(s, actions, FailEnv(t)))
  {
    hide Leads, Alone, Run, StepAlone, HoldsProvider, Right;
    var env, a := FailEnv(t), Spot(s.shared, s.ps[i]);
    var b := ComesToReturn(s.shared, s.ps[i], env, t);
    var c := Returns(b.shared, b.process, env);
    LeadsOn(a, b, c, env);
    OneIsWrong(s, i, c, q);
    if Right(s, q) {
      actions := LedActions(s, i, c, t);
    } else {
      actions := [];
      RunNothing(s, env);
    }
  }

  // ------------------------------------------------------------------ what a harmful reload leads to

  /** A configuration with one provider, no windows and no model tracker. */
  function PlainSetup(id: string): Setup {
    Setup(map[id := Provider(id)], map[], "")
  }

  function PlainReload(id: string, caps: map<Counter, int>): Action {
    Reload(PlainSetup(id), NewView(map[]), None, caps)
  }

  /** At time t nothing in the provider state bars the provider. */
  predicate Free(v: StateView, id: string, t: Time) {
    !Before(t, At(v.blocked, id)) && !Before(t, At(v.exhausted, id))
  }

  /** The provider can be selected in this state of affairs. */
  predicate Open(sh: Shared, id: string, t: Time) {
    && id in sh.setup.providers && Free(sh.gate.state, id, t)
    && sh.gate.lim.configs == map[] && sh.gate.mlim.None?
  }

  lemma PicksOnly(sh: Shared, e: Entry, t: Time)
    requires Open(sh, e.providerID, t)
    ensures var s := Scan([e], sh.gate, sh.setup, FailEnv(t), sh.tick);
            s.pick == Some(e) && s.gate.mlim.None? && s.gate.state == sh.gate.state
  {
    assert [e][1..] == [];
  }

  /** A request for one entry on its own selects it and takes the free slot of its provider. */
  lemma Newcomer(sh: Shared, e: Entry, t: Time) returns (b: Spot)
    requires Open(sh, e.providerID, t)
    requires var q := Counter(sh.gen, ProviderTier, e.providerID);
             q in sh.caps && ActiveOf(sh, q) == 0 && sh.caps[q] > 0
    ensures Leads(Spot(sh, NewProcess(Completion, [e])), b, FailEnv(t))
    ensures b.shared.caps == sh.caps && b.shared.gen == sh.gen && b.process.pc == Raise && b.process.entry == e
    ensures ActiveOf(b.shared, Counter(sh.gen, ProviderTier, e.providerID)) == 1 && b.shared.gate.state == sh.gate.state
  {
    hide Leads, StepAlone, Scan, SlotsOf, AcquireStep, ReleaseStep, GaugeStep, CallStep, PenaltyStep, CountStep;
    hide SelectStep, ProbeStep;
    var env, p, q := FailEnv(t), NewProcess(Completion, [e]), Counter(sh.gen, ProviderTier, e.providerID);
    var a := Spot(sh, p);
    PicksOnly(sh, e, t);
    b := SelectAlone(sh, p, env);
    GateOf(sh);
    GateOf(b.shared);
    SlotFound(sh, ProviderTier, e.providerID);
    SlotFound(b.shared, ProviderTier, e.providerID);
    LeadsThen(a, b, env);
    StepIs(b, env);
    b := StepAlone(b, env);
    SlotFound(b.shared, ProviderTier, e.providerID);
    var c := TakeAlone(b.shared, b.process, ProviderTier, env);
    LeadsOn(a, b, c, env);
    SlotFound(c.shared, ProviderTier, e.providerID);
    b := c;
  }

  /** A stale swap goes back to its load; any other does what the load would have led to. */
  lemma Swaps(sh: Shared, p: Process, q: Counter, env: Env) returns (b: Spot)
    requires p.pc.Swap? && p.pc.tier == ProviderTier && p.pc.counter == q
    ensures Leads(Spot(sh, p), b, env)
    ensures b == Spot(sh, p.(pc := Load(ProviderTier, q))) || b == Spot(PlusOne(sh, q), Got(p, ProviderTier, Some(q)))
  {
    hide Leads, StepAlone, SelectStep, ProbeStep, ReleaseStep, GaugeStep, CallStep, PenaltyStep, CountStep, Got;
    LeadsStep(Spot(sh, p), env);
    StepIs(Spot(sh, p), env);
    b := StepAlone(Spot(sh, p), env);
  }

  /** A process about to take a slot that is to be had takes it. */
  lemma Arrives(sh: Shared, p: Process, q: Counter, env: Env) returns (b: Spot)
    requires Arriving(p.pc) && p.pc.counter == q && q in sh.caps && Vacant(sh, q)
    ensures Leads(Spot(sh, p), b, env) && b.process == Got(p, ProviderTier, Some(q))
    ensures b.shared.caps == sh.caps && b.shared.gen == sh.gen
  {
    hide Leads, Got;
    if p.pc.Swap? {
      GotAgain(p, Load(ProviderTier, q), ProviderTier, Some(q));
      b := Swaps(sh, p, q, env);
      if b.process.pc.Load? {
        var c := b;
        b := LoadsAlone(c.shared, c.process, ProviderTier, q, env);
        LeadsOn(Spot(sh, p), c, b, env);
      }
    } else {
      b := LoadsAlone(sh, p, ProviderTier, q, env);
    }
  }

  lemma RetSwaps(sh: Shared, p: Process, q: Counter, env: Env) returns (b: Spot)
    requires p.pc.RetSwap? && p.pc.tier == ProviderTier && p.pc.counter == q && ActiveOf(sh, q) > 0
    ensures Leads(Spot(sh, p), b, env)
    ensures b == Spot(sh, p.(pc := RetLoad(ProviderTier, q))) || b == Spot(MinusOne(sh, q), Gave(p, ProviderTier))
  {
    hide Leads, StepAlone, SelectStep, ProbeStep, AcquireStep, GaugeStep, CallStep, PenaltyStep, CountStep, Gave;
    LeadsStep(Spot(sh, p), env);
    StepIs(Spot(sh, p), env);
    b := StepAlone(Spot(sh, p), env);
  }

  /** A process about to return a slot of this very counter returns it. */
  lemma Departs(sh: Shared, p: Process, q: Counter, env: Env) returns (b: Spot)
    requires Departing(p.pc) && p.pc.counter == q && ActiveOf(sh, q) > 0
    ensures Leads(Spot(sh, p), b, env) && b.shared == MinusOne(sh, q)
  {
    hide Leads, Gave;
    if p.pc.RetSwap? {
      GotAgain(p, p.pc, ProviderTier, None);
      b := RetSwaps(sh, p, q, env);
      if b.process.pc.RetLoad? {
        var c := b;
        b := RetLoadsAlone(c.shared, c.process, ProviderTier, q, env);
        LeadsOn(Spot(sh, p), c, b, env);
      }
    } else {
      b := RetLoadsAlone(sh, p, ProviderTier, q, env);
    }
  }

  // --------------------------------------------------------------------------- the three cases

  function AfterReload(s: System, id: string, caps: map<Counter, int>, t: Time): System {
    Next(s, PlainReload(id, caps), FailEnv(t))
  }

  /** What the cases below are about: a process of an accountable system that a reload exposes. */
  ghost predicate Case(s: System, caps: map<Counter, int>, i: nat) {
    Accountable(s, true) && i < |s.ps| && Exposed(s.shared, caps, s.ps[i])
  }

  lemma HoldersUnderway(l: Law, p: Process)
    requires Orderly(l, p) && HoldsProvider(p.pc) && !Departing(p.pc)
    ensures Underway(p)
  {
    hide Key;
  }

  /** It holds a slot of a counter that exists. */
  lemma HolderBreaks(s: System, caps: map<Counter, int>, i: nat, q: Counter, id: string, t: Time)
      returns (actions: seq<Action>)
    requires Accountable(s, true) && i < |s.ps|
    requires HoldsProvider(s.ps[i].pc) && !Departing(s.ps[i].pc) && s.ps[i].held == Some(q) && q in s.shared.caps
    ensures NoReload(actions) && !ProviderRight(Run(AfterReload(s, id, caps, t), actions, FailEnv(t)))
  {
    hide Run, Right, Underway, ProviderRight;
    HoldersUnderway(LawOf(s.shared, true), s.ps[i]);
    actions := MisledBreaks(AfterReload(s, id, caps, t), i, q, t);
  }

  lemma NothingHeld(l: Law, p: Process)
    requires Orderly(l, p) && l.tied && HoldsProvider(p.pc) && !Departing(p.pc) && ProviderCounter(l.gen, p) !in l.caps
    ensures p.held == None
  {
  }

  lemma NewCounter(s: System, id: string, caps: map<Counter, int>, t: Time, q: Counter)
    requires Bounded(s.shared) && q in NewCaps(s.shared, caps)
    ensures var sh := AfterReload(s, id, caps, t).shared;
            q in sh.caps && sh.caps[q] > 0 && ActiveOf(sh, q) == 0
  {
  }

  lemma RunOne(s: System, a: Action, env: Env)
    ensures Run(s, [a], env) == Next(s, a, env)
  {
    hide Next;
    assert [a][..0] == [];
  }

  /** A new request that takes the free slot of its provider, as a run of the whole system. */
  lemma NewcomerActions(s: System, e: Entry, t: Time) returns (actions: seq<Action>)
    requires Open(s.shared, e.providerID, t)
    requires var q := Counter(s.shared.gen, ProviderTier, e.providerID);
             q in s.shared.caps && ActiveOf(s.shared, q) == 0 && s.shared.caps[q] > 0
    ensures NoReload(actions)
    ensures var s' := Run(s, actions, FailEnv(t));
            && |s'.ps| == |s.ps| + 1 && s'.ps[..|s.ps|] == s.ps
            && s'.shared.caps == s.shared.caps && s'.shared.gen == s.shared.gen
            && ActiveOf(s'.shared, Counter(s.shared.gen, ProviderTier, e.providerID)) == 1
            && s'.ps[|s.ps|].pc == Raise && s'.ps[|s.ps|].entry == e
            && s'.shared.gate.state == s.shared.gate.state
  {
    hide Run, Leads, Advance, Open;
    var begin, env := Begin(Completion, [e]), FailEnv(t);
    var s2 := Next(s, begin, env);
    var b := Newcomer(s2.shared, e, t);
    assert s2.ps[|s.ps|] == NewProcess(Completion, [e]);
    var acts := LedActions(s2, |s.ps|, b, t);
    RunOne(s, begin, env);
    RunAppend(s, [begin], acts, env);
    actions := [begin] + acts;
  }

  lemma PlainlyOpen(s: System, id: string, caps: map<Counter, int>, t: Time)
    requires Free(s.shared.gate.state, id, t)
    ensures var s' := AfterReload(s, id, caps, t);
            s'.ps == s.ps && s'.shared.gen == s.shared.gen + 1 && Open(s'.shared, id, t)
  {
  }

  /** It holds nothing, but the reload brings a counter for its provider: someone else takes the slot that
      it will give back. */
  lemma UncappedBreaks(s: System, caps: map<Counter, int>, i: nat, t: Time) returns (actions: seq<Action>)
    requires Case(s, caps, i) && HoldsProvider(s.ps[i].pc) && !Departing(s.ps[i].pc)
    requires ProviderCounter(s.shared.gen, s.ps[i]) !in s.shared.caps
    requires Free(s.shared.gate.state, s.ps[i].entry.providerID, t)
    ensures NoReload(actions)
    ensures !ProviderRight(Run(AfterReload(s, s.ps[i].entry.providerID, caps, t), actions, FailEnv(t)))
  {
    hide Run, Right, Underway, ProviderRight, Orderly, Bounded, Open, AfterReload;
    var e, s1 := s.ps[i].entry, AfterReload(s, s.ps[i].entry.providerID, caps, t);
    var q := Counter(s.shared.gen + 1, ProviderTier, e.providerID);
    NothingHeld(LawOf(s.shared, true), s.ps[i]);
    HoldersUnderway(LawOf(s.shared, true), s.ps[i]);
    NewCounter(s, e.providerID, caps, t, q);
    PlainlyOpen(s, e.providerID, caps, t);
    var acts := NewcomerActions(s1, e, t);
    var more := MisledBreaks(Run(s1, acts, FailEnv(t)), i, q, t);
    RunAppend(s1, acts, more, FailEnv(t));
    actions := acts + more;
  }

  /** It is about to take a slot that is to be had. */
  lemma ArrivalBreaks(s: System, i: nat, q: Counter, t: Time) returns (actions: seq<Action>)
    requires i < |s.ps| && Orderly(LawOf(s.shared, false), s.ps[i])
    requires Arriving(s.ps[i].pc) && s.ps[i].pc.counter == q && q.tier == ProviderTier && q.gen < s.shared.gen
    requires q in s.shared.caps && (s.shared.caps[q] == 0 || ActiveOf(s.shared, q) < s.shared.caps[q])
    ensures NoReload(actions) && !ProviderRight(Run(s, actions, FailEnv(t)))
  {
    hide Run, Right, ProviderRight, Leads;
    var b := Arrives(s.shared, s.ps[i], q, FailEnv(t));
    var acts := LedActions(s, i, b, t);
    var more := MisledBreaks(Run(s, acts, FailEnv(t)), i, q, t);
    RunAppend(s, acts, more, FailEnv(t));
    actions := acts + more;
  }

  lemma {:induction false} SomeHolder(q: Counter, ps: seq<Process>) returns (j: nat)
    requires Total(SlotIn(q), ps) > 0
    ensures j < |ps| && Weigh(SlotIn(q), ps[j]) > 0
  {
    hide Weigh;
    var n := |ps| - 1;
    if Weigh(SlotIn(q), ps[n]) > 0 {
      j := n;
    } else {
      j := SomeHolder(q, ps[..n]);
    }
  }

  lemma HolderOf(l: Law, p: Process, q: Counter)
    requires Orderly(l, p) && l.tied && q.tier == ProviderTier && Weigh(SlotIn(q), p) > 0
    ensures p.held == Some(q) && q in l.caps && HoldsProvider(p.pc) && (Departing(p.pc) ==> p.pc.counter == q)
  {
  }

  lemma ArrivalCounter(l: Law, p: Process)
    requires Orderly(l, p) && l.tied && Arriving(p.pc) && !Closed(l, p.pc.counter)
    ensures p.pc.counter.tier == ProviderTier && p.pc.counter.gen == l.gen && p.pc.counter in l.caps && p.held == None
  {
  }

  /** A counter that is full although its restored value leaves room has a holder. */
  lemma FullHasHolder(s: System, q: Counter) returns (j: nat)
    requires Accountable(s, true) && q in s.shared.caps && q.tier == ProviderTier && !Closed(LawOf(s.shared, true), q)
    requires s.shared.caps[q] != 0 && ActiveOf(s.shared, q) >= s.shared.caps[q]
    ensures j < |s.ps| && Weigh(SlotIn(q), s.ps[j]) > 0 && ActiveOf(s.shared, q) == s.shared.caps[q] > 0
  {
    hide Orderly, Total, Weigh;
    assert Tracked(s, true, q);
    j := SomeHolder(q, s.ps);
  }

  lemma OldCounter(s: System, id: string, caps: map<Counter, int>, t: Time, q: Counter)
    requires Bounded(s.shared) && q in s.shared.caps
    ensures var sh := AfterReload(s, id, caps, t).shared;
            q in sh.caps && sh.caps[q] == s.shared.caps[q] && ActiveOf(sh, q) == ActiveOf(s.shared, q)
            && sh.gen == s.shared.gen + 1
  {
  }

  /** It is about to take a slot of a counter that its restored value does not keep full. */
  lemma ArrivingBreaks(s: System, caps: map<Counter, int>, i: nat, id: string, t: Time) returns (actions: seq<Action>)
    requires Case(s, caps, i) && Arriving(s.ps[i].pc) && !Closed(LawOf(s.shared, true), s.ps[i].pc.counter)
    ensures NoReload(actions) && !ProviderRight(Run(AfterReload(s, id, caps, t), actions, FailEnv(t)))
  {
    hide Run, Right, Underway, ProviderRight, Leads, Orderly, Advance, Weigh;
    var q, s1, env := s.ps[i].pc.counter, AfterReload(s, id, caps, t), FailEnv(t);
    ArrivalCounter(LawOf(s.shared, true), s.ps[i]);
    OldCounter(s, id, caps, t, q);
    ReloadOrderly(s.shared, true, s.ps[i], PlainSetup(id), NewView(map[]), None, caps, false);
    if s.shared.caps[q] == 0 || ActiveOf(s.shared, q) < s.shared.caps[q] {
      actions := ArrivalBreaks(s1, i, q, t);
    } else {
      var j := FullHasHolder(s, q);
      HolderOf(LawOf(s.shared, true), s.ps[j], q);
      if Departing(s.ps[j].pc) {
        var b := Departs(s1.shared, s1.ps[j], q, env);
        var acts := LedActions(s1, j, b, t);
        var s2 := Run(s1, acts, env);
        assert s2.ps[i] == s.ps[i];
        assert LawOf(s2.shared, false) == LawOf(s1.shared, false);
        var more := ArrivalBreaks(s2, i, q, t);
        RunAppend(s1, acts, more, env);
        actions := acts + more;
      } else {
        actions := HolderBreaks(s, caps, j, q, id, t);
      }
    }
  }

  // ------------------------------------------------------------------------- the exact condition

  /** A reload that exposes a process: from some moment on, with calls that fail, it leads to a wrong
      provider counter. */
  lemma ExposedBreaks(s: System, caps: map<Counter, int>, i: nat, t: Time) returns (actions: seq<Action>)
    requires Case(s, caps, i) && Free(s.shared.gate.state, s.ps[i].entry.providerID, t)
    ensures NoReload(actions)
    ensures !ProviderRight(Run(AfterReload(s, s.ps[i].entry.providerID, caps, t), actions, FailEnv(t)))
  {
    hide Run, ProviderRight, Bounded, Right;
    var p := s.ps[i];
    if Arriving(p.pc) && !Closed(LawOf(s.shared, true), p.pc.counter) {
      actions := ArrivingBreaks(s, caps, i, p.entry.providerID, t);
    } else if ProviderCounter(s.shared.gen, p) in s.shared.caps {
      actions := HolderBreaks(s, caps, i, ProviderCounter(s.shared.gen, p), p.entry.providerID, t);
    } else {
      actions := UncappedBreaks(s, caps, i, t);
    }
  }

  /** A time at which nothing in the provider state bars the provider. */
  function FreeTime(v: StateView, id: string): (t: Time)
    ensures Free(v, id, t)
  {
    Max(if id in v.blocked then v.blocked[id] else 0, if id in v.exhausted then v.exhausted[id] else 0)
  }

  lemma StaysRight(s: System, a: Action, env: Env, actions: seq<Action>)
    requires Accountable(s, true) && (a.Reload? ==> Harmless(s, a.caps)) && NoReload(actions)
    ensures ProviderRight(Run(Next(s, a, env), actions, env))
  {
    hide Run, Next, Right, Orderly, Bounded, Harmless;
    NextAccountable(s, true, a, env);
    RunGeneration(Next(s, a, env), actions, env);
    RunAccountable(Next(s, a, env), true, actions, env);
    var s' := Run(Next(s, a, env), actions, env);
    forall q | q in s'.shared.caps && q.tier == ProviderTier
      ensures Right(s', q)
    {
      assert Tracked(s', true, q);
    }
  }

  /** Reloads, exactly: from an accountable state, a reload with these caps keeps the provider counters of
      every generation right in all that may follow (short of another reload), iff it exposes no process. */
  lemma ReloadExact(s: System, caps: map<Counter, int>)
    requires Accountable(s, true)
    ensures Harmless(s, caps) <==>
      forall setup, lim, mlim, env, actions :: NoReload(actions) ==>
        ProviderRight(Run(Next(s, Reload(setup, lim, mlim, caps), env), actions, env))
  {
    hide Run, Next, Accountable, Right, NoReload, Exposed;
    if Harmless(s, caps) {
      forall setup, lim, mlim, env, actions | NoReload(actions)
        ensures ProviderRight(Run(Next(s, Reload(setup, lim, mlim, caps), env), actions, env))
      {
        StaysRight(s, Reload(setup, lim, mlim, caps), env, actions);
      }
    } else {
      var i :| 0 <= i < |s.ps| && Exposed(s.shared, caps, s.ps[i]);
      var id := s.ps[i].entry.providerID;
      var t := FreeTime(s.shared.gate.state, id);
      var actions := ExposedBreaks(s, caps, i, t);
      var setup, lim, none, env := PlainSetup(id), NewView(map[]), None, FailEnv(t);
      assert !ProviderRight(Run(Next(s, Reload(setup, lim, none, caps), env), actions, env));
    }
  }

  // ------------------------------------------------------------------------- such runs are real

  const LONE: Entry := Entry("p", "m", 1, false, false, false, NO_PARAMS, false)

  /** The program started with one provider with one slot. */
  const STARTED: System :=
    System(Shared(Gate(StateView(map[], map[]), NewView(map[]), None, 0), PlainSetup("p"), 0, map[],
                  map[Counter(0, ProviderTier, "p") := 1], map[Counter(0, ProviderTier, "p") := 0],
                  map[Counter(0, ProviderTier, "p") := 0], Metrics(0, 0, 0, 0, 0, 0, map[], map[]), 0, [], []),
           [])

  lemma StartsOpen()
    ensures Initial(STARTED) && Open(STARTED.shared, "p", 0)
  {
  }

  /** From its start the program can come to a wrong provider counter, by one reload while a request has
      its slot. */
  lemma ReloadReached(caps: map<Counter, int>) returns (before: seq<Action>, after: seq<Action>)
    ensures Initial(STARTED) && NoReload(before) && NoReload(after)
    ensures !ProviderRight(Run(STARTED, before + [PlainReload("p", caps)] + after, FailEnv(0)))
  {
    hide Run, Next, Leads, ProviderRight, Orderly, Bounded, Right;
    var env := FailEnv(0);
    StartsOpen();
    before := NewcomerActions(STARTED, LONE, 0);
    var s2 := Run(STARTED, before, env);
    InitialAccountable(STARTED, true);
    RunGeneration(STARTED, before, env);
    RunAccountable(STARTED, true, before, env);
    after := ExposedBreaks(s2, caps, 0, 0);
    RunOne(s2, PlainReload("p", caps), env);
    RunAppend(STARTED, before, [PlainReload("p", caps)], env);
    RunAppend(STARTED, before + [PlainReload("p", caps)], after, env);
  }
}
