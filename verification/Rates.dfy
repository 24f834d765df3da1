/** The whole-router rate bound: provider calls of any number of concurrent requests against the windows
    of one tracker. The same argument serves provider windows and per-model windows. */
module Rates {
  import opened Prelude
  import opened Entries
  import opened Windows
  import opened LimitProofs
  import opened Routing
  import opened Processes
  import opened Conservation
  import opened Histories

  /** The tracker of a tier, and what it is asked about an entry. */
  function TrackerOf(g: Gate, t: Tier): Option<TrackerView> {
    if t == ProviderTier then Some(g.lim) else g.mlim
  }

  function Subject(e: Entry, t: Tier): string {
    if t == ProviderTier then e.providerID else Key(e.providerID, e.modelID)
  }

  function TicketOf(m: Marks, t: Tier): nat {
    if t == ProviderTier then m.ticket else m.mticket
  }

  // ------------------------------------------------------------------ what selection does to a log

  /** `b` continues `a`: same limits, same origin, and a log that only grew, correctly. */
  ghost predicate Continued(a: TrackerView, b: TrackerView, now: Time) {
    && b.configs == a.configs && b.origin == a.origin && a.log <= b.log
    && Accounted(b) && forall k :: 0 <= k < |b.log| ==> b.log[k].at <= now
  }

  ghost predicate InOrder(v: TrackerView, now: Time) {
    Accounted(v) && forall k :: 0 <= k < |v.log| ==> v.log[k].at <= now
  }

  lemma RecordContinues(v: TrackerView, id: string, was: Time, now: Time, later: Time)
    requires InOrder(v, was) && was <= now <= later
    ensures var r := Record(v, id, now);
            && Continued(v, r.view, later) && |r.view.log| == |v.log| + 1
            && r.view.log[|v.log|] == Recording(id, now, r.exhausted)
  {
    hide Accounted;
    RecordAccounted(v, id, now);
  }

  /** The last call of the log is an admitted one on this subject, and newer than all of `before`. */
  predicate Issued(before: TrackerView, after: TrackerView, subject: string) {
    |before.log| < |after.log| && after.log[|after.log| - 1].id == subject && !after.log[|after.log| - 1].exhausted
  }

  ghost predicate GateInOrder(g: Gate, now: Time) {
    InOrder(g.lim, now) && (g.mlim.Some? ==> InOrder(g.mlim.value, now))
  }

  ghost predicate GateContinued(a: Gate, b: Gate, now: Time) {
    Continued(a.lim, b.lim, now) && a.mlim.Some? == b.mlim.Some?
    && (a.mlim.Some? ==> Continued(a.mlim.value, b.mlim.value, now))
  }

  // ---------------------------------------------------------------------- tickets of processes

  /** Position k of the log is an admitted call on this subject. */
  predicate Admits(log: seq<Recording>, k: nat, subject: string) {
    k < |log| && log[k].id == subject && !log[k].exhausted
  }

  /** The tier's Record call has been admitted, and the call is still to come. */
  predicate ArmedOn(pc: Pc, t: Tier) {
    Armed(pc) || (t == ModelTier && pc.Probe? && pc.stage == AtProvider)
  }

  /** Every candidate from its admitted Record call on, and every call, has a Record call of its own. */
  ghost predicate Ticketed(log: seq<Recording>, ps: seq<Process>, calls: seq<Called>, t: Tier) {
    && (forall i :: 0 <= i < |ps| && ArmedOn(ps[i].pc, t) ==>
          Admits(log, TicketOf(ps[i].marks, t), Subject(ps[i].entry, t)))
    && (forall i, j :: 0 <= i < |ps| && 0 <= j < |ps| && i != j && ArmedOn(ps[i].pc, t) && ArmedOn(ps[j].pc, t) ==>
          TicketOf(ps[i].marks, t) != TicketOf(ps[j].marks, t))
    && (forall k :: 0 <= k < |calls| ==> Admits(log, TicketOf(calls[k].marks, t), Subject(calls[k].entry, t)))
    && (forall k, l :: 0 <= k < |calls| && 0 <= l < |calls| && k != l ==>
          TicketOf(calls[k].marks, t) != TicketOf(calls[l].marks, t))
    && (forall i, k :: 0 <= i < |ps| && 0 <= k < |calls| && ArmedOn(ps[i].pc, t) ==>
          TicketOf(ps[i].marks, t) != TicketOf(calls[k].marks, t))
  }

  /** A process goes on with the ticket it has, if it needs one. */
  predicate SameOn(p: Process, p': Process, t: Tier) {
    ArmedOn(p'.pc, t) ==>
      ArmedOn(p.pc, t) && TicketOf(p'.marks, t) == TicketOf(p.marks, t) && p'.entry == p.entry
  }

  /** A new process, or one that goes on without calling, needs no new ticket. */
  lemma TicketKept(log: seq<Recording>, log': seq<Recording>, ps: seq<Process>, calls: seq<Called>, t: Tier,
          i: nat, p: Process)
    requires Ticketed(log, ps, calls, t) && log <= log' && i < |ps|
    requires SameOn(ps[i], p, t)
    ensures Ticketed(log', ps[i := p], calls, t)
  {
    hide Subject, TicketOf, ArmedOn;
  }

  lemma TicketIssued(log: seq<Recording>, log': seq<Recording>, ps: seq<Process>, calls: seq<Called>, t: Tier,
          i: nat, p: Process)
    requires Ticketed(log, ps, calls, t) && log < log' && i < |ps|
    requires TicketOf(p.marks, t) == |log'| - 1 && Admits(log', |log'| - 1, Subject(p.entry, t))
    ensures Ticketed(log', ps[i := p], calls, t)
  {
    hide Subject, TicketOf, ArmedOn;
  }

  lemma TicketUsed(log: seq<Recording>, ps: seq<Process>, calls: seq<Called>, t: Tier, i: nat, p: Process, c: Called)
    requires Ticketed(log, ps, calls, t) && i < |ps| && ArmedOn(ps[i].pc, t) && !ArmedOn(p.pc, t)
    requires TicketOf(c.marks, t) == TicketOf(ps[i].marks, t) && c.entry == ps[i].entry
    ensures Ticketed(log, ps[i := p], calls + [c], t)
  {
    hide Subject, TicketOf, ArmedOn;
    var calls' := calls + [c];
    assert forall k :: 0 <= k < |calls| ==> calls'[k] == calls[k];
    assert calls'[|calls|] == c;
  }

  lemma TicketSpawned(log: seq<Recording>, ps: seq<Process>, calls: seq<Called>, t: Tier, spawned: seq<Process>)
    requires Ticketed(log, ps, calls, t) && forall c :: c in spawned ==> !ArmedOn(c.pc, t)
    ensures Ticketed(log, ps + spawned, calls, t)
  {
    hide Subject, TicketOf, ArmedOn;
    var ps' := ps + spawned;
    assert forall i :: |ps| <= i < |ps'| ==> ps'[i] in spawned;
    assert forall i :: 0 <= i < |ps| ==> ps'[i] == ps[i];
  }

  /** What holds throughout a run on one configuration. */
  ghost predicate Metered(origin: Gate, s: System, env: Env) {
    var sh := s.shared;
    && GateInOrder(sh.gate, env.time(sh.tick))
    && (origin.mlim.Some? <==> sh.gate.mlim.Some?)
    && sh.gate.lim.configs == origin.lim.configs && sh.gate.lim.origin == origin.lim.origin
    && (origin.mlim.Some? ==> sh.gate.mlim.value.configs == origin.mlim.value.configs)
    && (origin.mlim.Some? ==> sh.gate.mlim.value.origin == origin.mlim.value.origin)
    && Ticketed(sh.gate.lim.log, s.ps, sh.calls, ProviderTier)
    && (sh.gate.mlim.Some? ==> Ticketed(sh.gate.mlim.value.log, s.ps, sh.calls, ModelTier))
  }

  lemma ContinuedOrder(a: Gate, b: Gate, now: Time)
    requires GateContinued(a, b, now)
    ensures GateInOrder(b, now) && a.mlim.Some? == b.mlim.Some?
    ensures b.lim.configs == a.lim.configs && b.lim.origin == a.lim.origin && a.lim.log <= b.lim.log
    ensures a.mlim.Some? ==> b.mlim.value.configs == a.mlim.value.configs && b.mlim.value.origin == a.mlim.value.origin
    ensures a.mlim.Some? ==> a.mlim.value.log <= b.mlim.value.log
  {
    hide Accounted;
  }

  /** A step of a process on one tier: it goes on with the ticket it has, or gets a new one. */
  predicate TierStep(a: Gate, p: Process, b: Gate, p': Process, t: Tier) {
    TrackerOf(a, t).Some? && TrackerOf(b, t).Some? ==>
      || SameOn(p, p', t)
      || (Issued(TrackerOf(a, t).value, TrackerOf(b, t).value, Subject(p'.entry, t))
          && TicketOf(p'.marks, t) == |TrackerOf(b, t).value.log| - 1)
  }

  ghost predicate StepMetered(sh: Shared, p: Process, r: Advanced, env: Env) {
    && GateContinued(sh.gate, r.shared.gate, env.time(r.shared.tick))
    && r.shared.calls == sh.calls && (forall c :: c in r.spawned ==> !Candidate(c.pc))
    && TierStep(sh.gate, p, r.shared.gate, r.process, ProviderTier)
    && TierStep(sh.gate, p, r.shared.gate, r.process, ModelTier)
  }

  lemma TierMetered(a: Gate, b: Gate, ps: seq<Process>, calls: seq<Called>, t: Tier, i: nat, p: Process,
                    spawned: seq<Process>)
    requires TrackerOf(a, t).Some? && TrackerOf(b, t).Some? && i < |ps| && TierStep(a, ps[i], b, p, t)
    requires Ticketed(TrackerOf(a, t).value.log, ps, calls, t)
    requires TrackerOf(a, t).value.log <= TrackerOf(b, t).value.log
    requires forall c :: c in spawned ==> !Candidate(c.pc)
    ensures Ticketed(TrackerOf(b, t).value.log, ps[i := p] + spawned, calls, t)
  {
    hide Ticketed, Subject, TicketOf, Armed;
    var log, log' := TrackerOf(a, t).value.log, TrackerOf(b, t).value.log;
    if SameOn(ps[i], p, t) {
      TicketKept(log, log', ps, calls, t, i, p);
    } else {
      TicketIssued(log, log', ps, calls, t, i, p);
    }
    TicketSpawned(log', ps[i := p], calls, t, spawned);
  }

  lemma ActMetered(origin: Gate, s: System, i: nat, reply: Reply, env: Env)
    requires Metered(origin, s, env) && i < |s.ps|
             && StepMetered(s.shared, s.ps[i], Advance(s.shared, s.ps[i], reply, env), env)
    ensures Metered(origin, Next(s, Act(i, reply), env), env)
  {
    hide Ticketed, InOrder, Advance, TierStep, Candidate, GateContinued;
    var sh, r := s.shared, Advance(s.shared, s.ps[i], reply, env);
    ContinuedOrder(sh.gate, r.shared.gate, env.time(r.shared.tick));
    TierMetered(sh.gate, r.shared.gate, s.ps, sh.calls, ProviderTier, i, r.process, r.spawned);
    if sh.gate.mlim.Some? {
      TierMetered(sh.gate, r.shared.gate, s.ps, sh.calls, ModelTier, i, r.process, r.spawned);
    }
  }

  lemma ContinuedSelf(v: TrackerView, was: Time, now: Time)
    requires InOrder(v, was) && was <= now
    ensures Continued(v, v, now)
  {
    hide Accounted;
  }

  /** A gate of which at most the provider state has changed. */
  lemma GateContinuedSelf(a: Gate, b: Gate, was: Time, now: Time)
    requires GateInOrder(a, was) && was <= now && b.lim == a.lim && b.mlim == a.mlim
    ensures GateContinued(a, b, now)
  {
    hide Accounted;
  }

  lemma StateMetered(sh: Shared, p: Process, now: Time, env: Env)
    requires Monotone(env) && p.pc.Probe? && p.pc.stage == AtState(now) && Attuned(sh, p)
    requires GateInOrder(sh.gate, env.time(sh.tick))
    ensures StepMetered(sh, p, StateCheck(sh, p, now, env), env)
  {
    hide GateInOrder, GateContinued, Issued, Subject;
    var sh' := StateCheck(sh, p, now, env).shared;
    assert env.time(sh.tick) <= env.time(sh'.tick);
    GateContinuedSelf(sh.gate, sh'.gate, env.time(sh.tick), env.time(sh'.tick));
  }

  lemma CooldownMetered(sh: Shared, p: Process, env: Env)
    requires Monotone(env) && p.pc.Probe? && p.pc.stage == AtCooldown && sh.gate.mlim.Some?
    requires GateInOrder(sh.gate, env.time(sh.tick))
    ensures StepMetered(sh, p, CooldownStep(sh, p, sh.gen, sh.gate.mlim.value, env), env)
  {
    hide Accounted, Key;
    var r := CooldownStep(sh, p, sh.gen, sh.gate.mlim.value, env);
    assert env.time(sh.tick) <= env.time(r.shared.tick);
    SameLog(sh.gate.mlim.value, r.shared.gate.mlim.value);
  }

  lemma WindowMetered(sh: Shared, p: Process, env: Env)
    requires Monotone(env) && p.pc.Probe? && p.pc.stage == AtModel && sh.gate.mlim.Some?
    requires GateInOrder(sh.gate, env.time(sh.tick))
    ensures StepMetered(sh, p, WindowStep(sh, p, sh.gen, sh.gate.mlim.value, env), env)
  {
    hide Accounted, Key, Record;
    var r, now := WindowStep(sh, p, sh.gen, sh.gate.mlim.value, env), env.time(sh.tick);
    assert now <= env.time(r.shared.tick);
    RecordContinues(sh.gate.mlim.value, Key(p.entry.providerID, p.entry.modelID), now, now, env.time(r.shared.tick));
    ContinuedSelf(sh.gate.lim, now, env.time(r.shared.tick));
  }

  lemma ProviderMetered(sh: Shared, p: Process, env: Env)
    requires Monotone(env) && p.pc.Probe? && p.pc.stage == AtProvider
    requires GateInOrder(sh.gate, env.time(sh.tick))
    ensures StepMetered(sh, p, ProviderStep(sh, p, env), env)
  {
    hide Accounted, Key, Record;
    var r, now := ProviderStep(sh, p, env), env.time(sh.tick);
    assert now <= env.time(r.shared.tick);
    RecordContinues(sh.gate.lim, p.entry.providerID, now, now, env.time(r.shared.tick));
    if sh.gate.mlim.Some? {
      ContinuedSelf(sh.gate.mlim.value, now, env.time(r.shared.tick));
    }
  }

  lemma MarkMetered(sh: Shared, p: Process, env: Env)
    requires p.pc.Probe? && (p.pc.stage.AtMark? || p.pc.stage.AtEvent?)
    requires GateInOrder(sh.gate, env.time(sh.tick))
    ensures StepMetered(sh, p, ProviderStep(sh, p, env), env)
  {
    hide GateInOrder, GateContinued, Record;
    GateContinuedSelf(sh.gate, ProviderStep(sh, p, env).shared.gate, env.time(sh.tick), env.time(sh.tick));
  }

  lemma StartMetered(sh: Shared, p: Process, env: Env)
    requires GateInOrder(sh.gate, env.time(sh.tick))
    ensures p.pc.Probe? && p.pc.stage == AtClock ==> StepMetered(sh, p, ProbeStep(sh, p, env), env)
    ensures StepMetered(sh, p, SelectStep(sh, p), env)
  {
    hide GateInOrder, GateContinued;
    GateContinuedSelf(sh.gate, sh.gate, env.time(sh.tick), env.time(sh.tick));
  }

  /** Without a model tracker. */
  lemma SkipMetered(sh: Shared, p: Process, env: Env)
    requires p.pc.Probe? && GateInOrder(sh.gate, env.time(sh.tick)) && sh.gate.mlim.None?
    ensures StepMetered(sh, p, Stay(sh, Onto(p, AtProvider)), env)
  {
    hide GateInOrder, GateContinued;
    GateContinuedSelf(sh.gate, sh.gate, env.time(sh.tick), env.time(sh.tick));
  }

  /** A step of selection continues both trackers' logs, and the checks it passes there are admitted calls
      of its own entry, the last of their log. */
  lemma ProbeMetered(sh: Shared, p: Process, env: Env)
    requires Monotone(env) && p.pc.Probe? && Attuned(sh, p) && GateInOrder(sh.gate, env.time(sh.tick))
    ensures StepMetered(sh, p, ProbeStep(sh, p, env), env)
  {
    hide StateCheck, CooldownStep, WindowStep, ProviderStep, StepMetered, GateInOrder;
    match p.pc.stage
    case AtClock => StartMetered(sh, p, env);
    case AtState(now) => StateMetered(sh, p, now, env);
    case AtCooldown =>
      if sh.gate.mlim.Some? {
        CooldownMetered(sh, p, env);
      } else {
        SkipMetered(sh, p, env);
      }
    case AtModel =>
      if sh.gate.mlim.Some? {
        WindowMetered(sh, p, env);
      } else {
        SkipMetered(sh, p, env);
      }
    case AtProvider => ProviderMetered(sh, p, env);
    case _ => MarkMetered(sh, p, env);
  }

  lemma CallMetered(origin: Gate, s: System, i: nat, reply: Reply, env: Env)
    requires Metered(origin, s, env) && i < |s.ps| && s.ps[i].pc == Call
    ensures Metered(origin, Next(s, Act(i, reply), env), env)
  {
    hide Ticketed, Accounted, Key;
    var sh, p := s.shared, s.ps[i];
    var c, p' := Called(p.entry, p.marks), p.(pc := Await);
    assert s.ps[i := p'] + [] == s.ps[i := p'];
    TicketUsed(sh.gate.lim.log, s.ps, sh.calls, ProviderTier, i, p', c);
    if sh.gate.mlim.Some? {
      TicketUsed(sh.gate.mlim.value.log, s.ps, sh.calls, ModelTier, i, p', c);
    }
  }

  lemma PenaltyContinues(sh: Shared, p: Process, env: Env)
    requires Monotone(env) && (p.pc == Cool || p.pc == Bar) && GateInOrder(sh.gate, env.time(sh.tick))
    ensures var sh' := PenaltyStep(sh, p, env).shared;
            GateContinued(sh.gate, sh'.gate, env.time(sh'.tick))
  {
    hide Accounted, Key, RetryAfter, Fallback, RecoveryOf, Thin;
    var sh' := PenaltyStep(sh, p, env).shared;
    assert env.time(sh.tick) <= env.time(sh'.tick);
    if sh.gate.mlim.Some? {
      SameLog(sh.gate.mlim.value, sh'.gate.mlim.value);
    }
  }

  /** Away from selection, the gate's trackers change by cooldowns only. */
  lemma GateKept(sh: Shared, p: Process, reply: Reply, env: Env)
    requires Monotone(env) && !p.pc.Probe? && GateInOrder(sh.gate, env.time(sh.tick))
    ensures var sh' := Advance(sh, p, reply, env).shared;
            GateContinued(sh.gate, sh'.gate, env.time(sh'.tick))
  {
    hide GateInOrder, GateContinued, PenaltyStep;
    if p.pc == Cool || p.pc == Bar {
      PenaltyContinues(sh, p, env);
    } else {
      hide Advance;
      var sh' := Advance(sh, p, reply, env).shared;
      OthersSameGate(sh, p, reply, env);
      assert env.time(sh.tick) <= env.time(sh'.tick);
      GateContinuedSelf(sh.gate, sh'.gate, env.time(sh.tick), env.time(sh'.tick));
    }
  }

  lemma OtherMetered(sh: Shared, p: Process, reply: Reply, env: Env)
    requires Monotone(env) && GateInOrder(sh.gate, env.time(sh.tick)) && !Picking(p.pc) && p.pc != Call
    ensures StepMetered(sh, p, Advance(sh, p, reply, env), env)
  {
    hide GateContinued, GateInOrder, Advance, Armed, Subject, Issued;
    AdvanceKeepsTickets(sh, p, reply, env);
    GateKept(sh, p, reply, env);
  }

  lemma AdvanceMetered(sh: Shared, p: Process, reply: Reply, env: Env)
    requires Monotone(env) && GateInOrder(sh.gate, env.time(sh.tick)) && Attuned(sh, p) && p.pc != Call
    ensures StepMetered(sh, p, Advance(sh, p, reply, env), env)
  {
    hide ProbeStep, SelectStep, AcquireStep, ReleaseStep, CallStep, GaugeStep, PenaltyStep, CountStep;
    hide StepMetered, GateInOrder;
    match p.pc
    case Selecting => StartMetered(sh, p, env);
    case Probe(_, _, _, _) => ProbeMetered(sh, p, env);
    case _ => OtherMetered(sh, p, reply, env);
  }

  lemma NextMetered(origin: Gate, s: System, a: Action, env: Env)
    requires Monotone(env) && Metered(origin, s, env) && AllAttuned(s) && !a.Reload?
    ensures Metered(origin, Next(s, a, env), env)
  {
    hide Advance, Ticketed;
    match a
    case Begin(kind, resolved) =>
      TicketSpawned(s.shared.gate.lim.log, s.ps, s.shared.calls, ProviderTier, [NewProcess(kind, resolved)]);
      if s.shared.gate.mlim.Some? {
        TicketSpawned(s.shared.gate.mlim.value.log, s.ps, s.shared.calls, ModelTier, [NewProcess(kind, resolved)]);
      }
    case Act(i, reply) =>
      if i < |s.ps| {
        if s.ps[i].pc == Call {
          CallMetered(origin, s, i, reply, env);
        } else {
          AdvanceMetered(s.shared, s.ps[i], reply, env);
          ActMetered(origin, s, i, reply, env);
        }
      }
  }

  lemma {:induction false} RunMetered(s: System, actions: seq<Action>, env: Env)
    requires Monotone(env) && Metered(s.shared.gate, s, env) && AllAttuned(s) && NoReload(actions)
    ensures Metered(s.shared.gate, Run(s, actions, env), env)
    decreases |actions|
  {
    hide Metered, Next, Attuned;
    if actions != [] {
      var n := |actions| - 1;
      RunMetered(s, actions[..n], env);
      RunAttuned(s, actions[..n], env);
      assert !actions[n].Reload?;
      NextMetered(s.shared.gate, Run(s, actions[..n], env), actions[n], env);
    }
  }

  // ----------------------------------------------------------------------------- the rate bound

  /** The calls on this subject whose admitted Record call lies within [a, b]. */
  ghost function CallsWithin(sh: Shared, log: seq<Recording>, t: Tier, subject: string, a: Time, b: Time): set<nat> {
    set k: nat | k < |sh.calls| && Subject(sh.calls[k].entry, t) == subject && TicketOf(sh.calls[k].marks, t) < |log|
                 && a <= log[TicketOf(sh.calls[k].marks, t)].at <= b
  }

  lemma {:induction false} CallsInto(calls: seq<Called>, t: Tier, ks: set<nat>, tickets: set<nat>)
    requires forall k :: k in ks ==> k < |calls| && TicketOf(calls[k].marks, t) in tickets
    requires forall k, l :: 0 <= k < |calls| && 0 <= l < |calls| && k != l ==>
               TicketOf(calls[k].marks, t) != TicketOf(calls[l].marks, t)
    ensures |ks| <= |tickets|
    decreases ks
  {
    hide TicketOf;
    if ks != {} {
      var k :| k in ks;
      CallsInto(calls, t, ks - {k}, tickets - {TicketOf(calls[k].marks, t)});
    }
  }

  /** A tracker as start-up makes it: fresh or restored, nothing recorded since. */
  ghost predicate Started(v: TrackerView) {
    && v.log == [] && v.origin == v.windows
    && forall id, i :: id in v.windows && 0 <= i < |v.windows[id]| ==> v.windows[id][i].count >= 0
  }

  lemma StartedCounts(v: TrackerView, id: string, i: nat)
    requires Started(v) && id in v.configs && i < |v.configs[id]|
    ensures WindowsIn(v.origin, id, |v.configs[id]|)[i].count >= 0
  {
  }

  lemma InitialMetered(s: System, env: Env)
    requires Initial(s) && Started(s.shared.gate.lim)
             && (s.shared.gate.mlim.Some? ==> Started(s.shared.gate.mlim.value))
    ensures Metered(s.shared.gate, s, env) && AllAttuned(s)
  {
    hide Accounted;
    NewAccounted(s.shared.gate.lim);
    if s.shared.gate.mlim.Some? {
      NewAccounted(s.shared.gate.mlim.value);
    }
  }

  /** The whole-router rate bound, for any number of concurrent requests: of the selections of a provider
      (or of a model of a provider) admitted within any closed interval k windows long, there are at most
      k + 1 times the window's limit, for each of its windows; and as many calls at most, since each call
      rests on an admitted selection of its own. */
  lemma RouterRate(s0: System, actions: seq<Action>, env: Env, t: Tier, subject: string, i: nat, a: Time, k: nat)
    requires Initial(s0) && Monotone(env) && NoReload(actions)
    requires Started(s0.shared.gate.lim) && (s0.shared.gate.mlim.Some? ==> Started(s0.shared.gate.mlim.value))
    requires TrackerOf(s0.shared.gate, t).Some?
    requires var v0 := TrackerOf(s0.shared.gate, t).value;
             subject in v0.configs && i < |v0.configs[subject]| && Bounding(v0.configs[subject][i])
    ensures var c := TrackerOf(s0.shared.gate, t).value.configs[subject][i];
            var sh := Run(s0, actions, env).shared;
            TrackerOf(sh.gate, t).Some? &&
            var log := TrackerOf(sh.gate, t).value.log;
            && (forall n :: 0 <= n < |sh.calls| ==>
                  Admits(log, TicketOf(sh.calls[n].marks, t), Subject(sh.calls[n].entry, t)))
            && |Admitted(log, subject, a, a + k * c.window)| <= (k + 1) * Max(0, c.requests)
            && |CallsWithin(sh, log, t, subject, a, a + k * c.window)| <= (k + 1) * Max(0, c.requests)
  {
    hide Run, Accounted, Subject, Initial;
    var v0 := TrackerOf(s0.shared.gate, t).value;
    InitialMetered(s0, env);
    RunMetered(s0, actions, env);
    StartedCounts(v0, subject, i);
    var sh := Run(s0, actions, env).shared;
    var v, b := TrackerOf(sh.gate, t).value, a + k * v0.configs[subject][i].window;
    RateBound(v, subject, i, a, k);
    CallsInto(sh.calls, t, CallsWithin(sh, v.log, t, subject, a, b), Admitted(v.log, subject, a, b));
  }

  /** Does the tracker's next Record call of `subject` stay within its limits, refused calls counted? */
  ghost predicate Unpressed(v: TrackerView, subject: string, now: Time) {
    subject in v.configs ==> WithinLimits(v.configs[subject], v.log, subject, now)
  }

  /** Budget is never withheld, in any run from fresh trackers, however the checks interleave: a selection that
      comes to the windows of a model, or of a provider, passes them if fewer calls than each limit allows have
      been recorded there within the last window length. */
  lemma RouterAdmits(s0: System, actions: seq<Action>, env: Env, i: nat)
    requires Initial(s0) && Monotone(env) && NoReload(actions)
    requires s0.shared.gate.lim == NewView(s0.shared.gate.lim.configs)
    requires s0.shared.gate.mlim.Some? ==> s0.shared.gate.mlim.value == NewView(s0.shared.gate.mlim.value.configs)
    requires i < |Run(s0, actions, env).ps| && Run(s0, actions, env).ps[i].pc.Probe?
    ensures var s := Run(s0, actions, env);
            var sh, p, now := s.shared, s.ps[i], env.time(s.shared.tick);
            var r := ProbeStep(sh, p, env).process;
            && (p.pc.stage == AtProvider && Unpressed(sh.gate.lim, p.entry.providerID, now) ==> r.pc == Capture)
            && (p.pc.stage == AtModel && sh.gate.mlim.Some?
                && Unpressed(sh.gate.mlim.value, Key(p.entry.providerID, p.entry.modelID), now) ==>
                  r.pc == p.pc.(stage := AtProvider))
  {
    hide Run, Accounted, Record, Key, WithinLimits, Ticketed;
    var s := Run(s0, actions, env);
    var sh, p, now := s.shared, s.ps[i], env.time(s.shared.tick);
    InitialMetered(s0, env);
    RunMetered(s0, actions, env);
    RunAttuned(s0, actions, env);
    assert Attuned(sh, p);
    if Unpressed(sh.gate.lim, p.entry.providerID, now) {
      WithinBudgetAdmitted(sh.gate.lim, p.entry.providerID, now);
    }
    if sh.gate.mlim.Some? && Unpressed(sh.gate.mlim.value, Key(p.entry.providerID, p.entry.modelID), now) {
      WithinBudgetAdmitted(sh.gate.mlim.value, Key(p.entry.providerID, p.entry.modelID), now);
    }
  }
}
