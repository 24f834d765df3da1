/** Which failures block a provider or cool a model down, over whole runs of any number of requests. */
module Penalties {
  import opened Prelude
  import opened Entries
  import opened Windows
  import opened Routing
  import opened RoutingProofs
  import opened Completeness
  import opened Processes
  import opened Conservation
  import opened Histories
  import opened Bookkeeping

  /** Is the event that penalty? */
  predicate Imposes(e: Event, x: Penalty) {
    match x
    case AnyBlock => e.BarredFor?
    case BlockOf(p) => e.BarredFor? && e.provider == p
    case CooldownOf(key) => e.Cooled? && e.key == key
  }

  /** How often a history has it. */
  function Imposed(h: seq<Event>, x: Penalty): nat {
    if h == [] then 0 else Imposed(h[..|h| - 1], x) + if Imposes(h[|h| - 1], x) then 1 else 0
  }

  lemma ImposedSnoc(h: seq<Event>, e: Event, x: Penalty)
    ensures Imposed(h + [e], x) == Imposed(h, x) + if Imposes(e, x) then 1 else 0
  {
    assert (h + [e])[..|h|] == h;
  }

  /** A step adds to the history what it adds to its process's account. */
  predicate Settles(sh: Shared, p: Process, r: Advanced, x: Penalty) {
    Imposed(r.shared.history, x) - Imposed(sh.history, x)
    == Weigh(Owed(x), r.process) + Total(Owed(x), r.spawned) - Weigh(Owed(x), p)
  }

  /** A step that is no penalty and closes no iteration. */
  predicate Aside(sh: Shared, p: Process, r: Advanced) {
    && r.process.steps == p.steps && r.process.forwarder == p.forwarder
    && r.process.pc != CountBlock && p.pc != CountBlock
    && (forall c :: c in r.spawned ==> c.forwarder) && |r.spawned| <= 1
    && (r.shared.history == sh.history
        || (|r.shared.history| == |sh.history| + 1 && r.shared.history == sh.history + [r.shared.history[|sh.history|]]
            && var e := r.shared.history[|sh.history|]; !e.BarredFor? && !e.Cooled?))
  }

  lemma AsideSettles(sh: Shared, p: Process, r: Advanced, x: Penalty)
    requires Aside(sh, p, r)
    ensures Settles(sh, p, r, x)
  {
    hide Earned, Imposed;
    if r.shared.history != sh.history {
      ImposedSnoc(sh.history, r.shared.history[|sh.history|], x);
    }
    if r.spawned != [] {
      TotalOne(Owed(x), r.spawned[0]);
      assert r.spawned == [r.spawned[0]];
    }
  }

  lemma ProbeAside(sh: Shared, p: Process, env: Env)
    requires p.pc.Probe?
    ensures Aside(sh, p, ProbeStep(sh, p, env))
  {
    hide ProbeStep, Lawful, Replayed, Key;
    SelectChoosing(sh, p, env);
    ProbeNotes(sh, p, env);
  }

  lemma SlotAside(sh: Shared, p: Process)
    requires OnCounter(p.pc)
    ensures p.pc.Take? || p.pc.Load? || p.pc.Swap? ==> Aside(sh, p, AcquireStep(sh, p))
    ensures p.pc.Return? || p.pc.RetLoad? || p.pc.RetSwap? ==> Aside(sh, p, ReleaseStep(sh, p))
  {
    hide CounterFor;
  }

  lemma CallAside(sh: Shared, p: Process, reply: Reply)
    requires p.pc == Call || p.pc == Await
    ensures Aside(sh, p, CallStep(sh, p, reply))
  {
    hide ReplyTo;
  }

  lemma GaugeAside(sh: Shared, p: Process)
    requires p.pc == Raise || p.pc == Lower
    ensures Aside(sh, p, GaugeStep(sh, p))
  {
    hide Bumped;
  }

  lemma TotalNone(m: Measure)
    ensures Total(m, []) == 0
  {
  }

  lemma FullEarns(list: seq<Entry>, e: Entry, x: Penalty)
    ensures !Earns(Step(list, e, Full), x)
  {
  }

  lemma OkEarns(list: seq<Entry>, e: Entry, x: Penalty)
    ensures !Earns(Step(list, e, SERVED), x)
  {
  }

  /** What closing an iteration adds to the account. */
  lemma ThinOwes(p: Process, v: Verdict, x: Penalty)
    requires !p.forwarder
    ensures Weigh(Owed(x), Thin(p, v)) == Earned(p.steps, x) + if Earns(Step(p.list, p.entry, v), x) then 1 else 0
  {
    hide Earned, Earns, Sift, Cut;
    EarnedSnoc(p.steps, Step(p.list, p.entry, v), x);
  }

  /** A step that counts moves no account by counting. */
  lemma CountOwes(sh: Shared, p: Process, x: Penalty)
    ensures var r := CountStep(sh, p);
            && r.shared.history == sh.history && r.spawned == []
            && Weigh(Owed(x), r.process) == Weigh(Owed(x), AfterCounting(p))
  {
    hide AfterCounting, Gain, Plus, Counted, Bumped, Earned;
  }

  lemma ServedOwes(p: Process, x: Penalty)
    requires !p.forwarder && p.pc == CountRequest && p.reply == Some(Ok)
    ensures Weigh(Owed(x), AfterCounting(p)) == Weigh(Owed(x), p)
  {
    hide Earned, Earns;
    OkEarns(p.list, p.entry, x);
    EarnedSnoc(p.steps, Step(p.list, p.entry, VerdictOf(p)), x);
  }

  lemma FailureOwes(p: Process, x: Penalty)
    requires !p.forwarder && p.pc == CountFailure && p.reply.Some? && !p.reply.value.Ok?
    ensures Weigh(Owed(x), AfterCounting(p)) == Weigh(Owed(x), p)
  {
    hide Earned, Thin, BlockingCall, SoftStep, Soft, Blocks;
    BlocksExact(p.list, p.entry, p.reply.value);
    ThinOwes(p, VerdictOf(p), x);
  }

  lemma BlockEarns(list: seq<Entry>, e: Entry, r: Reply, x: Penalty)
    requires Blocks(e, r)
    ensures Earns(Step(list, e, Answered(r)), x) <==> x == AnyBlock || x == BlockOf(e.providerID)
  {
    BlocksExact(list, e, r);
  }

  /** Closing an iteration settles what its verdict earns, if that was imposed before. */
  lemma CountSettles(sh: Shared, p: Process, x: Penalty)
    requires Consistent(p) && IdleAt(p.pc) && !Picking(p.pc) && p.pc != Capture && p.pc != Cool && p.pc != Bar
    ensures Settles(sh, p, CountStep(sh, p), x)
  {
    hide Listed, Tallied, Imposed, Earned, Earns, CountStep, Thin;
    TotalNone(Owed(x));
    CountOwes(sh, p, x);
    if !p.forwarder {
      match p.pc
      case Reject => ThinOwes(p, Full, x); FullEarns(p.list, p.entry, x);
      case CountFailure => FailureOwes(p, x);
      case CountBlock => ThinOwes(p, VerdictOf(p), x); BlockEarns(p.list, p.entry, p.reply.value, x);
      case CountRequest => ServedOwes(p, x);
      case _ =>
    }
  }

  /** Blocks are noted before the iteration ends, cooldowns as it does. */
  lemma PenaltySettles(sh: Shared, p: Process, env: Env, x: Penalty)
    requires Consistent(p) && !p.forwarder && (p.pc == Cool || p.pc == Bar)
    requires x.CooldownOf? ==> sh.gate.mlim.Some?
    ensures Settles(sh, p, PenaltyStep(sh, p, env), x)
  {
    hide Listed, Tallied, Imposed, Earned, Sift, Cut, Key, RetryAfter, BlockKey, Fallback, RecoveryOf;
    TotalNone(Owed(x));
    var h, r := sh.history, PenaltyStep(sh, p, env);
    EarnedSnoc(p.steps, Step(p.list, p.entry, VerdictOf(p)), x);
    if r.shared.history != h {
      ImposedSnoc(h, r.shared.history[|h|], x);
    }
  }

  lemma StartAside(sh: Shared, p: Process)
    requires p.pc == Selecting || p.pc == Capture
    ensures Aside(sh, p, SelectStep(sh, p))
    ensures Aside(sh, p, Stay(sh, p.(models := ModelsNow(sh), pc := Take(ProviderTier))))
  {
  }

  lemma AdvanceSettles(sh: Shared, p: Process, reply: Reply, env: Env, x: Penalty)
    requires Consistent(p) && (x.CooldownOf? ==> sh.gate.mlim.Some?)
    ensures Settles(sh, p, Advance(sh, p, reply, env), x)
  {
    hide AcquireStep, ReleaseStep, CountStep, GaugeStep, PenaltyStep, CallStep, ProbeStep, Settles, Aside;
    hide Listed, Tallied;
    match p.pc
    case Take(_) => SlotAside(sh, p); AsideSettles(sh, p, AcquireStep(sh, p), x);
    case Load(_, _) => SlotAside(sh, p); AsideSettles(sh, p, AcquireStep(sh, p), x);
    case Swap(_, _, _) => SlotAside(sh, p); AsideSettles(sh, p, AcquireStep(sh, p), x);
    case Return(_) => SlotAside(sh, p); AsideSettles(sh, p, ReleaseStep(sh, p), x);
    case RetLoad(_, _) => SlotAside(sh, p); AsideSettles(sh, p, ReleaseStep(sh, p), x);
    case RetSwap(_, _, _) => SlotAside(sh, p); AsideSettles(sh, p, ReleaseStep(sh, p), x);
    case Selecting => StartAside(sh, p); AsideSettles(sh, p, SelectStep(sh, p), x);
    case Probe(_, _, _, _) => ProbeAside(sh, p, env); AsideSettles(sh, p, ProbeStep(sh, p, env), x);
    case Capture => StartAside(sh, p); AsideSettles(sh, p, Advance(sh, p, reply, env), x);
    case Call => CallAside(sh, p, reply); AsideSettles(sh, p, CallStep(sh, p, reply), x);
    case Await => CallAside(sh, p, reply); AsideSettles(sh, p, CallStep(sh, p, reply), x);
    case Raise => GaugeAside(sh, p); AsideSettles(sh, p, GaugeStep(sh, p), x);
    case Lower => GaugeAside(sh, p); AsideSettles(sh, p, GaugeStep(sh, p), x);
    case Cool => PenaltySettles(sh, p, env, x);
    case Bar => PenaltySettles(sh, p, env, x);
    case _ => CountSettles(sh, p, x);
  }

  /** The history has the penalties that the finished iterations earn, and the blocks just set. */
  ghost predicate Even(s: System, x: Penalty) {
    Imposed(s.shared.history, x) == Total(Owed(x), s.ps)
  }

  lemma ActEven(s: System, i: nat, reply: Reply, env: Env, x: Penalty)
    requires Even(s, x) && i < |s.ps| && Consistent(s.ps[i]) && (x.CooldownOf? ==> s.shared.gate.mlim.Some?)
    ensures Even(Next(s, Act(i, reply), env), x)
  {
    hide Advance, Total, Weigh, Consistent, Imposed;
    var r := Advance(s.shared, s.ps[i], reply, env);
    FewSpawned(s.shared, s.ps[i], reply, env);
    AdvanceSettles(s.shared, s.ps[i], reply, env, x);
    TotalAct(Owed(x), s.ps, i, r.process, r.spawned);
  }

  lemma NextEven(start: Metrics, s: System, a: Action, env: Env, x: Penalty)
    requires Even(s, x) && BooksRight(start, s) && (x.CooldownOf? ==> s.shared.gate.mlim.Some? && !a.Reload?)
    ensures Even(Next(s, a, env), x)
  {
    hide Advance, Consistent, Imposed;
    match a
    case Begin(kind, resolved) => TotalSnoc(Owed(x), s.ps, NewProcess(kind, resolved));
    case Act(i, reply) =>
      if i < |s.ps| {
        ActEven(s, i, reply, env, x);
      }
    case Reload(_, _, _, _) =>
  }

  lemma {:induction false} RunEven(start: Metrics, s: System, actions: seq<Action>, env: Env, x: Penalty)
    requires Even(s, x) && BooksRight(start, s) && Accountable(s, false) && AllAttuned(s)
    requires x.CooldownOf? ==> s.shared.gate.mlim.Some? && NoReload(actions)
    ensures Even(Run(s, actions, env), x)
    decreases |actions|
  {
    hide BooksRight, Accountable, Next, Even, Attuned;
    if actions != [] {
      var n := |actions| - 1;
      RunEven(start, s, actions[..n], env, x);
      RunBooks(start, s, actions[..n], env);
      if x.CooldownOf? {
        RunAttuned(s, actions[..n], env);
        assert !actions[n].Reload?;
      }
      NextEven(start, Run(s, actions[..n], env), actions[n], env, x);
    }
  }

  lemma StartsEven(s: System, x: Penalty)
    requires Initial(s)
    ensures Even(s, x) && AllAttuned(s)
  {
  }

  /** Over whole runs, reloads included: a provider is blocked exactly once for each call on a remote entry of it
      that failed otherwise than by an empty stream (a block is set shortly before its iteration ends), and never
      otherwise. On one configuration with a model tracker, a model is cooled down exactly once for each call of it
      that a node which is not remote answered with 429 or 413. */
  lemma PenaltiesEarned(s0: System, actions: seq<Action>, env: Env, x: Penalty)
    requires Initial(s0)
    requires x.CooldownOf? ==> s0.shared.gate.mlim.Some? && NoReload(actions)
    ensures var s := Run(s0, actions, env); Imposed(s.shared.history, x) == Total(Owed(x), s.ps)
  {
    hide Run, Total, Imposed, Accountable, BooksRight, Attuned;
    StartsEven(s0, x);
    InitialAccountable(s0, false);
    InitialBooks(s0);
    RunEven(s0.shared.metrics, s0, actions, env, x);
  }

  lemma BarKeeps(sh: Shared, p: Process, env: Env)
    requires p.pc == Bar
    ensures PenaltyStep(sh, p, env).shared.setup == sh.setup
  {
  }

  lemma SameSetup(sh: Shared, p: Process, reply: Reply, env: Env)
    ensures Advance(sh, p, reply, env).shared.setup == sh.setup
  {
    hide ProbeStep, PenaltyStep, CountStep, CallStep, GaugeStep, AcquireStep, ReleaseStep;
    if p.pc.Probe? {
      SelectChoosing(sh, p, env);
    } else if p.pc == Cool {
      CoolKeeps(sh, p, env);
    } else if p.pc == Bar {
      BarKeeps(sh, p, env);
    } else {
      hide Advance;
      OthersSameGate(sh, p, reply, env);
    }
  }

  lemma {:induction false} RunSetup(s: System, actions: seq<Action>, env: Env)
    requires NoReload(actions)
    ensures Run(s, actions, env).shared.setup == s.shared.setup
    decreases |actions|
  {
    hide Advance;
    if actions != [] {
      var n := |actions| - 1;
      var before := Run(s, actions[..n], env);
      RunSetup(s, actions[..n], env);
      assert !actions[n].Reload?;
      if actions[n].Act? && actions[n].i < |before.ps| {
        SameSetup(before.shared, before.ps[actions[n].i], actions[n].reply, env);
      }
    }
  }

  /** Every block of a run on one configuration lasts for the configured recovery window of its provider. */
  lemma BlockLengths(s0: System, actions: seq<Action>, env: Env, i: nat)
    requires Initial(s0) && Monotone(env) && NoReload(actions)
    ensures var h := Run(s0, actions, env).shared.history;
            i < |h| && h[i].BarredFor? ==> h[i].d == WindowIn(s0.shared.setup.recovery, h[i].provider)
  {
    hide Run, Timely, Respected;
    NothingBarred(s0, env);
    RunGuarded(s0, actions, env);
    RunSetup(s0, actions, env);
  }
}
