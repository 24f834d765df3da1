/** What every request keeps to, whatever the others do: its candidate list is exact, and it moves each
    metric as its outcome says. */
module Bookkeeping {
  import opened Prelude
  import opened Entries
  import opened Windows
  import opened Routing
  import opened RoutingProofs
  import opened Completeness
  import opened Processes
  import opened Conservation

  // ---------------------------------------------------------------------- one process at a time

  /** From the selection of an entry to the verdict on it. */
  predicate InFlight(pc: Pc) {
    match pc
    case Capture => true
    case Take(_) => true
    case Load(_, _) => true
    case Swap(_, _, _) => true
    case Raise => true
    case Call => true
    case Await => true
    case Return(_) => true
    case RetLoad(_, _) => true
    case RetSwap(_, _, _) => true
    case Lower => true
    case Reject => true
    case _ => false
  }

  predicate Over(pc: Pc) {
    pc == CountSource || pc == Ended
  }

  /** The list is exactly what the iterations so far leave of the resolved list. */
  ghost predicate Listed(p: Process) {
    && Faithful(p.resolved, p.steps)
    && (!Over(p.pc) ==>
          && p.list == Remaining(p.resolved, p.steps)
          && forall k :: 0 <= k < |p.steps| ==> p.steps[k].verdict != SERVED)
    && (!Picking(p.pc) && p.pc != Refused && !Over(p.pc) ==> p.entry in p.list)
    && (p.pc.Probe? ==> (forall e :: e in p.pc.rest ==> e in p.list) && (p.pc.stage != AtClock ==> p.entry in p.list))
  }

  /** The reply that led here. */
  predicate Replied(p: Process) {
    match p.pc
    case CountFailure => p.reply.Some? && !p.reply.value.Ok?
    case Cool => p.reply.Some? && Soft(p.entry, p.reply.value)
    case Bar => p.reply.Some? && Blocks(p.entry, p.reply.value)
    case CountBlock => p.reply.Some? && Blocks(p.entry, p.reply.value)
    case CountRequest => p.reply == Some(Ok)
    case _ => true
  }

  predicate Tallied(p: Process) {
    var y := p.tally;
    && y.requests >= 0 && y.noCapacity >= 0 && y.local >= 0 && y.remote >= 0
    && y.requests + y.noCapacity == (if Over(p.pc) then 1 else 0)
    && y.requests == y.local + y.remote + (if p.pc == CountSource then 1 else 0)
    && y.failures == FailedCalls(p.steps) + (if AfterCount(p.pc) then 1 else 0)
    && y.blockEvents == Earned(p.steps, AnyBlock)
  }

  ghost predicate Consistent(p: Process) {
    if p.forwarder then p.tally == NOTHING && (Returning(p.pc) || p.pc == Ended) && p.reply == Some(Ok)
    else Listed(p) && Replied(p) && Tallied(p)
  }

  lemma {:induction false} FailedSnoc(steps: seq<Step>, s: Step)
    ensures FailedCalls(steps + [s]) == FailedCalls(steps) + if FailedCall(s) then 1 else 0
  {
    if steps == [] {
      assert steps + [s] == [s] && [s][1..] == [];
    } else {
      FailedSnoc(steps[1..], s);
      assert (steps + [s])[1..] == steps[1..] + [s];
    }
  }

  lemma {:induction false} EarnedSnoc(steps: seq<Step>, s: Step, x: Penalty)
    ensures Earned(steps + [s], x) == Earned(steps, x) + if Earns(s, x) then 1 else 0
  {
    if steps == [] {
      assert steps + [s] == [s] && [s][1..] == [];
    } else {
      EarnedSnoc(steps[1..], s, x);
      assert (steps + [s])[1..] == steps[1..] + [s];
    }
  }

  /** The failures that block are those of remote entries, empty streams aside; those that cool down are the
      soft ones. */
  lemma BlocksExact(list: seq<Entry>, e: Entry, r: Reply)
    ensures Blocks(e, r) <==> BlockingCall(Step(list, e, Answered(r)))
    ensures Soft(e, r) <==> SoftStep(Step(list, e, Answered(r)))
    ensures !(Blocks(e, r) && Soft(e, r))
  {
  }

  lemma {:induction false} FewBlocks(steps: seq<Step>)
    ensures Earned(steps, AnyBlock) <= FailedCalls(steps)
  {
    if steps != [] {
      FewBlocks(steps[1..]);
    }
  }

  /** Closing an iteration keeps the list exact. */
  lemma ThinListed(p: Process, v: Verdict)
    requires Listed(p) && !Over(p.pc) && !Picking(p.pc) && p.pc != Refused && v != SERVED
    ensures Listed(Thin(p, v))
  {
    hide Faithful, Remaining, Sift;
    FaithfulSnoc(p.resolved, p.steps, Step(p.list, p.entry, v));
    RemainingStep(p.resolved, p.steps, Step(p.list, p.entry, v));
  }

  lemma ServedListed(p: Process)
    requires Listed(p) && p.pc == CountRequest
    ensures Listed(p.(steps := p.steps + [Step(p.list, p.entry, VerdictOf(p))], pc := CountSource))
  {
    hide Faithful, Remaining;
    FaithfulSnoc(p.resolved, p.steps, Step(p.list, p.entry, VerdictOf(p)));
  }

  /** Moving on within an iteration. */
  lemma MovedConsistent(p: Process, p': Process)
    requires Consistent(p) && InFlight(p.pc) && !p.forwarder
    requires p' == p.(pc := p'.pc, held := p'.held, mheld := p'.mheld, raised := p'.raised, models := p'.models,
                      reply := p'.reply)
    requires InFlight(p'.pc) || ((p'.pc == CountFailure || p'.pc == CountRequest) && Replied(p'))
    ensures Consistent(p')
  {
    hide Faithful, Remaining;
  }

  lemma CountListed(p: Process)
    requires Listed(p) && Replied(p) && IdleAt(p.pc) && !Picking(p.pc) && p.pc != Capture
    ensures Listed(AfterCounting(p))
  {
    hide Faithful, Remaining, Sift, Survives;
    match p.pc
    case Reject => ThinListed(p, Full);
    case CountFailure => ThinListed(p, VerdictOf(p));
    case CountBlock => ThinListed(p, VerdictOf(p));
    case CountRequest => ServedListed(p);
    case _ =>
  }

  lemma ThinTallied(p: Process, v: Verdict)
    ensures Thin(p, v).tally == p.tally && Thin(p, v).pc == Selecting
    ensures FailedCalls(Thin(p, v).steps) == FailedCalls(p.steps) + if v.Answered? && !v.reply.Ok? then 1 else 0
    ensures Earned(Thin(p, v).steps, AnyBlock)
            == Earned(p.steps, AnyBlock) + if v.Answered? && Blocks(p.entry, v.reply) then 1 else 0
  {
    hide Sift;
    FailedSnoc(p.steps, Step(p.list, p.entry, v));
    EarnedSnoc(p.steps, Step(p.list, p.entry, v), AnyBlock);
  }

  /** Where a counting step leads, as far as tallies are concerned. */
  lemma CountLeads(p: Process)
    requires Replied(p) && IdleAt(p.pc) && !Picking(p.pc) && p.pc != Capture
    ensures var p', n, b := AfterCounting(p), FailedCalls(p.steps), Earned(p.steps, AnyBlock);
            && Replied(p') && p'.tally == p.tally
            && match p.pc
               case Reject => p'.pc == Selecting && FailedCalls(p'.steps) == n && Earned(p'.steps, AnyBlock) == b
               case CountFailure =>
                 (p'.pc == Selecting && FailedCalls(p'.steps) == n + 1 && Earned(p'.steps, AnyBlock) == b)
                 || ((p'.pc == Cool || p'.pc == Bar) && p'.steps == p.steps)
               case CountBlock =>
                 p'.pc == Selecting && FailedCalls(p'.steps) == n + 1 && Earned(p'.steps, AnyBlock) == b + 1
               case CountRequest =>
                 p'.pc == CountSource && FailedCalls(p'.steps) == n && Earned(p'.steps, AnyBlock) == b
               case Refused => p'.pc == Ended && p'.steps == p.steps
               case CountSource => p'.pc == Ended && p'.steps == p.steps
               case _ => p' == p
  {
    hide FailedCalls, Earned, Thin;
    ThinTallied(p, Full);
    ThinTallied(p, VerdictOf(p));
    FailedSnoc(p.steps, Step(p.list, p.entry, VerdictOf(p)));
    EarnedSnoc(p.steps, Step(p.list, p.entry, VerdictOf(p)), AnyBlock);
  }

  lemma CountTallied(p: Process)
    requires Tallied(p) && Replied(p) && IdleAt(p.pc) && !Picking(p.pc) && p.pc != Capture
    ensures var p' := AfterCounting(p).(tally := Plus(p.tally, Gain(p))); Tallied(p') && Replied(p')
  {
    hide FailedCalls, Earned, AfterCounting, Blocks;
    CountLeads(p);
  }

  lemma SelectConsistent(sh: Shared, p: Process, env: Env)
    requires Consistent(p) && Picking(p.pc)
    ensures Consistent((if p.pc.Probe? then ProbeStep(sh, p, env) else SelectStep(sh, p)).process)
  {
    hide Faithful, Remaining, ProbeStep;
    SelectChoosing(sh, p, env);
  }

  lemma PenaltyConsistent(sh: Shared, p: Process, env: Env)
    requires Consistent(p) && !p.forwarder && (p.pc == Cool || p.pc == Bar)
    ensures Consistent(PenaltyStep(sh, p, env).process)
  {
    hide Faithful, Remaining, Sift, Survives, FailedCalls, Earned, RetryAfter, BlockKey, Fallback, RecoveryOf, Key, Cut;
    FailedSnoc(p.steps, Step(p.list, p.entry, VerdictOf(p)));
    EarnedSnoc(p.steps, Step(p.list, p.entry, VerdictOf(p)), AnyBlock);
    if p.pc == Cool {
      ThinListed(p, VerdictOf(p));
    }
  }

  lemma AcquireConsistent(sh: Shared, p: Process)
    requires Consistent(p) && (p.pc.Take? || p.pc.Load? || p.pc.Swap?)
    ensures Consistent(AcquireStep(sh, p).process)
  {
    hide Listed, Tallied, CounterFor;
    AcquireMechanical(sh, p);
    MovedConsistent(p, AcquireStep(sh, p).process);
  }

  lemma ReleaseConsistent(sh: Shared, p: Process)
    requires Consistent(p) && Placed(LawOf(sh, false), p) && (p.pc.Return? || p.pc.RetLoad? || p.pc.RetSwap?)
    ensures Consistent(ReleaseStep(sh, p).process)
  {
    hide Listed, Tallied, CounterFor;
    ReleaseMechanical(sh, p);
    if !p.forwarder {
      MovedConsistent(p, ReleaseStep(sh, p).process);
    }
  }

  lemma CallConsistent(sh: Shared, p: Process, reply: Reply)
    requires Consistent(p) && (p.pc == Call || p.pc == Await)
    ensures var r := CallStep(sh, p, reply);
            Consistent(r.process) && forall c :: c in r.spawned ==> Consistent(c)
  {
    hide Listed, Tallied;
    MovedConsistent(p, CallStep(sh, p, reply).process);
  }

  lemma GaugeConsistent(sh: Shared, p: Process)
    requires Consistent(p) && (p.pc == Raise || p.pc == Lower)
    ensures Consistent(GaugeStep(sh, p).process)
  {
    hide Listed, Tallied, Bumped;
    if !p.forwarder {
      MovedConsistent(p, GaugeStep(sh, p).process);
    }
  }

  lemma CaptureConsistent(p: Process, models: Option<nat>)
    requires Consistent(p) && p.pc == Capture
    ensures Consistent(p.(models := models, pc := Take(ProviderTier)))
  {
    hide Listed, Tallied;
    MovedConsistent(p, p.(models := models, pc := Take(ProviderTier)));
  }

  lemma GaugeSpawns(sh: Shared, p: Process)
    ensures GaugeStep(sh, p).spawned == []
  {
  }

  lemma EndedStays(p: Process)
    ensures p.pc == Ended ==> AfterCounting(p) == p && Plus(p.tally, Gain(p)) == p.tally
  {
  }

  lemma KeepsKind(p: Process)
    ensures AfterCounting(p).forwarder == p.forwarder
  {
    hide Sift, Cut, Blocks;
  }

  /** A forwarder that has ended stays as it is. */
  lemma CountConsistent(sh: Shared, p: Process)
    requires Consistent(p) && IdleAt(p.pc) && !Picking(p.pc) && p.pc != Capture
    ensures Consistent(CountStep(sh, p).process)
  {
    hide Faithful, Remaining, Survives, AfterCounting, Gain, Tallied, Replied, Bumped;
    EndedStays(p);
    KeepsKind(p);
    if !p.forwarder {
      CountListed(p);
      CountTallied(p);
    }
  }

  lemma AdvanceConsistent(sh: Shared, p: Process, reply: Reply, env: Env)
    requires Consistent(p) && Placed(LawOf(sh, false), p)
    ensures var r := Advance(sh, p, reply, env);
            Consistent(r.process) && forall c :: c in r.spawned ==> Consistent(c)
  {
    hide Placed, Listed, Tallied, Replied, AcquireStep, ReleaseStep, CallStep, CountStep, GaugeStep, PenaltyStep;
    hide SelectStep, ProbeStep;
    match p.pc
    case Selecting => SelectConsistent(sh, p, env); SelectQuiet(sh, p, env);
    case Probe(_, _, _, _) => SelectConsistent(sh, p, env); SelectQuiet(sh, p, env);
    case Capture => CaptureConsistent(p, ModelsNow(sh));
    case Take(_) => AcquireConsistent(sh, p); AcquireMechanical(sh, p);
    case Load(_, _) => AcquireConsistent(sh, p); AcquireMechanical(sh, p);
    case Swap(_, _, _) => AcquireConsistent(sh, p); AcquireMechanical(sh, p);
    case Return(_) => ReleaseConsistent(sh, p); ReleaseMechanical(sh, p);
    case RetLoad(_, _) => ReleaseConsistent(sh, p); ReleaseMechanical(sh, p);
    case RetSwap(_, _, _) => ReleaseConsistent(sh, p); ReleaseMechanical(sh, p);
    case Call => CallConsistent(sh, p, reply);
    case Await => CallConsistent(sh, p, reply);
    case Cool => PenaltyConsistent(sh, p, env); PenaltyQuiet(sh, p, env);
    case Bar => PenaltyConsistent(sh, p, env); PenaltyQuiet(sh, p, env);
    case Raise => GaugeConsistent(sh, p); GaugeSpawns(sh, p);
    case Lower => GaugeConsistent(sh, p); GaugeSpawns(sh, p);
    case _ =>
      CountQuiet(sh, p);
      CountConsistent(sh, p);
  }

  // ---------------------------------------------------------------------------- all of them

  /** The metric behind a measure of tallies. */
  function Metric(m: Metrics, k: Measure): int {
    match k
    case Requests => m.requests
    case NoCap => m.noCapacity
    case Failures => m.failures
    case BlockEvents => m.blockEvents
    case Locals => m.localRequests
    case Remotes => m.remoteRequests
    case _ => 0
  }

  predicate IsMetric(k: Measure) {
    k == Requests || k == NoCap || k == Failures || k == BlockEvents || k == Locals || k == Remotes
  }

  /** A step that is not a counting step moves no metric and no tally. */
  predicate Uncounted(sh: Shared, p: Process, r: Advanced) {
    && r.process.tally == p.tally && r.shared.metrics == sh.metrics.(active := r.shared.metrics.active)
    && (r.spawned == [] || (|r.spawned| == 1 && r.spawned[0].tally == NOTHING))
  }

  lemma MechanicalUncounted(sh: Shared, p: Process, r: Advanced)
    requires Mechanical(sh, p, r)
    ensures Uncounted(sh, p, r)
  {
  }

  lemma SelectUncounted(sh: Shared, p: Process, env: Env)
    requires Picking(p.pc)
    ensures Uncounted(sh, p, if p.pc.Probe? then ProbeStep(sh, p, env) else SelectStep(sh, p))
  {
    hide ProbeStep, SelectStep;
    SelectChoosing(sh, p, env);
  }

  lemma PenaltyUncounted(sh: Shared, p: Process, env: Env)
    ensures Uncounted(sh, p, PenaltyStep(sh, p, env))
  {
    hide Sift, Cut, RetryAfter, Fallback, RecoveryOf, BlockKey, Key;
  }

  lemma CallUncounted(sh: Shared, p: Process, reply: Reply)
    ensures Uncounted(sh, p, CallStep(sh, p, reply))
  {
    hide ReplyTo;
  }

  lemma GaugeUncounted(sh: Shared, p: Process)
    ensures Uncounted(sh, p, GaugeStep(sh, p))
  {
    hide Bumped;
  }

  lemma OthersUncounted(sh: Shared, p: Process, reply: Reply, env: Env)
    requires !IdleAt(p.pc) || Picking(p.pc) || p.pc == Capture || p.pc == Cool || p.pc == Bar
    ensures Uncounted(sh, p, Advance(sh, p, reply, env))
  {
    hide Mechanical, AcquireStep, ReleaseStep, SelectStep, ProbeStep, PenaltyStep, CallStep, GaugeStep;
    match p.pc
    case Take(_) => AcquireMechanical(sh, p); MechanicalUncounted(sh, p, AcquireStep(sh, p));
    case Load(_, _) => AcquireMechanical(sh, p); MechanicalUncounted(sh, p, AcquireStep(sh, p));
    case Swap(_, _, _) => AcquireMechanical(sh, p); MechanicalUncounted(sh, p, AcquireStep(sh, p));
    case Return(_) => ReleaseMechanical(sh, p); MechanicalUncounted(sh, p, ReleaseStep(sh, p));
    case RetLoad(_, _) => ReleaseMechanical(sh, p); MechanicalUncounted(sh, p, ReleaseStep(sh, p));
    case RetSwap(_, _, _) => ReleaseMechanical(sh, p); MechanicalUncounted(sh, p, ReleaseStep(sh, p));
    case Selecting => SelectUncounted(sh, p, env);
    case Probe(_, _, _, _) => SelectUncounted(sh, p, env);
    case Cool => PenaltyUncounted(sh, p, env);
    case Bar => PenaltyUncounted(sh, p, env);
    case Capture =>
    case Call => CallUncounted(sh, p, reply);
    case Await => CallUncounted(sh, p, reply);
    case _ => GaugeUncounted(sh, p);
  }

  lemma CountMoves(sh: Shared, p: Process, k: Measure)
    requires IsMetric(k)
    ensures var r := CountStep(sh, p);
            Metric(r.shared.metrics, k) - Metric(sh.metrics, k) == Weigh(k, r.process) - Weigh(k, p)
  {
    hide Gain, AfterCounting, Bumped;
  }

  /** Whatever a step adds to a metric it adds to the tally of its process. */
  lemma MetricMoves(sh: Shared, p: Process, reply: Reply, env: Env, k: Measure)
    requires IsMetric(k)
    ensures var r := Advance(sh, p, reply, env);
            Metric(r.shared.metrics, k) - Metric(sh.metrics, k)
            == Weigh(k, r.process) + Total(k, r.spawned) - Weigh(k, p)
  {
    hide CountStep, AcquireStep, ReleaseStep, SelectStep, ProbeStep, PenaltyStep, GaugeStep, CallStep;
    var r := Advance(sh, p, reply, env);
    if !IdleAt(p.pc) || Picking(p.pc) || p.pc == Capture || p.pc == Cool || p.pc == Bar {
      OthersUncounted(sh, p, reply, env);
      if r.spawned != [] {
        TotalOne(k, r.spawned[0]);
        assert r.spawned == [r.spawned[0]];
      }
    } else {
      CountMoves(sh, p, k);
      CountQuiet(sh, p);
    }
  }

  ghost predicate BooksRight(start: Metrics, s: System) {
    && (forall i :: 0 <= i < |s.ps| ==> Consistent(s.ps[i]))
    && (forall k :: IsMetric(k) ==> Metric(s.shared.metrics, k) == Metric(start, k) + Total(k, s.ps))
  }

  lemma ActBooks(start: Metrics, s: System, i: nat, reply: Reply, env: Env)
    requires BooksRight(start, s) && Accountable(s, false) && i < |s.ps|
    ensures BooksRight(start, Next(s, Act(i, reply), env))
  {
    hide Advance, Total, Weigh, Consistent, Metric, Placed, Holding, Bounded;
    var p, s' := s.ps[i], Next(s, Act(i, reply), env);
    var r := Advance(s.shared, p, reply, env);
    assert Orderly(LawOf(s.shared, false), p);
    FewSpawned(s.shared, p, reply, env);
    AdvanceConsistent(s.shared, p, reply, env);
    forall k | IsMetric(k)
      ensures Metric(s'.shared.metrics, k) == Metric(start, k) + Total(k, s'.ps)
    {
      MetricMoves(s.shared, p, reply, env, k);
      TotalAct(k, s.ps, i, r.process, r.spawned);
    }
  }

  lemma NewConsistent(kind: Kind, resolved: seq<Entry>)
    ensures Consistent(NewProcess(kind, resolved))
  {
    RemainingNone(resolved);
  }

  lemma NextBooks(start: Metrics, s: System, a: Action, env: Env)
    requires BooksRight(start, s) && Accountable(s, false)
    ensures BooksRight(start, Next(s, a, env))
  {
    hide Advance, Consistent, Accountable;
    match a
    case Begin(kind, resolved) =>
      NewConsistent(kind, resolved);
      forall k | IsMetric(k)
        ensures Total(k, s.ps + [NewProcess(kind, resolved)]) == Total(k, s.ps)
      {
        TotalSnoc(k, s.ps, NewProcess(kind, resolved));
      }
    case Act(i, reply) =>
      if i < |s.ps| {
        ActBooks(start, s, i, reply, env);
      }
    case Reload(_, _, _, _) =>
  }

  lemma {:induction false} RunBooks(start: Metrics, s: System, actions: seq<Action>, env: Env)
    requires BooksRight(start, s) && Accountable(s, false)
    ensures BooksRight(start, Run(s, actions, env))
    decreases |actions|
  {
    hide BooksRight, Accountable, Next;
    if actions != [] {
      var n := |actions| - 1;
      RunBooks(start, s, actions[..n], env);
      RunAccountable(s, false, actions[..n], env);
      NextBooks(start, Run(s, actions[..n], env), actions[n], env);
    }
  }

  /** Candidate-list exactness with any number of requests at once, at any clock, through reloads: what
      a request works on is exactly what its own iterations leave of its resolved list, so it makes at
      most one attempt per entry and never returns to a provider that failed hard or was full. */
  lemma ListsExact(s0: System, actions: seq<Action>, env: Env, i: nat)
    requires Initial(s0) && i < |Run(s0, actions, env).ps|
    ensures var p := Run(s0, actions, env).ps[i];
            !p.forwarder ==>
              && Faithful(p.resolved, p.steps)
              && (!Over(p.pc) ==> p.list == Remaining(p.resolved, p.steps))
              && |p.steps| <= |p.resolved|
  {
    hide Run, Faithful, Remaining;
    InitialAccountable(s0, false);
    RunBooks(s0.shared.metrics, s0, actions, env);
    var p := Run(s0, actions, env).ps[i];
    if !p.forwarder {
      NoRetry(p.resolved, p.steps);
    }
  }

  lemma InitialBooks(s: System)
    requires Initial(s)
    ensures BooksRight(s.shared.metrics, s)
  {
  }

  lemma OneAgrees(p: Process)
    requires Consistent(p)
    ensures Weigh(Requests, p) + Weigh(NoCap, p) == Weigh(Finished, p) + Weigh(Unsourced, p)
    ensures Weigh(Requests, p) == Weigh(Locals, p) + Weigh(Remotes, p) + Weigh(Unsourced, p)
    ensures Weigh(Failures, p) == Weigh(FailedAttempts, p) + Weigh(Unjudged, p)
    ensures Weigh(BlockEvents, p) == Weigh(Deserved(AnyBlock), p) <= Weigh(FailedAttempts, p)
  {
    hide Listed, Replied, FailedCalls, Earned;
    FewBlocks(p.steps);
  }

  lemma {:induction false} TotalsAgree(ps: seq<Process>)
    requires forall i :: 0 <= i < |ps| ==> Consistent(ps[i])
    ensures Total(Requests, ps) + Total(NoCap, ps) == Total(Finished, ps) + Total(Unsourced, ps)
    ensures Total(Requests, ps) == Total(Locals, ps) + Total(Remotes, ps) + Total(Unsourced, ps)
    ensures Total(Failures, ps) == Total(FailedAttempts, ps) + Total(Unjudged, ps)
    ensures Total(BlockEvents, ps) == Total(Deserved(AnyBlock), ps) <= Total(FailedAttempts, ps)
  {
    hide Consistent, Weigh;
    if ps != [] {
      OneAgrees(ps[|ps| - 1]);
      TotalsAgree(ps[..|ps| - 1]);
    }
  }

  /** Accounting, at every moment of every run: Requests and NoCapacity together grow by one per finished
      call (and per call that has counted its request but not yet its source); a counted request is local
      or remote; Failures grows by the failed attempts; block events never outnumber failures. */
  lemma BooksBalanced(s0: System, actions: seq<Action>, env: Env)
    requires Initial(s0)
    ensures var a, b, ps := s0.shared.metrics, Run(s0, actions, env).shared.metrics, Run(s0, actions, env).ps;
            && b.requests + b.noCapacity == a.requests + a.noCapacity + Total(Finished, ps) + Total(Unsourced, ps)
            && b.requests - a.requests
               == (b.localRequests - a.localRequests) + (b.remoteRequests - a.remoteRequests) + Total(Unsourced, ps)
            && b.failures == a.failures + Total(FailedAttempts, ps) + Total(Unjudged, ps)
            && b.blockEvents == a.blockEvents + Total(Deserved(AnyBlock), ps)
            && Total(Deserved(AnyBlock), ps) <= Total(FailedAttempts, ps)
  {
    hide Run, Consistent, Total;
    InitialAccountable(s0, false);
    InitialBooks(s0);
    RunBooks(s0.shared.metrics, s0, actions, env);
    TotalsAgree(Run(s0, actions, env).ps);
    var m := Run(s0, actions, env).shared.metrics;
    assert IsMetric(Requests) && IsMetric(NoCap) && IsMetric(Failures);
    assert IsMetric(BlockEvents) && IsMetric(Locals) && IsMetric(Remotes);
  }

  lemma NothingPending(p: Process)
    requires Consistent(p) && (p.forwarder || p.pc == Ended)
    ensures Weigh(Unsourced, p) == 0 && Weigh(Unjudged, p) == 0
  {
    hide Listed, Tallied;
  }

  lemma {:induction false} AtRest(ps: seq<Process>)
    requires forall i :: 0 <= i < |ps| ==> Consistent(ps[i]) && (ps[i].forwarder || ps[i].pc == Ended)
    ensures Total(Unsourced, ps) == 0 && Total(Unjudged, ps) == 0
  {
    hide Consistent, Weigh;
    if ps != [] {
      NothingPending(ps[|ps| - 1]);
      AtRest(ps[..|ps| - 1]);
    }
  }

  /** When no call is running, although streams may still be draining, requests are exactly local plus remote
      ones, each call that was made counts once in Requests or NoCapacity, and Failures and block events are
      those of its failed attempts. */
  lemma BooksAtRest(s0: System, actions: seq<Action>, env: Env)
    requires Initial(s0)
    requires var ps := Run(s0, actions, env).ps; forall i :: 0 <= i < |ps| ==> ps[i].forwarder || ps[i].pc == Ended
    ensures var a, b, ps := s0.shared.metrics, Run(s0, actions, env).shared.metrics, Run(s0, actions, env).ps;
            && b.requests - a.requests == (b.localRequests - a.localRequests) + (b.remoteRequests - a.remoteRequests)
            && b.requests + b.noCapacity == a.requests + a.noCapacity + Total(Finished, ps)
            && b.failures == a.failures + Total(FailedAttempts, ps)
            && b.blockEvents == a.blockEvents + Total(Deserved(AnyBlock), ps)
            && Total(Deserved(AnyBlock), ps) <= Total(FailedAttempts, ps)
  {
    hide Run, Consistent;
    InitialAccountable(s0, false);
    InitialBooks(s0);
    RunBooks(s0.shared.metrics, s0, actions, env);
    BooksBalanced(s0, actions, env);
    AtRest(Run(s0, actions, env).ps);
  }
}
