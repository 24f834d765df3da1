/** Failover: which entries a request tries, in which order, and when it succeeds. */
module RoutingProofs {
  import opened Prelude
  import opened Entries
  import opened Windows
  import opened Routing

  // ------------------------------------------------------------- the candidate list, exactly

  /** An iteration that ends with a reply of status 429 or 413 from a node that is not remote. */
  predicate SoftStep(s: Step) {
    && s.verdict.Answered? && s.verdict.reply.Failed? && s.verdict.reply.failure.Http?
    && (s.verdict.reply.failure.status == 429 || s.verdict.reply.failure.status == 413)
    && !s.entry.isRemote
  }

  /** What such an iteration, or any other, leaves in the list: all but the one pair, or all but the provider. */
  predicate Spared(s: Step, e: Entry) {
    if SoftStep(s) then !(e.providerID == s.entry.providerID && e.modelID == s.entry.modelID)
    else e.providerID != s.entry.providerID
  }

  lemma CutSpares(s: Step, e: Entry)
    ensures Keeps(Cut(s.entry, s.verdict), e) <==> Spared(s, e)
  {
  }

  /** Do all iterations so far leave `e` in the list? */
  predicate Survives(e: Entry, steps: seq<Step>) {
    forall i :: 0 <= i < |steps| ==> Spared(steps[i], e)
  }

  /** The resolved list minus all entries of providers that were full or failed in any other way than with 429
      or 413 on a node that is not remote, and minus the pairs that failed in that way, order kept. */
  function Remaining(es: seq<Entry>, steps: seq<Step>): seq<Entry> {
    if es == [] then []
    else (if Survives(es[0], steps) then [es[0]] else []) + Remaining(es[1..], steps)
  }

  lemma {:induction false} RemainingNone(es: seq<Entry>)
    ensures Remaining(es, []) == es
  {
    if es != [] {
      RemainingNone(es[1..]);
    }
  }

  lemma SurvivesStep(e: Entry, steps: seq<Step>, s: Step)
    ensures Survives(e, steps + [s]) <==> Survives(e, steps) && Keeps(Cut(s.entry, s.verdict), e)
  {
    CutSpares(s, e);
    var all := steps + [s];
    assert all[|steps|] == s;
    assert forall i :: 0 <= i < |steps| ==> all[i] == steps[i];
  }

  lemma SiftCons(k: Pick, e: Entry, rest: seq<Entry>)
    ensures Sift(k, [e] + rest) == (if Keeps(k, e) then [e] else []) + Sift(k, rest)
    ensures [] + Sift(k, rest) == Sift(k, rest)
  {
    assert ([e] + rest)[1..] == rest;
  }

  lemma {:induction false} RemainingStep(es: seq<Entry>, steps: seq<Step>, s: Step)
    ensures Remaining(es, steps + [s]) == Sift(Cut(s.entry, s.verdict), Remaining(es, steps))
  {
    if es != [] {
      RemainingStep(es[1..], steps, s);
      SurvivesStep(es[0], steps, s);
      var rest := Remaining(es[1..], steps);
      SiftCons(Cut(s.entry, s.verdict), es[0], rest);
      assert Remaining(es, steps) == if Survives(es[0], steps) then [es[0]] + rest else rest;
    }
  }

  lemma {:induction false} RemainingMember(es: seq<Entry>, steps: seq<Step>, e: Entry)
    ensures e in Remaining(es, steps) <==> e in es && Survives(e, steps)
  {
    if es != [] {
      RemainingMember(es[1..], steps, e);
    }
  }

  /** A record of iterations is faithful to the list it started from: each iteration works on exactly
      what is left of it, picks its entry from there, and only the last one can succeed. */
  ghost predicate Faithful(es: seq<Entry>, steps: seq<Step>) {
    forall k :: 0 <= k < |steps| ==>
      && steps[k].list == Remaining(es, steps[..k])
      && steps[k].entry in steps[k].list
      && (steps[k].verdict == SERVED ==> k == |steps| - 1)
  }

  /** The list of one iteration is the list of the one before, in order, without what that one rules out. */
  lemma NextList(es: seq<Entry>, steps: seq<Step>, k: nat)
    requires Faithful(es, steps) && k + 1 < |steps|
    ensures forall e :: e in steps[k + 1].list <==> e in steps[k].list && Spared(steps[k], e)
    ensures Subsequence(steps[k + 1].list, steps[k].list)
    ensures forall e :: Spared(steps[k], e) ==> multiset(steps[k + 1].list)[e] == multiset(steps[k].list)[e]
  {
    hide Remaining, Sift, Survives;
    var list, c := steps[k].list, Cut(steps[k].entry, steps[k].verdict);
    assert steps[..k + 1] == steps[..k] + [steps[k]];
    RemainingStep(es, steps[..k], steps[k]);
    forall e
      ensures e in Sift(c, list) <==> e in list && Spared(steps[k], e)
      ensures Spared(steps[k], e) ==> multiset(Sift(c, list))[e] == multiset(list)[e]
    {
      SiftCount(c, list, e);
      CutSpares(steps[k], e);
    }
    SubsequenceReflexive(Sift(c, list));
    SubsequenceOfSift(Sift(c, list), c, list);
  }

  lemma FaithfulSnoc(es: seq<Entry>, steps: seq<Step>, s: Step)
    requires Faithful(es, steps) && s.list == Remaining(es, steps) && s.entry in s.list
    requires forall k :: 0 <= k < |steps| ==> steps[k].verdict != SERVED
    ensures Faithful(es, steps + [s])
  {
    var all := steps + [s];
    forall k | 0 <= k < |all|
      ensures all[k].list == Remaining(es, all[..k]) && all[k].entry in all[k].list
              && (all[k].verdict == SERVED ==> k == |all| - 1)
    {
      if k < |steps| {
        assert all[k] == steps[k] && all[..k] == steps[..k];
      } else {
        assert all[..k] == steps;
      }
    }
  }

  lemma LoopGoesOn(es: seq<Entry>, w: World, setup: Setup, env: Env, kind: Kind)
    requires Keyed(setup) && Turn(es, w, setup, env, kind).GoOn?
    ensures var r, out := Turn(es, w, setup, env, kind), Loop(es, w, setup, env, kind);
            var rest := Loop(Sift(Cut(r.entry, r.verdict), es), r.world, setup, env, kind);
            && out.steps == [Step(es, r.entry, r.verdict)] + rest.steps
            && out.result == rest.result && out.world == rest.world
  {
    hide Turn;
  }

  lemma {:induction false} LoopFaithful(es0: seq<Entry>, before: seq<Step>, es: seq<Entry>, w: World,
          setup: Setup, env: Env, kind: Kind)
    requires Keyed(setup)
    requires Faithful(es0, before) && es == Remaining(es0, before)
    requires forall k :: 0 <= k < |before| ==> before[k].verdict != SERVED
    ensures Faithful(es0, before + Loop(es, w, setup, env, kind).steps)
    decreases |es|
  {
    hide Turn, Remaining, Faithful, Sift;
    match Turn(es, w, setup, env, kind)
    case Stop(_) =>
      assert before + [] == before;
    case Win(e, _) =>
      FaithfulSnoc(es0, before, Step(es, e, SERVED));
    case GoOn(e, v, w') =>
      var s := Step(es, e, v);
      FaithfulSnoc(es0, before, s);
      RemainingStep(es0, before, s);
      SiftShrinks(Cut(e, v), es, e);
      LoopFaithful(es0, before + [s], Sift(Cut(e, v), es), w', setup, env, kind);
      LoopGoesOn(es, w, setup, env, kind);
      Associative(before, [s], Loop(Sift(Cut(e, v), es), w', setup, env, kind).steps);
  }

  /** Candidate-list exactness, for Route and Stream, any clock, health and replies: at every loop head
      the list is exactly what the earlier iterations leave of the resolved list. */
  lemma ServeFaithful(es: seq<Entry>, w: World, setup: Setup, env: Env, kind: Kind)
    requires Keyed(setup)
    ensures Faithful(es, Serve(es, w, setup, env, kind).steps)
  {
    if es != [] {
      RemainingNone(es);
      LoopFaithful(es, [], es, w, setup, env, kind);
      assert [] + Serve(es, w, setup, env, kind).steps == Serve(es, w, setup, env, kind).steps;
    }
  }

  /** What a call of an entry at position n is answered; a completion has no stream to fail. */
  function ReplyAt(env: Env, kind: Kind, n: nat, e: Entry): Reply {
    var r := env.reply(n, e.providerID, e.modelID);
    if kind == Completion && (r.EmptyStream? || r.FirstChunkFailed?) then Failed(OtherFailure) else r
  }

  /** Each iteration ends as its provider replied to the call of its model, or for want of a slot. */
  ghost predicate Honest(steps: seq<Step>, env: Env, kind: Kind) {
    forall k :: 0 <= k < |steps| ==>
      steps[k].verdict == Full || exists n :: steps[k].verdict == Answered(ReplyAt(env, kind, n, steps[k].entry))
  }

  /** Taking and returning slots leaves the gate alone. */
  lemma SlotsOnly(w: World, e: Entry)
    ensures Acquire(w, e).world.gate == w.gate && Drop(w, e).gate == w.gate
    ensures Acquire(w, e).world.tick == w.tick
  {
  }

  lemma TurnHonest(es: seq<Entry>, w: World, setup: Setup, env: Env, kind: Kind)
    ensures var r := Turn(es, w, setup, env, kind);
            && (r.Win? ==> Honest([Step(es, r.entry, SERVED)], env, kind))
            && (r.GoOn? ==> Honest([Step(es, r.entry, r.verdict)], env, kind) && r.verdict != SERVED)
  {
    hide Scan, Acquire, Settled, AfterFailure, Drop;
    var s := Scan(es, w.gate, setup, env, w.tick);
    if s.pick.Some? {
      var a := Acquire(w.(gate := s.gate, tick := s.tick), s.pick.value);
      SlotsOnly(w.(gate := s.gate, tick := s.tick), s.pick.value);
      assert ReplyTo(kind, env.reply(s.tick, s.pick.value.providerID, s.pick.value.modelID))
             == ReplyAt(env, kind, s.tick, s.pick.value);
    }
  }

  /** How a request ends follows from its iterations. */
  predicate Ends(es: seq<Entry>, out: Outcome) {
    var n := |out.steps|;
    && (forall k :: 0 <= k < n - 1 ==> out.steps[k].verdict != SERVED)
    && (out.result == ModelNotFound <==> es == [])
    && (out.result.Success? <==> n > 0 && out.steps[n - 1].verdict == SERVED)
    && (out.result.Success? ==> out.result.entry == out.steps[n - 1].entry)
  }

  lemma LoopEnds(es: seq<Entry>, w: World, setup: Setup, env: Env, kind: Kind)
    requires Keyed(setup)
    ensures var r, out := Turn(es, w, setup, env, kind), Loop(es, w, setup, env, kind);
            && (r.Stop? ==> out == Outcome(AllProvidersFailed, r.world, []))
            && (r.Win? ==> out == Outcome(Success(r.entry), r.world, [Step(es, r.entry, SERVED)]))
  {
    hide Turn;
  }

  lemma {:induction false} LoopHonest(es: seq<Entry>, w: World, setup: Setup, env: Env, kind: Kind)
    requires Keyed(setup)
    ensures var out := Loop(es, w, setup, env, kind);
            Honest(out.steps, env, kind) && out.result != ModelNotFound && (es != [] ==> Ends(es, out))
            && (es == [] ==> out.steps == [])
    decreases |es|
  {
    hide Turn, Sift, ReplyAt;
    LoopEnds(es, w, setup, env, kind);
    TurnHonest(es, w, setup, env, kind);
    var r := Turn(es, w, setup, env, kind);
    if es == [] {
      assert r.Stop?;
    } else if r.GoOn? {
      var c := Cut(r.entry, r.verdict);
      LoopGoesOn(es, w, setup, env, kind);
      SiftShrinks(c, es, r.entry);
      LoopHonest(Sift(c, es), r.world, setup, env, kind);
    }
  }

  /** For any clock, health and replies: each iteration of a request has the reply its provider gave; the request
      is answered iff its last iteration was, by that iteration's entry; and ModelNotFound is reported iff the
      model resolves to nothing. */
  lemma ServeHonest(es: seq<Entry>, w: World, setup: Setup, env: Env, kind: Kind)
    requires Keyed(setup)
    ensures var out := Serve(es, w, setup, env, kind); Honest(out.steps, env, kind) && Ends(es, out)
  {
    if es != [] {
      LoopHonest(es, w, setup, env, kind);
    }
  }

  /** The list strictly shrinks from one iteration to the next. */
  lemma FaithfulShrinks(es: seq<Entry>, steps: seq<Step>, k: nat)
    requires Faithful(es, steps) && k + 1 < |steps|
    ensures |steps[k + 1].list| < |steps[k].list|
  {
    hide Remaining, Sift, Survives;
    assert steps[..k + 1] == steps[..k] + [steps[k]];
    RemainingStep(es, steps[..k], steps[k]);
    SiftShrinks(Cut(steps[k].entry, steps[k].verdict), steps[k].list, steps[k].entry);
  }

  lemma {:induction false} FaithfulCount(es: seq<Entry>, steps: seq<Step>, k: nat)
    requires Faithful(es, steps) && k < |steps|
    ensures |steps[k].list| + k <= |es|
  {
    if k == 0 {
      RemainingNone(es);
      assert steps[..0] == [];
    } else {
      FaithfulCount(es, steps, k - 1);
      FaithfulShrinks(es, steps, k - 1);
    }
  }

  /** At most one iteration per resolved entry; no pair is tried twice; after a hard failure, or after
      its slots were full, a provider is not tried again in the same request. */
  lemma NoRetry(es: seq<Entry>, steps: seq<Step>)
    requires Faithful(es, steps)
    ensures |steps| <= |es|
    ensures forall i, k :: 0 <= i < k < |steps| ==>
              && !(steps[k].entry.providerID == steps[i].entry.providerID
                   && steps[k].entry.modelID == steps[i].entry.modelID)
              && (!SoftStep(steps[i]) ==> steps[k].entry.providerID != steps[i].entry.providerID)
  {
    if steps != [] {
      FaithfulCount(es, steps, |steps| - 1);
      assert |steps[|steps| - 1].list| > 0;
    }
    forall i, k | 0 <= i < k < |steps|
      ensures Spared(steps[i], steps[k].entry)
    {
      RemainingMember(es, steps[..k], steps[k].entry);
      assert steps[..k][i] == steps[i];
    }
  }

  // ------------------------------------------------------------------- fixed clock and health

  /** The environment of a single request at one instant: nothing but the replies may vary. */
  ghost predicate FrozenAt(env: Env, t: Time) {
    (forall n :: env.time(n) == t) && (forall n, m, id :: env.ready(n, id) == env.ready(m, id))
  }

  /** The provider is unknown, unhealthy, blocked or exhausted. */
  predicate StateBars(e: Entry, g: Gate, setup: Setup, t: Time, ready: bool) {
    var id := e.providerID;
    || id !in setup.providers || !ready
    || (id in g.state.blocked && t < g.state.blocked[id])
    || (id in g.state.exhausted && t < g.state.exhausted[id])
  }

  predicate ModelBars(e: Entry, g: Gate, t: Time) {
    var key := Key(e.providerID, e.modelID);
    && g.mlim.Some?
    && ((key in g.mlim.value.cooldowns && t <= g.mlim.value.cooldowns[key]) || Spent(g.mlim.value, key, t))
  }

  predicate ProviderBars(e: Entry, g: Gate, t: Time) {
    Spent(g.lim, e.providerID, t)
  }

  /** Everything that can make selection pass over `e` at time t. */
  predicate Barring(e: Entry, g: Gate, setup: Setup, t: Time, ready: bool) {
    StateBars(e, g, setup, t, ready) || ModelBars(e, g, t) || ProviderBars(e, g, t)
  }

  lemma ForgetKeeps(v: TrackerView, key: string, id: string, t: Time)
    ensures Spent(Forget(v, key, t), id, t) == Spent(v, id, t)
    ensures Cooling(Forget(v, key, t), id, t) == Cooling(v, id, t)
  {
  }

  /** Selection passes over exactly the barred entries. */
  lemma VisitBars(e: Entry, g: Gate, setup: Setup, env: Env, n: nat, t: Time)
    requires FrozenAt(env, t)
    ensures Visit(e, g, setup, env, n).admitted <==> !Barring(e, g, setup, t, env.ready(n, e.providerID))
  {
    var key := Key(e.providerID, e.modelID);
    if g.mlim.Some? {
      var ml := Forget(g.mlim.value, key, t);
      ForgetKeeps(g.mlim.value, key, key, t);
      RecordRefusesSpent(ml, key, t);
    }
    var m := ModelCheck(g, key, env.time(n + 1), env.time(n + 2));
    RecordRefusesSpent(m.gate.lim, e.providerID, env.time(n + 3));
  }

  /** Is the model's key cooling down when the visit at position n looks? */
  predicate Chilled(e: Entry, g: Gate, env: Env, n: nat) {
    var key := Key(e.providerID, e.modelID);
    g.mlim.Some? && key in g.mlim.value.cooldowns && env.time(n + 1) <= g.mlim.value.cooldowns[key]
  }

  /** Forgetting a cooldown changes no answer and no window. */
  lemma ForgetRecords(v: TrackerView, key: string, t: Time, now: Time)
    ensures var a, b := Record(v, key, now), Record(Forget(v, key, t), key, now);
            && b.exhausted == a.exhausted && b.resetAt == a.resetAt
            && b.view.log == a.view.log && b.view.windows == a.view.windows
  {
    if key in v.configs {
      assert WindowsOf(Forget(v, key, t), key) == WindowsOf(v, key);
    }
  }

  /** What a visit records, at any clock: nothing for an entry barred by its provider's state; no Record call for
      a model that is cooling down; one on the model key otherwise, and one on the provider only if the model's
      call is admitted; an exhaustion, until the reported reset, iff the provider's call is refused. */
  lemma VisitWrites(e: Entry, g: Gate, setup: Setup, env: Env, n: nat)
    ensures var c, id, key := Visit(e, g, setup, env, n), e.providerID, Key(e.providerID, e.modelID);
            var barred := StateBars(e, g, setup, env.time(n), env.ready(n, id));
            && (barred ==> c == Checked(false, g))
            && c.gate.mlim.Some? == g.mlim.Some?
            && (!barred && Chilled(e, g, env, n) ==> c == Checked(false, g))
            && (!barred && !Chilled(e, g, env, n) ==>
                  && (g.mlim.Some? ==>
                        var r := Record(g.mlim.value, key, env.time(n + 2));
                        && c.gate.mlim.value.log == r.view.log && c.gate.mlim.value.windows == r.view.windows
                        && (r.exhausted ==> !c.admitted && c.gate == g.(mlim := c.gate.mlim)))
                  && (g.mlim.None? || !Record(g.mlim.value, key, env.time(n + 2)).exhausted ==>
                        var r := Record(g.lim, id, env.time(n + 3));
                        && c.gate.lim == r.view && c.admitted == !r.exhausted
                        && c.gate.exhaustions == g.exhaustions + (if r.exhausted then 1 else 0)
                        && c.gate.state.blocked == g.state.blocked
                        && (if r.exhausted
                            then r.resetAt.Some?
                                 && c.gate.state.exhausted == g.state.exhausted[id := r.resetAt.value]
                            else c.gate.state == g.state)))
  {
    hide Record, Key;
    if g.mlim.Some? {
      ForgetRecords(g.mlim.value, Key(e.providerID, e.modelID), env.time(n + 1), env.time(n + 2));
    }
  }

  lemma TickTwice(c: Config, w: Window, t: Time)
    requires Over(c, Tick(c, w, t))
    ensures Over(c, Tick(c, Tick(c, w, t), t))
  {
  }

  /** At one instant a refused counter stays refused: counting on never helps. */
  lemma SpentStays(v: TrackerView, id: string, other: string, t: Time)
    requires Spent(v, id, t)
    ensures Spent(Record(v, other, t).view, id, t)
  {
    var u := Record(v, other, t).view;
    if other == id {
      var cfgs := v.configs[id];
      var i :| 0 <= i < |cfgs| && Over(cfgs[i], Tick(cfgs[i], WindowsOf(v, id)[i], t));
      assert u.windows[id] == TickAll(cfgs, WindowsOf(v, id), t);
      assert WindowsOf(u, id)[i] == Tick(cfgs[i], WindowsOf(v, id)[i], t);
      TickTwice(cfgs[i], WindowsOf(v, id)[i], t);
    } else if id in v.configs {
      assert WindowsOf(u, id) == WindowsOf(v, id);
    }
  }

  lemma SpentElsewhere(v: TrackerView, id: string, other: string, t: Time)
    requires id != other
    ensures Spent(Record(v, other, t).view, id, t) == Spent(v, id, t)
  {
    if id in v.configs {
      assert WindowsOf(Record(v, other, t).view, id) == WindowsOf(v, id);
    }
  }

  lemma ModelBarsStay(e: Entry, g: Gate, key: string, t: Time)
    requires ModelBars(e, g, t)
    ensures ModelBars(e, ModelCheck(g, key, t, t).gate, t)
  {
    var own := Key(e.providerID, e.modelID);
    var ml := Forget(g.mlim.value, key, t);
    ForgetKeeps(g.mlim.value, key, own, t);
    if Spent(ml, own, t) {
      SpentStays(ml, own, key, t);
    }
  }

  /** A reason to pass over an entry outlasts any other visit at the same instant. */
  lemma BarringStays(e: Entry, f: Entry, g: Gate, setup: Setup, env: Env, n: nat, t: Time, ready: bool)
    requires FrozenAt(env, t) && Barring(e, g, setup, t, ready) && ready == env.ready(n, e.providerID)
    ensures Barring(e, Visit(f, g, setup, env, n).gate, setup, t, ready)
  {
    assert e.providerID == f.providerID ==> env.ready(n, f.providerID) == ready;
    if !StateBars(f, g, setup, t, env.ready(n, f.providerID)) {
      var m := ModelCheck(g, Key(f.providerID, f.modelID), t, t);
      assert m.gate.lim == g.lim && m.gate.state == g.state;
      if ModelBars(e, g, t) {
        ModelBarsStay(e, g, Key(f.providerID, f.modelID), t);
      }
      if m.admitted {
        if ProviderBars(e, g, t) {
          SpentStays(g.lim, e.providerID, f.providerID, t);
        }
      }
    }
  }

  /** Every entry of `es` is barred. */
  ghost predicate AllBarred(es: set<Entry>, g: Gate, setup: Setup, env: Env, t: Time) {
    forall e :: e in es ==> Barring(e, g, setup, t, env.ready(0, e.providerID))
  }

  lemma AllBarredStay(es: set<Entry>, f: Entry, g: Gate, setup: Setup, env: Env, n: nat, t: Time)
    requires FrozenAt(env, t) && AllBarred(es, g, setup, env, t)
    ensures AllBarred(es, Visit(f, g, setup, env, n).gate, setup, env, t)
  {
    forall e | e in es
      ensures Barring(e, Visit(f, g, setup, env, n).gate, setup, t, env.ready(0, e.providerID))
    {
      assert env.ready(0, e.providerID) == env.ready(n, e.providerID);
      BarringStays(e, f, g, setup, env, n, t, env.ready(n, e.providerID));
    }
  }

  lemma RefusedIsBarred(f: Entry, g: Gate, setup: Setup, env: Env, n: nat, t: Time)
    requires FrozenAt(env, t) && !Visit(f, g, setup, env, n).admitted
    ensures Barring(f, Visit(f, g, setup, env, n).gate, setup, t, env.ready(0, f.providerID))
  {
    assert env.ready(0, f.providerID) == env.ready(n, f.providerID);
    VisitBars(f, g, setup, env, n, t);
    BarringStays(f, f, g, setup, env, n, t, env.ready(n, f.providerID));
  }

  /** What holds of an entry right after it is selected. */
  predicate Picked(e: Entry, g: Gate, setup: Setup, t: Time) {
    && e.providerID in setup.providers
    && !Before(t, At(g.state.blocked, e.providerID))
    && (g.mlim.Some? ==> !Cooling(g.mlim.value, Key(e.providerID, e.modelID), t))
  }

  lemma VisitPicks(e: Entry, g: Gate, setup: Setup, env: Env, n: nat, t: Time)
    requires FrozenAt(env, t) && Visit(e, g, setup, env, n).admitted
    ensures Picked(e, Visit(e, g, setup, env, n).gate, setup, t)
  {
  }

  lemma ShiftBars(ahead: seq<Entry>, k: nat, g: Gate, setup: Setup, env: Env, t: Time, bars: set<Entry>)
    requires ahead != []
    ensures AllBarred(bars + {ahead[0]}, g, setup, env, t) ==> AllBarred(bars, g, setup, env, t)
    ensures AllBarred(bars + {ahead[0]}, g, setup, env, t) ==>
              Barring(ahead[0], g, setup, t, env.ready(0, ahead[0].providerID))
    ensures k < |ahead[1..]|
         && Barring(ahead[0], g, setup, t, env.ready(0, ahead[0].providerID))
         && (forall i :: 0 <= i < k ==> Barring(ahead[1..][i], g, setup, t, env.ready(0, ahead[1..][i].providerID)))
        ==> forall i :: 0 <= i < k + 1 ==> Barring(ahead[i], g, setup, t, env.ready(0, ahead[i].providerID))
  {
    assert ahead[0] in bars + {ahead[0]};
    if k < |ahead[1..]| && Barring(ahead[0], g, setup, t, env.ready(0, ahead[0].providerID))
         && (forall i :: 0 <= i < k ==> Barring(ahead[1..][i], g, setup, t, env.ready(0, ahead[1..][i].providerID))) {
      forall i | 0 <= i < k + 1
        ensures Barring(ahead[i], g, setup, t, env.ready(0, ahead[i].providerID))
      {
        if i > 0 {
          assert ahead[1..][i - 1] == ahead[i];
        }
      }
    }
  }

  /** Where selection stops in a list whose first part is barred already: past that part, with
      everything it walked over barred. */
  lemma {:induction false} ScanAhead(bars: set<Entry>, done: seq<Entry>, ahead: seq<Entry>, g: Gate,
          setup: Setup, env: Env, n: nat, t: Time)
    returns (k: nat)
    requires FrozenAt(env, t) && AllBarred(bars, g, setup, env, t)
    requires forall e :: e in done ==> e in bars
    ensures var s := Scan(done + ahead, g, setup, env, n);
            s.pick.Some? ==>
              && k < |ahead| && ahead[k] == s.pick.value && Picked(ahead[k], s.gate, setup, t)
              && AllBarred(bars, s.gate, setup, env, t)
              && forall i :: 0 <= i < k ==> Barring(ahead[i], s.gate, setup, t, env.ready(0, ahead[i].providerID))
    decreases |done| + |ahead|
  {
    hide Visit, Barring, Picked;
    var es := done + ahead;
    k := 0;
    if es != [] {
      var e := es[0];
      var c := Visit(e, g, setup, env, n);
      AllBarredStay(bars, e, g, setup, env, n, t);
      if done != [] {
        assert es[1..] == done[1..] + ahead;
        assert env.ready(0, e.providerID) == env.ready(n, e.providerID);
        VisitBars(e, g, setup, env, n, t);
        assert e in bars && !c.admitted;
        k := ScanAhead(bars, done[1..], ahead, c.gate, setup, env, n + READINGS, t);
      } else if c.admitted {
        VisitPicks(e, g, setup, env, n, t);
      } else {
        assert es == ahead && es[1..] == [] + ahead[1..];
        RefusedIsBarred(e, g, setup, env, n, t);
        var k' := ScanAhead(bars + {e}, [], ahead[1..], c.gate, setup, env, n + READINGS, t);
        k := k' + 1;
        ShiftBars(ahead, k', Scan(es, g, setup, env, n).gate, setup, env, t, bars);
      }
    }
  }

  // -------------------------------------------------------------- failover respects priority

  /** What a failure writes does not lift the bar on any entry the failure leaves in the list. */
  lemma FailureKeepsBars(e: Entry, f: Entry, w: World, r: Reply, setup: Setup, env: Env, t: Time, ready: bool)
    requires FrozenAt(env, t) && Barring(e, w.gate, setup, t, ready) && Picked(f, w.gate, setup, t)
    requires Keeps(Cut(f, Answered(r)), e)
    ensures Barring(e, AfterFailure(w, f, r, setup, env).gate, setup, t, ready)
  {
    if Soft(f, r) && w.gate.mlim.Some? {
      var ml := w.gate.mlim.value;
      var key, own := Key(f.providerID, f.modelID), Key(e.providerID, e.modelID);
      var until := env.time(w.tick) + RetryAfter(r.failure, Fallback(setup, f.providerID));
      assert Spent(BlockKey(ml, key, until), own, t) == Spent(ml, own, t);
      assert own != key ==> Cooling(BlockKey(ml, key, until), own, t) == Cooling(ml, own, t);
    }
  }

  /** The selected entries, in the order in which they were tried. */
  function Attempts(steps: seq<Step>): seq<Entry> {
    if steps == [] then [] else [steps[0].entry] + Attempts(steps[1..])
  }

  function Elements(es: seq<Entry>): set<Entry> {
    set e | e in es
  }

  lemma NothingTried(es: seq<Entry>)
    ensures Attempts([]) == [] && Subsequence([], es)
  {
  }

  lemma TurnPicks(es: seq<Entry>, w: World, setup: Setup, env: Env, kind: Kind)
    ensures var r, s := Turn(es, w, setup, env, kind), Scan(es, w.gate, setup, env, w.tick);
            if r.Stop? then s.pick == None else s.pick == Some(r.entry)
  {
    hide Scan, Acquire, Settled, AfterFailure, Drop;
  }

  lemma AttemptsCons(s: Step, rest: seq<Step>)
    ensures Attempts([s] + rest) == [s.entry] + Attempts(rest)
    ensures [s] + [] == [s]
  {
    assert ([s] + rest)[1..] == rest;
  }

  lemma SubsequenceFrom(pre: seq<Entry>, e: Entry, sub: seq<Entry>, post: seq<Entry>)
    requires Subsequence(sub, post)
    ensures Subsequence([e] + sub, pre + [e] + post)
  {
    assert ([e] + sub)[1..] == sub && ([e] + post)[1..] == post;
    SubsequencePrepend([e] + sub, pre, [e] + post);
    assert pre + ([e] + post) == pre + [e] + post;
  }

  lemma SiftAround(c: Pick, pre: seq<Entry>, e: Entry, post: seq<Entry>)
    requires !Keeps(c, e)
    ensures Sift(c, pre + [e] + post) == Sift(c, pre) + Sift(c, post)
  {
    SiftAppend(c, pre + [e], post);
    SiftAppend(c, pre, [e]);
    assert Sift(c, [e]) == [] by {
      assert [e][1..] == [];
    }
  }

  lemma TurnKeepsBars(es: seq<Entry>, w: World, setup: Setup, env: Env, kind: Kind, t: Time, e: Entry)
    requires FrozenAt(env, t) && Turn(es, w, setup, env, kind).GoOn?
    requires var g, r := Scan(es, w.gate, setup, env, w.tick).gate, Turn(es, w, setup, env, kind);
             && Picked(r.entry, g, setup, t) && Barring(e, g, setup, t, env.ready(0, e.providerID))
             && Keeps(Cut(r.entry, r.verdict), e)
    ensures Barring(e, Turn(es, w, setup, env, kind).world.gate, setup, t, env.ready(0, e.providerID))
  {
    hide Scan, Acquire, AfterFailure, Barring, Picked, Keeps, Drop;
    var s := Scan(es, w.gate, setup, env, w.tick);
    var w1 := w.(gate := s.gate, tick := s.tick);
    var f := s.pick.value;
    var a := Acquire(w1, f);
    SlotsOnly(w1, f);
    if a.ok {
      SlotsOnly(a.world.(tick := w1.tick + 1), f);
      var r := ReplyTo(kind, env.reply(w1.tick, f.providerID, f.modelID));
      FailureKeepsBars(e, f, Drop(a.world.(tick := w1.tick + 1), f), r, setup, env, t, env.ready(0, e.providerID));
    }
  }

  lemma NextBarred(done: seq<Entry>, ahead: seq<Entry>, k: nat, w: World, setup: Setup, env: Env, kind: Kind, t: Time)
    requires FrozenAt(env, t) && Turn(done + ahead, w, setup, env, kind).GoOn?
    requires var s := Scan(done + ahead, w.gate, setup, env, w.tick);
             && k < |ahead| && Picked(s.pick.value, s.gate, setup, t)
             && AllBarred(Elements(done), s.gate, setup, env, t)
             && forall i :: 0 <= i < k ==> Barring(ahead[i], s.gate, setup, t, env.ready(0, ahead[i].providerID))
    ensures var r := Turn(done + ahead, w, setup, env, kind);
            AllBarred(Elements(Sift(Cut(r.entry, r.verdict), done + ahead[..k])), r.world.gate, setup, env, t)
  {
    var r := Turn(done + ahead, w, setup, env, kind);
    var g := Scan(done + ahead, w.gate, setup, env, w.tick).gate;
    forall e | e in Sift(Cut(r.entry, r.verdict), done + ahead[..k])
      ensures Barring(e, r.world.gate, setup, t, env.ready(0, e.providerID))
    {
      SiftCount(Cut(r.entry, r.verdict), done + ahead[..k], e);
      assert Barring(e, g, setup, t, env.ready(0, e.providerID)) by {
        if e in done {
          assert e in Elements(done);
        } else {
          var i :| 0 <= i < k && ahead[i] == e;
        }
      }
      TurnKeepsBars(done + ahead, w, setup, env, kind, t, e);
    }
  }

  lemma {:induction false} AttemptsAhead(done: seq<Entry>, ahead: seq<Entry>, w: World, setup: Setup, env: Env,
          kind: Kind, t: Time)
    requires Keyed(setup) && FrozenAt(env, t) && AllBarred(Elements(done), w.gate, setup, env, t)
    ensures Subsequence(Attempts(Loop(done + ahead, w, setup, env, kind).steps), ahead)
    decreases |done + ahead|
  {
    hide Turn, Loop, Scan, Sift, AllBarred, Barring, Picked, Subsequence, Attempts;
    var es := done + ahead;
    match Turn(es, w, setup, env, kind)
    case Stop(_) =>
      LoopEnds(es, w, setup, env, kind);
      NothingTried(ahead);
    case Win(e, _) =>
      var k := ScanAhead(Elements(done), done, ahead, w.gate, setup, env, w.tick, t);
      TurnPicks(es, w, setup, env, kind);
      LoopEnds(es, w, setup, env, kind);
      NothingTried(ahead[k + 1..]);
      AttemptsCons(Step(es, e, SERVED), []);
      SubsequenceFrom(ahead[..k], e, [], ahead[k + 1..]);
      assert ahead == ahead[..k] + [e] + ahead[k + 1..];
    case GoOn(e, v, w') =>
      var k := ScanAhead(Elements(done), done, ahead, w.gate, setup, env, w.tick, t);
      TurnPicks(es, w, setup, env, kind);
      var pre, post, c := ahead[..k], ahead[k + 1..], Cut(e, v);
      assert ahead == pre + [e] + post && es == done + pre + [e] + post;
      SiftAround(c, done + pre, e, post);
      SiftShrinks(c, es, e);
      NextBarred(done, ahead, k, w, setup, env, kind, t);
      AttemptsAhead(Sift(c, done + pre), Sift(c, post), w', setup, env, kind, t);
      LoopGoesOn(es, w, setup, env, kind);
      var rest := Loop(Sift(c, es), w', setup, env, kind).steps;
      SubsequenceOfSift(Attempts(rest), c, post);
      SubsequenceFrom(pre, e, Attempts(rest), post);
      AttemptsCons(Step(es, e, v), rest);
  }

  /** Failover respects priority: at one instant, with no other request in between, the entries a
      request tries occur in the resolved list in the order in which it tries them. */
  lemma AttemptsInOrder(es: seq<Entry>, w: World, setup: Setup, env: Env, kind: Kind, t: Time)
    requires Keyed(setup) && FrozenAt(env, t)
    ensures Subsequence(Attempts(Serve(es, w, setup, env, kind).steps), es)
  {
    if es != [] {
      AttemptsAhead([], es, w, setup, env, kind, t);
      assert [] + es == es;
    }
  }

  /** Hence in canonical order whenever the resolved list is sorted, as the registry's lists are. */
  lemma AttemptsSorted(es: seq<Entry>, w: World, setup: Setup, env: Env, kind: Kind, t: Time)
    requires Keyed(setup) && FrozenAt(env, t) && Sorted(es)
    ensures Sorted(Attempts(Serve(es, w, setup, env, kind).steps))
  {
    AttemptsInOrder(es, w, setup, env, kind, t);
    SubsequenceSorted(Attempts(Serve(es, w, setup, env, kind).steps), es);
  }
}
