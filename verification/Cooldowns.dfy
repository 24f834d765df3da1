/** Model cooldowns over whole runs of any number of requests, on one configuration. */
module Cooldowns {
  import opened Prelude
  import opened Windows
  import opened Routing
  import opened Processes
  import opened Histories

  /** `b` is `a` without some cooldowns that were over before `now`. */
  predicate Thinned(a: map<string, Time>, b: map<string, Time>, now: Time) {
    && (forall k :: k in b ==> k in a && b[k] == a[k])
    && forall k :: k in a && k !in b ==> a[k] < now
  }

  function CooldownsOf(g: Gate): map<string, Time> {
    if g.mlim.Some? then g.mlim.value.cooldowns else map[]
  }

  /** Expiry of the latest cooldown of a key. */
  function LatestCooling(h: seq<Event>, key: string): Option<Time> {
    if h == [] then None
    else
      var e := h[|h| - 1];
      if e.Cooled? && e.key == key then Some(e.at + e.d) else LatestCooling(h[..|h| - 1], key)
  }

  /** The tracker holds the expiry of the latest cooldown of each key, or has forgotten it after its end. */
  ghost predicate Held(h: seq<Event>, cooldowns: map<string, Time>, now: Time) {
    forall key :: LatestCooling(h, key).Some? ==>
      if key in cooldowns then cooldowns[key] == LatestCooling(h, key).value else LatestCooling(h, key).value < now
  }

  /** Every check of a key was passed after the end of its latest cooldown. */
  ghost predicate Waited(h: seq<Event>) {
    forall j :: 0 <= j < |h| && h[j].Thawed? && LatestCooling(h[..j], h[j].key).Some? ==>
      LatestCooling(h[..j], h[j].key).value < h[j].at
  }

  ghost predicate CoolingOff(sh: Shared, env: Env) {
    sh.gate.mlim.Some? && Held(sh.history, CooldownsOf(sh.gate), env.time(sh.tick)) && Waited(sh.history)
  }

  lemma WaitedSnoc(h: seq<Event>, e: Event)
    requires Waited(h)
    requires e.Thawed? && LatestCooling(h, e.key).Some? ==> LatestCooling(h, e.key).value < e.at
    ensures Waited(h + [e])
  {
    var h' := h + [e];
    forall j | 0 <= j < |h'| && h'[j].Thawed? && LatestCooling(h'[..j], h'[j].key).Some?
      ensures LatestCooling(h'[..j], h'[j].key).value < h'[j].at
    {
      assert h'[..j] == h[..j];
      assert h[..|h|] == h;
    }
  }

  lemma LatestSnoc(h: seq<Event>, e: Event, key: string)
    ensures LatestCooling(h + [e], key) == if e.Cooled? && e.key == key then Some(e.at + e.d) else LatestCooling(h, key)
  {
    assert (h + [e])[..|h|] == h;
  }

  /** A check of selection on the tracker in place forgets only cooldowns that are over, and passes no key
      that is cooling down. */
  predicate Thaws(sh: Shared, a: Shared, now: Time) {
    && a.gate.mlim.Some? && a.tick >= sh.tick
    && Thinned(CooldownsOf(sh.gate), CooldownsOf(a.gate), now)
    && (a.history == sh.history
        || (|a.history| == |sh.history| + 1 && a.history == sh.history + [a.history[|sh.history|]]
            && var e := a.history[|sh.history|];
               && !e.Cooled?
               && (e.Thawed? ==> e.at == now && (e.key in CooldownsOf(sh.gate) ==> CooldownsOf(sh.gate)[e.key] < now))))
  }

  lemma CooldownThaws(sh: Shared, p: Process, env: Env)
    requires p.pc.Probe? && sh.gate.mlim.Some?
    ensures Thaws(sh, CooldownStep(sh, p, sh.gen, sh.gate.mlim.value, env).shared, env.time(sh.tick))
  {
    hide Key;
  }

  lemma WindowThaws(sh: Shared, p: Process, env: Env)
    requires p.pc.Probe? && sh.gate.mlim.Some?
    ensures Thaws(sh, WindowStep(sh, p, sh.gen, sh.gate.mlim.value, env).shared, env.time(sh.tick))
  {
    hide Key, TickAll, WindowsOf, Earliest, LastOf;
  }

  lemma StateThaws(sh: Shared, p: Process, now: Time, env: Env)
    requires p.pc.Probe? && sh.gate.mlim.Some?
    ensures Thaws(sh, StateCheck(sh, p, now, env).shared, env.time(sh.tick))
  {
  }

  lemma ProviderThaws(sh: Shared, p: Process, env: Env)
    requires p.pc.Probe? && sh.gate.mlim.Some?
    ensures Thaws(sh, ProviderStep(sh, p, env).shared, env.time(sh.tick))
  {
    hide Record;
  }

  lemma NothingThaws(sh: Shared, env: Env)
    requires sh.gate.mlim.Some?
    ensures Thaws(sh, sh, env.time(sh.tick))
  {
  }

  lemma ProbeThaws(sh: Shared, p: Process, env: Env)
    requires p.pc.Probe? && sh.gate.mlim.Some? && Attuned(sh, p)
    ensures Thaws(sh, ProbeStep(sh, p, env).shared, env.time(sh.tick))
  {
    hide StateCheck, CooldownStep, WindowStep, ProviderStep, Thaws;
    CooldownThaws(sh, p, env);
    WindowThaws(sh, p, env);
    ProviderThaws(sh, p, env);
    match p.pc.stage
    case AtClock => NothingThaws(sh, env);
    case AtState(now) => StateThaws(sh, p, now, env);
    case _ =>
  }

  lemma ThawedCools(sh: Shared, a: Shared, env: Env)
    requires Monotone(env) && CoolingOff(sh, env) && Thaws(sh, a, env.time(sh.tick))
    ensures CoolingOff(a, env)
  {
    hide Waited, CooldownsOf, LatestCooling;
    assert env.time(sh.tick) <= env.time(a.tick);
    if a.history != sh.history {
      var e := a.history[|sh.history|];
      WaitedSnoc(sh.history, e);
      forall key
        ensures LatestCooling(a.history, key) == LatestCooling(sh.history, key)
      {
        LatestSnoc(sh.history, e, key);
      }
    }
  }

  lemma BarThaws(sh: Shared, p: Process, env: Env)
    requires sh.gate.mlim.Some? && p.pc == Bar
    ensures Thaws(sh, PenaltyStep(sh, p, env).shared, env.time(sh.tick))
  {
    hide RecoveryOf;
  }

  lemma KeyCools(sh: Shared, key: string, now: Time, d: int, env: Env)
    requires Monotone(env) && CoolingOff(sh, env)
    ensures CoolingOff(sh.(gate := sh.gate.(mlim := Some(BlockKey(sh.gate.mlim.value, key, now + d))),
                           tick := sh.tick + 1,
                           history := sh.history + [Cooled(key, now, d)]), env)
  {
    hide Waited, LatestCooling;
    var e := Cooled(key, now, d);
    assert env.time(sh.tick) <= env.time(sh.tick + 1);
    WaitedSnoc(sh.history, e);
    forall k
      ensures LatestCooling(sh.history + [e], k) == if k == key then Some(now + d) else LatestCooling(sh.history, k)
    {
      LatestSnoc(sh.history, e, k);
    }
  }

  lemma CoolCools(sh: Shared, p: Process, env: Env)
    requires Monotone(env) && CoolingOff(sh, env) && p.pc == Cool
    ensures CoolingOff(PenaltyStep(sh, p, env).shared, env)
  {
    hide CoolingOff, Key, Thin, RetryAfter, RecoveryOf, Fallback, BlockKey;
    if p.reply.Some? && p.reply.value.Failed? {
      KeyCools(sh, Key(p.entry.providerID, p.entry.modelID), env.time(sh.tick),
               RetryAfter(p.reply.value.failure, Fallback(sh.setup, p.entry.providerID)), env);
    }
  }

  lemma AdvanceCools(sh: Shared, p: Process, reply: Reply, env: Env)
    requires Monotone(env) && CoolingOff(sh, env) && Attuned(sh, p)
    ensures CoolingOff(Advance(sh, p, reply, env).shared, env)
  {
    hide Waited, LatestCooling;
    if p.pc.Probe? {
      ProbeThaws(sh, p, env);
      ThawedCools(sh, ProbeStep(sh, p, env).shared, env);
    } else if p.pc == Cool {
      CoolCools(sh, p, env);
    } else if p.pc == Bar {
      BarThaws(sh, p, env);
      ThawedCools(sh, PenaltyStep(sh, p, env).shared, env);
    } else {
      hide Advance;
      OthersSameGate(sh, p, reply, env);
      assert env.time(sh.tick) <= env.time(Advance(sh, p, reply, env).shared.tick);
    }
  }

  lemma {:induction false} RunCools(s: System, actions: seq<Action>, env: Env)
    requires Monotone(env) && CoolingOff(s.shared, env) && AllAttuned(s) && NoReload(actions)
    ensures CoolingOff(Run(s, actions, env).shared, env)
    decreases |actions|
  {
    hide CoolingOff, Advance;
    if actions != [] {
      var n := |actions| - 1;
      var before, a := Run(s, actions[..n], env), actions[n];
      RunCools(s, actions[..n], env);
      RunAttuned(s, actions[..n], env);
      assert !a.Reload?;
      if a.Act? && a.i < |before.ps| {
        AdvanceCools(before.shared, before.ps[a.i], a.reply, env);
      }
    }
  }

  lemma NothingCooled(s: System, env: Env)
    requires Initial(s) && s.shared.gate.mlim.Some?
    ensures CoolingOff(s.shared, env) && AllAttuned(s) && Vouched(s)
  {
  }

  /** Cooldown safety over whole runs on one configuration, however the checks of the requests interleave and
      although expired cooldowns are forgotten on the way: every call rests on a check of its own model key
      that was made strictly after the end of the latest cooldown set for the key before the check. */
  lemma CooldownsRespected(s0: System, actions: seq<Action>, env: Env, k: nat)
    requires Initial(s0) && s0.shared.gate.mlim.Some? && Monotone(env) && NoReload(actions)
    ensures var sh := Run(s0, actions, env).shared;
            k < |sh.calls| ==>
              var c := sh.calls[k];
              var key := Key(c.entry.providerID, c.entry.modelID);
              && c.marks.keyLook.Some? && KeyLooked(sh.history, c.marks.keyLook.value, key)
              && var last := LatestCooling(sh.history[..c.marks.keyLook.value], key);
                 last.Some? ==> last.value < sh.history[c.marks.keyLook.value].at
  {
    hide Run, LatestCooling, CooldownsOf;
    NothingCooled(s0, env);
    RunCools(s0, actions, env);
    RunVouched(s0, actions, env);
    RunAttuned(s0, actions, env);
  }

  /** "Latest" cannot be "any": a cooldown overwrites an earlier one, so when two calls of a model fail at
      about the same time, the one booked second can lift the longer cooldown of the first. The first
      is kept up to its end exactly if the second does not end before it. */
  lemma CooldownKept(v: TrackerView, key: string, first: Time, second: Time)
    ensures var u := BlockKey(BlockKey(v, key, first), key, second);
            (forall now :: now <= first ==> Cooling(u, key, now)) <==> first <= second
  {
    var u := BlockKey(BlockKey(v, key, first), key, second);
    assert Cooling(u, key, first) <==> first <= second;
  }
}
