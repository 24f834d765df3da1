/** Failover among the models of one local provider: exactly when a model that answers is reached although the
    provider's other models are rate-limited upstream. */
module SoftFailover {
  import opened Prelude
  import opened Entries
  import opened Windows
  import opened Routing
  import opened RoutingProofs
  import opened Completeness

  // -------------------------------------------------------------------- what the claim is about

  predicate Yields(r: Reply, own: bool) {
    r.Ok? || (!own && r.Failed? && r.failure.Http? && (r.failure.status == 429 || r.failure.status == 413))
  }

  /** Whatever the provider of `e` does not answer it refuses with status 429 or 413, and never for e's own
      model. */
  ghost predicate Yielding(env: Env, kind: Kind, e: Entry) {
    forall n, m :: Yields(ReplyTo(kind, env.reply(n, e.providerID, m)), m == e.modelID)
  }

  /** The models of e's provider that are listed before its own model and that no cooldown and no window of
      theirs bars. */
  function Rivals(es: seq<Entry>, e: Entry, g: Gate, t: Time): set<string> {
    if es == [] || SamePair(es[0], e) then {}
    else
      (if es[0].providerID == e.providerID && !ModelBars(es[0], g, t) then {es[0].modelID} else {})
      + Rivals(es[1..], e, g, t)
  }

  /** Does the tracker admit, at t, one more call of `id` after n calls of it at t? */
  predicate Room(v: TrackerView, id: string, t: Time, n: nat)
    decreases n
  {
    if n == 0 then !Spent(v, id, t) else Room(Record(v, id, t).view, id, t, n - 1)
  }

  predicate Uncut(slots: map<string, Slot>) {
    forall id :: id in slots ==> slots[id].limit >= 0
  }

  /** A request at one instant that lists `e`, of a local provider that is available, with free slots for all its
      listed models, none of them capped below zero; e's own model is not barred. */
  ghost predicate Contending(e: Entry, es: seq<Entry>, w: World, setup: Setup, t: Time) {
    && Keyed(setup) && Apart(es) && e in es
    && !StateBars(e, w.gate, setup, t, true) && !ModelBars(e, w.gate, t)
    && FreeSlots(es, w, e.providerID) && Uncut(w.slots) && Uncut(w.mslots)
    && forall f :: f in es && f.providerID == e.providerID ==> !f.isRemote
  }

  ghost predicate Healthy(env: Env, t: Time, p: string) {
    FrozenAt(env, t) && env.ready(0, p)
  }

  // -------------------------------------------------------------------------- room in the windows

  /** Same limits and same windows of one id. */
  predicate SameWindows(v: TrackerView, u: TrackerView, id: string) {
    u.configs == v.configs && (id in v.configs ==> WindowsOf(u, id) == WindowsOf(v, id))
  }

  lemma SameRecorded(v: TrackerView, u: TrackerView, id: string, t: Time)
    requires SameWindows(v, u, id)
    ensures SameWindows(Record(v, id, t).view, Record(u, id, t).view, id)
    ensures Spent(v, id, t) == Spent(u, id, t)
  {
  }

  lemma {:induction false} SameRoom(v: TrackerView, u: TrackerView, id: string, t: Time, n: nat)
    requires SameWindows(v, u, id)
    ensures Room(v, id, t, n) == Room(u, id, t, n)
    decreases n
  {
    hide SameWindows, Spent, Record;
    SameRecorded(v, u, id, t);
    if n > 0 {
      SameRoom(Record(v, id, t).view, Record(u, id, t).view, id, t, n - 1);
    }
  }

  /** Where there is room for n there is room for fewer. */
  lemma {:induction false} LessRoom(v: TrackerView, id: string, t: Time, k: nat, n: nat)
    requires k <= n && Room(v, id, t, n)
    ensures Room(v, id, t, k) && !Spent(v, id, t)
    decreases n
  {
    hide Record, Spent;
    if n > 0 {
      LessRoom(Record(v, id, t).view, id, t, if k > 0 then k - 1 else 0, n - 1);
      if Spent(v, id, t) {
        SpentStays(v, id, id, t);
      }
    }
  }

  // ------------------------------------------------------------------------------ one visit

  /** The listed models of p, but for `x`, are barred in `g'` iff they are in `g`. */
  ghost predicate Alike(es: seq<Entry>, p: string, g: Gate, g': Gate, x: Option<string>, t: Time) {
    forall h :: h in es && h.providerID == p && x != Some(h.modelID) ==> (ModelBars(h, g', t) <==> ModelBars(h, g, t))
  }

  /** The per-model checks move the bar of their own key only, and never lift it. */
  lemma CheckMoves(h: Entry, g: Gate, key: string, t: Time)
    ensures KeyOf(h) != key || ModelBars(h, g, t) ==>
              (ModelBars(h, ModelCheck(g, key, t, t).gate, t) <==> ModelBars(h, g, t))
  {
    if ModelBars(h, g, t) {
      ModelBarsStay(h, g, key, t);
    } else if KeyOf(h) != key {
      ModelSpares(h, g, key, t);
    }
  }

  /** Only the model tracker bars a model. */
  lemma SameModels(h: Entry, g: Gate, g': Gate, t: Time)
    ensures ModelBars(h, g', t) == ModelBars(h, g.(mlim := g'.mlim), t)
  {
  }

  lemma SameProviderKeys(e: Entry, f: Entry)
    requires e.providerID == f.providerID
    ensures KeyOf(e) == KeyOf(f) <==> e.modelID == f.modelID
  {
    var n := |e.providerID| + 1;
    assert KeyOf(e)[n..] == e.modelID && KeyOf(f)[n..] == f.modelID;
  }

  lemma SameElsewhere(v: TrackerView, id: string, other: string, t: Time)
    requires id != other
    ensures SameWindows(v, Record(v, other, t).view, id)
  {
  }

  /** A visit of another provider's entry leaves e's provider as it was. */
  lemma VisitOther(es: seq<Entry>, e: Entry, f: Entry, g: Gate, setup: Setup, env: Env, n: nat, t: Time)
    requires Healthy(env, t, e.providerID) && Apart(es) && f in es && f.providerID != e.providerID
    ensures var g' := Visit(f, g, setup, env, n).gate;
            && Alike(es, e.providerID, g, g', None, t) && SameWindows(g.lim, g'.lim, e.providerID)
            && (StateBars(e, g', setup, t, true) <==> StateBars(e, g, setup, t, true))
  {
    hide Record, Spent, ModelBars, Key, Cooling, Forget;
    forall h | h in es && h.providerID == e.providerID
      ensures ModelBars(h, ModelCheck(g, KeyOf(f), t, t).gate, t) <==> ModelBars(h, g, t)
    {
      CheckMoves(h, g, KeyOf(f), t);
    }
    forall h
      ensures ModelBars(h, Visit(f, g, setup, env, n).gate, t)
              == ModelBars(h, g.(mlim := Visit(f, g, setup, env, n).gate.mlim), t)
    {
      SameModels(h, g, Visit(f, g, setup, env, n).gate, t);
      SameModels(h, g, ModelCheck(g, KeyOf(f), t, t).gate, t);
    }
    SameElsewhere(g.lim, e.providerID, f.providerID, t);
  }

  lemma ModelAdmits(f: Entry, g: Gate, t: Time)
    requires !ModelBars(f, g, t)
    ensures ModelCheck(g, KeyOf(f), t, t).admitted
  {
    if g.mlim.Some? {
      ForgetKeeps(g.mlim.value, KeyOf(f), KeyOf(f), t);
      RecordRefusesSpent(Forget(g.mlim.value, KeyOf(f), t), KeyOf(f), t);
    }
  }

  /** A visit of an entry of e's provider. */
  lemma VisitOwn(es: seq<Entry>, e: Entry, f: Entry, g: Gate, setup: Setup, env: Env, n: nat, t: Time)
    requires Healthy(env, t, e.providerID) && Apart(es) && f in es && f.providerID == e.providerID
    requires !StateBars(e, g, setup, t, true)
    ensures var c, p := Visit(f, g, setup, env, n), e.providerID;
            if ModelBars(f, g, t)
            then !c.admitted && Alike(es, p, g, c.gate, None, t) && c.gate.lim == g.lim && c.gate.state == g.state
            else
              && (c.admitted <==> !Spent(g.lim, p, t)) && Alike(es, p, g, c.gate, Some(f.modelID), t)
              && c.gate.lim == Record(g.lim, p, t).view && (c.admitted ==> c.gate.state == g.state)
  {
    var key := KeyOf(f);
    assert env.ready(n, e.providerID);
    VisitBars(f, g, setup, env, n, t);
    forall h | h in es && h.providerID == e.providerID && (h.modelID != f.modelID || ModelBars(f, g, t))
      ensures ModelBars(h, ModelCheck(g, key, t, t).gate, t) <==> ModelBars(h, g, t)
    {
      SameProviderKeys(h, f);
      CheckMoves(h, g, key, t);
    }
    if ModelBars(f, g, t) {
      ModelRefusal(f, g, setup, env, n, t);
    } else {
      ModelAdmits(f, g, t);
      hide Record, Spent, ModelBars, Key;
    }
  }

  // ---------------------------------------------------------------------------- one selection

  lemma {:induction false} RivalsAlike(all: seq<Entry>, es: seq<Entry>, e: Entry, g: Gate, g': Gate, t: Time)
    requires Alike(all, e.providerID, g, g', None, t) && forall f :: f in es ==> f in all
    ensures Rivals(es, e, g', t) == Rivals(es, e, g, t)
  {
    hide ModelBars;
    if es != [] {
      RivalsAlike(all, es[1..], e, g, g', t);
    }
  }

  ghost predicate Offered(es: seq<Entry>, e: Entry) {
    exists f :: f in es && SamePair(f, e)
  }

  /** What a selection does to e's provider, which has room for one call at least: it picks e's own model once no
      rival is left, or one of the rivals, whose call is recorded; or it leaves the provider as it was. */
  ghost predicate Raced(es: seq<Entry>, rivals: set<string>, e: Entry, g: Gate, s: Selection, setup: Setup, t: Time) {
    s.pick.Some? ==>
      var f, p := s.pick.value, e.providerID;
      && !StateBars(e, s.gate, setup, t, true)
      && if f.providerID != p then Alike(es, p, g, s.gate, None, t) && SameWindows(g.lim, s.gate.lim, p)
         else
           && !ModelBars(f, g, t) && (if f.modelID == e.modelID then rivals == {} else f.modelID in rivals)
           && Alike(es, p, g, s.gate, Some(f.modelID), t) && SameWindows(Record(g.lim, p, t).view, s.gate.lim, p)
  }

  lemma SameTwice(a: TrackerView, b: TrackerView, c: TrackerView, id: string)
    requires SameWindows(a, b, id)
    ensures SameWindows(b, c, id) ==> SameWindows(a, c, id)
  {
  }

  lemma RacedOn(es: seq<Entry>, rivals: set<string>, e: Entry, g: Gate, g1: Gate, s: Selection, setup: Setup, t: Time)
    requires Raced(es, rivals, e, g1, s, setup, t)
    requires Alike(es, e.providerID, g, g1, None, t) && SameWindows(g.lim, g1.lim, e.providerID)
    requires s.pick.Some? ==> s.pick.value in es
    ensures Raced(es, rivals, e, g, s, setup, t)
  {
    hide ModelBars, StateBars, SameWindows, Record, Spent;
    SameRecorded(g.lim, g1.lim, e.providerID, t);
    SameTwice(g.lim, g1.lim, s.gate.lim, e.providerID);
    SameTwice(Record(g.lim, e.providerID, t).view, Record(g1.lim, e.providerID, t).view, s.gate.lim, e.providerID);
  }

  lemma StateOnly(e: Entry, g: Gate, g': Gate, setup: Setup, t: Time)
    requires g'.state == g.state
    ensures StateBars(e, g', setup, t, true) == StateBars(e, g, setup, t, true)
  {
  }

  lemma SamePairBars(f: Entry, e: Entry, g: Gate, t: Time)
    requires SamePair(f, e)
    ensures ModelBars(f, g, t) == ModelBars(e, g, t)
  {
  }

  lemma SameSelf(v: TrackerView, id: string)
    ensures SameWindows(v, v, id)
  {
  }

  lemma ScanPicks(es: seq<Entry>, g: Gate, setup: Setup, env: Env, n: nat)
    ensures var s := Scan(es, g, setup, env, n); s.pick.Some? ==> s.pick.value in es
  {
  }

  lemma {:induction false} ScanRace(all: seq<Entry>, es: seq<Entry>, e: Entry, g: Gate, setup: Setup, env: Env,
                                    n: nat, t: Time)
    requires Healthy(env, t, e.providerID) && Apart(all) && (forall f :: f in es ==> f in all) && e in all
    requires !StateBars(e, g, setup, t, true) && !ModelBars(e, g, t) && !Spent(g.lim, e.providerID, t)
    ensures var s := Scan(es, g, setup, env, n);
            Raced(all, Rivals(es, e, g, t), e, g, s, setup, t) && (Offered(es, e) ==> s.pick.Some?)
    decreases |es|
  {
    hide ModelBars, StateBars, Spent, Record, Visit, SameWindows, Apart;
    if es != [] {
      var f := es[0];
      var c := Visit(f, g, setup, env, n);
      assert forall h :: h in es[1..] ==> h in es;
      if f.providerID == e.providerID {
        VisitOwn(all, e, f, g, setup, env, n, t);
        StateOnly(e, g, c.gate, setup, t);
        if SamePair(f, e) {
          SamePairBars(f, e, g, t);
        }
      } else {
        VisitOther(all, e, f, g, setup, env, n, t);
      }
      if c.admitted {
        SameSelf(g.lim, e.providerID);
        SameSelf(Record(g.lim, e.providerID, t).view, e.providerID);
      } else {
        SameSelf(g.lim, e.providerID);
        SameRecorded(g.lim, c.gate.lim, e.providerID, t);
        RivalsAlike(all, es[1..], e, g, c.gate, t);
        ScanRace(all, es[1..], e, c.gate, setup, env, n + READINGS, t);
        ScanPicks(es[1..], c.gate, setup, env, n + READINGS);
        RacedOn(all, Rivals(es[1..], e, g, t), e, g, c.gate, Scan(es, g, setup, env, n), setup, t);
      }
    }
  }

  // ---------------------------------------------------------------------------- one iteration

  lemma RivalsCons(f: Entry, rest: seq<Entry>, e: Entry, g: Gate, t: Time)
    ensures Rivals([f] + rest, e, g, t)
            == if SamePair(f, e) then {}
               else (if f.providerID == e.providerID && !ModelBars(f, g, t) then {f.modelID} else {})
                    + Rivals(rest, e, g, t)
  {
    assert ([f] + rest)[1..] == rest;
  }

  /** The models still in the race after an iteration that takes `x` out of it, or none. */
  lemma {:induction false} RivalsNext(all: seq<Entry>, es: seq<Entry>, c: Pick, e: Entry, g: Gate, g': Gate,
                                      x: Option<string>, t: Time)
    requires Alike(all, e.providerID, g, g', x, t) && (forall f :: f in es ==> f in all) && x != Some(e.modelID)
    requires forall f :: f in es && f.providerID == e.providerID ==> (Keeps(c, f) <==> x != Some(f.modelID))
    ensures Rivals(Sift(c, es), e, g', t) == Rivals(es, e, g, t) - (if x.Some? then {x.value} else {})
    decreases |es|
  {
    hide ModelBars, Keeps;
    if es != [] {
      hide Rivals, Sift;
      var f, rest := es[0], es[1..];
      assert forall h :: h in rest ==> h in es;
      RivalsNext(all, rest, c, e, g, g', x, t);
      assert es == [f] + rest;
      SiftCons(c, f, rest);
      RivalsCons(f, rest, e, g, t);
      RivalsCons(f, Sift(c, rest), e, g', t);
    }
  }

  lemma BackAgain(slots: map<string, Slot>, id: string, other: string)
    requires Uncut(slots)
    ensures Uncut(Taken(slots, id)) && Uncut(Released(slots, id))
    ensures HasRoom(slots, other) ==> HasRoom(Released(Taken(slots, id), id), other)
    ensures id != other ==> HasRoom(Taken(slots, id), other) == HasRoom(slots, other)
  {
  }

  /** The slots of an attempt, taken and given back, or not to be had: nothing changes for e's provider. */
  lemma SlotsBack(e: Entry, es: seq<Entry>, w: World, f: Entry)
    requires FreeSlots(es, w, e.providerID) && Uncut(w.slots) && Uncut(w.mslots) && Apart(es) && f in es
    ensures var a := Acquire(w, f);
            var v := if a.ok then Drop(a.world, f) else a.world;
            && (f.providerID == e.providerID ==> a.ok)
            && a.world.gate == w.gate && v.gate == w.gate && a.world.tick == w.tick
            && FreeSlots(es, v, e.providerID) && Uncut(v.slots) && Uncut(v.mslots)
  {
    hide HasRoom, Taken, Released, Bumped;
    var key := KeyOf(f);
    forall id
      ensures HasRoom(w.slots, id) ==> HasRoom(Released(Taken(w.slots, f.providerID), f.providerID), id)
      ensures HasRoom(w.mslots, id) ==> HasRoom(Released(Taken(w.mslots, key), key), id)
    {
      BackAgain(w.slots, f.providerID, id);
      BackAgain(w.mslots, key, id);
    }
    BackAgain(w.slots, f.providerID, f.providerID);
    BackAgain(Taken(w.slots, f.providerID), f.providerID, f.providerID);
    BackAgain(w.mslots, key, key);
    BackAgain(Taken(w.mslots, key), key, key);
  }

  lemma BlockElsewhere(v: TrackerView, key: string, until: Time, other: string, t: Time)
    requires key != other
    ensures Spent(BlockKey(v, key, until), other, t) == Spent(v, other, t)
  {
  }

  /** What a failed call of `f` writes bars at most f's own pair, or another provider. */
  lemma FailureAlike(e: Entry, es: seq<Entry>, w: World, f: Entry, r: Reply, setup: Setup, env: Env, t: Time)
    requires Apart(es) && f in es && (f.providerID == e.providerID ==> Soft(f, r))
    ensures var v, p := AfterFailure(w, f, r, setup, env), e.providerID;
            && Alike(es, p, w.gate, v.gate, if f.providerID == p then Some(f.modelID) else None, t)
            && v.gate.lim == w.gate.lim && v.slots == w.slots && v.mslots == w.mslots
            && v.gate.mlim.Some? == w.gate.mlim.Some?
            && StateBars(e, v.gate, setup, t, true) == StateBars(e, w.gate, setup, t, true)
  {
    hide RetryAfter, Fallback, RecoveryOf, Key;
    var why := if Soft(f, r) then r.failure else OtherFailure;
    var until := env.time(w.tick) + RetryAfter(why, Fallback(setup, f.providerID));
    forall h | h in es && h.providerID == e.providerID && (f.providerID == e.providerID ==> h.modelID != f.modelID)
      ensures ModelBars(h, AfterFailure(w, f, r, setup, env).gate, t) <==> ModelBars(h, w.gate, t)
    {
      if h.providerID == f.providerID {
        SameProviderKeys(h, f);
      }
      assert KeyOf(h) != KeyOf(f);
      if w.gate.mlim.Some? {
        BlockElsewhere(w.gate.mlim.value, KeyOf(f), until, KeyOf(h), t);
      }
    }
  }

  lemma AlikeTwice(es: seq<Entry>, p: string, a: Gate, b: Gate, c: Gate, x: Option<string>, y: Option<string>, t: Time)
    requires Alike(es, p, a, b, x, t) && Alike(es, p, b, c, y, t) && (x == None || y == None || x == y)
    ensures Alike(es, p, a, c, if x == None then y else x, t)
  {
    hide ModelBars;
  }

  /** The race goes on: an iteration that does not succeed is on another provider, or takes one rival out. */
  ghost predicate GoesOn(e: Entry, es: seq<Entry>, w: World, r: Turned, setup: Setup, t: Time) {
    var p := e.providerID;
    && r.GoOn? && r.entry in es
    && !StateBars(e, r.world.gate, setup, t, true)
    && FreeSlots(es, r.world, p) && Uncut(r.world.slots) && Uncut(r.world.mslots)
    && if r.entry.providerID != p
       then Alike(es, p, w.gate, r.world.gate, None, t) && SameWindows(w.gate.lim, r.world.gate.lim, p)
       else
         && r.entry.modelID in Rivals(es, e, w.gate, t) && r.entry.modelID != e.modelID
         && r.verdict.Answered? && Soft(r.entry, r.verdict.reply)
         && Alike(es, p, w.gate, r.world.gate, Some(r.entry.modelID), t)
         && SameWindows(Record(w.gate.lim, p, t).view, r.world.gate.lim, p)
  }

  lemma SameFree(es: seq<Entry>, w: World, v: World, p: string)
    requires v.slots == w.slots && v.mslots == w.mslots && v.gate.mlim.Some? == w.gate.mlim.Some?
    ensures FreeSlots(es, v, p) == FreeSlots(es, w, p)
  {
  }

  lemma YieldsSoft(e: Entry, es: seq<Entry>, f: Entry, r: Reply)
    requires f.providerID == e.providerID ==> Yields(r, f.modelID == e.modelID) && !r.Ok? && !f.isRemote
    ensures f.providerID == e.providerID ==> Soft(f, r) && f.modelID != e.modelID
  {
  }

  lemma DropTicks(w: World, f: Entry, n: nat)
    ensures Drop(w.(tick := n), f) == Drop(w, f).(tick := n)
  {
  }

  lemma TurnRace(e: Entry, es: seq<Entry>, w: World, setup: Setup, env: Env, kind: Kind, t: Time)
    requires Contending(e, es, w, setup, t) && Healthy(env, t, e.providerID) && Yielding(env, kind, e)
    requires !Spent(w.gate.lim, e.providerID, t)
    ensures var r := Turn(es, w, setup, env, kind); r.Win? || GoesOn(e, es, w, r, setup, t)
  {
    hide ModelBars, StateBars, Spent, Record, Scan, SameWindows, FreeSlots, Uncut, Acquire, Drop, AfterFailure, Apart;
    hide Settled, Rivals, Soft, ReplyTo;
    var s := Scan(es, w.gate, setup, env, w.tick);
    ScanRace(es, es, e, w.gate, setup, env, w.tick, t);
    ScanKeepsModelTracker(es, w.gate, setup, env, w.tick);
    assert SamePair(e, e);
    var w1 := w.(gate := s.gate, tick := s.tick);
    var f := s.pick.value;
    SameFree(es, w, w1, e.providerID);
    SlotsBack(e, es, w1, f);
    var a := Acquire(w1, f);
    if a.ok {
      var r, w2 := ReplyTo(kind, env.reply(w1.tick, f.providerID, f.modelID)), a.world.(tick := w1.tick + 1);
      if !r.Ok? {
        YieldsSoft(e, es, f, r);
        DropTicks(a.world, f, w1.tick + 1);
        FailureAlike(e, es, Drop(w2, f), f, r, setup, env, t);
        var x := if f.providerID == e.providerID then Some(f.modelID) else None;
        AlikeTwice(es, e.providerID, w.gate, s.gate, AfterFailure(Drop(w2, f), f, r, setup, env).gate, x, x, t);
        SameFree(es, Drop(a.world, f), AfterFailure(Drop(w2, f), f, r, setup, env), e.providerID);
      }
    } else {
      SameFree(es, a.world, a.world, e.providerID);
    }
  }

  /** After an iteration the claim is about the thinned list, one rival less if one was tried. */
  lemma NextRound(e: Entry, es: seq<Entry>, w: World, r: Turned, setup: Setup, t: Time)
    requires Contending(e, es, w, setup, t) && GoesOn(e, es, w, r, setup, t)
    ensures var es' := Sift(Cut(r.entry, r.verdict), es);
            && Contending(e, es', r.world, setup, t)
            && Rivals(es', e, r.world.gate, t)
               == Rivals(es, e, w.gate, t) - (if r.entry.providerID == e.providerID then {r.entry.modelID} else {})
  {
    hide ModelBars, StateBars, SameWindows, HasRoom, Uncut, Rivals, Key, Record, Spent;
    var c, p := Cut(r.entry, r.verdict), e.providerID;
    var x := if r.entry.providerID == p then Some(r.entry.modelID) else None;
    forall f
      ensures f in Sift(c, es) <==> f in es && Keeps(c, f)
    {
      SiftCount(c, es, f);
    }
    RivalsNext(es, es, c, e, w.gate, r.world.gate, x, t);
  }

  /** The room left for the rest of the race. */
  lemma NextRoom(e: Entry, es: seq<Entry>, w: World, r: Turned, setup: Setup, t: Time)
    requires Contending(e, es, w, setup, t) && GoesOn(e, es, w, r, setup, t)
    ensures var p, n := e.providerID, |Rivals(es, e, w.gate, t)|;
            var n' := |Rivals(Sift(Cut(r.entry, r.verdict), es), e, r.world.gate, t)|;
            Room(r.world.gate.lim, p, t, n') == Room(w.gate.lim, p, t, n)
  {
    hide ModelBars, StateBars, SameWindows, Rivals, Record, Spent, Contending;
    NextRound(e, es, w, r, setup, t);
    var p, n := e.providerID, |Rivals(es, e, w.gate, t)|;
    if r.entry.providerID == p {
      SameRoom(Record(w.gate.lim, p, t).view, r.world.gate.lim, p, t, n - 1);
    } else {
      SameRoom(w.gate.lim, r.world.gate.lim, p, t, n);
    }
  }

  lemma RaceEntry(e: Entry, es: seq<Entry>, w: World, r: Turned, setup: Setup, t: Time)
    requires GoesOn(e, es, w, r, setup, t)
    ensures r.GoOn? && r.entry in es
  {
  }

  lemma {:induction false} LoopRace(e: Entry, es: seq<Entry>, w: World, setup: Setup, env: Env, kind: Kind, t: Time)
    requires Contending(e, es, w, setup, t) && Healthy(env, t, e.providerID) && Yielding(env, kind, e)
    requires Room(w.gate.lim, e.providerID, t, |Rivals(es, e, w.gate, t)|)
    ensures Loop(es, w, setup, env, kind).result.Success?
    decreases |es|
  {
    hide Turn, Sift, GoesOn, Rivals, Room, Spent;
    var r := Turn(es, w, setup, env, kind);
    LessRoom(w.gate.lim, e.providerID, t, 0, |Rivals(es, e, w.gate, t)|);
    TurnRace(e, es, w, setup, env, kind, t);
    LoopEnds(es, w, setup, env, kind);
    if !r.Win? {
      RaceEntry(e, es, w, r, setup, t);
      var c := Cut(r.entry, r.verdict);
      LoopGoesOn(es, w, setup, env, kind);
      SiftShrinks(c, es, r.entry);
      NextRound(e, es, w, r, setup, t);
      NextRoom(e, es, w, r, setup, t);
      LoopRace(e, Sift(c, es), r.world, setup, env, kind, t);
    }
  }

  // ------------------------------------------------------------------- without room the race is lost

  /** One instant, everyone healthy: e's model answers, its rivals are rate-limited, all other providers fail. */
  function LosingEnv(e: Entry, t: Time): Env {
    Env((n: nat) => t, (n: nat, id: string) => true,
        (n: nat, id: string, m: string) =>
          if id != e.providerID then Failed(OtherFailure) else if m == e.modelID then Ok else Failed(Http(429, None)))
  }

  lemma CheckKeepsProvider(g: Gate, key: string, t1: Time, t2: Time)
    ensures ModelCheck(g, key, t1, t2).gate.lim == g.lim
  {
  }

  lemma VisitLost(f: Entry, p: string, g: Gate, setup: Setup, env: Env, n: nat, t: Time)
    requires FrozenAt(env, t) && Spent(g.lim, p, t)
    ensures var c := Visit(f, g, setup, env, n); Spent(c.gate.lim, p, t) && (c.admitted ==> f.providerID != p)
  {
    hide Spent, ModelBars, StateBars, Record, Key;
    VisitBars(f, g, setup, env, n, t);
    SpentStays(g.lim, p, f.providerID, t);
    CheckKeepsProvider(g, Key(f.providerID, f.modelID), t, t);
  }

  lemma {:induction false} ScanLost(es: seq<Entry>, p: string, g: Gate, setup: Setup, env: Env, n: nat, t: Time)
    requires FrozenAt(env, t) && Spent(g.lim, p, t)
    ensures var s := Scan(es, g, setup, env, n);
            Spent(s.gate.lim, p, t) && (s.pick.Some? ==> s.pick.value.providerID != p)
    decreases |es|
  {
    hide Spent, ModelBars, StateBars, Record, ModelCheck;
    if es != [] {
      VisitLost(es[0], p, g, setup, env, n, t);
      var c := Visit(es[0], g, setup, env, n);
      if !c.admitted {
        ScanLost(es[1..], p, c.gate, setup, env, n + READINGS, t);
      }
    }
  }

  lemma FailureKeepsLim(w: World, f: Entry, r: Reply, setup: Setup, env: Env)
    ensures AfterFailure(w, f, r, setup, env).gate.lim == w.gate.lim
  {
  }

  lemma TurnLost(e: Entry, es: seq<Entry>, w: World, setup: Setup, kind: Kind, t: Time)
    requires Spent(w.gate.lim, e.providerID, t)
    ensures var r := Turn(es, w, setup, LosingEnv(e, t), kind);
            !r.Win? && (r.GoOn? ==> Spent(r.world.gate.lim, e.providerID, t))
  {
    hide Scan, Spent, Acquire, Drop, AfterFailure;
    var env := LosingEnv(e, t);
    var s := Scan(es, w.gate, setup, env, w.tick);
    ScanLost(es, e.providerID, w.gate, setup, env, w.tick, t);
    var w1 := w.(gate := s.gate, tick := s.tick);
    if s.pick.Some? {
      var f := s.pick.value;
      SlotsOnly(w1, f);
      var a := Acquire(w1, f);
      if a.ok {
        var r, w2 := ReplyTo(kind, env.reply(w1.tick, f.providerID, f.modelID)), a.world.(tick := w1.tick + 1);
        SlotsOnly(w2, f);
        FailureKeepsLim(Drop(w2, f), f, r, setup, env);
      }
    }
  }

  lemma {:induction false} LoopLost(e: Entry, es: seq<Entry>, w: World, setup: Setup, kind: Kind, t: Time)
    requires Keyed(setup) && Spent(w.gate.lim, e.providerID, t)
    ensures !Loop(es, w, setup, LosingEnv(e, t), kind).result.Success?
    decreases |es|
  {
    hide Turn, Sift, Spent;
    var env := LosingEnv(e, t);
    var r := Turn(es, w, setup, env, kind);
    TurnLost(e, es, w, setup, kind, t);
    LoopEnds(es, w, setup, env, kind);
    if r.GoOn? {
      LoopGoesOn(es, w, setup, env, kind);
      SiftShrinks(Cut(r.entry, r.verdict), es, r.entry);
      LoopLost(e, Sift(Cut(r.entry, r.verdict), es), r.world, setup, kind, t);
    }
  }

  /** While rivals are left, none of the calls succeeds. */
  lemma TurnFails(e: Entry, es: seq<Entry>, w: World, setup: Setup, kind: Kind, t: Time)
    requires Contending(e, es, w, setup, t) && !Spent(w.gate.lim, e.providerID, t)
    requires Rivals(es, e, w.gate, t) != {}
    ensures !Turn(es, w, setup, LosingEnv(e, t), kind).Win?
  {
    hide Scan, Spent, Acquire, Drop, AfterFailure, Settled, Rivals, ModelBars, StateBars, SameWindows, Apart;
    var env := LosingEnv(e, t);
    ScanRace(es, es, e, w.gate, setup, env, w.tick, t);
  }

  lemma {:induction false} LoopFails(e: Entry, es: seq<Entry>, w: World, setup: Setup, kind: Kind, t: Time)
    requires Contending(e, es, w, setup, t)
    requires !Room(w.gate.lim, e.providerID, t, |Rivals(es, e, w.gate, t)|)
    ensures !Loop(es, w, setup, LosingEnv(e, t), kind).result.Success?
    decreases |es|
  {
    hide Turn, Sift, GoesOn, Rivals, Spent;
    var env := LosingEnv(e, t);
    if Spent(w.gate.lim, e.providerID, t) {
      LoopLost(e, es, w, setup, kind, t);
    } else {
      var r := Turn(es, w, setup, env, kind);
      TurnFails(e, es, w, setup, kind, t);
      TurnRace(e, es, w, setup, env, kind, t);
      LoopEnds(es, w, setup, env, kind);
      RaceEntry(e, es, w, r, setup, t);
      LoopGoesOn(es, w, setup, env, kind);
      SiftShrinks(Cut(r.entry, r.verdict), es, r.entry);
      NextRound(e, es, w, r, setup, t);
      NextRoom(e, es, w, r, setup, t);
      LoopFails(e, Sift(Cut(r.entry, r.verdict), es), r.world, setup, kind, t);
    }
  }

  // ----------------------------------------------------------------------------------- exactly

  lemma ContendingListed(e: Entry, es: seq<Entry>, w: World, setup: Setup, t: Time)
    requires Contending(e, es, w, setup, t)
    ensures es != [] && Keyed(setup)
  {
  }

  lemma LosingYields(e: Entry, t: Time)
    ensures Healthy(LosingEnv(e, t), t, e.providerID) && Yielding(LosingEnv(e, t), Completion, e)
  {
  }

  /** Failover among the models of one local provider: the model that answers is reached, whatever all other
      providers do and whichever of the provider's other models are rate-limited upstream, iff the provider's
      own windows admit one call more than there are selectable models of it listed before. */
  lemma SoftFailoverExact(e: Entry, es: seq<Entry>, w: World, setup: Setup, t: Time)
    requires Contending(e, es, w, setup, t)
    ensures Room(w.gate.lim, e.providerID, t, |Rivals(es, e, w.gate, t)|) <==>
              forall env, kind :: Healthy(env, t, e.providerID) && Yielding(env, kind, e) ==>
                Serve(es, w, setup, env, kind).result.Success?
  {
    hide Contending, Room, Rivals, Loop, Yields;
    assert es != [] && Keyed(setup) by {
      ContendingListed(e, es, w, setup, t);
    }
    if Room(w.gate.lim, e.providerID, t, |Rivals(es, e, w.gate, t)|) {
      forall env, kind | Healthy(env, t, e.providerID) && Yielding(env, kind, e)
        ensures Serve(es, w, setup, env, kind).result.Success?
      {
        LoopRace(e, es, w, setup, env, kind, t);
      }
    } else {
      LosingYields(e, t);
      LoopFails(e, es, w, setup, Completion, t);
    }
  }

  lemma {:induction false} Unlimited(v: TrackerView, id: string, t: Time, n: nat)
    requires id !in v.configs
    ensures Room(v, id, t, n)
    decreases n
  {
    if n > 0 {
      Unlimited(Record(v, id, t).view, id, t, n - 1);
    }
  }

  /** So it always is when the provider has no request limit of its own. */
  lemma UnlimitedServes(e: Entry, es: seq<Entry>, w: World, setup: Setup, env: Env, kind: Kind, t: Time)
    requires Contending(e, es, w, setup, t) && Healthy(env, t, e.providerID) && Yielding(env, kind, e)
    requires e.providerID !in w.gate.lim.configs
    ensures Serve(es, w, setup, env, kind).result.Success?
  {
    hide Contending, Rivals, Loop, Room;
    Unlimited(w.gate.lim, e.providerID, t, |Rivals(es, e, w.gate, t)|);
    SoftFailoverExact(e, es, w, setup, t);
  }
}
