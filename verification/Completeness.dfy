/** When a request must succeed, and what it leaves behind. */
module Completeness {
  import opened Prelude
  import opened Entries
  import opened Windows
  import opened States
  import opened Routing
  import opened RoutingProofs

  // ------------------------------------------------------------------- keys without slashes

  predicate SlashFree(id: string) {
    '/' !in id
  }

  lemma FirstSlash(p: string, m: string, q: string, n: string)
    requires SlashFree(q) && Key(p, m) == Key(q, n)
    ensures |q| <= |p|
  {
    var k := Key(p, m);
    assert k == p + "/" + m && k == q + "/" + n;
    assert k[|p|] == '/';
    assert forall i :: 0 <= i < |q| ==> k[i] == q[i] && q[i] in q;
  }

  /** Model keys are injective on slash-free provider ids. */
  lemma KeyInjective(p: string, m: string, q: string, n: string)
    requires SlashFree(p) && SlashFree(q) && Key(p, m) == Key(q, n)
    ensures p == q && m == n
  {
    FirstSlash(p, m, q, n);
    FirstSlash(q, n, p, m);
    var k := Key(p, m);
    assert k == p + "/" + m && k == q + "/" + n;
    assert p == k[..|p|] && q == k[..|q|];
    assert m == k[|p| + 1..] && n == k[|q| + 1..];
  }

  /** The model key of an entry. */
  function KeyOf(e: Entry): string {
    Key(e.providerID, e.modelID)
  }

  predicate SamePair(f: Entry, e: Entry) {
    f.providerID == e.providerID && f.modelID == e.modelID
  }

  /** No model key is shared by two providers. */
  ghost predicate Apart(es: seq<Entry>) {
    forall e, f :: e in es && f in es && e.providerID != f.providerID ==> KeyOf(e) != KeyOf(f)
  }

  /** Slash-free ids are enough for that. */
  lemma SlashFreeApart(es: seq<Entry>)
    requires forall e :: e in es ==> SlashFree(e.providerID)
    ensures Apart(es)
  {
    forall e, f | e in es && f in es && e.providerID != f.providerID
      ensures KeyOf(e) != KeyOf(f)
    {
      if KeyOf(e) == KeyOf(f) {
        KeyInjective(e.providerID, e.modelID, f.providerID, f.modelID);
      }
    }
  }

  // -------------------------------------------------------------------- failover completeness

  /** A refusal on the model's side touches nothing but the model tracker. */
  lemma ModelRefusal(f: Entry, g: Gate, setup: Setup, env: Env, n: nat, t: Time)
    requires FrozenAt(env, t) && ModelBars(f, g, t) && !StateBars(f, g, setup, t, env.ready(n, f.providerID))
    ensures Visit(f, g, setup, env, n).gate == ModelCheck(g, Key(f.providerID, f.modelID), t, t).gate
  {
    var key := Key(f.providerID, f.modelID);
    ForgetKeeps(g.mlim.value, key, key, t);
    RecordRefusesSpent(Forget(g.mlim.value, key, t), key, t);
  }

  lemma ModelSpares(e: Entry, g: Gate, key: string, t: Time)
    requires key != Key(e.providerID, e.modelID) && !ModelBars(e, g, t)
    ensures !ModelBars(e, ModelCheck(g, key, t, t).gate, t)
  {
    if g.mlim.Some? {
      var own := Key(e.providerID, e.modelID);
      ForgetKeeps(g.mlim.value, key, own, t);
      SpentElsewhere(Forget(g.mlim.value, key, t), own, key, t);
    }
  }

  /** A visit that does not admit an entry of e's own provider leaves e selectable. */
  lemma VisitSpares(e: Entry, f: Entry, g: Gate, setup: Setup, env: Env, n: nat, t: Time)
    requires FrozenAt(env, t) && (e.providerID != f.providerID ==> KeyOf(e) != KeyOf(f))
    requires !Barring(e, g, setup, t, env.ready(0, e.providerID))
    requires f.providerID == e.providerID ==> !Visit(f, g, setup, env, n).admitted
    ensures !Barring(e, Visit(f, g, setup, env, n).gate, setup, t, env.ready(0, e.providerID))
  {
    assert env.ready(0, e.providerID) == env.ready(n, e.providerID);
    VisitBars(f, g, setup, env, n, t);
    if f.providerID == e.providerID {
      assert ModelBars(f, g, t);
      assert Key(f.providerID, f.modelID) != Key(e.providerID, e.modelID);
      ModelRefusal(f, g, setup, env, n, t);
    } else {
      SpentElsewhere(g.lim, e.providerID, f.providerID, t);
    }
    ModelSpares(e, g, Key(f.providerID, f.modelID), t);
  }

  /** Selection finds an entry when one is selectable, and leaves that one selectable unless it picks
      an entry of the same provider. */
  lemma {:induction false} ScanFinds(e: Entry, es: seq<Entry>, g: Gate, setup: Setup, env: Env, n: nat, t: Time)
    requires FrozenAt(env, t) && e in es && Apart(es)
    requires !Barring(e, g, setup, t, env.ready(0, e.providerID))
    ensures var s := Scan(es, g, setup, env, n);
            s.pick.Some? && (s.pick.value.providerID != e.providerID ==>
                               !Barring(e, s.gate, setup, t, env.ready(0, e.providerID)))
    decreases |es|
  {
    hide Barring, Visit;
    var f := es[0];
    var c := Visit(f, g, setup, env, n);
    if !c.admitted || f.providerID != e.providerID {
      VisitSpares(e, f, g, setup, env, n, t);
    }
    if !c.admitted {
      assert env.ready(0, f.providerID) == env.ready(n, f.providerID);
      VisitBars(f, g, setup, env, n, t);
      assert f != e;
      ScanFinds(e, es[1..], c.gate, setup, env, n + READINGS, t);
    }
  }

  /** The provider answers every call. */
  ghost predicate Reliable(env: Env, kind: Kind, p: string) {
    forall n, m :: ReplyTo(kind, env.reply(n, p, m)).Ok?
  }

  /** The provider has a free slot, and so has each of its listed models. */
  ghost predicate FreeSlots(es: seq<Entry>, w: World, p: string) {
    HasRoom(w.slots, p) && (w.gate.mlim.Some? ==>
                              forall f :: f in es && f.providerID == p ==> HasRoom(w.mslots, Key(p, f.modelID)))
  }

  lemma {:induction false} ScanKeepsModelTracker(es: seq<Entry>, g: Gate, setup: Setup, env: Env, n: nat)
    ensures Scan(es, g, setup, env, n).gate.mlim.Some? == g.mlim.Some?
    decreases |es|
  {
    if es != [] {
      ScanKeepsModelTracker(es[1..], Visit(es[0], g, setup, env, n).gate, setup, env, n + READINGS);
    }
  }

  lemma AcquireSpares(es: seq<Entry>, w: World, f: Entry, p: string)
    requires f.providerID != p && f in es && Apart(es) && FreeSlots(es, w, p)
    ensures FreeSlots(es, Acquire(w, f).world, p)
  {
    assert forall h :: h in es && h.providerID == p ==> KeyOf(h) != KeyOf(f);
  }

  lemma DropSpares(es: seq<Entry>, w: World, f: Entry, p: string)
    requires f.providerID != p && f in es && Apart(es) && FreeSlots(es, w, p)
    ensures FreeSlots(es, Drop(w, f), p)
  {
    assert forall h :: h in es && h.providerID == p ==> KeyOf(h) != KeyOf(f);
  }

  lemma FailureSpares(es: seq<Entry>, e: Entry, w: World, f: Entry, r: Reply, setup: Setup, env: Env, t: Time)
    requires f.providerID != e.providerID && KeyOf(e) != KeyOf(f)
    requires !Barring(e, w.gate, setup, t, env.ready(0, e.providerID)) && FreeSlots(es, w, e.providerID)
    ensures var w' := AfterFailure(w, f, r, setup, env);
            !Barring(e, w'.gate, setup, t, env.ready(0, e.providerID)) && FreeSlots(es, w', e.providerID)
  {
    var key, own := KeyOf(f), KeyOf(e);
    if Soft(f, r) && w.gate.mlim.Some? {
      var until := env.time(w.tick) + RetryAfter(r.failure, Fallback(setup, f.providerID));
      var ml := BlockKey(w.gate.mlim.value, key, until);
      assert Spent(ml, own, t) == Spent(w.gate.mlim.value, own, t);
      assert Cooling(ml, own, t) == Cooling(w.gate.mlim.value, own, t);
    }
  }

  /** One iteration: success, or an iteration on another provider that leaves `e` as it was. */
  lemma TurnServes(e: Entry, es: seq<Entry>, w: World, setup: Setup, env: Env, kind: Kind, t: Time)
    requires FrozenAt(env, t) && Reliable(env, kind, e.providerID)
    requires e in es && Apart(es)
    requires !Barring(e, w.gate, setup, t, env.ready(0, e.providerID)) && FreeSlots(es, w, e.providerID)
    ensures var r := Turn(es, w, setup, env, kind);
            r.Win? || (r.GoOn? && r.entry.providerID != e.providerID
                       && !Barring(e, r.world.gate, setup, t, env.ready(0, e.providerID))
                       && FreeSlots(es, r.world, e.providerID))
  {
    hide Barring, Scan, AfterFailure, Drop;
    ScanFinds(e, es, w.gate, setup, env, w.tick, t);
    ScanKeepsModelTracker(es, w.gate, setup, env, w.tick);
    var s := Scan(es, w.gate, setup, env, w.tick);
    var w1 := w.(gate := s.gate, tick := s.tick);
    var f := s.pick.value;
    if f.providerID != e.providerID {
      AcquireSpares(es, w1, f, e.providerID);
      var a := Acquire(w1, f);
      SlotsOnly(w1, f);
      if a.ok {
        var r := ReplyTo(kind, env.reply(w1.tick, f.providerID, f.modelID));
        var w2 := a.world.(tick := w1.tick + 1);
        SlotsOnly(w2, f);
        DropSpares(es, w2, f, e.providerID);
        FailureSpares(es, e, Drop(w2, f), f, r, setup, env, t);
      }
    } else {
      assert FreeSlots(es, w1, e.providerID);
      assert Acquire(w1, f).ok;
    }
  }

  lemma {:induction false} LoopServes(e: Entry, es: seq<Entry>, w: World, setup: Setup, env: Env, kind: Kind, t: Time)
    requires Keyed(setup) && FrozenAt(env, t) && Reliable(env, kind, e.providerID)
    requires e in es && Apart(es)
    requires !Barring(e, w.gate, setup, t, env.ready(0, e.providerID)) && FreeSlots(es, w, e.providerID)
    ensures Loop(es, w, setup, env, kind).result.Success?
    decreases |es|
  {
    hide Turn, Barring, Sift;
    TurnServes(e, es, w, setup, env, kind, t);
    var r := Turn(es, w, setup, env, kind);
    LoopEnds(es, w, setup, env, kind);
    if r.GoOn? {
      var c := Cut(r.entry, r.verdict);
      LoopGoesOn(es, w, setup, env, kind);
      SiftShrinks(c, es, r.entry);
      forall f
        ensures f in Sift(c, es) <==> f in es && Keeps(c, f)
      {
        SiftCount(c, es, f);
      }
      LoopServes(e, Sift(c, es), r.world, setup, env, kind, t);
    }
  }

  /** A request made at one instant, for which some listed entry `e` is selectable, of a provider that
      never errs and has free slots for all its entries. */
  ghost predicate Promising(e: Entry, es: seq<Entry>, w: World, setup: Setup, env: Env, kind: Kind, t: Time) {
    && Keyed(setup) && FrozenAt(env, t) && e in es
    && !Barring(e, w.gate, setup, t, env.ready(0, e.providerID))
    && Reliable(env, kind, e.providerID) && FreeSlots(es, w, e.providerID)
  }

  /** Failover completeness: a promising request succeeds, whatever all other providers do, when no key is
      shared by two listed providers. */
  lemma FailoverComplete(e: Entry, es: seq<Entry>, w: World, setup: Setup, env: Env, kind: Kind, t: Time)
    requires Promising(e, es, w, setup, env, kind, t) && Apart(es)
    ensures Serve(es, w, setup, env, kind).result.Success?
  {
    LoopServes(e, es, w, setup, env, kind, t);
  }

  /** In particular with slash-free provider ids. */
  lemma SlashFreeComplete(e: Entry, es: seq<Entry>, w: World, setup: Setup, env: Env, kind: Kind, t: Time)
    requires Promising(e, es, w, setup, env, kind, t)
    requires forall f :: f in es ==> SlashFree(f.providerID)
    ensures Serve(es, w, setup, env, kind).result.Success?
  {
    SlashFreeApart(es);
    FailoverComplete(e, es, w, setup, env, kind, t);
  }

  // ---------------------------------------------------- the slash condition cannot be dropped

  const EMPTY_VIEW: TrackerView := NewView(map[])

  const COLLIDING: seq<Entry> := [
    Entry("a/b", "c", 1, false, false, false, NO_PARAMS, false),
    Entry("a", "b/c", 2, false, false, false, NO_PARAMS, false)]

  const COLLIDING_SETUP: Setup := Setup(map["a" := Provider("a"), "a/b" := Provider("a/b")], map[], "")

  const OPEN_GATE: Gate := Gate(StateView(map[], map[]), EMPTY_VIEW, Some(EMPTY_VIEW), 0)

  const IDLE: World := World(OPEN_GATE, map[], map[], Metrics(0, 0, 0, 0, 0, 0, map[], map[]), 0)

  lemma CollidingFirst(env: Env)
    requires FrozenAt(env, 0) && (forall n, id :: env.ready(n, id))
    requires forall n, m :: env.reply(n, "a/b", m) == Failed(Http(429, None))
    ensures var r := Turn(COLLIDING, IDLE, COLLIDING_SETUP, env, Completion);
            r.GoOn? && r.entry == COLLIDING[0] && r.verdict == Answered(Failed(Http(429, None)))
            && r.world.gate.mlim.Some? && Cooling(r.world.gate.mlim.value, "a/b/c", 0)
  {
    assert Visit(COLLIDING[0], OPEN_GATE, COLLIDING_SETUP, env, 0).admitted;
    assert Key("a/b", "c") == "a/b/c";
  }

  lemma CollidingOpen()
    ensures !Barring(COLLIDING[1], OPEN_GATE, COLLIDING_SETUP, 0, true) && FreeSlots(COLLIDING, IDLE, "a")
  {
    assert COLLIDING[1].providerID == "a";
  }

  lemma CollidingList()
    ensures Sift(WithoutPair("a/b", "c"), COLLIDING) == [COLLIDING[1]]
  {
    var c, e, f := WithoutPair("a/b", "c"), COLLIDING[0], COLLIDING[1];
    assert COLLIDING == [e] + [f] && [f] == [f] + [];
    SiftCons(c, e, [f]);
    SiftCons(c, f, []);
  }

  lemma CollidingSecond(w: World, env: Env)
    requires FrozenAt(env, 0)
    requires w.gate.mlim.Some? && Cooling(w.gate.mlim.value, "a/b/c", 0)
    ensures Turn([COLLIDING[1]], w, COLLIDING_SETUP, env, Completion).Stop?
  {
    hide Record, Acquire, Drop, AfterFailure, Settled;
    assert Key("a", "b/c") == "a/b/c";
    assert [COLLIDING[1]][1..] == [];
    assert !Visit(COLLIDING[1], w.gate, COLLIDING_SETUP, env, w.tick).admitted;
  }

  /** Two providers whose keys collide: the first one's model-level error cools the second one's model
      down as well, and the request fails although the second provider would have served it. */
  lemma SlashCollision(env: Env)
    requires FrozenAt(env, 0) && (forall n, id :: env.ready(n, id))
    requires forall n, m :: env.reply(n, "a/b", m) == Failed(Http(429, None))
    requires Reliable(env, Completion, "a")
    ensures Keyed(COLLIDING_SETUP)
    ensures !Barring(COLLIDING[1], OPEN_GATE, COLLIDING_SETUP, 0, true) && FreeSlots(COLLIDING, IDLE, "a")
    ensures Serve(COLLIDING, IDLE, COLLIDING_SETUP, env, Completion).result == AllProvidersFailed
  {
    hide Turn, Sift, Barring, FreeSlots, Loop;
    CollidingOpen();
    CollidingFirst(env);
    CollidingList();
    var r := Turn(COLLIDING, IDLE, COLLIDING_SETUP, env, Completion);
    CollidingSecond(r.world, env);
    LoopEnds([COLLIDING[1]], r.world, COLLIDING_SETUP, env, Completion);
    LoopGoesOn(COLLIDING, IDLE, COLLIDING_SETUP, env, Completion);
  }

  // --------------------------------------------------------- when completeness fails, exactly

  /** Where a shared key first occurs: every entry before position n has another key, the entry there
      and a later one have it and differ in provider. */
  lemma FirstCollision(es: seq<Entry>) returns (n: nat, f: Entry, g: Entry)
    requires !Apart(es)
    ensures n < |es| && es[n] == f && g in es && g.providerID != f.providerID && KeyOf(g) == KeyOf(f)
    ensures forall i :: 0 <= i < n ==> KeyOf(es[i]) != KeyOf(f)
  {
    hide KeyOf;
    var a, b :| a in es && b in es && a.providerID != b.providerID && KeyOf(a) == KeyOf(b);
    n := 0;
    while KeyOf(es[n]) != KeyOf(a)
      invariant n < |es| && forall i :: 0 <= i < n ==> KeyOf(es[i]) != KeyOf(a)
      invariant exists k :: n <= k < |es| && es[k] == a
      decreases |es| - n
    {
      n := n + 1;
    }
    f := es[n];
    g := if f.providerID == a.providerID then b else a;
  }

  function KeysBut(es: seq<Entry>, key: string): set<string> {
    set e | e in es && KeyOf(e) != key :: KeyOf(e)
  }

  /** The trap for a list with a colliding key: only the two providers exist, one window of one request is
      shared through the key, and every other listed key is cooling down. */
  function TrapCooldowns(es: seq<Entry>, key: string): map<string, Time> {
    map k | k in KeysBut(es, key) :: 0
  }

  function TrapSetup(f: Entry, g: Entry): Setup {
    Setup(map[f.providerID := Provider(f.providerID), g.providerID := Provider(g.providerID)], map[], "")
  }

  function TrapTracker(es: seq<Entry>, key: string): TrackerView {
    TrackerView(map[key := [Config(1, 1)]], map[], TrapCooldowns(es, key), map[], [])
  }

  function TrapWorld(es: seq<Entry>, key: string): World {
    World(Gate(StateView(map[], map[]), EMPTY_VIEW, Some(TrapTracker(es, key)), 0), map[], map[],
          Metrics(0, 0, 0, 0, 0, 0, map[], map[]), 0)
  }

  /** One instant, everyone healthy, and only the provider `p` fails. */
  function TrapEnv(p: string): Env {
    Env((n: nat) => 0, (n: nat, id: string) => true,
        (n: nat, id: string, m: string) => if id == p then Failed(OtherFailure) else Ok)
  }

  lemma TrapPromising(es: seq<Entry>, f: Entry, g: Entry, kind: Kind)
    requires g in es && f.providerID != g.providerID && KeyOf(f) == KeyOf(g)
    ensures Promising(g, es, TrapWorld(es, KeyOf(g)), TrapSetup(f, g), TrapEnv(f.providerID), kind, 0)
  {
    var key, ml := KeyOf(g), TrapTracker(es, KeyOf(g));
    assert WindowsOf(ml, key)[0] == FRESH;
    assert !Over(Config(1, 1), Tick(Config(1, 1), FRESH, 0));
    assert !Spent(ml, key, 0);
    assert !Cooling(ml, key, 0);
    assert !Spent(EMPTY_VIEW, g.providerID, 0);
  }

  /** Entries that are cooling down or of an unknown provider are passed over without a trace. */
  predicate Inert(e: Entry, g: Gate, setup: Setup) {
    e.providerID !in setup.providers || (g.mlim.Some? && Cooling(g.mlim.value, KeyOf(e), 0))
  }

  lemma VisitInert(e: Entry, g: Gate, setup: Setup, env: Env, n: nat)
    requires FrozenAt(env, 0) && Inert(e, g, setup)
    ensures Visit(e, g, setup, env, n) == Checked(false, g)
  {
    hide Record;
    if g.mlim.Some? && Cooling(g.mlim.value, KeyOf(e), 0) {
      assert Forget(g.mlim.value, KeyOf(e), 0) == g.mlim.value;
      assert g.(mlim := Some(g.mlim.value)) == g;
    }
  }

  lemma {:induction false} ScanInert(pre: seq<Entry>, rest: seq<Entry>, g: Gate, setup: Setup, env: Env, n: nat)
    returns (m: nat)
    requires FrozenAt(env, 0) && forall e :: e in pre ==> Inert(e, g, setup)
    ensures Scan(pre + rest, g, setup, env, n) == Scan(rest, g, setup, env, m)
    decreases |pre|
  {
    if pre == [] {
      assert pre + rest == rest;
      m := n;
    } else {
      assert (pre + rest)[0] == pre[0] && (pre + rest)[1..] == pre[1..] + rest;
      VisitInert(pre[0], g, setup, env, n);
      m := ScanInert(pre[1..], rest, g, setup, env, n + READINGS);
    }
  }

  /** The first entry with the shared key uses up the shared window. */
  lemma VisitSprings(es: seq<Entry>, f: Entry, g: Entry, n: nat)
    requires f.providerID != g.providerID && KeyOf(f) == KeyOf(g)
    ensures var c := Visit(f, TrapWorld(es, KeyOf(g)).gate, TrapSetup(f, g), TrapEnv(f.providerID), n);
            && c.admitted && c.gate.mlim.Some? && Spent(c.gate.mlim.value, KeyOf(g), 0)
            && c.gate.mlim.value.cooldowns == TrapCooldowns(es, KeyOf(g))
  {
    var key, ml := KeyOf(g), TrapTracker(es, KeyOf(g));
    assert WindowsOf(ml, key)[0] == FRESH;
    RecordRefusesSpent(ml, key, 0);
    var u := Record(ml, key, 0).view;
    assert u.windows[key] == TickAll([Config(1, 1)], WindowsOf(ml, key), 0);
    assert WindowsOf(u, key)[0] == Cell(1, Some(1));
    assert Over(Config(1, 1), Tick(Config(1, 1), WindowsOf(u, key)[0], 0));
  }

  /** After the first attempt everything that is left is barred. */
  lemma TrapBars(es: seq<Entry>, f: Entry, g: Entry, e: Entry, gate: Gate)
    requires e in es && e.providerID != f.providerID
    requires gate.mlim.Some? && Spent(gate.mlim.value, KeyOf(g), 0)
             && gate.mlim.value.cooldowns == TrapCooldowns(es, KeyOf(g))
    ensures Barring(e, gate, TrapSetup(f, g), 0, true)
  {
    if KeyOf(e) != KeyOf(g) {
      assert KeyOf(e) in KeysBut(es, KeyOf(g));
    }
  }

  lemma AllBarredStops(es: seq<Entry>, w: World, setup: Setup, env: Env, kind: Kind, t: Time)
    requires FrozenAt(env, t) && AllBarred(Elements(es), w.gate, setup, env, t)
    ensures Turn(es, w, setup, env, kind).Stop?
  {
    hide Scan, Try, AllBarred;
    assert es + [] == es;
    var k := ScanAhead(Elements(es), es, [], w.gate, setup, env, w.tick, t);
  }

  lemma FirstTrapped(es: seq<Entry>, n: nat, f: Entry, g: Entry, kind: Kind)
    requires n < |es| && es[n] == f && f.providerID != g.providerID && KeyOf(f) == KeyOf(g)
    requires forall i :: 0 <= i < n ==> KeyOf(es[i]) != KeyOf(f)
    ensures var t := Turn(es, TrapWorld(es, KeyOf(g)), TrapSetup(f, g), TrapEnv(f.providerID), kind);
            && t.GoOn? && t.entry == f && t.verdict == Answered(Failed(OtherFailure)) && t.world.gate.mlim.Some?
            && Spent(t.world.gate.mlim.value, KeyOf(g), 0)
            && t.world.gate.mlim.value.cooldowns == TrapCooldowns(es, KeyOf(g))
  {
    hide Visit, Spent, Record;
    var w, setup, env := TrapWorld(es, KeyOf(g)), TrapSetup(f, g), TrapEnv(f.providerID);
    assert es == es[..n] + es[n..];
    forall e | e in es[..n]
      ensures Inert(e, w.gate, setup)
    {
      assert KeyOf(e) in KeysBut(es, KeyOf(g));
    }
    var m := ScanInert(es[..n], es[n..], w.gate, setup, env, 0);
    VisitSprings(es, f, g, m);
    SlotsOnly(w, f);
  }

  /** A promising request that fails. */
  lemma TrapSprung(es: seq<Entry>, n: nat, f: Entry, g: Entry, kind: Kind)
    requires n < |es| && es[n] == f && f.providerID != g.providerID && KeyOf(f) == KeyOf(g)
    requires forall i :: 0 <= i < n ==> KeyOf(es[i]) != KeyOf(f)
    ensures Keyed(TrapSetup(f, g))
    ensures Serve(es, TrapWorld(es, KeyOf(g)), TrapSetup(f, g), TrapEnv(f.providerID), kind).result
            == AllProvidersFailed
  {
    hide Turn, Sift, Barring, Spent;
    var w, setup, env := TrapWorld(es, KeyOf(g)), TrapSetup(f, g), TrapEnv(f.providerID);
    FirstTrapped(es, n, f, g, kind);
    var t := Turn(es, w, setup, env, kind);
    var c := Cut(f, Answered(Failed(OtherFailure)));
    var rest := Sift(c, es);
    forall e | e in rest
      ensures Barring(e, t.world.gate, setup, 0, env.ready(0, e.providerID))
    {
      SiftCount(c, es, e);
      TrapBars(es, f, g, e, t.world.gate);
    }
    AllBarredStops(rest, t.world, setup, env, kind, 0);
    LoopEnds(rest, t.world, setup, env, kind);
    LoopGoesOn(es, w, setup, env, kind);
  }

  /** Failover is complete on a list of candidates, for every state, configuration, environment and kind of
      request, iff no key is shared by two of its providers. */
  lemma CompletenessExact(es: seq<Entry>)
    ensures Apart(es) <==>
      forall e, w, setup, env, kind, t :: Promising(e, es, w, setup, env, kind, t) ==>
        Serve(es, w, setup, env, kind).result.Success?
  {
    hide Serve, Apart;
    if Apart(es) {
      forall e, w, setup, env, kind, t | Promising(e, es, w, setup, env, kind, t)
        ensures Serve(es, w, setup, env, kind).result.Success?
      {
        FailoverComplete(e, es, w, setup, env, kind, t);
      }
    } else {
      var n, f, g := FirstCollision(es);
      TrapPromising(es, f, g, Completion);
      TrapSprung(es, n, f, g, Completion);
    }
  }

  // --------------------------------------------------------------------------- accounting

  predicate FailedCall(s: Step) {
    s.verdict.Answered? && !s.verdict.reply.Ok?
  }

  /** Iterations in which a call failed. */
  function FailedCalls(steps: seq<Step>): nat {
    if steps == [] then 0
    else (if FailedCall(steps[0]) then 1 else 0) + FailedCalls(steps[1..])
  }

  /** An iteration whose call failed otherwise than by an empty stream, on a remote entry. */
  predicate BlockingCall(s: Step) {
    s.entry.isRemote && s.verdict.Answered? && (s.verdict.reply.Failed? || s.verdict.reply.FirstChunkFailed?)
  }

  /** What a failed call can entail: a block of its provider (counted over all providers, or for one), or a
      cooldown of its model. */
  datatype Penalty = AnyBlock | BlockOf(provider: string) | CooldownOf(key: string)

  /** Does the iteration entail that penalty? */
  predicate Earns(s: Step, x: Penalty) {
    match x
    case AnyBlock => BlockingCall(s)
    case BlockOf(p) => BlockingCall(s) && s.entry.providerID == p
    case CooldownOf(key) => SoftStep(s) && KeyOf(s.entry) == key
  }

  function Earned(steps: seq<Step>, x: Penalty): nat {
    if steps == [] then 0 else (if Earns(steps[0], x) then 1 else 0) + Earned(steps[1..], x)
  }

  /** Iterations turned away for want of a slot. */
  function FullCalls(steps: seq<Step>, p: string): nat {
    if steps == [] then 0
    else (if steps[0].verdict == Full && steps[0].entry.providerID == p then 1 else 0) + FullCalls(steps[1..], p)
  }

  /** How the counters move over a whole request. */
  ghost predicate Booked(a: Metrics, b: Metrics, out: Outcome) {
    && b.requests == a.requests + (if out.result.Success? then 1 else 0)
    && b.noCapacity == a.noCapacity + (if out.result.Success? then 0 else 1)
    && b.localRequests == a.localRequests + (if out.result.Success? && !out.result.entry.isRemote then 1 else 0)
    && b.remoteRequests == a.remoteRequests + (if out.result.Success? && out.result.entry.isRemote then 1 else 0)
    && b.failures == a.failures + FailedCalls(out.steps)
    && b.blockEvents == a.blockEvents + Earned(out.steps, AnyBlock)
    && (forall p :: Count(b.rejected, p) == Count(a.rejected, p) + FullCalls(out.steps, p))
  }

  /** How the counters move in an iteration that goes on after a verdict. */
  ghost predicate Charged(a: Metrics, b: Metrics, s: Step) {
    && b.requests == a.requests && b.noCapacity == a.noCapacity
    && b.localRequests == a.localRequests && b.remoteRequests == a.remoteRequests
    && b.failures == a.failures + (if FailedCall(s) then 1 else 0)
    && b.blockEvents == a.blockEvents + (if BlockingCall(s) then 1 else 0)
    && forall p :: Count(b.rejected, p)
                   == Count(a.rejected, p) + if s.verdict == Full && s.entry.providerID == p then 1 else 0
  }

  /** Equal counters, gauges of slots aside. */
  predicate SameBooks(a: Metrics, b: Metrics) {
    a == b.(active := a.active)
  }

  lemma AcquireBooked(w: World, e: Entry)
    ensures var a := Acquire(w, e);
            if a.ok then SameBooks(w.metrics, a.world.metrics)
            else Charged(w.metrics, a.world.metrics, Step([], e, Full))
  {
    hide Released, Taken, HasRoom;
  }

  lemma DropBooked(w: World, e: Entry)
    ensures SameBooks(w.metrics, Drop(w, e).metrics)
  {
    hide Released;
  }

  lemma FailureBooked(w: World, e: Entry, r: Reply, setup: Setup, env: Env)
    requires !r.Ok?
    ensures Charged(w.metrics, AfterFailure(w, e, r, setup, env).metrics, Step([], e, Answered(r)))
  {
    hide Count, RetryAfter, BlockKey, Barred, Fallback, RecoveryOf;
  }

  lemma SuccessBooked(w: World, e: Entry, kind: Kind, list: seq<Entry>)
    ensures Booked(w.metrics, Settled(w, e, kind).metrics,
                   Outcome(Success(e), Settled(w, e, kind), [Step(list, e, SERVED)]))
  {
    hide Drop;
    DropBooked(w, e);
    var s := Step(list, e, SERVED);
    assert [s][1..] == [];
    assert FailedCalls([s]) == 0;
    assert Earned([s], AnyBlock) == 0;
    assert forall p :: FullCalls([s], p) == 0;
  }

  lemma TurnBooked(es: seq<Entry>, w: World, setup: Setup, env: Env, kind: Kind)
    ensures var r := Turn(es, w, setup, env, kind);
            var a, b := w.metrics, r.world.metrics;
            match r
            case Stop(_) => b == a.(noCapacity := a.noCapacity + 1)
            case Win(e, _) => Booked(a, b, Outcome(Success(e), r.world, [Step(es, e, SERVED)]))
            case GoOn(e, v, _) => Charged(a, b, Step(es, e, v))
  {
    hide Scan, Acquire, AfterFailure, Drop, Settled, FailedCalls, FullCalls;
    var s := Scan(es, w.gate, setup, env, w.tick);
    var w1 := w.(gate := s.gate, tick := s.tick);
    if s.pick.Some? {
      var e := s.pick.value;
      AcquireBooked(w1, e);
      var a := Acquire(w1, e);
      if a.ok {
        var r := ReplyTo(kind, env.reply(w1.tick, e.providerID, e.modelID));
        var w2 := a.world.(tick := w1.tick + 1);
        if r.Ok? {
          SuccessBooked(w2, e, kind, es);
        } else {
          DropBooked(w2, e);
          FailureBooked(Drop(w2, e), e, r, setup, env);
        }
      }
    }
  }

  /** Accounting of one request, Route or Stream, for any clock, health and replies: exactly one of
      Requests and NoCapacity grows, by one; a counted request is local or remote; Failures counts the
      failed calls, and block events are among them. */
  lemma {:induction false} LoopBooked(es: seq<Entry>, w: World, setup: Setup, env: Env, kind: Kind)
    requires Keyed(setup)
    ensures var out := Loop(es, w, setup, env, kind); Booked(w.metrics, out.world.metrics, out)
    decreases |es|
  {
    hide Turn, Sift, Count;
    TurnBooked(es, w, setup, env, kind);
    LoopEnds(es, w, setup, env, kind);
    var r := Turn(es, w, setup, env, kind);
    if r.GoOn? {
      LoopGoesOn(es, w, setup, env, kind);
      SiftShrinks(Cut(r.entry, r.verdict), es, r.entry);
      var rest := Loop(Sift(Cut(r.entry, r.verdict), es), r.world, setup, env, kind);
      LoopBooked(Sift(Cut(r.entry, r.verdict), es), r.world, setup, env, kind);
      var s := Step(es, r.entry, r.verdict);
      assert ([s] + rest.steps)[1..] == rest.steps;
    }
  }

  lemma ServeBooked(es: seq<Entry>, w: World, setup: Setup, env: Env, kind: Kind)
    requires Keyed(setup)
    ensures var out := Serve(es, w, setup, env, kind); Booked(w.metrics, out.world.metrics, out)
  {
    if es != [] {
      LoopBooked(es, w, setup, env, kind);
    }
  }

  /** Is it a reply of status 429 or 413 to a call of a node that is not remote? */
  predicate RateLimited(e: Entry, r: Reply) {
    !e.isRemote && r.Failed? && r.failure.Http? && (r.failure.status == 429 || r.failure.status == 413)
  }

  /** The recovery window of a provider; without one it is zero. */
  function WindowIn(recovery: map<string, int>, id: string): int {
    if id in recovery then recovery[id] else 0
  }

  /** How long a model cools down: what the reply asks for, a second at least; or else the recovery window,
      or a minute. */
  function Pause(parsed: Option<int>, recovery: map<string, int>, id: string): int {
    if parsed.Some? && parsed.value > 0 then
      if parsed.value < 1_000_000_000 then 1_000_000_000 else parsed.value
    else if WindowIn(recovery, id) != 0 then WindowIn(recovery, id)
    else 60_000_000_000
  }

  /** What a failed call writes: a 429 or 413 of a node that is not remote cools its model down and blocks nothing;
      any other failure of a remote provider, empty streams aside, blocks the provider until its recovery
      window is over and counts a block event; each counts as one failure, and nothing else changes. */
  lemma FailureWrites(w: World, e: Entry, r: Reply, setup: Setup, env: Env)
    requires !r.Ok?
    ensures var v, id, key, now := AfterFailure(w, e, r, setup, env), e.providerID, KeyOf(e), env.time(w.tick);
            && v.metrics.failures == w.metrics.failures + 1
            && v.slots == w.slots && v.mslots == w.mslots && v.gate.lim == w.gate.lim
            && v.gate.state.exhausted == w.gate.state.exhausted
            && (if e.isRemote && !r.EmptyStream?
                then v.gate.state.blocked == w.gate.state.blocked[id := now + WindowIn(setup.recovery, id)]
                     && v.metrics.blockEvents == w.metrics.blockEvents + 1
                else v.gate.state.blocked == w.gate.state.blocked && v.metrics.blockEvents == w.metrics.blockEvents)
            && (if RateLimited(e, r) && w.gate.mlim.Some?
                then
                  var d := Pause(r.failure.retryAfter, setup.recovery, id);
                  var ml := w.gate.mlim.value;
                  v.gate.mlim == Some(ml.(cooldowns := ml.cooldowns[key := now + d]))
                else v.gate.mlim == w.gate.mlim)
  {
  }

  // ------------------------------------------------------------------------ slots given back

  ghost predicate NoNegative(slots: map<string, Slot>) {
    forall id :: id in slots ==> slots[id].active >= 0
  }

  lemma TakenReleased(slots: map<string, Slot>, id: string)
    requires NoNegative(slots)
    ensures Released(Taken(slots, id), id) == slots && NoNegative(Taken(slots, id))
  {
  }

  /** Same slots in use, same gauges. */
  ghost predicate SameUse(a: World, b: World) {
    && a.slots == b.slots && a.mslots == b.mslots && a.gate.mlim.Some? == b.gate.mlim.Some?
    && forall p :: Count(a.metrics.active, p) == Count(b.metrics.active, p)
  }

  /** The world with one more request in flight on `e`. */
  ghost predicate OneMore(a: World, b: World, e: Entry) {
    && b.slots == Taken(a.slots, e.providerID)
    && b.mslots == (if a.gate.mlim.Some? then Taken(a.mslots, Key(e.providerID, e.modelID)) else a.mslots)
    && forall p :: Count(b.metrics.active, p) == Count(a.metrics.active, p) + if p == e.providerID then 1 else 0
  }

  lemma AcquireUse(w: World, e: Entry)
    requires NoNegative(w.slots) && NoNegative(w.mslots)
    ensures var a := Acquire(w, e); if a.ok then OneMore(w, a.world, e) else SameUse(w, a.world)
  {
    TakenReleased(w.slots, e.providerID);
  }

  lemma DropUse(w: World, v: World, e: Entry)
    requires NoNegative(w.slots) && NoNegative(w.mslots) && OneMore(w, v, e) && w.gate.mlim.Some? == v.gate.mlim.Some?
    ensures SameUse(w, Drop(v, e))
  {
    TakenReleased(w.slots, e.providerID);
    TakenReleased(w.mslots, Key(e.providerID, e.modelID));
  }

  lemma FailureUse(w: World, e: Entry, r: Reply, setup: Setup, env: Env)
    ensures SameUse(w, AfterFailure(w, e, r, setup, env))
  {
  }

  lemma TurnUse(es: seq<Entry>, w: World, setup: Setup, env: Env, kind: Kind)
    requires NoNegative(w.slots) && NoNegative(w.mslots)
    ensures var r := Turn(es, w, setup, env, kind);
            if r.Win? && kind == Streaming then OneMore(w, r.world, r.entry) else SameUse(w, r.world)
  {
    hide Scan, Acquire, AfterFailure, Drop;
    ScanKeepsModelTracker(es, w.gate, setup, env, w.tick);
    var s := Scan(es, w.gate, setup, env, w.tick);
    var w1 := w.(gate := s.gate, tick := s.tick);
    if s.pick.Some? {
      var e := s.pick.value;
      AcquireUse(w1, e);
      SlotsOnly(w1, e);
      var a := Acquire(w1, e);
      if a.ok {
        var r := ReplyTo(kind, env.reply(w1.tick, e.providerID, e.modelID));
        var w2 := a.world.(tick := w1.tick + 1);
        DropUse(w1, w2, e);
        FailureUse(Drop(w2, e), e, r, setup, env);
      }
    }
  }

  lemma {:induction false} LoopUse(es: seq<Entry>, w: World, setup: Setup, env: Env, kind: Kind)
    requires Keyed(setup) && NoNegative(w.slots) && NoNegative(w.mslots)
    ensures var out := Loop(es, w, setup, env, kind);
            if out.result.Success? && kind == Streaming then OneMore(w, out.world, out.result.entry)
            else SameUse(w, out.world)
    decreases |es|
  {
    hide Turn, Sift;
    TurnUse(es, w, setup, env, kind);
    LoopEnds(es, w, setup, env, kind);
    var r := Turn(es, w, setup, env, kind);
    if r.GoOn? {
      LoopGoesOn(es, w, setup, env, kind);
      SiftShrinks(Cut(r.entry, r.verdict), es, r.entry);
      LoopUse(Sift(Cut(r.entry, r.verdict), es), r.world, setup, env, kind);
    }
  }

  /** A finished request holds no slot and is out of the gauge, whatever happened on the way; a successful
      stream holds exactly the slots of its entry. */
  lemma ServeUse(es: seq<Entry>, w: World, setup: Setup, env: Env, kind: Kind)
    requires Keyed(setup) && NoNegative(w.slots) && NoNegative(w.mslots)
    ensures var out := Serve(es, w, setup, env, kind);
            if out.result.Success? && kind == Streaming then OneMore(w, out.world, out.result.entry)
            else SameUse(w, out.world)
  {
    if es != [] {
      LoopUse(es, w, setup, env, kind);
    }
  }
}
