/** Properties of the tracker over whole runs of calls. */
module LimitProofs {
  import opened Prelude
  import opened Windows

  // ---------------------------------------------------------------- one window on its own

  /** The window after Record calls at the given times. */
  function WindowAfter(c: Config, w: Window, ts: seq<Time>): Window
    decreases |ts|
  {
    if ts == [] then w else WindowAfter(c, Tick(c, w, ts[0]), ts[1..])
  }

  /** How many calls within [a, b] this window lets through. */
  function Passes(c: Config, w: Window, ts: seq<Time>, a: Time, b: Time): nat
    decreases |ts|
  {
    if ts == [] then 0
    else
      var w' := Tick(c, w, ts[0]);
      (if a <= ts[0] <= b && !Over(c, w') then 1 else 0) + Passes(c, w', ts[1..], a, b)
  }

  predicate Ordered(ts: seq<Time>) {
    forall i, j :: 0 <= i < j < |ts| ==> ts[i] <= ts[j]
  }

  lemma {:induction false} WindowAfterSnoc(c: Config, w: Window, ts: seq<Time>, t: Time)
    ensures WindowAfter(c, w, ts + [t]) == Tick(c, WindowAfter(c, w, ts), t)
    decreases |ts|
  {
    if ts == [] {
      assert ts + [t] == [t];
    } else {
      assert (ts + [t])[1..] == ts[1..] + [t];
      WindowAfterSnoc(c, Tick(c, w, ts[0]), ts[1..], t);
    }
  }

  lemma {:induction false} PassesSnoc(c: Config, w: Window, ts: seq<Time>, t: Time, a: Time, b: Time)
    ensures Passes(c, w, ts + [t], a, b) == Passes(c, w, ts, a, b)
      + if a <= t <= b && !Over(c, Tick(c, WindowAfter(c, w, ts), t)) then 1 else 0
    decreases |ts|
  {
    if ts == [] {
      assert ts + [t] == [t] && [t][1..] == [];
    } else {
      assert (ts + [t])[1..] == ts[1..] + [t];
      PassesSnoc(c, Tick(c, w, ts[0]), ts[1..], t, a, b);
    }
  }

  lemma {:induction false} NonePassAfter(c: Config, w: Window, ts: seq<Time>, a: Time, b: Time)
    requires Ordered(ts) && (ts != [] ==> b < ts[0])
    ensures Passes(c, w, ts, a, b) == 0
    decreases |ts|
  {
    if ts != [] {
      NonePassAfter(c, Tick(c, w, ts[0]), ts[1..], a, b);
    }
  }

  /** From a window that closes no earlier than b - k*W, at most what is left of its own budget
      and k further budgets pass up to b. */
  lemma {:induction false} Budget(c: Config, w: Window, ts: seq<Time>, a: Time, b: Time, k: nat)
    requires c.window >= 0 && Ordered(ts)
    requires w.count >= 0 && w.resetAt.Some? && w.resetAt.value >= b - k * c.window
    ensures Passes(c, w, ts, a, b) <= Max(0, c.requests - w.count) + k * Max(0, c.requests)
    decreases |ts|
  {
    if ts != [] {
      var t, w' := ts[0], Tick(c, w, ts[0]);
      if t > b {
        NonePassAfter(c, w, ts, a, b);
        assert k * Max(0, c.requests) >= 0;
      } else if t <= w.resetAt.value {
        Budget(c, w', ts[1..], a, b, k);
      } else {
        assert k != 0;
        assert (k - 1) * c.window == k * c.window - c.window;
        assert (k - 1) * Max(0, c.requests) == k * Max(0, c.requests) - Max(0, c.requests);
        Budget(c, w', ts[1..], a, b, k - 1);
      }
    } else {
      assert k * Max(0, c.requests) >= 0;
    }
  }

  /** A window that allows nothing lets nothing through. */
  lemma {:induction false} ClosedWindow(c: Config, w: Window, ts: seq<Time>, a: Time, b: Time)
    requires c.requests <= 0 && w.count >= 0
    ensures Passes(c, w, ts, a, b) == 0
    decreases |ts|
  {
    if ts != [] {
      ClosedWindow(c, Tick(c, w, ts[0]), ts[1..], a, b);
    }
  }

  /** When the bound on a window can be relied upon. */
  predicate Bounding(c: Config) {
    c.window >= 0 || c.requests <= 0
  }

  /** Any closed interval as long as k windows lets at most k + 1 budgets through,
      from whatever state the window is in. */
  lemma {:induction false} WindowRate(c: Config, w: Window, ts: seq<Time>, a: Time, k: nat)
    requires Bounding(c) && Ordered(ts) && w.count >= 0
    ensures Passes(c, w, ts, a, a + k * c.window) <= (k + 1) * Max(0, c.requests)
    decreases |ts|
  {
    var b, r := a + k * c.window, Max(0, c.requests);
    assert (k + 1) * r == k * r + r && k * r >= 0;
    if c.window < 0 {
      ClosedWindow(c, w, ts, a, b);
    } else if ts != [] {
      var t, w' := ts[0], Tick(c, w, ts[0]);
      if t < a {
        WindowRate(c, w', ts[1..], a, k);
      } else {
        Budget(c, w', ts[1..], a, b, k) by {
          assert w'.resetAt.value >= t;
        }
      }
    }
  }

  function Burst(t: Time, n: nat): (ts: seq<Time>)
    ensures |ts| == n && Ordered(ts) && forall i :: 0 <= i < n ==> ts[i] == t
  {
    if n == 0 then [] else [t] + Burst(t, n - 1)
  }

  /** A window of negative length is over as soon as it opens, so every call reopens it. */
  lemma {:induction false} NegativeWindow(c: Config, w: Window, t: Time, n: nat)
    requires c.window < 0 && c.requests >= 1 && (w.resetAt.Some? ==> w.resetAt.value < t)
    ensures Passes(c, w, Burst(t, n), t, t) == n
    decreases n
  {
    if n > 0 {
      assert Tick(c, w, t) == Cell(1, Some(t + c.window));
      assert Burst(t, n)[1..] == Burst(t, n - 1);
      NegativeWindow(c, Tick(c, w, t), t, n - 1);
    }
  }

  predicate WithinBudget(c: Config, w: Window, ts: seq<Time>, a: Time, k: nat) {
    Passes(c, w, ts, a, a + k * c.window) <= (k + 1) * Max(0, c.requests)
  }

  /** The bound holds of a window, in all states and for all calls, iff its length is not negative or it
      allows nothing at all. */
  lemma WindowRateExact(c: Config)
    ensures Bounding(c) <==> forall w: Window, ts, a, k: nat :: w.count >= 0 && Ordered(ts) ==>
              WithinBudget(c, w, ts, a, k)
  {
    if Bounding(c) {
      forall w: Window, ts, a, k: nat | w.count >= 0 && Ordered(ts)
        ensures WithinBudget(c, w, ts, a, k)
      {
        WindowRate(c, w, ts, a, k);
      }
    } else {
      var ts := Burst(0, c.requests + 1);
      NegativeWindow(c, FRESH, 0, c.requests + 1);
      assert 0 * c.window == 0 && (0 + 1) * Max(0, c.requests) == c.requests;
      assert !WithinBudget(c, FRESH, ts, 0, 0);
    }
  }

  // ------------------------------------------------------- the log against the windows

  /** Times of the logged calls of `id`. */
  function Times(log: seq<Recording>, id: string): seq<Time> {
    if log == [] then []
    else
      var n := |log| - 1;
      Times(log[..n], id) + if log[n].id == id then [log[n].at] else []
  }

  predicate LogOrdered(log: seq<Recording>) {
    forall i, j :: 0 <= i < j < |log| ==> log[i].at <= log[j].at
  }

  /** Window i of `id` as an independent single-window counter would have it after `log`. */
  function Solo(v: TrackerView, id: string, i: nat, log: seq<Recording>): Window
    requires id in v.configs && i < |v.configs[id]|
  {
    WindowAfter(v.configs[id][i], WindowsIn(v.origin, id, |v.configs[id]|)[i], Times(log, id))
  }

  /** Would that independent counter refuse a call at `now`? */
  predicate SoloRefuses(v: TrackerView, id: string, i: nat, log: seq<Recording>, now: Time)
    requires id in v.configs && i < |v.configs[id]|
  {
    Over(v.configs[id][i], Tick(v.configs[id][i], Solo(v, id, i, log), now))
  }

  ghost predicate Answers(v: TrackerView, k: nat)
    requires k < |v.log|
  {
    var r := v.log[k];
    r.exhausted <==>
      && r.id in v.configs
      && exists i :: 0 <= i < |v.configs[r.id]| && SoloRefuses(v, r.id, i, v.log[..k], r.at)
  }

  /** The tracker is exactly its independent single-window counters, joined by "or". */
  ghost predicate Accounted(v: TrackerView) {
    && LogOrdered(v.log)
    && (forall id, i :: id in v.configs && 0 <= i < |v.configs[id]| ==>
          WindowsOf(v, id)[i] == Solo(v, id, i, v.log))
    && (forall k :: 0 <= k < |v.log| ==>
          Answers(v, k))
  }

  lemma NewAccounted(v: TrackerView)
    requires v.log == [] && v.origin == v.windows
    ensures Accounted(v)
  {
    forall id, i | id in v.configs && 0 <= i < |v.configs[id]|
      ensures WindowsOf(v, id)[i] == Solo(v, id, i, v.log)
    {
      assert Times(v.log, id) == [];
    }
  }

  /** A Record call is refused iff one of the independent counters refuses it. */
  lemma RecordAnswers(v: TrackerView, id: string, now: Time)
    requires Accounted(v)
    ensures Record(v, id, now).exhausted <==>
      id in v.configs && exists i :: 0 <= i < |v.configs[id]| && SoloRefuses(v, id, i, v.log, now)
  {
    RecordRefusesSpent(v, id, now);
    if id in v.configs {
      forall i | 0 <= i < |v.configs[id]|
        ensures Over(v.configs[id][i], Tick(v.configs[id][i], WindowsOf(v, id)[i], now))
                == SoloRefuses(v, id, i, v.log, now)
      {
        assert WindowsOf(v, id)[i] == Solo(v, id, i, v.log);
      }
    }
  }

  lemma RecordTimes(v: TrackerView, id: string, now: Time, j: string)
    ensures var u := Record(v, id, now).view;
            Times(u.log, j) == if j == id then Times(v.log, j) + [now] else Times(v.log, j)
  {
    var u := Record(v, id, now).view;
    var n := |v.log|;
    assert u.log[..n] == v.log && u.log[n].id == id && u.log[n].at == now;
  }

  /** A Record call updates the windows of its own id, one by one, and no others. */
  lemma RecordWindowAt(v: TrackerView, id: string, now: Time, j: string, i: nat)
    requires j in v.configs && i < |v.configs[j]|
    ensures var u := Record(v, id, now).view;
            u.configs == v.configs && u.origin == v.origin &&
            WindowsOf(u, j)[i] == if j == id then Tick(v.configs[j][i], WindowsOf(v, j)[i], now) else WindowsOf(v, j)[i]
  {
    if j == id {
      var ws := TickAll(v.configs[id], WindowsOf(v, id), now);
      assert Record(v, id, now).view.windows[id] == ws;
      assert WindowsOf(Record(v, id, now).view, id) == ws;
    }
  }

  lemma RecordWindow(v: TrackerView, id: string, now: Time, j: string, i: nat)
    requires Accounted(v) && j in v.configs && i < |v.configs[j]|
    ensures var u := Record(v, id, now).view; WindowsOf(u, j)[i] == Solo(u, j, i, u.log)
  {
    RecordTimes(v, id, now, j);
    RecordWindowAt(v, id, now, j, i);
    assert WindowsOf(v, j)[i] == Solo(v, j, i, v.log);
    if j == id {
      WindowAfterSnoc(v.configs[j][i], WindowsIn(v.origin, j, |v.configs[j]|)[i], Times(v.log, j), now);
    }
  }

  lemma SameSolo(v: TrackerView, u: TrackerView, id: string, log: seq<Recording>, now: Time)
    requires u.configs == v.configs && u.origin == v.origin
    ensures id in v.configs ==>
      forall i :: 0 <= i < |v.configs[id]| ==> SoloRefuses(u, id, i, log, now) == SoloRefuses(v, id, i, log, now)
  {
  }

  lemma EarlierAnswer(v: TrackerView, u: TrackerView, k: nat)
    requires u.configs == v.configs && u.origin == v.origin && v.log <= u.log && k < |v.log|
    requires Answers(v, k)
    ensures Answers(u, k)
  {
    assert u.log[..k] == v.log[..k];
    SameSolo(v, u, v.log[k].id, v.log[..k], v.log[k].at);
  }

  /** Every Record call keeps the correspondence. */
  lemma RecordAccounted(v: TrackerView, id: string, now: Time)
    requires Accounted(v)
    requires forall k :: 0 <= k < |v.log| ==> v.log[k].at <= now
    ensures Accounted(Record(v, id, now).view)
  {
    var u := Record(v, id, now).view;
    var n := |v.log|;
    assert u.log[..n] == v.log;
    forall j, i | j in v.configs && 0 <= i < |v.configs[j]|
      ensures WindowsOf(u, j)[i] == Solo(u, j, i, u.log)
    {
      RecordWindow(v, id, now, j, i);
    }
    forall k | 0 <= k < |u.log|
      ensures Answers(u, k)
    {
      if k < n {
        EarlierAnswer(v, u, k);
      } else {
        RecordAnswers(v, id, now);
        SameSolo(v, u, id, v.log, now);
      }
    }
  }

  /** Positions in the log of the calls of `id` admitted within [a, b]. */
  ghost function Admitted(log: seq<Recording>, id: string, a: Time, b: Time): set<nat> {
    set k: nat | k < |log| && log[k].id == id && !log[k].exhausted && a <= log[k].at <= b
  }

  lemma AdmittedStep(log: seq<Recording>, id: string, a: Time, b: Time)
    requires log != []
    ensures var r := log[|log| - 1];
            |Admitted(log, id, a, b)| == |Admitted(log[..|log| - 1], id, a, b)|
              + if r.id == id && !r.exhausted && a <= r.at <= b then 1 else 0
  {
    var n := |log| - 1;
    if n in Admitted(log, id, a, b) {
      assert Admitted(log, id, a, b) == Admitted(log[..n], id, a, b) + {n};
    } else {
      assert Admitted(log, id, a, b) == Admitted(log[..n], id, a, b);
    }
  }

  lemma PassesStep(v: TrackerView, log: seq<Recording>, id: string, i: nat, a: Time, b: Time)
    requires Accounted(v) && log <= v.log && log != []
    requires id in v.configs && i < |v.configs[id]|
    ensures var r := log[|log| - 1];
            var c, w0 := v.configs[id][i], WindowsIn(v.origin, id, |v.configs[id]|)[i];
            Passes(c, w0, Times(log, id), a, b) >= Passes(c, w0, Times(log[..|log| - 1], id), a, b)
              + if r.id == id && !r.exhausted && a <= r.at <= b then 1 else 0
  {
    var n := |log| - 1;
    var c, w0, ts := v.configs[id][i], WindowsIn(v.origin, id, |v.configs[id]|)[i], Times(log[..n], id);
    PassesSnoc(c, w0, ts, log[n].at, a, b);
    assert Times(log, id) == if log[n].id == id then ts + [log[n].at] else ts;
    assert Answers(v, n) && v.log[n] == log[n] && v.log[..n] == log[..n];
    assert log[n].id == id && !log[n].exhausted ==> !SoloRefuses(v, id, i, v.log[..n], log[n].at);
  }

  lemma {:induction false} AdmittedPass(v: TrackerView, log: seq<Recording>, id: string, i: nat, a: Time, b: Time)
    requires Accounted(v) && log <= v.log
    requires id in v.configs && i < |v.configs[id]|
    ensures |Admitted(log, id, a, b)|
         <= Passes(v.configs[id][i], WindowsIn(v.origin, id, |v.configs[id]|)[i], Times(log, id), a, b)
    decreases |log|
  {
    if log != [] {
      var n := |log| - 1;
      AdmittedPass(v, log[..n], id, i, a, b);
      AdmittedStep(log, id, a, b);
      PassesStep(v, log, id, i, a, b);
    }
  }

  lemma TimesOrdered(log: seq<Recording>, id: string)
    requires LogOrdered(log)
    ensures Ordered(Times(log, id))
    ensures forall i :: 0 <= i < |Times(log, id)| ==> log != [] && Times(log, id)[i] <= log[|log| - 1].at
  {
    if log != [] {
      var n := |log| - 1;
      TimesOrdered(log[..n], id);
      assert Times(log, id) == Times(log[..n], id) + if log[n].id == id then [log[n].at] else [];
    }
  }

  /** The rate bound of the tracker, for each of its windows. */
  lemma RateBound(v: TrackerView, id: string, i: nat, a: Time, k: nat)
    requires Accounted(v) && id in v.configs && i < |v.configs[id]|
    requires Bounding(v.configs[id][i])
    requires WindowsIn(v.origin, id, |v.configs[id]|)[i].count >= 0
    ensures |Admitted(v.log, id, a, a + k * v.configs[id][i].window)| <= (k + 1) * Max(0, v.configs[id][i].requests)
  {
    var c := v.configs[id][i];
    TimesOrdered(v.log, id);
    AdmittedPass(v, v.log, id, i, a, a + k * c.window);
    WindowRate(c, WindowsIn(v.origin, id, |v.configs[id]|)[i], Times(v.log, id), a, k);
  }

  // ------------------------------------------------------------------ arbitrary runs

  datatype Op = RecordOp(id: string, at: Time) | BlockOp(key: string, until: Time) | PeekOp(key: string, at: Time)

  predicate Within(op: Op, lo: Time, hi: Time) {
    match op
    case RecordOp(_, t) => lo <= t <= hi
    case BlockOp(_, _) => true
    case PeekOp(_, t) => lo <= t <= hi
  }

  function Do(v: TrackerView, op: Op): TrackerView {
    match op
    case RecordOp(id, t) => Record(v, id, t).view
    case BlockOp(k, u) => BlockKey(v, k, u)
    case PeekOp(k, t) => Forget(v, k, t)
  }

  function DoAll(v: TrackerView, ops: seq<Op>): TrackerView
    decreases |ops|
  {
    if ops == [] then v else DoAll(Do(v, ops[0]), ops[1..])
  }

  /** Any operation up to its reset leaves an exhausted window exhausted. */
  lemma OverOnce(v: TrackerView, id: string, i: nat, r: Time, op: Op)
    requires id in v.configs && i < |v.configs[id]|
    requires var w := WindowsOf(v, id)[i]; Over(v.configs[id][i], w) && w.resetAt.Some? && r <= w.resetAt.value
    requires op.RecordOp? ==> op.at <= r
    ensures var u := Do(v, op);
            u.configs == v.configs &&
            var w := WindowsOf(u, id)[i]; Over(v.configs[id][i], w) && w.resetAt.Some? && r <= w.resetAt.value
  {
    if op.RecordOp? {
      RecordWindowAt(v, op.id, op.at, id, i);
    }
  }

  /** One exhausted window stays exhausted up to its reset. */
  lemma {:induction false} OverStays(v: TrackerView, id: string, i: nat, r: Time, ops: seq<Op>, t: Time)
    requires id in v.configs && i < |v.configs[id]|
    requires var w := WindowsOf(v, id)[i]; Over(v.configs[id][i], w) && w.resetAt.Some? && r <= w.resetAt.value
    requires forall op :: op in ops ==> op.RecordOp? ==> op.at <= r
    requires t <= r
    ensures Spent(DoAll(v, ops), id, t)
    decreases |ops|
  {
    hide Do;
    if ops == [] {
      assert Over(v.configs[id][i], Tick(v.configs[id][i], WindowsOf(v, id)[i], t));
    } else {
      var v' := Do(v, ops[0]);
      assert ops[0] in ops;
      OverOnce(v, id, i, r, ops[0]);
      OverStays(v', id, i, r, ops[1..], t);
    }
  }

  /** Exhaustion is sticky: once a Record call reports reset r, every Record of the same id up to
      and including r is refused too, whatever else happens to the tracker in between. */
  lemma ExhaustionSticky(v: TrackerView, id: string, t: Time, ops: seq<Op>, t': Time)
    requires var first := Record(v, id, t);
             first.exhausted && t' <= first.resetAt.value
             && forall op :: op in ops ==> Within(op, t, t')
    ensures Record(DoAll(Record(v, id, t).view, ops), id, t').exhausted
  {
    var first := Record(v, id, t);
    var cfgs, ws := v.configs[id], TickAll(v.configs[id], WindowsOf(v, id), t);
    EarliestIsLeast(cfgs, ws, |cfgs|);
    var i :| 0 <= i < |cfgs| && Over(cfgs[i], ws[i]) && ws[i].resetAt == Earliest(cfgs, ws, |cfgs|);
    assert WindowsOf(first.view, id) == ws;
    OverStays(first.view, id, i, first.resetAt.value, ops, t');
    RecordRefusesSpent(DoAll(first.view, ops), id, t');
  }

  /** A window's reset lies in the past right after a call iff the call reset it and its length is negative. */
  lemma ResetInPast(c: Config, w: Window, t: Time)
    ensures Tick(c, w, t).resetAt.value < t <==> c.window < 0 && After(t, w.resetAt)
  {
  }

  /** The reported reset is the least one among the exhausted windows, and it lies in the past iff an exhausted
      window of negative length was opened by this very call. */
  lemma ExhaustionTight(v: TrackerView, id: string, t: Time)
    requires Record(v, id, t).exhausted
    ensures id in v.configs
    ensures var r, cfgs, ws := Record(v, id, t), v.configs[id], TickAll(v.configs[id], WindowsOf(v, id), t);
            && r.resetAt.Some?
            && (exists i :: 0 <= i < |cfgs| && Over(cfgs[i], ws[i]) && ws[i].resetAt == r.resetAt)
            && (forall i :: 0 <= i < |cfgs| && Over(cfgs[i], ws[i]) ==> r.resetAt.value <= ws[i].resetAt.value)
    ensures var r, cfgs, ws := Record(v, id, t), v.configs[id], WindowsOf(v, id);
            r.resetAt.value < t <==>
              exists i :: 0 <= i < |cfgs| && cfgs[i].window < 0
                          && Over(cfgs[i], Tick(cfgs[i], ws[i], t)) && After(t, ws[i].resetAt)
  {
    var cfgs, ws := v.configs[id], TickAll(v.configs[id], WindowsOf(v, id), t);
    EarliestIsLeast(cfgs, ws, |cfgs|);
    forall i | 0 <= i < |cfgs|
      ensures ws[i].resetAt.value < t <==> cfgs[i].window < 0 && After(t, WindowsOf(v, id)[i].resetAt)
    {
      ResetInPast(cfgs[i], WindowsOf(v, id)[i], t);
    }
  }

  // ------------------------------------------------------------------- admission, exactly

  /** Position of the call that opened the window in which the last of these calls counts: a call made
      after the window of the call before it is over opens a new one. */
  function Opener(ts: seq<Time>, length: int): (o: nat)
    requires ts != []
    ensures o < |ts|
  {
    var n := |ts| - 1;
    if n == 0 then 0
    else
      var o := Opener(ts[..n], length);
      if ts[o] + length < ts[n] then n else o
  }

  /** A fresh window counts the calls since its opener, and is over one length after it. */
  lemma {:induction false} WindowByOpener(c: Config, ts: seq<Time>)
    requires ts != []
    ensures var o := Opener(ts, c.window);
            WindowAfter(c, FRESH, ts) == Cell(|ts| - o, Some(ts[o] + c.window))
    decreases |ts|
  {
    var n := |ts| - 1;
    assert ts[..n] + [ts[n]] == ts;
    WindowAfterSnoc(c, FRESH, ts[..n], ts[n]);
    if n > 0 {
      WindowByOpener(c, ts[..n]);
    } else {
      assert ts[..0] == [];
    }
  }

  /** Would one more call of `id` at `now` exceed window i, counted from its opener? */
  predicate Exceeds(v: TrackerView, id: string, now: Time, i: nat)
    requires id in v.configs && i < |v.configs[id]|
  {
    var ts := Times(v.log, id) + [now];
    |ts| - Opener(ts, v.configs[id][i].window) > v.configs[id][i].requests
  }

  /** When the window that such a call counts in is over. */
  function OverAt(v: TrackerView, id: string, now: Time, i: nat): Time
    requires id in v.configs && i < |v.configs[id]|
  {
    var ts := Times(v.log, id) + [now];
    ts[Opener(ts, v.configs[id][i].window)] + v.configs[id][i].window
  }

  lemma OpenWindow(v: TrackerView, id: string, now: Time, i: nat)
    requires Accounted(v) && v.origin == map[] && id in v.configs && i < |v.configs[id]|
    ensures var c, w := v.configs[id][i], Tick(v.configs[id][i], WindowsOf(v, id)[i], now);
            (Over(c, w) <==> Exceeds(v, id, now, i)) && w.resetAt == Some(OverAt(v, id, now, i))
  {
    var c, ts := v.configs[id][i], Times(v.log, id);
    assert WindowsOf(v, id)[i] == Solo(v, id, i, v.log);
    WindowAfterSnoc(c, FRESH, ts, now);
    WindowByOpener(c, ts + [now]);
  }

  /** Record, exactly, on a tracker that started afresh: a call is refused iff, counted from the opener of
      one of its windows, it is more than the limit allows; the reported reset is the earliest end of such a
      window. */
  lemma RecordExact(v: TrackerView, id: string, now: Time)
    requires Accounted(v) && v.origin == map[] && id in v.configs
    ensures var r, n := Record(v, id, now), |v.configs[id]|;
            && (r.exhausted <==> exists i :: 0 <= i < n && Exceeds(v, id, now, i))
            && (r.exhausted ==>
                  && r.resetAt.Some?
                  && (exists i :: 0 <= i < n && Exceeds(v, id, now, i) && r.resetAt.value == OverAt(v, id, now, i))
                  && forall i :: 0 <= i < n && Exceeds(v, id, now, i) ==> r.resetAt.value <= OverAt(v, id, now, i))
  {
    hide Accounted, Exceeds, OverAt, Tick, Over;
    var cfgs, ws := v.configs[id], TickAll(v.configs[id], WindowsOf(v, id), now);
    EarliestIsLeast(cfgs, ws, |cfgs|);
    forall i | 0 <= i < |cfgs|
      ensures (Over(cfgs[i], ws[i]) <==> Exceeds(v, id, now, i)) && ws[i].resetAt == Some(OverAt(v, id, now, i))
    {
      OpenWindow(v, id, now, i);
    }
  }

  /** Positions in the log of the calls of `id`, refused ones included, within [a, b]. */
  ghost function CallsIn(log: seq<Recording>, id: string, a: Time, b: Time): set<nat> {
    set k: nat | k < |log| && log[k].id == id && a <= log[k].at <= b
  }

  /** The last calls, from position o of their times on, lie within [a, b]. */
  lemma {:induction false} TailWithin(log: seq<Recording>, id: string, o: nat, a: Time, b: Time)
    requires o <= |Times(log, id)| && forall k :: o <= k < |Times(log, id)| ==> a <= Times(log, id)[k] <= b
    ensures |Times(log, id)| - o <= |CallsIn(log, id, a, b)|
    decreases |log|
  {
    if log != [] && o < |Times(log, id)| {
      var n, ts := |log| - 1, Times(log[..|log| - 1], id);
      assert forall k :: 0 <= k < |ts| ==> Times(log, id)[k] == ts[k];
      if log[n].id == id {
        assert Times(log, id)[|ts|] == log[n].at;
        assert CallsIn(log, id, a, b) == CallsIn(log[..n], id, a, b) + {n};
        TailWithin(log[..n], id, o, a, b);
      } else {
        assert CallsIn(log, id, a, b) == CallsIn(log[..n], id, a, b);
        TailWithin(log[..n], id, o, a, b);
      }
    }
  }

  /** Calls that count in the opener's window are not later than its end. */
  lemma {:induction false} OpenerReach(ts: seq<Time>, length: int, k: nat)
    requires ts != [] && Ordered(ts) && Opener(ts, length) < k < |ts|
    ensures ts[Opener(ts, length)] <= ts[k] <= ts[Opener(ts, length)] + length
    decreases |ts|
  {
    var n := |ts| - 1;
    if k < n {
      OpenerReach(ts[..n], length, k);
    }
  }

  /** What the tracker of a provider or model has seen, as the program goes on. */
  ghost predicate InUse(v: TrackerView, now: Time) {
    Accounted(v) && v.origin == map[] && forall k :: 0 <= k < |v.log| ==> v.log[k].at <= now
  }

  lemma WithinBudgetAt(v: TrackerView, id: string, now: Time, i: nat)
    requires InUse(v, now) && id in v.configs && i < |v.configs[id]|
    requires |CallsIn(v.log, id, now - v.configs[id][i].window, now)| < v.configs[id][i].requests
    ensures !Exceeds(v, id, now, i)
  {
    var ts, length := Times(v.log, id), v.configs[id][i].window;
    var o := Opener(ts + [now], length);
    TimesOrdered(v.log, id);
    if o < |ts| {
      OpenerReach(ts + [now], length, |ts|);
      forall k | o <= k < |ts|
        ensures now - length <= ts[k] <= now
      {
        assert (ts + [now])[k] == ts[k] && ts[o] <= ts[k];
      }
      TailWithin(v.log, id, o, now - length, now);
    }
  }

  /** Have fewer calls of `id` than each limit allows, refused ones included, been made within the last
      window length up to now? */
  ghost predicate WithinLimits(cfgs: seq<Config>, log: seq<Recording>, id: string, now: Time) {
    forall c :: c in cfgs ==> |CallsIn(log, id, now - c.window, now)| < c.requests
  }

  /** A call within budget is admitted: with fewer than R calls, refused ones included, in the last W up to
      now, for each window (R, W) of the id, the call at now is not refused. */
  lemma WithinBudgetAdmitted(v: TrackerView, id: string, now: Time)
    requires InUse(v, now)
    requires id in v.configs ==> WithinLimits(v.configs[id], v.log, id, now)
    ensures !Record(v, id, now).exhausted
  {
    if id in v.configs {
      RecordExact(v, id, now);
      forall i | 0 <= i < |v.configs[id]|
        ensures !Exceeds(v, id, now, i)
      {
        assert v.configs[id][i] in v.configs[id];
        WithinBudgetAt(v, id, now, i);
      }
    }
  }

  lemma {:induction false} TimesLogged(log: seq<Recording>, id: string, t: Time)
    requires t in Times(log, id)
    ensures exists k :: 0 <= k < |log| && log[k].id == id && log[k].at == t
  {
    var n := |log| - 1;
    if t in Times(log[..n], id) {
      TimesLogged(log[..n], id, t);
      var k :| 0 <= k < n && log[..n][k].id == id && log[..n][k].at == t;
      assert log[k] == log[..n][k];
    }
  }

  /** Is t the time of this call of `id` or of a logged one? */
  predicate CalledAt(v: TrackerView, id: string, now: Time, t: Time) {
    t == now || exists k :: 0 <= k < |v.log| && v.log[k].id == id && v.log[k].at == t
  }

  /** A reported reset is one window length after a call of the id, this one or a logged one. */
  lemma ResetFollowsCall(v: TrackerView, id: string, now: Time)
    requires InUse(v, now) && Record(v, id, now).exhausted
    ensures id in v.configs && Record(v, id, now).resetAt.Some?
    ensures exists c, t :: c in v.configs[id] && CalledAt(v, id, now, t)
                           && Record(v, id, now).resetAt.value == t + c.window
  {
    RecordExact(v, id, now);
    var ts, reset := Times(v.log, id) + [now], Record(v, id, now).resetAt.value;
    var i :| 0 <= i < |v.configs[id]| && Exceeds(v, id, now, i) && reset == OverAt(v, id, now, i);
    var c := v.configs[id][i];
    var t := ts[Opener(ts, c.window)];
    if t in Times(v.log, id) {
      TimesLogged(v.log, id, t);
    }
    assert c in v.configs[id] && reset == t + c.window && CalledAt(v, id, now, t);
  }

  lemma SameLog(a: TrackerView, b: TrackerView)
    requires Accounted(a) && b == a.(cooldowns := b.cooldowns)
    ensures Accounted(b)
  {
    forall id, i | id in b.configs && 0 <= i < |b.configs[id]|
      ensures WindowsOf(b, id)[i] == Solo(b, id, i, b.log)
    {
      assert WindowsOf(a, id)[i] == Solo(a, id, i, a.log);
    }
    forall k | 0 <= k < |b.log|
      ensures Answers(b, k)
    {
      EarlierAnswer(a, b, k);
    }
  }

  /** Every Record call is made at the time of those before it or later, and up to now. */
  ghost predicate OpsOrdered(ops: seq<Op>, now: Time) {
    && (forall i, j :: 0 <= i < j < |ops| && ops[i].RecordOp? && ops[j].RecordOp? ==> ops[i].at <= ops[j].at)
    && (forall i :: 0 <= i < |ops| && ops[i].RecordOp? ==> ops[i].at <= now)
  }

  lemma {:induction false} DoAllInUse(v: TrackerView, ops: seq<Op>, now: Time)
    requires Accounted(v) && v.origin == map[] && OpsOrdered(ops, now)
    requires forall k :: 0 <= k < |v.log| ==> v.log[k].at <= now
    requires forall k, i :: 0 <= k < |v.log| && 0 <= i < |ops| && ops[i].RecordOp? ==> v.log[k].at <= ops[i].at
    ensures InUse(DoAll(v, ops), now) && DoAll(v, ops).configs == v.configs
    decreases |ops|
  {
    hide Accounted;
    if ops != [] {
      var v' := Do(v, ops[0]);
      if ops[0].RecordOp? {
        RecordAccounted(v, ops[0].id, ops[0].at);
      } else {
        SameLog(v, v');
      }
      DoAllInUse(v', ops[1..], now);
    }
  }

  lemma FreshInUse(configs: map<string, seq<Config>>, ops: seq<Op>, now: Time)
    requires OpsOrdered(ops, now)
    ensures InUse(DoAll(NewView(configs), ops), now) && DoAll(NewView(configs), ops).configs == configs
  {
    NewAccounted(NewView(configs));
    DoAllInUse(NewView(configs), ops, now);
  }

  /** Every tracker that starts afresh and is then used in any way, at times in order, admits a call that is
      within its limits; and a reset that it reports is one configured window length after a call of the
      same id, this one or an earlier one. */
  lemma AdmissionLaw(configs: map<string, seq<Config>>, ops: seq<Op>, id: string, now: Time)
    requires OpsOrdered(ops, now)
    ensures var v := DoAll(NewView(configs), ops);
            var r := Record(v, id, now);
            && ((id in configs ==> WithinLimits(configs[id], v.log, id, now)) ==> !r.exhausted)
            && (r.exhausted ==>
                  && id in configs && r.resetAt.Some?
                  && exists c, t :: c in configs[id] && r.resetAt.value == t + c.window && CalledAt(v, id, now, t))
  {
    var v := DoAll(NewView(configs), ops);
    FreshInUse(configs, ops, now);
    if id in configs ==> WithinLimits(configs[id], v.log, id, now) {
      WithinBudgetAdmitted(v, id, now);
    }
    if Record(v, id, now).exhausted {
      ResetFollowsCall(v, id, now);
    }
  }

  // ------------------------------------------------------------------ restart equivalence

  datatype Answer = Answer(exhausted: bool, resetAt: Option<Time>)

  /** Answers of a run of Record calls, of any ids. */
  function AnswersOf(v: TrackerView, calls: seq<(string, Time)>): seq<Answer>
    decreases |calls|
  {
    if calls == [] then []
    else
      var r := Record(v, calls[0].0, calls[0].1);
      [Answer(r.exhausted, r.resetAt)] + AnswersOf(r.view, calls[1..])
  }

  /** Restores every listed id from the windows of `saved`, as start-up does. */
  function RestoreEach(v: TrackerView, saved: TrackerView, ids: seq<string>, t: Time): TrackerView
    requires forall id :: id in ids ==> id in saved.windows
    decreases |ids|
  {
    if ids == [] then v
    else RestoreEach(Restore(v, ids[0], saved.windows[ids[0]], t), saved, ids[1..], t)
  }

  /** The two windows differ at most by one that is over at t in `live` and not yet open in `other`. */
  predicate Alike(live: Window, other: Window, t: Time) {
    live == other || (other == FRESH && live.resetAt.Some? && live.resetAt.value <= t)
  }

  ghost predicate Simulates(live: TrackerView, other: TrackerView, t: Time) {
    live.configs == other.configs &&
    forall id, i :: id in live.configs && 0 <= i < |live.configs[id]| ==>
      Alike(WindowsOf(live, id)[i], WindowsOf(other, id)[i], t)
  }

  /** Windows as the tracker itself makes them: one per config. */
  ghost predicate WellFormed(v: TrackerView) {
    forall id :: id in v.windows ==>
      id in v.configs && |v.windows[id]| == |v.configs[id]|
  }

  lemma RecordWellFormed(v: TrackerView, id: string, now: Time)
    requires WellFormed(v)
    ensures WellFormed(Record(v, id, now).view)
  {
  }

  lemma SameAnswer(live: TrackerView, other: TrackerView, t: Time, id: string, now: Time)
    requires Simulates(live, other, t) && t < now && id in live.configs
    ensures var cfgs := live.configs[id];
            var a, b := TickAll(cfgs, WindowsOf(live, id), now), TickAll(cfgs, WindowsOf(other, id), now);
            Earliest(cfgs, a, |cfgs|) == Earliest(cfgs, b, |cfgs|)
  {
    var cfgs := live.configs[id];
    var a, b := TickAll(cfgs, WindowsOf(live, id), now), TickAll(cfgs, WindowsOf(other, id), now);
    forall i | 0 <= i < |cfgs|
      ensures a[i] == b[i]
    {
      assert Alike(WindowsOf(live, id)[i], WindowsOf(other, id)[i], t);
    }
    EarliestAgrees(cfgs, a, b, |cfgs|);
  }

  lemma TickAlike(c: Config, live: Window, other: Window, t: Time, now: Time)
    requires Alike(live, other, t) && t < now
    ensures Tick(c, live, now) == Tick(c, other, now)
  {
  }

  lemma StillAlike(live: TrackerView, other: TrackerView, t: Time, id: string, now: Time, j: string, i: nat)
    requires live.configs == other.configs && t < now && j in live.configs && i < |live.configs[j]|
    requires Alike(WindowsOf(live, j)[i], WindowsOf(other, j)[i], t)
    ensures Alike(WindowsOf(Record(live, id, now).view, j)[i], WindowsOf(Record(other, id, now).view, j)[i], t)
  {
    RecordWindowAt(live, id, now, j, i);
    RecordWindowAt(other, id, now, j, i);
    TickAlike(live.configs[j][i], WindowsOf(live, j)[i], WindowsOf(other, j)[i], t, now);
  }

  /** One call: same answer, and the two trackers stay alike. */
  lemma SimulatedCall(live: TrackerView, other: TrackerView, t: Time, id: string, now: Time)
    requires Simulates(live, other, t) && t < now
    ensures var a, b := Record(live, id, now), Record(other, id, now);
            a.exhausted == b.exhausted && a.resetAt == b.resetAt && Simulates(a.view, b.view, t)
  {
    if id in live.configs {
      SameAnswer(live, other, t, id, now);
    }
    forall j, i | j in live.configs && 0 <= i < |live.configs[j]|
      ensures Alike(WindowsOf(Record(live, id, now).view, j)[i], WindowsOf(Record(other, id, now).view, j)[i], t)
    {
      assert Alike(WindowsOf(live, j)[i], WindowsOf(other, j)[i], t);
      StillAlike(live, other, t, id, now, j, i);
    }
  }

  lemma {:induction false} SimulatedRun(live: TrackerView, other: TrackerView, t: Time, calls: seq<(string, Time)>)
    requires Simulates(live, other, t)
    requires forall c :: c in calls ==> t < c.1
    ensures AnswersOf(live, calls) == AnswersOf(other, calls)
    decreases |calls|
  {
    if calls != [] {
      var (id, now) := calls[0];
      assert calls[0] in calls;
      SimulatedCall(live, other, t, id, now);
      SimulatedRun(Record(live, id, now).view, Record(other, id, now).view, t, calls[1..]);
    }
  }

  lemma {:induction false} RestoreEachWindows(v: TrackerView, saved: TrackerView, ids: seq<string>, t: Time, id: string)
    requires WellFormed(saved) && v.configs == saved.configs
    requires forall j :: j in ids ==> j in saved.windows
    requires id in v.configs
    requires id in v.windows ==>
               && id in saved.windows
               && v.windows[id] == RestoredWindows(Padded([], |v.configs[id]|), saved.windows[id], t)
    ensures var u := RestoreEach(v, saved, ids, t);
            u.configs == v.configs &&
            if id in ids || id in v.windows
            then id in saved.windows && id in u.windows
                 && u.windows[id] == RestoredWindows(Padded([], |v.configs[id]|), saved.windows[id], t)
            else id !in u.windows
    decreases |ids|
  {
    if ids != [] {
      assert ids[0] in ids;
      var v' := Restore(v, ids[0], saved.windows[ids[0]], t);
      if ids[0] == id {
        var n := |v.configs[id]|;
        assert v'.windows[id] == RestoredWindows(Padded([], n), saved.windows[id], t) by {
          if id in v.windows {
            assert WindowsOf(v, id) == v.windows[id];
            assert RestoredWindows(v.windows[id], saved.windows[id], t) == v.windows[id];
          }
        }
      }
      RestoreEachWindows(v', saved, ids[1..], t, id);
    }
  }

  lemma RestoredConfigs(v: TrackerView, saved: TrackerView, ids: seq<string>, t: Time)
    requires forall j :: j in ids ==> j in saved.windows
    ensures RestoreEach(v, saved, ids, t).configs == v.configs
    decreases |ids|
  {
    if ids != [] {
      RestoredConfigs(Restore(v, ids[0], saved.windows[ids[0]], t), saved, ids[1..], t);
    }
  }

  /** Does some saved window reset at t? */
  ghost predicate ResetsAt(saved: TrackerView, t: Time) {
    exists id, i :: id in saved.windows && 0 <= i < |saved.windows[id]| && saved.windows[id][i].resetAt == Some(t)
  }

  function Restarted(saved: TrackerView, ids: seq<string>, t: Time): TrackerView
    requires forall id :: id in ids <==> id in saved.windows
  {
    RestoreEach(NewView(saved.configs), saved, ids, t)
  }

  /** A tracker restored at t differs from the running one only in windows that are over at t, or strictly
      before t if none resets at t itself. */
  lemma RestartSimulates(saved: TrackerView, ids: seq<string>, t: Time, end: Time)
    requires WellFormed(saved)
    requires forall id :: id in ids <==> id in saved.windows
    requires end == t || (end == t - 1 && !ResetsAt(saved, t))
    ensures Simulates(saved, Restarted(saved, ids, t), end)
  {
    var other := Restarted(saved, ids, t);
    RestoredConfigs(NewView(saved.configs), saved, ids, t);
    forall id, i | id in saved.configs && 0 <= i < |saved.configs[id]|
      ensures Alike(WindowsOf(saved, id)[i], WindowsOf(other, id)[i], end)
    {
      RestoreEachWindows(NewView(saved.configs), saved, ids, t, id);
    }
  }

  /** A fresh tracker restored at time t from the saved windows answers every later sequence of
      Record calls as the tracker that was never stopped. */
  lemma RestartEquivalent(saved: TrackerView, ids: seq<string>, t: Time, calls: seq<(string, Time)>)
    requires WellFormed(saved)
    requires forall id :: id in ids <==> id in saved.windows
    requires forall c :: c in calls ==> t < c.1
    ensures AnswersOf(Restarted(saved, ids, t), calls) == AnswersOf(saved, calls)
  {
    RestartSimulates(saved, ids, t, t);
    SimulatedRun(saved, Restarted(saved, ids, t), t, calls);
  }

  // ------------------------------------------------------------- restart at the very instant

  /** The tracker after a run of Record calls. */
  function AfterCalls(v: TrackerView, calls: seq<(string, Time)>): TrackerView
    decreases |calls|
  {
    if calls == [] then v
    else
      var n := |calls| - 1;
      Record(AfterCalls(v, calls[..n]), calls[n].0, calls[n].1).view
  }

  lemma {:induction false} AfterCallsCons(v: TrackerView, calls: seq<(string, Time)>)
    requires calls != []
    ensures AfterCalls(v, calls) == AfterCalls(Record(v, calls[0].0, calls[0].1).view, calls[1..])
    decreases |calls|
  {
    var n := |calls| - 1;
    if n > 0 {
      AfterCallsCons(v, calls[..n]);
      assert calls[..n][1..] == calls[1..][..n - 1];
    } else {
      assert calls[..0] == [] && calls[1..] == [];
    }
  }

  lemma {:induction false} AnswersSnoc(v: TrackerView, calls: seq<(string, Time)>, c: (string, Time))
    ensures var r := Record(AfterCalls(v, calls), c.0, c.1);
            AnswersOf(v, calls + [c]) == AnswersOf(v, calls) + [Answer(r.exhausted, r.resetAt)]
    decreases |calls|
  {
    if calls == [] {
      assert calls + [c] == [c] && [c][1..] == [];
    } else {
      var first := Record(v, calls[0].0, calls[0].1);
      assert (calls + [c])[0] == calls[0] && (calls + [c])[1..] == calls[1..] + [c];
      AfterCallsCons(v, calls);
      AnswersSnoc(first.view, calls[1..], c);
    }
  }

  /** n calls of one id at one instant. */
  function Repeat(id: string, t: Time, n: nat): (calls: seq<(string, Time)>)
    ensures |calls| == n
    ensures forall c :: c in calls ==> c == (id, t)
  {
    if n == 0 then [] else Repeat(id, t, n - 1) + [(id, t)]
  }

  /** A window that resets at t keeps counting at t. */
  lemma {:induction false} RepeatCounts(v: TrackerView, id: string, i: nat, t: Time, n: nat)
    requires id in v.configs && i < |v.configs[id]| && WindowsOf(v, id)[i].resetAt == Some(t)
    ensures var u := AfterCalls(v, Repeat(id, t, n));
            u.configs == v.configs && WindowsOf(u, id)[i] == Cell(WindowsOf(v, id)[i].count + n, Some(t))
  {
    if n > 0 {
      RepeatCounts(v, id, i, t, n - 1);
      assert Repeat(id, t, n)[..n - 1] == Repeat(id, t, n - 1);
      RecordWindowAt(AfterCalls(v, Repeat(id, t, n - 1)), id, t, id, i);
    } else {
      assert Repeat(id, t, 0) == [];
    }
  }

  /** Windows of positive length that are closed at t, or reset after it, never reset at t. */
  ghost predicate LaterResets(v: TrackerView, id: string, t: Time)
    requires id in v.configs
  {
    forall i :: 0 <= i < |v.configs[id]| ==> WindowsOf(v, id)[i].resetAt.Some? ==> WindowsOf(v, id)[i].resetAt.value > t
  }

  lemma {:induction false} RepeatLater(v: TrackerView, id: string, t: Time, n: nat)
    requires id in v.configs && LaterResets(v, id, t) && forall c :: c in v.configs[id] ==> c.window > 0
    ensures var u := AfterCalls(v, Repeat(id, t, n)); u.configs == v.configs && LaterResets(u, id, t)
  {
    if n > 0 {
      var before := AfterCalls(v, Repeat(id, t, n - 1));
      RepeatLater(v, id, t, n - 1);
      assert Repeat(id, t, n)[..n - 1] == Repeat(id, t, n - 1);
      var u := AfterCalls(v, Repeat(id, t, n));
      forall i | 0 <= i < |v.configs[id]|
        ensures WindowsOf(u, id)[i].resetAt.Some? ==> WindowsOf(u, id)[i].resetAt.value > t
      {
        RecordWindowAt(before, id, t, id, i);
        assert v.configs[id][i] in v.configs[id];
      }
    } else {
      assert Repeat(id, t, 0) == [];
    }
  }

  /** What the next call at t reports: at most t in the first case, later than t in the second. */
  lemma ReportsAt(v: TrackerView, id: string, i: nat, t: Time)
    requires id in v.configs && i < |v.configs[id]| && WindowsOf(v, id)[i].resetAt == Some(t)
    requires WindowsOf(v, id)[i].count >= v.configs[id][i].requests
    ensures Record(v, id, t).resetAt.Some? && Record(v, id, t).resetAt.value <= t
  {
    var cfgs := v.configs[id];
    var ws := TickAll(cfgs, WindowsOf(v, id), t);
    EarliestIsLeast(cfgs, ws, |cfgs|);
    assert Over(cfgs[i], ws[i]) && ws[i].resetAt == Some(t);
  }

  lemma ReportsLater(v: TrackerView, id: string, t: Time)
    requires id in v.configs && LaterResets(v, id, t) && forall c :: c in v.configs[id] ==> c.window > 0
    ensures Record(v, id, t).resetAt.Some? ==> Record(v, id, t).resetAt.value > t
  {
    var cfgs := v.configs[id];
    var ws := TickAll(cfgs, WindowsOf(v, id), t);
    EarliestIsLeast(cfgs, ws, |cfgs|);
    forall i | 0 <= i < |cfgs|
      ensures ws[i].resetAt.value > t
    {
      assert cfgs[i] in cfgs;
    }
  }

  predicate SameAnswers(a: TrackerView, b: TrackerView, calls: seq<(string, Time)>) {
    AnswersOf(a, calls) == AnswersOf(b, calls)
  }

  lemma LastDiffers(a: seq<Answer>, b: seq<Answer>, x: Answer, y: Answer)
    requires x != y
    ensures a + [x] != b + [y]
  {
    assert (a + [x])[|a|] == x && (b + [y])[|b|] == y;
  }

  /** What is restored at t resets after t, or is not open yet. */
  lemma RestoredLater(saved: TrackerView, ids: seq<string>, t: Time, id: string)
    requires WellFormed(saved) && (forall j :: j in ids <==> j in saved.windows) && id in saved.windows
    ensures var other := Restarted(saved, ids, t);
            other.configs == saved.configs && LaterResets(other, id, t)
  {
    RestoreEachWindows(NewView(saved.configs), saved, ids, t, id);
  }

  /** One more call at t is answered differently by a tracker that counts in a full window resetting at t
      and by one whose windows all reset later. */
  lemma CallDiffers(live: TrackerView, other: TrackerView, burst: seq<(string, Time)>, id: string, i: nat, t: Time)
    requires var v := AfterCalls(live, burst);
             id in v.configs && i < |v.configs[id]| && WindowsOf(v, id)[i].resetAt == Some(t)
             && WindowsOf(v, id)[i].count >= v.configs[id][i].requests
    requires var v := AfterCalls(other, burst);
             id in v.configs && LaterResets(v, id, t) && forall c :: c in v.configs[id] ==> c.window > 0
    ensures !SameAnswers(other, live, burst + [(id, t)])
  {
    hide LaterResets, Record;
    var a, b := Record(AfterCalls(live, burst), id, t), Record(AfterCalls(other, burst), id, t);
    ReportsAt(AfterCalls(live, burst), id, i, t);
    ReportsLater(AfterCalls(other, burst), id, t);
    AnswersSnoc(live, burst, (id, t));
    AnswersSnoc(other, burst, (id, t));
    LastDiffers(AnswersOf(other, burst), AnswersOf(live, burst), Answer(b.exhausted, b.resetAt),
                Answer(a.exhausted, a.resetAt));
  }

  /** A burst of calls at t tells the two trackers apart if a window resets at t. */
  lemma BurstDiffers(saved: TrackerView, ids: seq<string>, t: Time, id: string,
          i: nat) returns (calls: seq<(string, Time)>)
    requires WellFormed(saved) && forall j :: j in ids <==> j in saved.windows
    requires forall j, c :: j in saved.configs && c in saved.configs[j] ==> c.window > 0
    requires id in saved.windows && i < |saved.windows[id]| && saved.windows[id][i].resetAt == Some(t)
    ensures forall c :: c in calls ==> t <= c.1
    ensures !SameAnswers(Restarted(saved, ids, t), saved, calls)
  {
    hide AfterCalls, SameAnswers, LaterResets, RestoreEach;
    var other := Restarted(saved, ids, t);
    RestoredLater(saved, ids, t, id);
    assert WindowsOf(saved, id) == saved.windows[id];
    var n: nat := Max(0, saved.configs[id][i].requests - saved.windows[id][i].count);
    RepeatCounts(saved, id, i, t, n);
    RepeatLater(other, id, t, n);
    CallDiffers(saved, other, Repeat(id, t, n), id, i, t);
    calls := Repeat(id, t, n) + [(id, t)];
  }

  /** With windows of positive length, the restored tracker answers all calls from t itself on like the one
      that was never stopped, iff no saved window resets at t. */
  lemma RestartExact(saved: TrackerView, ids: seq<string>, t: Time)
    requires WellFormed(saved) && forall id :: id in ids <==> id in saved.windows
    requires forall id, c :: id in saved.configs && c in saved.configs[id] ==> c.window > 0
    ensures !ResetsAt(saved, t) <==>
      forall calls: seq<(string, Time)> :: (forall c :: c in calls ==> t <= c.1) ==>
        SameAnswers(Restarted(saved, ids, t), saved, calls)
  {
    if ResetsAt(saved, t) {
      var id, i :| id in saved.windows && 0 <= i < |saved.windows[id]| && saved.windows[id][i].resetAt == Some(t);
      var calls := BurstDiffers(saved, ids, t, id, i);
    } else {
      forall calls: seq<(string, Time)> | forall c :: c in calls ==> t <= c.1
        ensures SameAnswers(Restarted(saved, ids, t), saved, calls)
      {
        RestartSimulates(saved, ids, t, t - 1);
        SimulatedRun(saved, Restarted(saved, ids, t), t - 1, calls);
      }
    }
  }

  /** Every tracker that starts afresh keeps one window per config, whatever is done to it. */
  lemma {:induction false} DoAllWellFormed(v: TrackerView, ops: seq<Op>)
    requires WellFormed(v)
    ensures WellFormed(DoAll(v, ops))
    decreases |ops|
  {
    if ops != [] {
      if ops[0].RecordOp? {
        RecordWellFormed(v, ops[0].id, ops[0].at);
      }
      DoAllWellFormed(Do(v, ops[0]), ops[1..]);
    }
  }

  /** Restart equivalence for every tracker the program can have: fresh, then used in any way. */
  lemma ReachedRestart(configs: map<string, seq<Config>>, ops: seq<Op>, ids: seq<string>, t: Time,
          calls: seq<(string, Time)>)
    requires var saved := DoAll(NewView(configs), ops); forall id :: id in ids <==> id in saved.windows
    requires forall c :: c in calls ==> t < c.1
    ensures var saved := DoAll(NewView(configs), ops);
            AnswersOf(Restarted(saved, ids, t), calls) == AnswersOf(saved, calls)
  {
    DoAllWellFormed(NewView(configs), ops);
    RestartEquivalent(DoAll(NewView(configs), ops), ids, t, calls);
  }

  /** The smallest instance: at the very instant a window resets, the running tracker
      still counts in the old window and the restored one opens a new one. */
  lemma RestartBoundary()
    ensures var saved := TrackerView(map["p" := [Config(1, 10)]], map["p" := [Cell(1, Some(7))]], map[], map[], []);
            && Record(saved, "p", 7).exhausted
            && !Record(RestoreEach(NewView(saved.configs), saved, ["p"], 7), "p", 7).exhausted
  {
    var saved := TrackerView(map["p" := [Config(1, 10)]], map["p" := [Cell(1, Some(7))]], map[], map[], []);
    var blank := NewView(saved.configs);
    var other := Restore(blank, "p", saved.windows["p"], 7);
    assert ["p"][1..] == [];
    assert RestoreEach(other, saved, [], 7) == other;
    assert RestoreEach(blank, saved, ["p"], 7) == other;
    assert WindowsOf(other, "p")[0] == FRESH;
    assert Over(Config(1, 10), Tick(Config(1, 10), WindowsOf(saved, "p")[0], 7));
    RecordRefusesSpent(saved, "p", 7);
    RecordRefusesSpent(other, "p", 7);
  }
}
