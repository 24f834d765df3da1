/** The request tracker as the program keeps it: objects updated in place, each method
    tied to its function in module Windows. */
module Limits {
  import opened Prelude
  import opened Windows

  /** Counts in-flight requests of one id against a cap. The compare-and-swap retries of
      concurrent callers are the subject of module Processes; here a call runs alone. */
  class ConcurrencyTracker {
    var active: int
    const limit: int

    constructor (limit: int)
      ensures this.limit == limit && active == 0
    {
      this.limit := limit;
      this.active := 0;
    }

    method TryAcquire() returns (ok: bool)
      modifies this
      ensures ok <==> limit == 0 || old(active) < limit
      ensures active == if ok then old(active) + 1 else old(active)
    {
      if limit == 0 {
        active := active + 1;
        return true;
      }
      var cur := active;
      if cur >= limit {
        return false;
      }
      active := cur + 1;
      return true;
    }

    method Release()
      modifies this
      ensures active == if old(active) > 0 then old(active) - 1 else old(active)
    {
      var cur := active;
      if cur <= 0 {
        return;
      }
      active := cur - 1;
    }
  }

  class Tracker {
    var configs: map<string, seq<Config>>
    var windows: map<string, seq<Window>>
    var blocked: map<string, Time>
    var concurrency: map<string, ConcurrencyTracker>
    ghost var origin: map<string, seq<Window>>
    ghost var log: seq<Recording>

    ghost function Repr(): set<object>
      reads this`concurrency
    {
      {this} + concurrency.Values
    }

    ghost predicate Valid()
      reads this`concurrency
    {
      forall i, j :: i in concurrency && j in concurrency && i != j ==> concurrency[i] != concurrency[j]
    }

    ghost function View(): TrackerView
      reads this`configs, this`windows, this`blocked, this`origin, this`log
    {
      TrackerView(configs, windows, blocked, origin, log)
    }

    ghost function Slots(): map<string, Slot>
      reads this`concurrency, concurrency.Values
    {
      map id | id in concurrency :: Slot(concurrency[id].limit, concurrency[id].active)
    }

    constructor (configs: map<string, seq<Config>>)
      ensures Valid() && fresh(Repr())
      ensures View() == NewView(configs) && Slots() == map[]
    {
      this.configs := configs;
      windows, blocked, concurrency := map[], map[], map[];
      origin, log := map[], [];
    }

    /** One counter per positive cap; the others stay uncapped. */
    method SetConcurrencyLimits(limits: map<string, int>)
      modifies this
      ensures Valid() && fresh(concurrency.Values)
      ensures View() == old(View())
      ensures Slots() == map id | id in limits && limits[id] > 0 :: Slot(limits[id], 0)
    {
      var m: map<string, ConcurrencyTracker> := map[];
      var todo := limits.Keys;
      while todo != {}
        invariant todo <= limits.Keys
        invariant unchanged(this)
        invariant forall id :: id in m ==> fresh(m[id])
        invariant m.Keys == set id | id in limits && id !in todo && limits[id] > 0
        invariant forall id :: id in m ==> m[id].limit == limits[id] && m[id].active == 0
        invariant forall i, j :: i in m && j in m && i != j ==> m[i] != m[j]
        decreases todo
      {
        var id :| id in todo;
        todo := todo - {id};
        if limits[id] > 0 {
          var ct := new ConcurrencyTracker(limits[id]);
          m := m[id := ct];
        }
      }
      concurrency := m;
    }

    method TryAcquireConcurrency(id: string) returns (ok: bool)
      requires Valid()
      modifies if id in concurrency then {concurrency[id]} else {}
      ensures ok <==>
        (id in concurrency ==> concurrency[id].limit == 0 || old(concurrency[id].active) < concurrency[id].limit)
      ensures id in concurrency ==> concurrency[id].active == old(concurrency[id].active) + if ok then 1 else 0
      ensures ok <==> old(HasRoom(Slots(), id))
      ensures Slots() == if ok then Taken(old(Slots()), id) else old(Slots())
    {
      if id in concurrency {
        ok := concurrency[id].TryAcquire();
      } else {
        ok := true;
      }
      assert forall i :: i in concurrency && i != id ==> concurrency[i].active == old(concurrency[i].active);
    }

    method ReleaseConcurrency(id: string)
      requires Valid()
      modifies if id in concurrency then {concurrency[id]} else {}
      ensures id in concurrency ==> concurrency[id].active == old(concurrency[id].active)
                                                                - if old(concurrency[id].active) > 0 then 1 else 0
      ensures Slots() == Released(old(Slots()), id)
    {
      if id in concurrency {
        concurrency[id].Release();
      }
      assert forall i :: i in concurrency && i != id ==> concurrency[i].active == old(concurrency[i].active);
    }

    method RestoreActiveRequests(id: string, active: int)
      requires Valid()
      modifies if id in concurrency then {concurrency[id]} else {}
      ensures id in concurrency ==>
        var ct := concurrency[id];
        ct.active == if active < 0 || (ct.limit > 0 && active > ct.limit) then old(ct.active) else active
      ensures Slots() == if id in concurrency && Restorable(old(Slots())[id], active)
                         then old(Slots())[id := Slot(concurrency[id].limit, active)]
                         else old(Slots())
    {
      if id in concurrency {
        var ct := concurrency[id];
        if active < 0 || (ct.limit > 0 && active > ct.limit) {
          return;
        }
        ct.active := active;
      }
      assert forall i :: i in concurrency && i != id ==> concurrency[i].active == old(concurrency[i].active);
    }

    /** Grows the window list of `id` to one window per config. */
    method EnsureWindows(id: string, cfgs: seq<Config>) returns (ws: seq<Window>)
      modifies this`windows
      ensures ws == WindowsIn(old(windows), id, |cfgs|)
      ensures windows == old(windows)[id := ws]
    {
      ws := if id in windows then windows[id] else [];
      ghost var start := ws;
      while |ws| < |cfgs|
        invariant |start| <= |ws| && (|ws| <= |cfgs| || ws == start)
        invariant ws == start + seq(|ws| - |start|, _ => FRESH)
      {
        ws := ws + [FRESH];
      }
      windows := windows[id := ws];
    }

    /** Counts a request of `id` in all of its windows; reports whether any is over its limit
        and the earliest reset among those. */
    method Record(id: string, now: Time) returns (exhausted: bool, resetAt: Option<Time>)
      modifies this`windows, this`log
      ensures var r := Windows.Record(old(View()), id, now);
              exhausted == r.exhausted && resetAt == r.resetAt && View() == r.view
    {
      hide TickAll;
      exhausted, resetAt := false, None;
      if id !in configs {
        log := log + [Recording(id, now, false)];
        return;
      }
      var cfgs := configs[id];
      var ws: seq<Window> := EnsureWindows(id, cfgs);
      ghost var before: seq<Window> := ws;
      for i := 0 to |cfgs|
        invariant |ws| == |before|
        invariant forall j :: 0 <= j < i ==> ws[j] == Tick(cfgs[j], before[j], now)
        invariant forall j :: i <= j < |ws| ==> ws[j] == before[j]
        invariant exhausted <==> resetAt.Some?
        invariant windows == old(windows)[id := before] && log == old(log)
        invariant resetAt == Earliest(cfgs, ws, i)
      {
        ghost var previous: seq<Window> := ws;
        var w: Window := ws[i];
        if w.resetAt.Some? && After(now, w.resetAt) {
          w := Cell(0, None);
        }
        if w.resetAt.None? {
          w := w.(resetAt := Some(now + cfgs[i].window));
        }
        w := w.(count := w.count + 1);
        ws := ws[i := w];
        EarliestAgrees(cfgs, previous, ws, i);
        if w.count > cfgs[i].requests {
          if !exhausted || Before(w.resetAt.value, resetAt) {
            resetAt := w.resetAt;
          }
          exhausted := true;
        }
      }
      assert ws == TickAll(cfgs, before, now);
      windows := windows[id := ws];
      assert windows == old(windows)[id := ws];
      log := log + [Recording(id, now, exhausted)];
    }

    /** Puts back the saved windows that are still open at `now`. */
    method RestoreWindows(id: string, states: seq<Window>, now: Time)
      modifies this`windows, this`origin, this`log
      ensures View() == Restore(old(View()), id, states, now)
      ensures id in configs ==>
        && id in windows && |windows[id]| >= |configs[id]|
        && forall i :: 0 <= i < |windows[id]| ==>
             windows[id][i]
             == if i < |states| && states[i].resetAt.Some? && now < states[i].resetAt.value then states[i]
                else if id in old(windows) && i < |old(windows)[id]| then old(windows)[id][i]
                else Cell(0, None)
    {
      if id !in configs {
        return;
      }
      var ws: seq<Window> := EnsureWindows(id, configs[id]);
      ghost var before: seq<Window> := ws;
      var i := 0;
      while i < |states| && i < |ws|
        invariant 0 <= i <= |ws| == |before|
        invariant forall j :: 0 <= j < |ws| ==>
          ws[j] == if j < i && j < |states| && Before(now, states[j].resetAt) then states[j] else before[j]
      {
        if Before(now, states[i].resetAt) {
          ws := ws[i := states[i]];
        }
        i := i + 1;
      }
      assert ws == RestoredWindows(before, states, now);
      windows := windows[id := ws];
      origin, log := windows, [];
    }

    method WindowStates(id: string) returns (states: Option<seq<Window>>)
      ensures states == if id in windows then Some(windows[id]) else None
    {
      if id !in windows {
        return None;
      }
      states := Some(windows[id]);
    }

    method Block(key: string, until: Time)
      modifies this`blocked
      ensures blocked == old(blocked)[key := until] && View() == BlockKey(old(View()), key, until)
    {
      blocked := blocked[key := until];
    }

    method IsBlocked(key: string, now: Time) returns (yes: bool)
      modifies this`blocked
      ensures yes <==> key in old(blocked) && now <= old(blocked)[key]
      ensures blocked == if key in old(blocked) && old(blocked)[key] < now then old(blocked) - {key} else old(blocked)
      ensures yes <==> old(Cooling(View(), key, now))
      ensures View() == Forget(old(View()), key, now)
    {
      if key !in blocked {
        return false;
      }
      if After(now, Some(blocked[key])) {
        blocked := map k | k in blocked && k != key :: blocked[k];
        return false;
      }
      return true;
    }
  }
}
