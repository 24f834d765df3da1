/** Fixed-window counters on values: what one call of Record does to one window,
    to all windows of an id, and to the whole tracker. */
module Windows {
  import opened Prelude

  datatype Config = Config(requests: int, window: int)

  datatype Cell = Cell(count: int, resetAt: Option<Time>)

  /** A window that is not open has counted nothing: it is created so, reset so, and restored open or not at all. */
  type Window = c: Cell | c.resetAt.None? ==> c.count == 0 witness Cell(0, None)

  const FRESH: Window := Cell(0, None)

  /** One window's share of a Record call: lazy reset, then count. */
  function Tick(c: Config, w: Window, now: Time): (r: Window)
    ensures r.resetAt.Some?
  {
    var cleared := if w.resetAt.Some? && After(now, w.resetAt) then FRESH else w;
    var running := if cleared.resetAt.None? then cleared.(resetAt := Some(now + c.window)) else cleared;
    running.(count := running.count + 1)
  }

  predicate Over(c: Config, w: Window) {
    w.count > c.requests
  }

  function Padded(ws: seq<Window>, n: nat): (r: seq<Window>)
    ensures |r| >= n && (|ws| >= n ==> r == ws)
  {
    if |ws| < n then ws + seq(n - |ws|, _ => FRESH) else ws
  }

  function TickAll(cfgs: seq<Config>, ws: seq<Window>, now: Time): (r: seq<Window>)
    requires |ws| >= |cfgs|
    ensures |r| == |ws|
    ensures forall i :: 0 <= i < |cfgs| ==> r[i] == Tick(cfgs[i], ws[i], now)
    ensures forall i :: |cfgs| <= i < |ws| ==> r[i] == ws[i]
  {
    seq(|ws|, i requires 0 <= i < |ws| => if i < |cfgs| then Tick(cfgs[i], ws[i], now) else ws[i])
  }

  /** The earliest reset among the exhausted windows with index below n; none when no window is. */
  function Earliest(cfgs: seq<Config>, ws: seq<Window>, n: nat): (r: Option<Time>)
    requires n <= |cfgs| <= |ws|
    requires forall i :: 0 <= i < n ==> ws[i].resetAt.Some?
  {
    if n == 0 then None
    else
      var r := Earliest(cfgs, ws, n - 1);
      if Over(cfgs[n - 1], ws[n - 1]) && (r.None? || Before(ws[n - 1].resetAt.value, r))
      then ws[n - 1].resetAt
      else r
  }

  lemma {:induction false} EarliestIsLeast(cfgs: seq<Config>, ws: seq<Window>, n: nat)
    requires n <= |cfgs| <= |ws|
    requires forall i :: 0 <= i < n ==> ws[i].resetAt.Some?
    ensures var r := Earliest(cfgs, ws, n);
            && (r.Some? <==> exists i :: 0 <= i < n && Over(cfgs[i], ws[i]))
            && (r.Some? ==> exists i :: 0 <= i < n && Over(cfgs[i], ws[i]) && ws[i].resetAt == r)
            && (r.Some? ==> forall i :: 0 <= i < n && Over(cfgs[i], ws[i]) ==> r.value <= ws[i].resetAt.value)
  {
    if n > 0 {
      EarliestIsLeast(cfgs, ws, n - 1);
    }
  }

  /** Earliest looks at no window beyond its bound. */
  lemma {:induction false} EarliestAgrees(cfgs: seq<Config>, a: seq<Window>, b: seq<Window>, n: nat)
    requires n <= |cfgs| <= |a| && |cfgs| <= |b|
    requires forall i :: 0 <= i < n ==> a[i] == b[i] && a[i].resetAt.Some?
    ensures Earliest(cfgs, a, n) == Earliest(cfgs, b, n)
  {
    if n > 0 {
      EarliestAgrees(cfgs, a, b, n - 1);
    }
  }

  /** One answered Record call. */
  datatype Recording = Recording(id: string, at: Time, exhausted: bool)

  /** A tracker as a value. `origin` holds the windows it started from (empty, or restored)
      and `log` the Record calls answered since; they never influence an answer. */
  datatype TrackerView = TrackerView(configs: map<string, seq<Config>>,
                                     windows: map<string, seq<Window>>,
                                     cooldowns: map<string, Time>,
                                     origin: map<string, seq<Window>>,
                                     log: seq<Recording>)

  function NewView(configs: map<string, seq<Config>>): TrackerView {
    TrackerView(configs, map[], map[], map[], [])
  }

  function WindowsIn(m: map<string, seq<Window>>, id: string, n: nat): (r: seq<Window>)
    ensures |r| >= n
  {
    Padded(if id in m then m[id] else [], n)
  }

  function WindowsOf(v: TrackerView, id: string): (r: seq<Window>)
    requires id in v.configs
    ensures |r| >= |v.configs[id]|
  {
    WindowsIn(v.windows, id, |v.configs[id]|)
  }

  datatype Recorded = Recorded(exhausted: bool, resetAt: Option<Time>, view: TrackerView)

  function Record(v: TrackerView, id: string, now: Time): (r: Recorded)
    ensures r.exhausted <==> r.resetAt.Some?
  {
    if id !in v.configs then
      Recorded(false, None, v.(log := v.log + [Recording(id, now, false)]))
    else
      var cfgs := v.configs[id];
      var ws := TickAll(cfgs, WindowsOf(v, id), now);
      var earliest := Earliest(cfgs, ws, |cfgs|);
      Recorded(earliest.Some?, earliest,
               v.(windows := v.windows[id := ws], log := v.log + [Recording(id, now, earliest.Some?)]))
  }

  /** Would Record(id) be refused at `now`? */
  predicate Spent(v: TrackerView, id: string, now: Time) {
    id in v.configs &&
    exists i :: 0 <= i < |v.configs[id]| && Over(v.configs[id][i], Tick(v.configs[id][i], WindowsOf(v, id)[i], now))
  }

  lemma RecordRefusesSpent(v: TrackerView, id: string, now: Time)
    ensures Record(v, id, now).exhausted <==> Spent(v, id, now)
  {
    if id in v.configs {
      var cfgs := v.configs[id];
      var ws := TickAll(cfgs, WindowsOf(v, id), now);
      EarliestIsLeast(cfgs, ws, |cfgs|);
      forall i | 0 <= i < |cfgs|
        ensures ws[i] == Tick(cfgs[i], WindowsOf(v, id)[i], now)
      {
      }
    }
  }

  function BlockKey(v: TrackerView, key: string, until: Time): TrackerView {
    v.(cooldowns := v.cooldowns[key := until])
  }

  /** A cooldown lasts up to and including its expiry. */
  predicate Cooling(v: TrackerView, key: string, now: Time) {
    key in v.cooldowns && now <= v.cooldowns[key]
  }

  /** IsBlocked also forgets a cooldown that is over. */
  function Forget(v: TrackerView, key: string, now: Time): TrackerView {
    if key in v.cooldowns && !Cooling(v, key, now)
    then v.(cooldowns := map k | k in v.cooldowns && k != key :: v.cooldowns[k])
    else v
  }

  function RestoredWindows(ws: seq<Window>, states: seq<Window>, now: Time): (r: seq<Window>)
    ensures |r| == |ws|
  {
    seq(|ws|, i requires 0 <= i < |ws| =>
      if i < |states| && Before(now, states[i].resetAt) then states[i] else ws[i])
  }

  /** RestoreWindows. The recorded history starts afresh from the restored windows. */
  function Restore(v: TrackerView, id: string, states: seq<Window>, now: Time): TrackerView {
    if id !in v.configs then v
    else
      var windows := v.windows[id := RestoredWindows(WindowsOf(v, id), states, now)];
      v.(windows := windows, origin := windows, log := [])
  }

  /** A concurrency cap and the slots in use; limit 0 means no cap. */
  datatype Slot = Slot(limit: int, active: int)

  predicate HasRoom(slots: map<string, Slot>, id: string) {
    id in slots ==> slots[id].limit == 0 || slots[id].active < slots[id].limit
  }

  function Taken(slots: map<string, Slot>, id: string): map<string, Slot> {
    if id in slots then slots[id := slots[id].(active := slots[id].active + 1)] else slots
  }

  function Released(slots: map<string, Slot>, id: string): map<string, Slot> {
    if id in slots && slots[id].active > 0
    then slots[id := slots[id].(active := slots[id].active - 1)]
    else slots
  }

  predicate Restorable(s: Slot, active: int) {
    active >= 0 && !(s.limit > 0 && active > s.limit)
  }
}
