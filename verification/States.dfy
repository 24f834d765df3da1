/** Provider state by time: BLOCKED over EXHAUSTED over UNHEALTHY over AVAILABLE. */
module States {
  import opened Prelude

  datatype State = Available | Unhealthy | Exhausted | Blocked

  datatype StateView = StateView(blocked: map<string, Time>, exhausted: map<string, Time>)

  function StateOf(v: StateView, id: string, now: Time, ready: bool): State {
    if Before(now, At(v.blocked, id)) then Blocked
    else if Before(now, At(v.exhausted, id)) then Exhausted
    else if !ready then Unhealthy
    else Available
  }

  function Barred(v: StateView, id: string, until: Time): StateView {
    v.(blocked := v.blocked[id := until])
  }

  function Drained(v: StateView, id: string, until: Time): StateView {
    v.(exhausted := v.exhausted[id := until])
  }

  function RestoredOne(v: StateView, saved: StateView, id: string, t: Time): StateView {
    var v1 := if Before(t, At(saved.blocked, id)) then Barred(v, id, saved.blocked[id]) else v;
    if Before(t, At(saved.exhausted, id)) then Drained(v1, id, saved.exhausted[id]) else v1
  }

  function RestoredFrom(v: StateView, saved: StateView, ids: seq<string>, t: Time): StateView
    decreases |ids|
  {
    if ids == [] then v else RestoredFrom(RestoredOne(v, saved, ids[0], t), saved, ids[1..], t)
  }

  class Manager {
    var blocked: map<string, Time>
    var exhausted: map<string, Time>

    ghost function View(): StateView
      reads this
    {
      StateView(blocked, exhausted)
    }

    constructor ()
      ensures View() == StateView(map[], map[])
    {
      blocked, exhausted := map[], map[];
    }

    method GetState(id: string, now: Time, ready: bool) returns (s: State)
      ensures s == StateOf(View(), id, now, ready)
      ensures s == Blocked <==> id in blocked && now < blocked[id]
      ensures s == Exhausted <==> s != Blocked && id in exhausted && now < exhausted[id]
      ensures s == Available <==>
        ready && (id in blocked ==> blocked[id] <= now) && (id in exhausted ==> exhausted[id] <= now)
    {
      if id in blocked && now < blocked[id] {
        return Blocked;
      }
      if id in exhausted && now < exhausted[id] {
        return Exhausted;
      }
      if !ready {
        return Unhealthy;
      }
      return Available;
    }

    /** Overwrites an earlier block, even a longer one. */
    method Block(id: string, d: int, now: Time)
      modifies this`blocked
      ensures blocked == old(blocked)[id := now + d] && View() == Barred(old(View()), id, now + d)
    {
      var until := now + d;
      blocked := blocked[id := until];
    }

    method BlockUntil(id: string, until: Time)
      modifies this`blocked
      ensures blocked == old(blocked)[id := until] && View() == Barred(old(View()), id, until)
    {
      blocked := blocked[id := until];
    }

    method SetExhausted(id: string, resetAt: Time)
      modifies this`exhausted
      ensures exhausted == old(exhausted)[id := resetAt] && View() == Drained(old(View()), id, resetAt)
    {
      exhausted := exhausted[id := resetAt];
    }

    /** Start-up: puts back, for each saved id, the times that still lie ahead of `t`. */
    method RestoreFrom(saved: StateView, ids: seq<string>, t: Time)
      modifies this
      ensures View() == RestoredFrom(old(View()), saved, ids, t)
    {
      ghost var start := View();
      for i := 0 to |ids|
        invariant RestoredFrom(View(), saved, ids[i..], t) == RestoredFrom(start, saved, ids, t)
      {
        var id := ids[i];
        assert ids[i..][1..] == ids[i + 1..];
        if id in saved.blocked && t < saved.blocked[id] {
          BlockUntil(id, saved.blocked[id]);
        }
        if id in saved.exhausted && t < saved.exhausted[id] {
          SetExhausted(id, saved.exhausted[id]);
        }
      }
      assert ids[|ids|..] == [];
    }
  }

  /** The time kept for an id after a restore: the saved one if it lies ahead, none otherwise. */
  function Ahead(m: map<string, Time>, id: string, t: Time): Option<Time> {
    if Before(t, At(m, id)) then Some(m[id]) else None
  }

  lemma {:induction false} RestoredTimes(v: StateView, saved: StateView, ids: seq<string>, t: Time, id: string)
    requires At(v.blocked, id) == None || At(v.blocked, id) == Ahead(saved.blocked, id, t)
    requires At(v.exhausted, id) == None || At(v.exhausted, id) == Ahead(saved.exhausted, id, t)
    ensures var u := RestoredFrom(v, saved, ids, t);
            && At(u.blocked, id) == (if id in ids then Ahead(saved.blocked, id, t) else At(v.blocked, id))
            && At(u.exhausted, id) == (if id in ids then Ahead(saved.exhausted, id, t) else At(v.exhausted, id))
    decreases |ids|
  {
    if ids != [] {
      RestoredTimes(RestoredOne(v, saved, ids[0], t), saved, ids[1..], t, id);
    }
  }

  /** Restart equivalence: a manager restored at time t reports what the saved one would report,
      for every id, at every time from t on, for equal health. */
  lemma RestartState(saved: StateView, ids: seq<string>, t: Time, id: string, now: Time, ready: bool)
    requires forall j :: j in ids <==> j in saved.blocked || j in saved.exhausted
    requires now >= t
    ensures StateOf(RestoredFrom(StateView(map[], map[]), saved, ids, t), id, now, ready)
            == StateOf(saved, id, now, ready)
  {
    RestoredTimes(StateView(map[], map[]), saved, ids, t, id);
  }
}
