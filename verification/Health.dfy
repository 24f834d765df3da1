/** Health hysteresis: three strikes to leave READY, two good checks to enter it,
    and a capped exponential backoff between checks. */
module Health {
  import opened Prelude

  const FAIL_THRESHOLD: int := 3
  const SUCCESS_THRESHOLD: int := 2
  const LATENCY_BREACH_THRESHOLD: int := 3
  const MAX_BACKOFF: int := 5 * MINUTE

  datatype NodeState = Unavailable | Degraded | Ready

  datatype NodeStatus = NodeStatus(state: NodeState, latencyMs: int, successRun: int, failureRun: int,
                                   latencyBreaches: int)

  const INITIAL: NodeStatus := NodeStatus(Unavailable, 0, 0, 0, 0)

  /** What a health check reports. */
  datatype Check = Failed | Passed(latency: int)

  function AfterCheck(s: NodeStatus, c: Check, threshold: int): NodeStatus {
    match c
    case Failed =>
      var failureRun := s.failureRun + 1;
      NodeStatus(if failureRun >= FAIL_THRESHOLD then Unavailable else s.state,
                 s.latencyMs, 0, failureRun, 0)
    case Passed(latency) =>
      if latency > threshold then
        var breaches := s.latencyBreaches + 1;
        if breaches >= LATENCY_BREACH_THRESHOLD
        then NodeStatus(Degraded, latency, 0, 0, breaches)
        else NodeStatus(s.state, latency, s.successRun + 1, 0, breaches)
      else
        var successRun := s.successRun + 1;
        NodeStatus(if successRun >= SUCCESS_THRESHOLD then Ready else s.state, latency, successRun, 0, 0)
  }

  function MadeReady(s: NodeStatus): NodeStatus {
    NodeStatus(Ready, s.latencyMs, SUCCESS_THRESHOLD, 0, 0)
  }

  function NextBackoff(backoff: int, base: int, c: Check): int {
    if c.Failed? then Min(backoff * 2, MAX_BACKOFF) else base
  }

  /** The status after the first n rounds of waiting and checking. */
  function AfterRounds(s: NodeStatus, checks: seq<Check>, forced: seq<bool>, n: nat, threshold: int): NodeStatus
    requires n <= |checks| == |forced|
  {
    if n == 0 then s
    else
      var before := AfterRounds(s, checks, forced, n - 1, threshold);
      AfterCheck(if forced[n - 1] then MadeReady(before) else before, checks[n - 1], threshold)
  }

  /** The backoff in force before check i. */
  function BackoffBefore(base: int, checks: seq<Check>, i: nat): int
    requires i <= |checks|
  {
    if i == 0 then base else NextBackoff(BackoffBefore(base, checks, i - 1), base, checks[i - 1])
  }

  /** The first n waits of a worker: backoff plus jitter. */
  function Waits(base: int, checks: seq<Check>, jitter: seq<int>, n: nat): (r: seq<int>)
    requires n <= |checks| == |jitter|
    ensures |r| == n
    ensures forall i :: 0 <= i < n ==> r[i] == BackoffBefore(base, checks, i) + jitter[i]
  {
    if n == 0 then [] else Waits(base, checks, jitter, n - 1) + [BackoffBefore(base, checks, n - 1) + jitter[n - 1]]
  }

  class Monitor {
    var states: map<string, NodeStatus>
    var workers: set<string>
    const threshold: int

    constructor (threshold: int)
      ensures states == map[] && workers == {} && this.threshold == threshold
    {
      this.threshold := threshold;
      states, workers := map[], {};
    }

    method AddNode(id: string)
      modifies this
      ensures workers == old(workers) + {id}
      ensures states == if id in old(workers) then old(states)
                        else old(states)[id := NodeStatus(Unavailable, 0, 0, 0, 0)]
    {
      if id in workers {
        return;
      }
      states := states[id := NodeStatus(Unavailable, 0, 0, 0, 0)];
      workers := workers + {id};
    }

    method RemoveNode(id: string)
      modifies this
      ensures workers == old(workers) - {id}
      ensures states == old(states) - {id}
    {
      workers := workers - {id};
      states := states - {id};
    }

    method IsReady(id: string) returns (yes: bool)
      ensures yes <==> id in states && states[id].state == Ready
    {
      yes := id in states && states[id].state == Ready;
    }

    method SetReady(id: string)
      modifies this`states
      ensures states == if id in old(states) then old(states)[id := MadeReady(old(states)[id])] else old(states)
      ensures id in old(states) ==> states[id] == NodeStatus(Ready, old(states)[id].latencyMs, 2, 0, 0)
    {
      if id !in states {
        return;
      }
      var s := states[id];
      s := s.(state := Ready);
      s := s.(successRun := SUCCESS_THRESHOLD);
      s := s.(failureRun := 0);
      s := s.(latencyBreaches := 0);
      states := states[id := s];
    }

    /** The part of the worker loop that books one check; an unknown id reads as the initial status. */
    method Book(id: string, c: Check)
      modifies this`states
      ensures var was := if id in old(states) then old(states)[id] else INITIAL;
              states == old(states)[id := AfterCheck(was, c, threshold)]
    {
      var s := if id in states then states[id] else INITIAL;
      match c {
        case Failed =>
          s := s.(failureRun := s.failureRun + 1);
          s := s.(successRun := 0);
          s := s.(latencyBreaches := 0);
          if s.failureRun >= FAIL_THRESHOLD {
            s := s.(state := Unavailable);
          }
        case Passed(latency) =>
          s := s.(successRun := s.successRun + 1);
          s := s.(failureRun := 0);
          s := s.(latencyMs := latency);
          if latency > threshold {
            s := s.(latencyBreaches := s.latencyBreaches + 1);
            if s.latencyBreaches >= LATENCY_BREACH_THRESHOLD {
              s := s.(state := Degraded);
              s := s.(successRun := 0);
            }
          } else {
            s := s.(latencyBreaches := 0);
            if s.successRun >= SUCCESS_THRESHOLD {
              s := s.(state := Ready);
            }
          }
      }
      states := states[id := s];
    }

    /** The worker loop over the given checks. `forced[i]` says that SetReady is called from outside while the
        worker waits for check i, and `jitter[i]` is the i-th random draw. */
    method RunNode(id: string, base: int, checks: seq<Check>, forced: seq<bool>, jitter: seq<int>)
        returns (waits: seq<int>)
      requires |jitter| == |checks| == |forced| && id in states
      modifies this`states
      ensures states == old(states)[id := AfterRounds(old(states)[id], checks, forced, |checks|, threshold)]
      ensures waits == Waits(base, checks, jitter, |checks|)
    {
      var backoff := base;
      waits := [];
      ghost var s0 := states[id];
      for i := 0 to |checks|
        invariant backoff == BackoffBefore(base, checks, i)
        invariant id in states && states == old(states)[id := AfterRounds(s0, checks, forced, i, threshold)]
        invariant waits == Waits(base, checks, jitter, i)
      {
        var jittered := backoff + jitter[i];
        waits := waits + [jittered];
        if forced[i] {
          SetReady(id);
        }
        Book(id, checks[i]);
        if checks[i].Failed? {
          backoff := Min(backoff * 2, MAX_BACKOFF);
        } else {
          backoff := base;
        }
      }
    }
  }

  function Pow2(m: nat): nat {
    if m == 0 then 1 else 2 * Pow2(m - 1)
  }

  /** Number of failed checks in a row just before check i. */
  function FailedRun(checks: seq<Check>, i: nat): (m: nat)
    requires i <= |checks|
    ensures m <= i
  {
    if i == 0 || !checks[i - 1].Failed? then 0 else FailedRun(checks, i - 1) + 1
  }

  /** Closed form: after m failures in a row the backoff is base * 2^m, capped at five minutes;
      with no failure it is the base itself. */
  lemma {:induction false} BackoffClosedForm(base: int, checks: seq<Check>, i: nat)
    requires base >= 0 && i <= |checks|
    ensures var m := FailedRun(checks, i);
            BackoffBefore(base, checks, i) == if m == 0 then base else Min(base * Pow2(m), 300_000_000_000)
  {
    if i > 0 && checks[i - 1].Failed? {
      BackoffClosedForm(base, checks, i - 1);
      var m := FailedRun(checks, i - 1);
      assert base * Pow2(m + 1) == 2 * (base * Pow2(m));
    }
  }

  /** Every wait of the worker lies in [b, b + b/4], b being the closed-form backoff, when the base
      does not exceed the cap and the random draw is at most a quarter of the backoff. */
  lemma WaitBounds(base: int, checks: seq<Check>, jitter: seq<int>, i: nat)
    requires 0 <= base <= MAX_BACKOFF && i < |checks| == |jitter|
    requires 0 <= jitter[i] <= BackoffBefore(base, checks, i) / 4
    ensures var b := Min(base * Pow2(FailedRun(checks, i)), MAX_BACKOFF);
            b <= Waits(base, checks, jitter, |checks|)[i] <= b + b / 4
  {
    BackoffClosedForm(base, checks, i);
  }

  // ------------------------------------------------------------------------ hysteresis

  /** What happens to a node: a check, or an outside SetReady. */
  datatype Event = Checked(check: Check) | ForcedReady

  function AfterEvent(s: NodeStatus, e: Event, threshold: int): NodeStatus {
    match e
    case Checked(c) => AfterCheck(s, c, threshold)
    case ForcedReady => MadeReady(s)
  }

  function AfterEvents(es: seq<Event>, threshold: int): NodeStatus {
    if es == [] then INITIAL
    else AfterEvent(AfterEvents(es[..|es| - 1], threshold), es[|es| - 1], threshold)
  }

  /** The rounds of a worker as events. */
  function Rounds(checks: seq<Check>, forced: seq<bool>, n: nat): seq<Event>
    requires n <= |checks| == |forced|
  {
    if n == 0 then []
    else Rounds(checks, forced, n - 1) + (if forced[n - 1] then [ForcedReady] else []) + [Checked(checks[n - 1])]
  }

  /** How often the node leaves READY. */
  function Leaves(es: seq<Event>, threshold: int): nat {
    if es == [] then 0
    else
      var before := es[..|es| - 1];
      Leaves(before, threshold)
        + if AfterEvents(before, threshold).state == Ready && AfterEvents(es, threshold).state != Ready then 1 else 0
  }

  function ChecksIn(es: seq<Event>): nat {
    if es == [] then 0 else ChecksIn(es[..|es| - 1]) + if es[|es| - 1].Checked? then 1 else 0
  }

  function ForcedIn(es: seq<Event>): nat {
    if es == [] then 0 else ForcedIn(es[..|es| - 1]) + if es[|es| - 1].ForcedReady? then 1 else 0
  }

  lemma Last(es: seq<Event>, e: Event, threshold: int)
    ensures var s, s' := AfterEvents(es, threshold), AfterEvents(es + [e], threshold);
            && s' == AfterEvent(s, e, threshold)
            && Leaves(es + [e], threshold)
               == Leaves(es, threshold) + (if s.state == Ready && s'.state != Ready then 1 else 0)
            && ChecksIn(es + [e]) == ChecksIn(es) + (if e.Checked? then 1 else 0)
            && ForcedIn(es + [e]) == ForcedIn(es) + (if e.ForcedReady? then 1 else 0)
  {
    assert (es + [e])[..|es|] == es;
  }

  /** A worker that starts on a new node leaves the status that its events lead to. */
  lemma {:induction false} RoundsAreEvents(checks: seq<Check>, forced: seq<bool>, n: nat, threshold: int)
    requires n <= |checks| == |forced|
    ensures AfterRounds(INITIAL, checks, forced, n, threshold) == AfterEvents(Rounds(checks, forced, n), threshold)
  {
    if n > 0 {
      RoundsAreEvents(checks, forced, n - 1, threshold);
      var before := Rounds(checks, forced, n - 1);
      if forced[n - 1] {
        Last(before, ForcedReady, threshold);
        Last(before + [ForcedReady], Checked(checks[n - 1]), threshold);
      } else {
        assert before + [] == before;
        Last(before, Checked(checks[n - 1]), threshold);
      }
    }
  }

  predicate Bad(e: Event) {
    e.Checked? && e.check.Failed?
  }

  predicate Slow(e: Event, threshold: int) {
    e.Checked? && e.check.Passed? && e.check.latency > threshold
  }

  predicate Good(e: Event, threshold: int) {
    e.Checked? && e.check.Passed? && e.check.latency <= threshold
  }

  /** How many of the last events in a row are failed checks. */
  function BadRun(es: seq<Event>): nat {
    if es == [] || !Bad(es[|es| - 1]) then 0 else BadRun(es[..|es| - 1]) + 1
  }

  /** How many of the last events in a row are slow checks. */
  function SlowRun(es: seq<Event>, threshold: int): nat {
    if es == [] || !Slow(es[|es| - 1], threshold) then 0 else SlowRun(es[..|es| - 1], threshold) + 1
  }

  lemma {:induction false} RunsExact(es: seq<Event>, threshold: int)
    ensures var s := AfterEvents(es, threshold);
            && s.failureRun == BadRun(es) && s.latencyBreaches == SlowRun(es, threshold) && s.successRun >= 0
            && (s.successRun >= 1 <==> es != [] && !Bad(es[|es| - 1]) && SlowRun(es, threshold) < 3)
  {
    if es != [] {
      RunsExact(es[..|es| - 1], threshold);
    }
  }

  /** The state of a node, exactly, from its last events: SetReady makes it READY; the third failed check in a row
      makes it UNAVAILABLE and the third slow one DEGRADED, and every further one keeps it so; a good check makes
      it READY if the event before was neither a failed check nor the third slow one in a row or a further one;
      and otherwise the state stays. */
  lemma StateExact(es: seq<Event>, e: Event, threshold: int)
    ensures var was, all := AfterEvents(es, threshold).state, es + [e];
            AfterEvents(all, threshold).state
            == if e.ForcedReady? then Ready
               else if BadRun(all) >= 3 then Unavailable
               else if SlowRun(all, threshold) >= 3 then Degraded
               else if Good(e, threshold) && es != [] && !Bad(es[|es| - 1]) && SlowRun(es, threshold) < 3 then Ready
               else was
    ensures AfterEvents([], threshold).state == Unavailable
  {
    assert (es + [e])[..|es|] == es;
    RunsExact(es, threshold);
  }

  /** In particular a READY node outlasts two failed or slow checks in a row and not a third. */
  lemma ThirdStrike(es: seq<Event>, a: Event, b: Event, c: Event, threshold: int)
    requires AfterEvents(es, threshold).state == Ready
    requires (Bad(a) && Bad(b) && Bad(c)) || (Slow(a, threshold) && Slow(b, threshold) && Slow(c, threshold))
    requires es != [] ==> if Bad(a) then !Bad(es[|es| - 1]) else !Slow(es[|es| - 1], threshold)
    ensures AfterEvents(es + [a], threshold).state == Ready
    ensures AfterEvents(es + [a] + [b], threshold).state == Ready
    ensures AfterEvents(es + [a] + [b] + [c], threshold).state == if Bad(a) then Unavailable else Degraded
  {
    StateExact(es, a, threshold);
    StateExact(es + [a], b, threshold);
    StateExact(es + [a] + [b], c, threshold);
    assert (es + [a])[..|es|] == es;
    assert (es + [a] + [b])[..|es| + 1] == es + [a];
    assert (es + [a] + [b] + [c])[..|es| + 2] == es + [a] + [b];
  }

  /** Never both runs at once; a READY node has struck out in neither way. */
  predicate Sound(s: NodeStatus) {
    && s.successRun >= 0 && s.failureRun >= 0 && s.latencyBreaches >= 0
    && (s.failureRun == 0 || s.successRun == 0)
    && (s.state == Ready ==> s.failureRun < FAIL_THRESHOLD && s.latencyBreaches < LATENCY_BREACH_THRESHOLD)
  }

  lemma {:induction false} AlwaysSound(es: seq<Event>, threshold: int)
    ensures Sound(AfterEvents(es, threshold))
  {
    if es != [] {
      AlwaysSound(es[..|es| - 1], threshold);
    }
  }

  /** Checks already spent towards the next departure from READY, on a scale of five per departure. */
  function Progress(s: NodeStatus): int {
    if s.state == Ready then 2 + Max(s.failureRun, s.latencyBreaches) else Min(s.successRun, 2)
  }

  lemma {:induction false} ProgressPaid(es: seq<Event>, threshold: int)
    ensures 5 * Leaves(es, threshold) + Progress(AfterEvents(es, threshold)) <= ChecksIn(es) + 2 * ForcedIn(es)
  {
    if es != [] {
      ProgressPaid(es[..|es| - 1], threshold);
      AlwaysSound(es[..|es| - 1], threshold);
    }
  }

  /** Hysteresis bound: over any run of n checks and k SetReady calls a node leaves READY
      at most (n + 2k) / 5 times. */
  lemma HysteresisBound(es: seq<Event>, threshold: int)
    ensures 5 * Leaves(es, threshold) <= ChecksIn(es) + 2 * ForcedIn(es)
  {
    ProgressPaid(es, threshold);
    AlwaysSound(es, threshold);
  }

  /** Two good checks and three bad ones, m times over. */
  function Flapping(m: nat, threshold: int): seq<Event> {
    if m == 0 then []
    else
      var up, down := Checked(Passed(threshold)), Checked(Failed);
      Flapping(m - 1, threshold) + [up] + [up] + [down] + [down] + [down]
  }

  /** The bound is met with equality by that run, for every m. */
  lemma {:induction false} HysteresisTight(m: nat, threshold: int)
    ensures var es := Flapping(m, threshold);
            && 5 * Leaves(es, threshold) == ChecksIn(es) + 2 * ForcedIn(es)
            && Leaves(es, threshold) == m && AfterEvents(es, threshold).state == Unavailable
            && AfterEvents(es, threshold).successRun == 0
  {
    if m > 0 {
      var up, down := Checked(Passed(threshold)), Checked(Failed);
      var e0 := Flapping(m - 1, threshold);
      HysteresisTight(m - 1, threshold);
      Last(e0, up, threshold);
      Last(e0 + [up], up, threshold);
      Last(e0 + [up] + [up], down, threshold);
      Last(e0 + [up] + [up] + [down], down, threshold);
      Last(e0 + [up] + [up] + [down] + [down], down, threshold);
    }
  }
}
