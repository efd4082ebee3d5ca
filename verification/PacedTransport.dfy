/** The paced order transport: two locks, one clock, any interleaving of callers.

    An event is what happens between two awaits, or the passing of time.  Callers queue for a lock
    invisibly; a caller enters the model when it gets the lock.
 */
module PacedTransport {

  /** A finished order; `returned` is false when the order function raised. */
  datatype Flight = Flight(start: real, end: real, returned: bool)

  datatype OrderPhase = Free | Sleeping(until: real) | Armed | Flying(since: real)

  datatype State = State(clock: real, last: real, order: OrderPhase, trailHeld: bool, flights: seq<Flight>)

  datatype Event =
    | Pass(dt: real)
    | OrderEnter | OrderWake | OrderStart | OrderReturn | OrderRaise
    | TrailEnter | TrailLeave

  function Initial(clock: real): State {
    State(clock, 0.0, Free, false, [])
  }

  predicate Enabled(s: State, e: Event) {
    match e
    case Pass(dt) => dt >= 0.0
    case OrderEnter => s.order == Free
    case OrderWake => s.order.Sleeping? && s.order.until <= s.clock
    case OrderStart => s.order == Armed
    case OrderReturn => s.order.Flying?
    case OrderRaise => s.order.Flying?
    case TrailEnter => !s.trailHeld
    case TrailLeave => s.trailHeld
  }

  /** What the code computes on entering the order lock. */
  function WaitTime(interval: real, last: real, now: real): real {
    if last > 0.0 then interval - (now - last) else 0.0
  }

  function Step(interval: real, s: State, e: Event): State
    requires Enabled(s, e)
  {
    match e
    case Pass(dt) => s.(clock := s.clock + dt)
    case OrderEnter =>
      var wait := WaitTime(interval, s.last, s.clock);
      s.(order := if wait > 0.0 then Sleeping(s.clock + wait) else Armed)
    case OrderWake => s.(order := Armed)
    case OrderStart => s.(order := Flying(s.clock))
    case OrderReturn =>
      s.(order := Free, last := s.clock, flights := s.flights + [Flight(s.order.since, s.clock, true)])
    case OrderRaise =>
      s.(order := Free, flights := s.flights + [Flight(s.order.since, s.clock, false)])
    case TrailEnter => s.(trailHeld := true)
    case TrailLeave => s.(trailHeld := false)
  }

  ghost predicate Run(interval: real, s: State, events: seq<Event>, s': State)
    decreases |events|
  {
    if events == [] then s == s'
    else Enabled(s, events[0]) && Run(interval, Step(interval, s, events[0]), events[1..], s')
  }

  // ---------------------------------------------------------------- invariant

  /** The next start may not come before this instant. */
  function NotBefore(interval: real, s: State): real {
    if s.last > 0.0 then s.last + interval else 0.0
  }

  ghost predicate Spaced(interval: real, flights: seq<Flight>) {
    && (forall i :: 0 <= i < |flights| ==> 0.0 < flights[i].start <= flights[i].end)
    && (forall i, j :: 0 <= i < j < |flights| ==> flights[i].end <= flights[j].start)
    && (forall i, j :: 0 <= i < j < |flights| && flights[i].returned ==> flights[i].end + interval <= flights[j].start)
  }

  ghost predicate Inv(interval: real, s: State) {
    && 0.0 < s.clock && 0.0 <= s.last <= s.clock
    && Spaced(interval, s.flights)
    && (forall i :: 0 <= i < |s.flights| ==> s.flights[i].end <= s.clock)
    && (forall i :: 0 <= i < |s.flights| && s.flights[i].returned ==> 0.0 < s.last && s.flights[i].end <= s.last)
    && (match s.order
        case Free => true
        case Sleeping(until) => NotBefore(interval, s) <= until
        case Armed => NotBefore(interval, s) <= s.clock
        case Flying(since) =>
          0.0 < since <= s.clock && NotBefore(interval, s) <= since
          && forall i :: 0 <= i < |s.flights| ==> s.flights[i].end <= since)
  }

  lemma StepKeepsInv(interval: real, s: State, e: Event)
    requires Inv(interval, s) && Enabled(s, e) && interval >= 0.0
    ensures Inv(interval, Step(interval, s, e))
  {
    hide Spaced;
    match e {
      case OrderReturn => FlightJoins(interval, s, true);
      case OrderRaise => FlightJoins(interval, s, false);
      case _ =>
    }
  }

  lemma FlightJoins(interval: real, s: State, returned: bool)
    requires Inv(interval, s) && s.order.Flying? && interval >= 0.0
    ensures Spaced(interval, s.flights + [Flight(s.order.since, s.clock, returned)])
  {
    var f := Flight(s.order.since, s.clock, returned);
    forall i | 0 <= i < |s.flights| && s.flights[i].returned
      ensures s.flights[i].end + interval <= f.start
    {
      assert s.flights[i].end <= s.last;
    }
  }

  /** Over every interleaving from a positive clock reading: orders never overlap, and each starts at
      least the interval after every earlier order that returned. */
  lemma {:induction false} OrdersArePaced(interval: real, s: State, events: seq<Event>, s': State)
    requires interval >= 0.0 && Inv(interval, s) && Run(interval, s, events, s')
    ensures Inv(interval, s') && Spaced(interval, s'.flights)
    decreases |events|
  {
    if events != [] {
      StepKeepsInv(interval, s, events[0]);
      OrdersArePaced(interval, Step(interval, s, events[0]), events[1..], s');
    }
  }

  lemma InitialInv(interval: real, clock: real)
    requires clock > 0.0
    ensures Inv(interval, Initial(clock))
  {
  }

  /** While an order flies, every earlier one has landed: at most one is in flight. */
  lemma OneInFlight(interval: real, clock: real, events: seq<Event>, s: State)
    requires interval >= 0.0 && clock > 0.0 && Run(interval, Initial(clock), events, s) && s.order.Flying?
    ensures forall i :: 0 <= i < |s.flights| ==> s.flights[i].end <= s.order.since
    ensures forall i :: 0 <= i < |s.flights| && s.flights[i].returned ==> s.flights[i].end + interval <= s.order.since
  {
    InitialInv(interval, clock);
    OrdersArePaced(interval, Initial(clock), events, s);
  }

  // ---------------------------------------------------------------- rate

  function Times(n: int, d: real): real {
    n as real * d
  }

  lemma OneMoreTime(n: int, d: real)
    ensures Times(n + 1, d) == Times(n, d) + d
  {
    assert (n + 1) as real == n as real + 1.0;
  }

  lemma {:induction false} StartsSpread(interval: real, flights: seq<Flight>, i: nat, j: nat)
    requires interval >= 0.0 && Spaced(interval, flights) && i <= j < |flights|
    requires forall k :: i <= k < j ==> flights[k].returned
    ensures flights[i].start + Times(j - i, interval) <= flights[j].start
    decreases j
  {
    if i < j {
      StartsSpread(interval, flights, i, j - 1);
      assert flights[j - 1].end + interval <= flights[j].start;
      OneMoreTime(j - 1 - i, interval);
    }
  }

  /** When each order of a state started, the one in flight included. */
  function Starts(s: State): seq<real> {
    seq(|s.flights|, i requires 0 <= i < |s.flights| => s.flights[i].start)
    + (if s.order.Flying? then [s.order.since] else [])
  }

  ghost predicate NoRaise(events: seq<Event>) {
    OrderRaise !in events
  }

  ghost predicate AllReturned(flights: seq<Flight>) {
    forall i :: 0 <= i < |flights| ==> flights[i].returned
  }

  lemma {:induction false} ReturnsOnly(interval: real, s: State, events: seq<Event>, s': State)
    requires Run(interval, s, events, s') && NoRaise(events) && AllReturned(s.flights)
    ensures AllReturned(s'.flights)
    decreases |events|
  {
    if events != [] {
      assert events[0] != OrderRaise;
      ReturnsOnly(interval, Step(interval, s, events[0]), events[1..], s');
    }
  }

  /** Rate bound over every run in which no order function raises: the orders i to j, the one in flight
      included, that start inside a window of length `length` are at most floor(length / interval) + 1. */
  lemma RateBound(
    interval: real, clock: real, events: seq<Event>, s: State, i: nat, j: nat, from: real, length: real)
    requires interval > 0.0 && clock > 0.0 && length >= 0.0
    requires Run(interval, Initial(clock), events, s) && NoRaise(events)
    requires i <= j < |Starts(s)| && from <= Starts(s)[i] && Starts(s)[j] <= from + length
    ensures j - i + 1 <= (length / interval).Floor + 1
  {
    hide Run, Spaced, AllReturned;
    InitialInv(interval, clock);
    OrdersArePaced(interval, Initial(clock), events, s);
    assert AllReturned([]) by { NoneFlown(); }
    ReturnsOnly(interval, Initial(clock), events, s);
    if s.order.Flying? {
      FlightJoins(interval, s, true);
      OneMoreReturned(s.flights, Flight(s.order.since, s.clock, true));
      FlightRate(interval, s.flights + [Flight(s.order.since, s.clock, true)], i, j, from, length);
    } else {
      FlightRate(interval, s.flights, i, j, from, length);
    }
  }

  lemma NoneFlown()
    ensures AllReturned([])
  {
  }

  lemma OneMoreReturned(flights: seq<Flight>, f: Flight)
    requires AllReturned(flights) && f.returned
    ensures AllReturned(flights + [f])
  {
  }

  lemma FlightRate(interval: real, flights: seq<Flight>, i: nat, j: nat, from: real, length: real)
    requires interval > 0.0 && length >= 0.0 && Spaced(interval, flights) && i <= j < |flights|
    requires AllReturned(flights)
    requires from <= flights[i].start && flights[j].start <= from + length
    ensures j - i + 1 <= (length / interval).Floor + 1
  {
    StartsSpread(interval, flights, i, j);
    FitsIn(j - i, length, interval);
  }

  /** n intervals fit into a length only if n is at most the floor of the quotient. */
  lemma FitsIn(n: int, length: real, d: real)
    requires d > 0.0 && Times(n, d) <= length
    ensures n <= (length / d).Floor
  {
    var q := length / d;
    assert q * d == length;
    assert (q - n as real) * d >= 0.0;
    assert n as real <= q;
  }

  // ---------------------------------------------------------------- putting runs together

  lemma {:induction false} RunSnoc(interval: real, s: State, events: seq<Event>, mid: State, e: Event)
    requires Run(interval, s, events, mid) && Enabled(mid, e)
    ensures Run(interval, s, events + [e], Step(interval, mid, e))
    decreases |events|
  {
    hide Enabled, Step;
    if events == [] {
      assert [e][1..] == [];
      assert Run(interval, Step(interval, mid, e), [], Step(interval, mid, e));
    } else {
      assert (events + [e])[1..] == events[1..] + [e];
      RunSnoc(interval, Step(interval, s, events[0]), events[1..], mid, e);
    }
  }

  lemma {:induction false} RunConcat(
    interval: real, s: State, a: seq<Event>, mid: State, b: seq<Event>, s': State)
    requires Run(interval, s, a, mid) && Run(interval, mid, b, s')
    ensures Run(interval, s, a + b, s')
    decreases |a|
  {
    hide Enabled, Step;
    if a == [] {
      assert a + b == b;
    } else {
      assert (a + b)[1..] == a[1..] + b;
      RunConcat(interval, Step(interval, s, a[0]), a[1..], mid, b, s');
    }
  }

  lemma RunOne(interval: real, s: State, e: Event)
    requires Enabled(s, e)
    ensures Run(interval, s, [e], Step(interval, s, e))
  {
    hide Enabled, Step;
    assert [e][1..] == [];
    assert Run(interval, Step(interval, s, e), [], Step(interval, s, e));
  }

  // ---------------------------------------------------------------- the trail lock

  predicate IsTrail(e: Event) {
    e == TrailEnter || e == TrailLeave
  }

  /** A run as the order side sees it. */
  function WithoutTrail(events: seq<Event>): seq<Event> {
    if events == [] then []
    else (if IsTrail(events[0]) then [] else [events[0]]) + WithoutTrail(events[1..])
  }

  /** The trail lock decides nothing on the order side. */
  lemma OrderSideAlone(interval: real, s: State, e: Event, held: bool)
    requires Enabled(s, e)
    ensures IsTrail(e) ==> Step(interval, s, e).(trailHeld := held) == s.(trailHeld := held)
    ensures !IsTrail(e) ==> Enabled(s.(trailHeld := held), e)
    ensures !IsTrail(e) ==> Step(interval, s.(trailHeld := held), e) == Step(interval, s, e).(trailHeld := held)
  {
  }

  /** Trailing PUTs leave no trace on the orders: dropping them all from any run leaves a run with the
      same clock, the same orders at the same times and the same order lock, whoever holds the trail
      lock meanwhile. */
  lemma {:induction false} TrailIsIndependent(
    interval: real, s: State, events: seq<Event>, s': State, held: bool)
    requires Run(interval, s, events, s')
    ensures Run(interval, s.(trailHeld := held), WithoutTrail(events), s'.(trailHeld := held))
    decreases |events|
  {
    hide Enabled, Step, IsTrail;
    if events != [] {
      var e, t := events[0], Step(interval, s, events[0]);
      OrderSideAlone(interval, s, e, held);
      TrailIsIndependent(interval, t, events[1..], s', held);
      if IsTrail(e) {
        assert [] + WithoutTrail(events[1..]) == WithoutTrail(events[1..]);
      } else {
        assert ([e] + WithoutTrail(events[1..]))[1..] == WithoutTrail(events[1..]);
      }
    }
  }

  ghost predicate NoTrail(events: seq<Event>) {
    forall i :: 0 <= i < |events| ==> !IsTrail(events[i])
  }

  lemma {:induction false} NothingDropped(events: seq<Event>)
    requires NoTrail(events)
    ensures WithoutTrail(events) == events
  {
    if events != [] {
      NothingDropped(events[1..]);
      assert events == [events[0]] + events[1..];
    }
  }

  lemma {:induction false} TrailUntouched(interval: real, s: State, events: seq<Event>, s': State)
    requires Run(interval, s, events, s') && NoTrail(events)
    ensures s'.trailHeld == s.trailHeld
    decreases |events|
  {
    if events != [] {
      assert !IsTrail(events[0]);
      TrailUntouched(interval, Step(interval, s, events[0]), events[1..], s');
    }
  }

  /** A trailing PUT never waits for an order and never delays one: into any run it can be inserted
      wherever the trail lock is free, over any stretch of order events, sleeping and flying orders
      included, and the run ends as it did. */
  lemma TrailNeverWaits(
    interval: real, s: State, a: seq<Event>, mid: State, b: seq<Event>, mid': State, c: seq<Event>, s': State)
    requires Run(interval, s, a, mid) && !mid.trailHeld
    requires Run(interval, mid, b, mid') && NoTrail(b) && Run(interval, mid', c, s')
    ensures Run(interval, s, a + [TrailEnter] + b + [TrailLeave] + c, s')
  {
    hide Run;
    var x, y := mid.(trailHeld := true), mid'.(trailHeld := true);
    TrailIsIndependent(interval, mid, b, mid', true);
    NothingDropped(b);
    TrailUntouched(interval, mid, b, mid');
    RunOne(interval, mid, TrailEnter);
    RunOne(interval, y, TrailLeave);
    RunConcat(interval, s, a, mid, [TrailEnter], x);
    RunConcat(interval, s, a + [TrailEnter], x, b, y);
    RunConcat(interval, s, a + [TrailEnter] + b, y, [TrailLeave], mid');
    RunConcat(interval, s, a + [TrailEnter] + b + [TrailLeave], mid', c, s');
  }

  // ---------------------------------------------------------------- exactly when pacing fails

  /** The gate of the order lock, whatever the clock reads: past a completion at a positive reading no
      order sleeps less, is armed earlier or started earlier than the interval. */
  ghost predicate Gated(interval: real, s: State) {
    && (s.last <= s.clock || s.last == 0.0)
    && (s.last > 0.0 ==> match s.order
          case Free => true
          case Sleeping(until) => s.last + interval <= until
          case Armed => s.last + interval <= s.clock
          case Flying(since) => s.last + interval <= since <= s.clock)
  }

  lemma {:induction false} GateHolds(interval: real, s: State, events: seq<Event>, s': State)
    requires interval >= 0.0 && Gated(interval, s) && Run(interval, s, events, s')
    ensures Gated(interval, s')
    decreases |events|
  {
    if events != [] { GateHolds(interval, Step(interval, s, events[0]), events[1..], s'); }
  }

  /** Completions at positive readings are never forgotten: the last one only moves forward. */
  lemma {:induction false} LastAdvances(interval: real, s: State, events: seq<Event>, s': State)
    requires interval >= 0.0 && Gated(interval, s) && s.last > 0.0 && Run(interval, s, events, s')
    ensures s.last <= s'.last
    decreases |events|
  {
    if events != [] { LastAdvances(interval, Step(interval, s, events[0]), events[1..], s'); }
  }

  /** Some run from here has an order in flight that started before `deadline`. */
  ghost predicate CanStartBefore(interval: real, s: State, deadline: real) {
    exists events, u :: Run(interval, s, events, u) && u.order.Flying? && u.order.since < deadline
  }

  /** An order that raises leaves no trace in the pacing: from any reachable state the next order can
      start at the very instant it failed. */
  lemma RaiseBreaksPacing(interval: real, clock: real, events: seq<Event>, s: State) returns (u: State)
    requires interval >= 0.0 && Run(interval, Initial(clock), events, s) && s.order.Flying?
    ensures Run(interval, s, [OrderRaise, OrderEnter, OrderStart], u) && u.order == Flying(s.clock)
  {
    GateHolds(interval, Initial(clock), events, s);
    u := StartAtOnce(interval, s, OrderRaise);
  }

  /** So does one that completes while the clock reads zero or less, because zero stands for "no order
      yet" and only a positive reading is looked at. */
  lemma ZeroClockBreaksPacing(interval: real, s: State) returns (u: State)
    requires s.order.Flying? && s.clock <= 0.0
    ensures Run(interval, s, [OrderReturn, OrderEnter, OrderStart], u) && u.order == Flying(s.clock)
  {
    u := StartAtOnce(interval, s, OrderReturn);
  }

  lemma StartAtOnce(interval: real, s: State, e: Event) returns (u: State)
    requires Enabled(s, e) && (e == OrderRaise || e == OrderReturn)
    requires var t := Step(interval, s, e); WaitTime(interval, t.last, t.clock) <= 0.0
    ensures Run(interval, s, [e, OrderEnter, OrderStart], u) && u.order == Flying(s.clock)
  {
    hide Run;
    var t := Step(interval, s, e);
    var v := Step(interval, t, OrderEnter);
    u := Step(interval, v, OrderStart);
    RunOne(interval, s, e);
    RunSnoc(interval, s, [e], t, OrderEnter);
    RunSnoc(interval, s, [e] + [OrderEnter], v, OrderStart);
    assert [e] + [OrderEnter] + [OrderStart] == [e, OrderEnter, OrderStart];
  }

  lemma RunTail(interval: real, s: State, e: Event, rest: seq<Event>, u: State)
    requires Enabled(s, e) && Run(interval, s, [e] + rest, u)
    ensures Run(interval, Step(interval, s, e), rest, u)
  {
    assert ([e] + rest)[0] == e && ([e] + rest)[1..] == rest;
  }

  /** Main result: in every reachable state, whatever the clock started from, an order that ends now lets
      another one start less than the interval later if and only if it raised or the clock does not
      read more than zero. */
  lemma EarlyStartIff(interval: real, clock: real, events: seq<Event>, s: State, e: Event)
    requires interval > 0.0 && Run(interval, Initial(clock), events, s)
    requires Enabled(s, e) && (e == OrderReturn || e == OrderRaise)
    ensures CanStartBefore(interval, Step(interval, s, e), s.clock + interval) <==> e == OrderRaise || s.clock <= 0.0
  {
    GateHolds(interval, Initial(clock), events, s);
    var t := Step(interval, s, e);
    if e == OrderRaise || s.clock <= 0.0 {
      var u;
      if e == OrderRaise {
        u := RaiseBreaksPacing(interval, clock, events, s);
      } else {
        u := ZeroClockBreaksPacing(interval, s);
      }
      assert [e, OrderEnter, OrderStart] == [e] + [OrderEnter, OrderStart];
      RunTail(interval, s, e, [OrderEnter, OrderStart], u);
      EarlyRun(interval, t, [OrderEnter, OrderStart], u, s.clock + interval);
    } else {
      NoEarlyRun(interval, t, s.clock + interval);
    }
  }

  lemma EarlyRun(interval: real, t: State, events: seq<Event>, u: State, deadline: real)
    requires Run(interval, t, events, u) && u.order.Flying? && u.order.since < deadline
    ensures CanStartBefore(interval, t, deadline)
  {
    hide Run;
  }

  lemma NoEarlyRun(interval: real, t: State, deadline: real)
    requires interval >= 0.0 && t.order == Free && t.last == t.clock > 0.0 && deadline == t.last + interval
    ensures !CanStartBefore(interval, t, deadline)
  {
    hide Run;
    forall events, u | Run(interval, t, events, u) && u.order.Flying?
      ensures u.order.since >= deadline
    {
      GateHolds(interval, t, events, u);
      LastAdvances(interval, t, events, u);
    }
  }

  // ---------------------------------------------------------------- the coroutine

  /** The transport object; `flights` is what the outside sees of its orders. */
  class Transport {
    const interval: real
    var clock: real
    var last: real
    var flights: seq<Flight>

    constructor (interval: real, clock: real)
      requires clock > 0.0
      ensures this.interval == interval && View() == Initial(clock)
    {
      this.interval, this.clock := interval, clock;
      last, flights := 0.0, [];
    }

    /** The transport between two orders, with the order lock free. */
    function View(): State
      reads this
    {
      State(clock, last, Free, false, flights)
    }

    /** One order under the order lock: a run of the transition system in which no one else gets the
        order lock.  The world decides how much longer than asked the sleep lasts, how long the order
        takes and whether it raises. */
    method RunOrder(oversleep: real, duration: real, raises: bool) returns (ghost events: seq<Event>)
      requires oversleep >= 0.0 && duration >= 0.0
      modifies this`clock, this`last, this`flights
      ensures Run(interval, old(View()), events, View())
      ensures |flights| == |old(flights)| + 1 && flights[..|old(flights)|] == old(flights)
      ensures var f := flights[|old(flights)|];
        f.returned == !raises && f.end == clock && f.end - f.start == duration
      ensures old(clock) + Larger(0.0, WaitTime(interval, old(last), old(clock))) <= flights[|old(flights)|].start
      ensures flights[|old(flights)|].start ==
        if old(last) > 0.0 && old(clock) < old(last) + interval then old(last) + interval + oversleep else old(clock)
      ensures last == if raises then old(last) else clock
    {
      ghost var s0, s := View(), View();
      events := [OrderEnter];
      RunSnoc(interval, s0, [], s, OrderEnter);
      s := Step(interval, s, OrderEnter);
      var now := clock;
      if last > 0.0 {
        var wait := interval - (now - last);
        if wait > 0.0 {
          clock := clock + wait + oversleep;
          RunSnoc(interval, s0, events, s, Pass(wait + oversleep));
          s := Step(interval, s, Pass(wait + oversleep));
          RunSnoc(interval, s0, events + [Pass(wait + oversleep)], s, OrderWake);
          s := Step(interval, s, OrderWake);
          events := events + [Pass(wait + oversleep)] + [OrderWake];
        }
      }
      var start := clock;
      RunSnoc(interval, s0, events, s, OrderStart);
      s := Step(interval, s, OrderStart);
      events := events + [OrderStart];
      clock := clock + duration;
      RunSnoc(interval, s0, events, s, Pass(duration));
      s := Step(interval, s, Pass(duration));
      events := events + [Pass(duration)];
      flights := flights + [Flight(start, clock, !raises)];
      if !raises {
        last := clock;
      }
      RunSnoc(interval, s0, events, s, if raises then OrderRaise else OrderReturn);
      events := events + [if raises then OrderRaise else OrderReturn];
    }
  }

  function Larger(a: real, b: real): real { if a < b then b else a }
}
