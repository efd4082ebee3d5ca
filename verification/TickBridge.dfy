/** The bridge to the tick parser process and its bounded queue of lines that came too early.

    `Step` says what each event does to the bridge; the class does it the way the handlers do.
    Lines are of any type T, so a law about order or loss holds of numbered lines as well.
 */
module TickBridge {
  import opened LineFraming

  const LIMIT := 256

  /** Events of the shell: lines from the socket (with whether the parser script exists), the ready
      message, the exit of the parser, and the shutdown of the shell. */
  datatype Event<T> = Data(lines: seq<T>, scriptPresent: bool) | Ready | Exit | Release

  /** The module variables, and what was handed on: to the parser and to the main thread. */
  datatype State<T> = State(alive: bool, ready: bool, pending: seq<T>, posted: seq<T>, mainThread: seq<T>)

  function Initial<T>(): State<T> {
    State(false, false, [], [], [])
  }

  /** The last n entries. */
  function Latest<T>(s: seq<T>, n: nat): (r: seq<T>)
    ensures |r| <= n
  {
    if |s| > n then s[|s| - n..] else s
  }

  /** The parser speaks only while it lives, and says ready once. */
  predicate Enabled<T>(s: State<T>, e: Event<T>) {
    match e
    case Data(_, _) => true
    case Ready => s.alive && !s.ready
    case Exit => s.alive
    case Release => true
  }

  function Step<T>(s: State<T>, e: Event<T>): State<T> {
    match e
    case Data(lines, present) =>
      if lines == [] then s
      else if !s.alive && !present then s.(mainThread := s.mainThread + lines)
      else if s.alive && s.ready then s.(posted := s.posted + lines)
      else s.(alive := true, ready := false, pending := Latest(s.pending + lines, LIMIT))
    case Ready => s.(ready := true, posted := s.posted + s.pending, pending := [])
    case Exit => s.(ready := false, alive := false)
    case Release => s.(ready := false, alive := false, pending := [])
  }

  ghost predicate Inv<T>(s: State<T>) {
    && (s.ready ==> s.alive && s.pending == [])
    && |s.pending| <= LIMIT
  }

  /** A run: every event enabled where it happens. */
  ghost predicate Run<T>(s: State<T>, events: seq<Event<T>>, s': State<T>)
    decreases |events|
  {
    if events == [] then s == s'
    else
      var e := events[0];
      Enabled(s, e) && Run(Step(s, e), events[1..], s')
  }

  lemma StepKeepsInv<T>(s: State<T>, e: Event<T>)
    requires Inv(s) && Enabled(s, e)
    ensures Inv(Step(s, e))
  {
  }

  lemma {:induction false} RunSnoc<T>(s: State<T>, events: seq<Event<T>>, s': State<T>) returns (mid: State<T>)
    requires events != [] && Run(s, events, s')
    ensures Run(s, events[..|events| - 1], mid)
    ensures Enabled(mid, events[|events| - 1]) && s' == Step(mid, events[|events| - 1])
    decreases |events|
  {
    hide Step, Enabled;
    if |events| == 1 {
      mid := s;
      assert events[1..] == [] && events[..0] == [];
    } else {
      var n := |events| - 1;
      mid := RunSnoc(Step(s, events[0]), events[1..], s');
      assert events[1..][..n - 1] == events[..n][1..];
      assert events[1..][n - 1] == events[n];
    }
  }

  /** Over every run the ready parser has nothing pending and the queue never exceeds its limit. */
  lemma {:induction false} RunKeepsInv<T>(events: seq<Event<T>>, s: State<T>)
    requires Run(Initial(), events, s)
    ensures Inv(s) && |s.pending| <= 256
    decreases |events|
  {
    hide Step, Enabled;
    if events != [] {
      var mid := RunSnoc(Initial(), events, s);
      RunKeepsInv(events[..|events| - 1], mid);
      StepKeepsInv(mid, events[|events| - 1]);
    } else {
      assert Inv(Initial<T>());
    }
  }

  // ---------------------------------------------------------------- what is pending, what was posted

  predicate AlwaysPresent<T>(events: seq<Event<T>>) {
    forall i :: 0 <= i < |events| && events[i].Data? ==> events[i].scriptPresent
  }

  /** The parser process is up and has said ready, read off the history alone. */
  predicate Live<T>(events: seq<Event<T>>) {
    if events == [] then false
    else match events[|events| - 1]
      case Ready => true
      case Data(_, _) => Live(events[..|events| - 1])
      case Exit => false
      case Release => false
  }

  /** The lines that came since the queue was last emptied. */
  function Backlog<T>(events: seq<Event<T>>): seq<T> {
    if events == [] then []
    else
      var before, e := events[..|events| - 1], events[|events| - 1];
      match e
      case Data(lines, _) => if Live(before) then [] else Backlog(before) + lines
      case Ready => []
      case Exit => Backlog(before)
      case Release => []
  }

  /** The lines handed to the parser: while it is ready all of them, at a ready message the latest
      of the backlog. */
  function Handed<T>(events: seq<Event<T>>): seq<T> {
    if events == [] then []
    else
      var before, e := events[..|events| - 1], events[|events| - 1];
      match e
      case Data(lines, _) => if Live(before) then Handed(before) + lines else Handed(before)
      case Ready => Handed(before) + Latest(Backlog(before), LIMIT)
      case Exit => Handed(before)
      case Release => Handed(before)
  }

  lemma LatestAbsorbs<T>(a: seq<T>, b: seq<T>, n: nat)
    ensures Latest(Latest(a, n) + b, n) == Latest(a + b, n)
  {
  }

  /** Closed form of every run: not ready, the queue is exactly the latest 256 lines of the backlog,
      so only the oldest are ever lost. */
  lemma {:induction false} RunIs<T>(events: seq<Event<T>>, s: State<T>)
    requires Run(Initial(), events, s) && AlwaysPresent(events)
    ensures s.ready == Live(events) && s.pending == Latest(Backlog(events), 256)
    ensures s.posted == Handed(events) && s.mainThread == []
    decreases |events|
  {
    hide Latest;
    if events == [] {
      NoneLatest<T>();
    } else {
      var n := |events| - 1;
      var mid := RunSnoc(Initial(), events, s);
      RunIs(events[..n], mid);
      RunKeepsInv(events[..n], mid);
      NoneLatest<T>();
      match events[n] {
        case Data(lines, _) =>
          LatestAbsorbs(Backlog(events[..n]), lines, LIMIT);
          assert Backlog(events[..n]) + [] == Backlog(events[..n]);
          assert Handed(events[..n]) + [] == Handed(events[..n]);
          if Live(events[..n]) { BacklogWhileLive(events[..n]); }
        case Ready =>
        case Exit => if Live(events[..n]) { BacklogWhileLive(events[..n]); }
        case Release =>
      }
    }
  }

  /** Lines that came before the parser was ready are handed over when it is, the latest 256 of them. */
  lemma ReadyDelivers<T>(lines: seq<T>) returns (s: State<T>)
    requires lines != []
    ensures Run(Initial(), [Data(lines, true), Ready], s)
    ensures s.posted == Latest(lines, 256) && s.pending == [] && s.ready
  {
    var events := [Data(lines, true), Ready];
    var mid := Step(Initial(), events[0]);
    s := Step(mid, Ready);
    assert [] + lines == lines;
    assert events[1..] == [Ready] && events[1..][1..] == [];
    assert Run(mid, events[1..], s);
  }

  lemma NoneLatest<T>()
    ensures Latest<T>([], LIMIT) == []
  {
  }

  lemma {:induction false} BacklogWhileLive<T>(events: seq<Event<T>>)
    requires Live(events)
    ensures Backlog(events) == []
  {
  }

  function Arrivals<T>(events: seq<Event<T>>): seq<T> {
    if events == [] then []
    else
      var e := events[|events| - 1];
      Arrivals(events[..|events| - 1]) + (if e.Data? then e.lines else [])
  }

  /** Positions, strictly increasing, at which a list of lines was taken from another. */
  ghost predicate PickedAt<T>(picked: seq<T>, from: seq<T>, at: seq<nat>) {
    && |at| == |picked|
    && (forall i :: 0 <= i < |at| ==> at[i] < |from| && from[at[i]] == picked[i])
    && (forall i, j :: 0 <= i < j < |at| ==> at[i] < at[j])
  }

  lemma PickedGrow<T>(picked: seq<T>, from: seq<T>, at: seq<nat>, more: seq<T>) returns (at': seq<nat>)
    requires PickedAt(picked, from, at)
    ensures PickedAt(picked + more, from + more, at')
  {
    at' := at + seq(|more|, i => |from| + i);
  }

  /** Dropping entries from the middle keeps order and identity. */
  lemma PickedDrop<T>(a: seq<T>, b: seq<T>, c: seq<T>, from: seq<T>, at: seq<nat>) returns (at': seq<nat>)
    requires PickedAt(a + b + c, from, at)
    ensures PickedAt(a + c, from, at')
  {
    at' := at[..|a|] + at[|a| + |b|..];
    forall i | 0 <= i < |at'|
      ensures at'[i] < |from| && from[at'[i]] == (a + c)[i]
    {
      var k := if i < |a| then i else i + |b|;
      assert at'[i] == at[k] && (a + b + c)[k] == (a + c)[i];
    }
  }

  /** Order and uniqueness over every run: what was posted, followed by what is pending, is taken
      from the arrivals at strictly increasing positions. */
  lemma {:induction false} ArrivalOrder<T>(events: seq<Event<T>>, s: State<T>) returns (at: seq<nat>)
    requires Run(Initial(), events, s) && AlwaysPresent(events)
    ensures PickedAt(s.posted + s.pending, Arrivals(events), at)
    decreases |events|
  {
    hide PickedAt, Latest;
    if events == [] {
      at := [];
      NonePicked<T>();
    } else {
      var n := |events| - 1;
      var mid := RunSnoc(Initial(), events, s);
      at := ArrivalOrder(events[..n], mid);
      RunKeepsInv(events[..n], mid);
      match events[n] {
        case Data(lines, _) => at := PickedData(mid, lines, Arrivals(events[..n]), at);
        case Ready => NothingNew(s.posted, mid.posted + mid.pending, Arrivals(events[..n]));
        case Exit => NothingNew(s.posted + s.pending, mid.posted + mid.pending, Arrivals(events[..n]));
        case Release =>
          assert mid.posted + mid.pending + [] == mid.posted + mid.pending;
          at := PickedDrop(mid.posted, mid.pending, [], Arrivals(events[..n]), at);
          assert Arrivals(events[..n]) + [] == Arrivals(events[..n]);
      }
    }
  }

  lemma NonePicked<T>()
    ensures PickedAt<T>([] + [], [], [])
  {
  }

  lemma NothingNew<T>(a: seq<T>, b: seq<T>, arrived: seq<T>)
    ensures a + [] == a && arrived + [] == arrived && b + [] == b
  {
  }

  lemma PickedData<T>(s: State<T>, lines: seq<T>, arrived: seq<T>, at: seq<nat>) returns (at': seq<nat>)
    requires Inv(s) && PickedAt(s.posted + s.pending, arrived, at)
    ensures var t := Step(s, Data(lines, true)); PickedAt(t.posted + t.pending, arrived + lines, at')
  {
    hide PickedAt;
    at' := PickedGrow(s.posted + s.pending, arrived, at, lines);
    var queue := s.pending + lines;
    assert s.posted + s.pending + lines == s.posted + queue;
    if lines == [] {
      assert queue == s.pending && arrived + lines == arrived;
    } else if s.alive && s.ready {
      assert queue == lines && (s.posted + lines) + [] == s.posted + queue;
    } else if |queue| > LIMIT {
      var k := |queue| - LIMIT;
      assert s.posted + queue == s.posted + queue[..k] + queue[k..];
      at' := PickedDrop(s.posted, queue[..k], queue[k..], arrived + lines, at');
    }
  }

  // ---------------------------------------------------------------- batching does not matter

  /** Two bursts of lines do what one burst with all of them does. */
  lemma BurstsMerge<T>(s: State<T>, a: seq<T>, b: seq<T>, present: bool)
    ensures Step(Step(s, Data(a, present)), Data(b, present)) == Step(s, Data(a + b, present))
  {
    if a == [] {
      assert a + b == b;
    } else if b == [] {
      assert a + b == a;
    } else if !s.alive && !present {
      assert s.mainThread + a + b == s.mainThread + (a + b);
    } else if s.alive && s.ready {
      assert s.posted + a + b == s.posted + (a + b);
    } else {
      LatestAbsorbs(s.pending + a, b, LIMIT);
      assert s.pending + a + b == s.pending + (a + b);
    }
  }

  /** The bridge fed chunk by chunk through the framer. */
  function Feed(s: State<string>, buffer: string, chunks: seq<string>, present: bool): State<string>
    decreases |chunks|
  {
    if chunks == [] then s
    else Feed(Step(s, Data(Lines(buffer + chunks[0]), present)), Tail(buffer + chunks[0]), chunks[1..], present)
  }

  /** End to end: how the stream was cut into chunks leaves no trace in the bridge. */
  lemma {:induction false} ChunkingInvariance(s: State<string>, buffer: string, chunks: seq<string>, present: bool)
    requires '\n' !in buffer
    ensures Feed(s, buffer, chunks, present) == Step(s, Data(Lines(buffer + Joined(chunks)), present))
    decreases |chunks|
  {
    hide Step, Joined;
    if chunks == [] {
      NothingJoined();
      assert buffer + "" == buffer;
      NoLines(buffer);
      NoBurst(s, present);
    } else {
      var text, rest := buffer + chunks[0], Joined(chunks[1..]);
      JoinedFront(chunks);
      assert buffer + (chunks[0] + rest) == text + rest;
      LinesConcat(text, rest);
      ChunkingInvariance(Step(s, Data(Lines(text), present)), Tail(text), chunks[1..], present);
      BurstsMerge(s, Lines(text), Lines(Tail(text) + rest), present);
    }
  }

  lemma NoBurst<T>(s: State<T>, present: bool)
    ensures Step(s, Data([], present)) == s
  {
  }

  // ---------------------------------------------------------------- the handlers

  class Bridge {
    var alive: bool
    var ready: bool
    var pending: seq<string>
    var posted: seq<string>
    var mainThread: seq<string>

    constructor ()
      ensures View() == Initial()
    {
      alive, ready, pending, posted, mainThread := false, false, [], [], [];
    }

    function View(): State<string>
      reads this
    {
      State(alive, ready, pending, posted, mainThread)
    }

    /** Forks the parser when there is none; false when its script is missing. */
    method Ensure(scriptPresent: bool) returns (ok: bool)
      modifies this`alive, this`ready
      ensures ok == (old(alive) || scriptPresent)
      ensures alive == ok && ready == (old(ready) && (old(alive) || !ok))
    {
      if alive {
        return true;
      }
      if !scriptPresent {
        return false;
      }
      ready := false;
      alive := true;
      return true;
    }

    method Dispatch(line: string, scriptPresent: bool) returns (taken: bool)
      requires Inv(View())
      modifies this
      ensures taken == (old(alive) || scriptPresent)
      ensures View() == if taken then Step(old(View()), Data([line], scriptPresent)) else old(View())
    {
      taken := Ensure(scriptPresent);
      if !taken {
        return;
      }
      if !ready {
        pending := pending + [line];
        if |pending| > LIMIT {
          pending := pending[1..];
        }
        return;
      }
      posted := posted + [line];
    }

    /** The socket handler after framing. */
    method OnLines(lines: seq<string>, scriptPresent: bool)
      requires Inv(View())
      modifies this
      ensures View() == Step(old(View()), Data(lines, scriptPresent)) && Inv(View())
    {
      if lines == [] {
        return;
      }
      if |lines| == 1 {
        assert lines == [lines[0]];
        var taken := Dispatch(lines[0], scriptPresent);
        if !taken {
          mainThread := mainThread + [lines[0]];
        }
        return;
      }
      var ok := Ensure(scriptPresent);
      if ok && ready {
        posted := posted + lines;
        return;
      }
      if ok && !ready {
        ghost var queue := pending + lines;
        pending := pending + lines;
        while |pending| > LIMIT
          invariant Latest(pending, LIMIT) == Latest(queue, LIMIT)
          invariant alive && !ready && posted == old(posted) && mainThread == old(mainThread)
          decreases |pending|
        {
          pending := pending[1..];
        }
        return;
      }
      mainThread := mainThread + lines;
    }

    method OnReady()
      requires Inv(View()) && Enabled(View(), Ready)
      modifies this
      ensures View() == Step(old(View()), Ready) && Inv(View())
    {
      ready := true;
      if |pending| > 0 {
        var batch := pending;
        pending := [];
        posted := posted + batch;
      } else {
        assert posted + pending == posted;
      }
    }

    method OnExit()
      requires Inv(View()) && Enabled(View(), Exit)
      modifies this
      ensures View() == Step(old(View()), Exit) && Inv(View())
    {
      ready := false;
      alive := false;
    }

    method OnRelease()
      modifies this
      ensures View() == Step(old(View()), Release)
    {
      alive := false;
      ready := false;
      pending := [];
    }
  }
}
