/** Off-thread JSON parsing with a worker, a timeout and a main-thread fallback.

    Events are what the page's event loop may run: a call, the worker's reply to one posted message,
    the five-second timer of one call, a worker error.  They interleave in any order.
 */
module JsonOffThread {
  import opened Wrappers

  const MIN_LENGTH := 4096

  /** JSON.parse (None when it throws) and whether a value is an object or an array. */
  datatype Engine<!J> = Engine(parse: string -> Option<J>, isObject: J -> bool)

  /** The worker's message: its verdict and, when the text parsed, the value if it is an object. */
  datatype Message<J> = Parsed(data: Option<J>) | Rejected

  function WorkerAnswer<J>(js: Engine<J>, text: string): Message<J> {
    match js.parse(text)
    case None => Rejected
    case Some(v) => Parsed(if js.isObject(v) then Some(v) else None)
  }

  /** What the page resolves a waiter with on a worker's message. */
  function Reply<J>(js: Engine<J>, text: string): Option<J> {
    match WorkerAnswer(js, text)
    case Parsed(data) => data
    case Rejected => None
  }

  /** What fetchJson does with a text when no worker is involved. */
  function OnMainThread<J>(js: Engine<J>, text: string): Option<J> {
    match js.parse(text)
    case None => None
    case Some(v) => if js.isObject(v) then Some(v) else None
  }

  /** The end of fetchJson: an object from the worker is returned, anything else is parsed again. */
  function FetchResult<J>(js: Engine<J>, text: string, offThread: Option<J>): Option<J> {
    if offThread.Some? then offThread else OnMainThread(js, text)
  }

  /** Both sides give a value exactly when the text parses to it and it is an object. */
  lemma ReplyIs<J>(js: Engine<J>, text: string, v: J)
    ensures Reply(js, text) == Some(v) <==> js.parse(text) == Some(v) && js.isObject(v)
    ensures OnMainThread(js, text) == Some(v) <==> js.parse(text) == Some(v) && js.isObject(v)
  {
  }

  datatype Event =
    | Call(text: string, canSpawn: bool)
    | Message(id: nat)
    | Timer(id: nat)
    | Error

  /** `posted` are the messages given to workers, `answered` those a worker has replied to, `fired`
      the timers that went off, `settled` the calls of resolve, in order; `direct` counts the calls
      answered null at once. */
  datatype State<J> = State(
    worker: bool, seqNo: nat, waiters: set<nat>, posted: map<nat, string>, answered: set<nat>,
    fired: set<nat>, settled: seq<(nat, Option<J>)>, direct: nat)

  function Initial<J>(): State<J> {
    State(false, 0, {}, map[], {}, {}, [], 0)
  }

  predicate Enabled<J(!new)>(s: State<J>, e: Event) {
    match e
    case Call(_, _) => true
    case Message(id) => id in s.posted && id !in s.answered
    case Timer(id) => id in s.posted && id !in s.fired
    case Error => true
  }

  function Resolve<J>(s: State<J>, id: nat, v: Option<J>): State<J> {
    if id in s.waiters then s.(waiters := s.waiters - {id}, settled := s.settled + [(id, v)]) else s
  }

  function Step<J(!new)>(js: Engine<J>, s: State<J>, e: Event): State<J>
    requires Enabled(s, e)
  {
    match e
    case Call(text, canSpawn) =>
      var s1 := s.(worker := s.worker || canSpawn);
      if !s1.worker || |text| < MIN_LENGTH then s1.(direct := s.direct + 1)
      else
        var id := s.seqNo + 1;
        s1.(seqNo := id, waiters := s.waiters + {id}, posted := s.posted[id := text])
    case Message(id) => Resolve(s.(answered := s.answered + {id}), id, Reply(js, s.posted[id]))
    case Timer(id) => Resolve(s.(fired := s.fired + {id}), id, None)
    case Error => s.(worker := false)
  }

  ghost predicate Run<J(!new)>(js: Engine<J>, s: State<J>, events: seq<Event>, s': State<J>)
    decreases |events|
  {
    if events == [] then s == s'
    else Enabled(s, events[0]) && Run(js, Step(js, s, events[0]), events[1..], s')
  }

  ghost predicate SettledIds<J(!new)>(s: State<J>, id: nat) {
    exists k :: 0 <= k < |s.settled| && s.settled[k].0 == id
  }

  ghost predicate Inv<J(!new)>(js: Engine<J>, s: State<J>) {
    && (forall id :: id in s.posted <==> 1 <= id <= s.seqNo)
    && s.waiters <= s.posted.Keys && s.answered <= s.posted.Keys && s.fired <= s.posted.Keys
    && (forall id :: id in s.posted ==> (id in s.waiters <==> !SettledIds(s, id)))
    && (forall id :: id in s.posted && (id in s.fired || id in s.answered) ==> id !in s.waiters)
    && (forall k :: 0 <= k < |s.settled| ==> s.settled[k].0 in s.posted)
    && (forall k, l :: 0 <= k < l < |s.settled| ==> s.settled[k].0 != s.settled[l].0)
    && (forall k :: 0 <= k < |s.settled| ==>
         s.settled[k].1 == None || s.settled[k].1 == Reply(js, s.posted[s.settled[k].0]))
  }

  lemma ResolveKeepsInv<J(!new)>(js: Engine<J>, s: State<J>, id: nat, v: Option<J>, answered: set<nat>, fired: set<nat>)
    requires Inv(js, s) && id in s.posted && (v == None || v == Reply(js, s.posted[id]))
    requires answered <= s.answered + {id} && fired <= s.fired + {id}
    ensures Inv(js, Resolve(s.(answered := answered, fired := fired), id, v))
  {
    hide SettledIds, Reply;
    var t := Resolve(s.(answered := answered, fired := fired), id, v);
    if id in s.waiters {
      OneMoreSettled(s, t, id, v);
      NotSettled(s, id);
    } else {
      SameSettled(s, t);
    }
  }

  lemma OneMoreSettled<J(!new)>(s: State<J>, t: State<J>, id: nat, v: Option<J>)
    requires t.settled == s.settled + [(id, v)]
    ensures forall x :: SettledIds(t, x) <==> SettledIds(s, x) || x == id
  {
    forall x
      ensures SettledIds(t, x) <==> SettledIds(s, x) || x == id
    {
      if SettledIds(s, x) {
        var k :| 0 <= k < |s.settled| && s.settled[k].0 == x;
        assert t.settled[k].0 == x;
      }
      assert t.settled[|s.settled|].0 == id;
    }
  }

  lemma NotSettled<J(!new)>(s: State<J>, id: nat)
    requires !SettledIds(s, id)
    ensures forall k :: 0 <= k < |s.settled| ==> s.settled[k].0 != id
  {
  }

  lemma SameSettled<J(!new)>(s: State<J>, t: State<J>)
    requires t.settled == s.settled
    ensures forall x :: SettledIds(t, x) <==> SettledIds(s, x)
  {
  }

  lemma StepKeepsInv<J(!new)>(js: Engine<J>, s: State<J>, e: Event)
    requires Inv(js, s) && Enabled(s, e)
    ensures Inv(js, Step(js, s, e))
  {
    match e {
      case Call(text, canSpawn) => CallKeepsInv(js, s, text, canSpawn);
      case Message(id) => ResolveKeepsInv(js, s, id, Reply(js, s.posted[id]), s.answered + {id}, s.fired);
      case Timer(id) => ResolveKeepsInv(js, s, id, None, s.answered, s.fired + {id});
      case Error => assert forall x :: SettledIds(s.(worker := false), x) <==> SettledIds(s, x);
    }
  }

  lemma CallKeepsInv<J(!new)>(js: Engine<J>, s: State<J>, text: string, canSpawn: bool)
    requires Inv(js, s)
    ensures Inv(js, Step(js, s, Call(text, canSpawn)))
  {
    var t := Step(js, s, Call(text, canSpawn));
    assert t.settled == s.settled;
    forall x
      ensures SettledIds(t, x) <==> SettledIds(s, x)
    {
    }
    forall x | SettledIds(s, x)
      ensures x in s.posted
    {
      var k :| 0 <= k < |s.settled| && s.settled[k].0 == x;
    }
  }

  lemma {:induction false} RunKeepsInv<J(!new)>(js: Engine<J>, s: State<J>, events: seq<Event>, s': State<J>)
    requires Inv(js, s) && Run(js, s, events, s')
    ensures Inv(js, s')
    decreases |events|
  {
    if events != [] {
      hide Inv, Step, Enabled;
      StepKeepsInv(js, s, events[0]);
      RunKeepsInv(js, Step(js, s, events[0]), events[1..], s');
    }
  }

  /** Main result: over every interleaving each off-thread call is settled at most once, is settled
      once its timer has fired or its reply has come, and settles with null or with the parse of its
      own text. */
  lemma SettlesOnce<J(!new)>(js: Engine<J>, events: seq<Event>, s: State<J>, id: nat)
    requires Run(js, Initial(), events, s) && 1 <= id <= s.seqNo
    ensures forall k, l ::
      0 <= k < |s.settled| && 0 <= l < |s.settled| && s.settled[k].0 == id && s.settled[l].0 == id ==> k == l
    ensures id in s.fired || id in s.answered ==> SettledIds(s, id)
    ensures forall k :: 0 <= k < |s.settled| && s.settled[k].0 == id ==>
      id in s.posted && (s.settled[k].1 == None || s.settled[k].1 == Reply(js, s.posted[id]))
  {
    RunKeepsInv(js, Initial(), events, s);
  }

  /** And so fetchJson returns what parsing on the main thread returns, whatever settled it. */
  lemma FetchRefinesMainThread<J(!new)>(js: Engine<J>, events: seq<Event>, s: State<J>, k: nat)
    requires Run(js, Initial(), events, s) && k < |s.settled|
    ensures s.settled[k].0 in s.posted
    ensures
      var text := s.posted[s.settled[k].0];
      && FetchResult(js, text, s.settled[k].1) == OnMainThread(js, text)
      && forall v :: FetchResult(js, text, s.settled[k].1) == Some(v) <==> js.parse(text) == Some(v) && js.isObject(v)
  {
    RunKeepsInv(js, Initial(), events, s);
  }

  /** A long text that the worker answers settles with what the worker made of it. */
  lemma WorkerAnswers<J(!new)>(js: Engine<J>, text: string) returns (s: State<J>)
    requires |text| >= 4096
    ensures Run(js, Initial(), [Call(text, true), Message(1)], s)
    ensures s.settled == [(1, Reply(js, text))] && s.waiters == {}
  {
    var events := [Call(text, true), Message(1)];
    var mid := Step(js, Initial(), events[0]);
    s := Step(js, mid, events[1]);
    assert events[1..] == [events[1]] && events[1..][1..] == [];
    assert Run(js, mid, events[1..], s);
  }

  // ---------------------------------------------------------------- the page's code

  class JsonParser<J(!new)> {
    const js: Engine<J>
    var worker: bool
    var seqNo: nat
    var waiters: set<nat>
    var posted: map<nat, string>
    var answered: set<nat>
    var fired: set<nat>
    var settled: seq<(nat, Option<J>)>
    var direct: nat

    constructor (js: Engine<J>)
      ensures this.js == js && View() == Initial()
    {
      this.js := js;
      worker, seqNo, waiters, posted, answered, fired, settled, direct := false, 0, {}, map[], {}, {}, [], 0;
    }

    function View(): State<J>
      reads this
    {
      State(worker, seqNo, waiters, posted, answered, fired, settled, direct)
    }

    method EnsureWorker(canSpawn: bool) returns (ok: bool)
      modifies this`worker
      ensures ok == worker == (old(worker) || canSpawn)
    {
      if !worker {
        worker := canSpawn;
      }
      ok := worker;
    }

    /** parseJsonOffThread: the number of the pending call, or None when it is answered null at once. */
    method ParseOffThread(text: string, canSpawn: bool) returns (id: Option<nat>)
      modifies this
      ensures View() == Step(js, old(View()), Call(text, canSpawn))
      ensures id == if seqNo == old(seqNo) then None else Some(seqNo)
      ensures id.Some? <==> (old(worker) || canSpawn) && |text| >= 4096
    {
      var ok := EnsureWorker(canSpawn);
      if !ok || |text| < MIN_LENGTH {
        direct := direct + 1;
        return None;
      }
      seqNo := seqNo + 1;
      waiters := waiters + {seqNo};
      posted := posted[seqNo := text];
      return Some(seqNo);
    }

    method OnMessage(id: nat)
      requires Enabled(View(), Message(id))
      modifies this
      ensures View() == Step(js, old(View()), Message(id))
      ensures id in old(waiters) ==>
        && |settled| == |old(settled)| + 1
        && forall v ::
             settled[|old(settled)|] == (id, Some(v)) <==> js.parse(posted[id]) == Some(v) && js.isObject(v)
    {
      var data := Reply(js, posted[id]);
      answered := answered + {id};
      if id !in waiters {
        return;
      }
      waiters := waiters - {id};
      settled := settled + [(id, data)];
    }

    method OnTimer(id: nat)
      requires Enabled(View(), Timer(id))
      modifies this
      ensures View() == Step(js, old(View()), Timer(id))
    {
      fired := fired + {id};
      if id in waiters {
        waiters := waiters - {id};
        settled := settled + [(id, None)];
      }
    }

    method OnError()
      modifies this`worker
      ensures View() == Step(js, old(View()), Error)
    {
      worker := false;
    }
  }
}
