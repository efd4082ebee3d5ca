/** The polling scheduler around the back-fill: its own reading of the status file, and what the
    two gates together guarantee over every sequence of ticks.
 */
module OhlcScheduler {
  import opened Wrappers
  import opened BarLog
  import opened PriceServer
  import opened YahooSeeder
  import opened BackfillSteps
  import opened Backfill
  import opened BackfillHistory
  import opened BackfillRuns

  const MICRO := 1000000
  const POLL_INTERVAL := 300

  /** The scheduler reads its clock in microseconds and looks at the retry time alone. */
  predicate SchedulerHolds(s: PullStatus, micros: int) {
    s.nextRetry.Some? && micros < s.nextRetry.value * MICRO
  }

  /** Once the scheduler lets a status pass, so does the fetcher, at that instant or later. */
  lemma SchedulerPassesFetcher(s: PullStatus, micros: int, later: int)
    requires micros <= later && !SchedulerHolds(s, micros)
    ensures !FetcherHolds(s, later / MICRO)
  {
  }

  /** On the statuses the fetcher saves the two gates are the same gate; on a status with a retry
      time and no reason they differ. */
  lemma GatesAgree(s: PullStatus, micros: int)
    ensures Paired(s) ==> (SchedulerHolds(s, micros) <==> FetcherHolds(s, micros / MICRO))
    ensures !Paired(s) && s.nextRetry.Some? ==> !FetcherHolds(s, micros / MICRO)
  {
  }

  // ---------------------------------------------------------------- statuses over runs

  /** Runs one after another on one status file, with a clock that never steps back. */
  ghost predicate StatusHistory(runs: seq<StatusRun>) {
    && (forall i :: 0 <= i < |runs| ==> StatusContract(runs[i]))
    && (forall i, j :: 0 <= i && j == i + 1 && j < |runs| ==>
         runs[j].before == runs[i].after && runs[i].ended <= runs[j].began)
  }

  /** The retry time saved by run i either still stands before run j or has passed. */
  lemma {:induction false} RetryStandsOrPasses(runs: seq<StatusRun>, i: nat, j: nat)
    requires StatusHistory(runs) && i < j < |runs| && Paired(runs[i].after) && runs[i].after.nextRetry.Some?
    ensures
      var s, b := runs[i].after, runs[j].before;
      (b.nextRetry == s.nextRetry && b.block == s.block) || s.nextRetry.value <= runs[j].began
    decreases j
  {
    assert runs[j].before == runs[j - 1].after && StatusContract(runs[j - 1]);
    if i < j - 1 {
      RetryStandsOrPasses(runs, i, j - 1);
    }
  }

  /** Over every history: no price request is sent before a retry time that any earlier run saved. */
  lemma NoRequestBeforeRetry(runs: seq<StatusRun>, i: nat, j: nat, k: nat)
    requires StatusHistory(runs) && i < j < |runs| && k < |runs[j].sent|
    requires Paired(runs[i].after) && runs[i].after.nextRetry.Some?
    ensures runs[i].after.nextRetry.value <= runs[j].sent[k].time
  {
    RetryStandsOrPasses(runs, i, j);
    assert StatusContract(runs[j]);
  }

  /** Starting from a paired or missing status file, every status of the history is paired. */
  lemma {:induction false} AlwaysPaired(runs: seq<StatusRun>, i: nat)
    requires StatusHistory(runs) && i < |runs| && Paired(runs[0].before)
    ensures Paired(runs[i].before) && Paired(runs[i].after)
    decreases i
  {
    assert StatusContract(runs[i]);
    if i > 0 {
      AlwaysPaired(runs, i - 1);
      assert runs[i].before == runs[i - 1].after;
    }
  }

  // ---------------------------------------------------------------- the scheduler itself

  /** What the world decides about one tick: the sub-second part of the scheduler's clock, the start-up
      time of the script and what Yahoo would deliver. */
  datatype Round = Round(micros: nat, launch: nat, yahoo: Seed)

  datatype TickEnd = Skipped | Invoked(report: RunReport)

  method Tick(f: Fetcher, round: Round, fallback: int)
    returns (t: TickEnd, ghost reach: int, ghost walked: seq<Bar>)
    requires Series(f.series) && f.cache.Valid() && round.micros < MICRO
    modifies f, f.cache
    ensures f.cache.Valid() && old(f.requests) <= f.requests
    ensures t.Skipped? <==>
      SchedulerHolds(old(f.status), old(f.clock) * MICRO + round.micros) || !WindowOpen(old(f.clock))
    ensures t.Skipped? ==> f.cache.log == old(f.cache.log) && f.cache.unread == old(f.cache.unread)
    ensures t.Skipped? ==> f.status == old(f.status)
    ensures t.Skipped? ==> f.requests == old(f.requests) && f.clock == old(f.clock)
    ensures t.Invoked? ==> !t.report.HeldBack?
    ensures t.Invoked? ==> (t.report.ClosedWindow? <==> !WindowOpen(old(f.clock) + round.launch))
    ensures t.Invoked? && t.report.ClosedWindow? ==>
      f.cache.log == old(f.cache.log) && f.cache.unread == old(f.cache.unread) && f.requests == old(f.requests)
    ensures t.Invoked? && t.report.ClosedWindow? ==> f.status == old(f.status)
    ensures t.Invoked? && t.report.Ran? ==>
      && t.report.start == ResumeFrom(LastKey(old(f.cache.log)), fallback)
      && t.report.end == old(f.clock) + round.launch && t.report.lines == |walked| + old(f.cache.unread)
      && RunBuilds(f.series, t.report, old(f.cache.log), walked, reach, round.yahoo, f.cache.log, f.requests,
                   |old(f.requests)|)
      && f.cache.unread ==
         (if FallsBack(t.report.walk) && Overwrites(round.yahoo, t.report.lines) then 0 else old(f.cache.unread))
      && RunEnds(f.world, t.report, f.requests, |old(f.requests)|, f.clock)
      && f.status == StatusAfter(t.report.walk, Reports(round.yahoo, t.report.lines))
    ensures StatusContract(StatusRun(old(f.status), f.status, old(f.clock), f.clock, f.requests[|old(f.requests)|..]))
    ensures Logged(f.world, f.requests, |old(f.requests)|, old(f.clock))
    ensures f.requests != old(f.requests) ==> f.requests[|f.requests| - 1].time <= f.clock
  {
    hide RunBuilds, RunEnds, Overwrites, FallsBack, WindowOpen, Logged, Clocked, Ordered, Keys, LastKey, ResumeFrom,
      StatusAfter, Reports, AllPaired;
    reach, walked := 0, f.cache.log;
    NothingYet(f.world, f.series, f.requests, f.saved, f.status, f.clock);
    ClockedSince(f.world, f.requests, |f.requests|, f.clock, 0, f.clock);
    if SchedulerHolds(f.status, f.clock * MICRO + round.micros) {
      return Skipped, reach, walked;
    }
    if !WindowOpen(f.clock) {
      return Skipped, reach, walked;
    }
    ghost var asked := f.clock;
    SchedulerPassesFetcher(f.status, asked * MICRO + round.micros, (asked + round.launch) * MICRO + round.micros);
    f.clock := f.clock + round.launch;
    var report;
    ghost var sent, slept := |f.requests|, f.slept;
    report, reach, walked := f.Run(None, fallback, true, round.yahoo);
    ClockedSince(f.world, f.requests, sent, asked + round.launch, f.slept - slept, f.clock);
    SentEarlier(f.world, f.requests, sent, asked, asked + round.launch);
    t := Invoked(report);
  }

  lemma SentEarlier(world: nat -> Answer, requests: seq<Request>, k: nat, lo: int, later: int)
    requires Logged(world, requests, k, later) && lo <= later
    ensures Logged(world, requests, k, lo)
  {
    hide Paced, Marked;
  }

  lemma EndsInTime(world: nat -> Answer, report: RunReport, requests: seq<Request>, k: nat, now: int)
    requires report.Ran? && k <= |requests| && RunEnds(world, report, requests, k, now)
    ensures k < |requests| ==> requests[k].time == report.end && requests[|requests| - 1].time <= now
    ensures report.start < report.end <==> k < |requests|
  {
    hide WalkEndsAs, Recovers, LastVerdict, MaySleep, Latencies;
  }

  /** What one tick of the loop did, from its gate to its requests and to the status its walk calls for. */
  ghost predicate TickRun(t: TickEnd, r: StatusRun, round: Round) {
    && (t.Skipped? <==> SchedulerHolds(r.before, r.began * MICRO + round.micros) || !WindowOpen(r.began))
    && (t.Skipped? ==> r.sent == [] && r.after == r.before && r.ended == r.began)
    && (t.Invoked? ==> !t.report.HeldBack? && (t.report.ClosedWindow? <==> !WindowOpen(r.began + round.launch)))
    && (t.Invoked? && t.report.ClosedWindow? ==> r.sent == [] && r.after == r.before)
    && (t.Invoked? && t.report.Ran? ==>
         && t.report.end == r.began + round.launch && (t.report.start < t.report.end <==> r.sent != [])
         && (r.sent != [] ==> r.sent[0].time == t.report.end)
         && r.after == StatusAfter(t.report.walk, Reports(round.yahoo, t.report.lines)))
  }

  ghost predicate AllTicks(ticks: seq<TickEnd>, runs: seq<StatusRun>, rounds: seq<Round>)
    requires |ticks| == |runs| <= |rounds|
  {
    forall i :: 0 <= i < |ticks| ==> TickRun(ticks[i], runs[i], rounds[i])
  }

  /** The walk of tick i ended as its last answer said. */
  ghost predicate TickEnds(
    world: nat -> Answer, before: seq<Request>, ticks: seq<TickEnd>, runs: seq<StatusRun>, i: nat)
    requires i < |ticks| == |runs|
  {
    var sent := before + Sent(runs[..i]);
    ticks[i].Invoked? && ticks[i].report.Ran? ==>
      RunEnds(world, ticks[i].report, sent + runs[i].sent, |sent|, runs[i].ended)
  }

  ghost predicate AllEnd(world: nat -> Answer, before: seq<Request>, ticks: seq<TickEnd>, runs: seq<StatusRun>)
    requires |ticks| == |runs|
  {
    forall i :: 0 <= i < |ticks| ==> TickEnds(world, before, ticks, runs, i)
  }

  lemma EndSnoc(
    world: nat -> Answer, before: seq<Request>, ticks: seq<TickEnd>, runs: seq<StatusRun>, t: TickEnd, r: StatusRun)
    requires |ticks| == |runs| && AllEnd(world, before, ticks, runs)
    requires t.Invoked? && t.report.Ran? ==>
      RunEnds(world, t.report, before + Sent(runs) + r.sent, |before + Sent(runs)|, r.ended)
    ensures AllEnd(world, before, ticks + [t], runs + [r])
  {
    hide RunEnds, Sent;
    forall i | 0 <= i < |ticks| + 1
      ensures TickEnds(world, before, ticks + [t], runs + [r], i)
    {
      if i < |ticks| {
        assert TickEnds(world, before, ticks, runs, i);
        assert (runs + [r])[..i] == runs[..i];
      } else {
        assert (runs + [r])[..i] == runs;
      }
    }
  }

  predicate Walking(t: TickEnd) {
    t.Invoked? && t.report.Ran?
  }

  /** The reports of the ticks that walked, each with what Yahoo would have delivered. */
  function Walks(ticks: seq<TickEnd>, rounds: seq<Round>): seq<(RunReport, Seed)>
    requires |ticks| <= |rounds|
  {
    if ticks == [] then []
    else
      var n := |ticks| - 1;
      Walks(ticks[..n], rounds) + (if Walking(ticks[n]) then [(ticks[n].report, rounds[n].yahoo)] else [])
  }

  lemma WalksSnoc(ticks: seq<TickEnd>, rounds: seq<Round>, t: TickEnd)
    requires |ticks| < |rounds|
    ensures Walks(ticks + [t], rounds) ==
      Walks(ticks, rounds) + (if Walking(t) then [(t.report, rounds[|ticks|].yahoo)] else [])
  {
    assert (ticks + [t])[..|ticks|] == ticks;
  }

  /** The visits are those of the walks, in order, each from the resume point of the cache it found. */
  ghost predicate Visited(walks: seq<(RunReport, Seed)>, visits: seq<RunRecord>, origin: int) {
    && |walks| == |visits|
    && forall i :: 0 <= i < |walks| ==> VisitOf(walks[i], visits[i], origin)
  }

  ghost predicate VisitOf(walk: (RunReport, Seed), v: RunRecord, origin: int) {
    && walk.0.Ran? && v == RunOf(walk.0, v.before, v.after, v.reach, walk.1, v.left)
    && v.start == ResumeFrom(LastKey(v.before), origin)
  }

  lemma VisitedSnoc(
    walks: seq<(RunReport, Seed)>, visits: seq<RunRecord>, origin: int, walk: (RunReport, Seed), v: RunRecord)
    requires Visited(walks, visits, origin) && VisitOf(walk, v, origin)
    ensures Visited(walks + [walk], visits + [v], origin)
  {
    hide VisitOf;
  }

  /** Visits from the resume point jump over nothing. */
  lemma VisitsNeverJump(
    rows: seq<Row>, origin: int, walks: seq<(RunReport, Seed)>, visits: seq<RunRecord>)
    requires Series(rows) && Visited(walks, visits, origin)
    ensures NoJump(rows, origin, visits)
  {
    hide BarsIn, ResumeFrom, LastKey;
    forall i | 0 <= i < |visits|
      ensures !Jumps(rows, origin, visits[i])
    {
      assert VisitOf(walks[i], visits[i], origin);
    }
  }

  /** The tick met the guard of the overwrite. */
  predicate Met(t: TickEnd, round: Round) {
    Walking(t) && FallsBack(t.report.walk) && Overwrites(round.yahoo, t.report.lines)
  }

  ghost predicate NoneMet(ticks: seq<TickEnd>, rounds: seq<Round>)
    requires |ticks| <= |rounds|
  {
    forall i :: 0 <= i < |ticks| ==> !Met(ticks[i], rounds[i])
  }

  lemma NoneMetSnoc(ticks: seq<TickEnd>, rounds: seq<Round>, t: TickEnd)
    requires |ticks| < |rounds|
    ensures NoneMet(ticks + [t], rounds) <==> NoneMet(ticks, rounds) && !Met(t, rounds[|ticks|])
  {
    hide Met;
    assert (ticks + [t])[|ticks|] == t;
    assert forall i :: 0 <= i < |ticks| ==> (ticks + [t])[i] == ticks[i];
  }

  lemma NoneDeliversNoneMet(ticks: seq<TickEnd>, rounds: seq<Round>)
    requires |ticks| <= |rounds| && NoneDelivers(rounds)
    ensures NoneMet(ticks, rounds)
  {
    hide Delivers;
  }

  /** The first run begins at `now`, and each later one a poll interval after the one before ended. */
  ghost predicate PolledFrom(runs: seq<StatusRun>, now: int) {
    && (runs != [] ==> runs[0].began == now)
    && (forall i, j :: 0 <= i && j == i + 1 && j < |runs| ==> runs[j].began == runs[i].ended + POLL_INTERVAL)
  }

  ghost predicate VisitsServed(rows: seq<Row>, requests: seq<Request>, visits: seq<RunRecord>) {
    forall i :: 0 <= i < |visits| ==> SpansServed(rows, requests, visits[i].spans)
  }

  lemma VisitsStillServed(rows: seq<Row>, sent: seq<Request>, requests: seq<Request>, visits: seq<RunRecord>)
    requires VisitsServed(rows, sent, visits) && sent <= requests
    ensures VisitsServed(rows, requests, visits)
  {
    hide SpansServed;
    forall i | 0 <= i < |visits|
      ensures SpansServed(rows, requests, visits[i].spans)
    {
      SpansStillServed(rows, sent, requests, visits[i].spans);
    }
  }

  lemma VisitsSnoc(rows: seq<Row>, requests: seq<Request>, visits: seq<RunRecord>, r: RunRecord)
    requires VisitsServed(rows, requests, visits) && SpansServed(rows, requests, r.spans)
    ensures VisitsServed(rows, requests, visits + [r])
  {
    hide SpansServed;
  }

  /** The requests of all runs, in order. */
  function Sent(runs: seq<StatusRun>): seq<Request> {
    if runs == [] then [] else Sent(runs[..|runs| - 1]) + runs[|runs| - 1].sent
  }

  lemma SentSnoc(runs: seq<StatusRun>, r: StatusRun)
    ensures Sent(runs + [r]) == Sent(runs) + r.sent
  {
    assert (runs + [r])[..|runs|] == runs;
  }

  lemma NoRetryMissed(runs: seq<StatusRun>)
    requires StatusHistory(runs)
    ensures forall i, j, k ::
      0 <= i < j < |runs| && 0 <= k < |runs[j].sent| && Paired(runs[i].after) && runs[i].after.nextRetry.Some?
      ==> runs[i].after.nextRetry.value <= runs[j].sent[k].time
  {
    hide StatusHistory;
    forall i, j, k | 0 <= i < j < |runs| && 0 <= k < |runs[j].sent| && Paired(runs[i].after)
        && runs[i].after.nextRetry.Some?
      ensures runs[i].after.nextRetry.value <= runs[j].sent[k].time
    {
      NoRequestBeforeRetry(runs, i, j, k);
    }
  }

  // ---------------------------------------------------------------- how long a block holds

  predicate Blocked(t: TickEnd) {
    Walking(t) && t.report.walk.StoppedBy?
  }

  /** A block that counts as seeded: Yahoo replaced the file in time, or the file has a hundred lines
      already, and then nothing is downloaded at all. */
  predicate MadeUp(t: TickEnd, round: Round) {
    Blocked(t) && FallsBack(t.report.walk) && Reports(round.yahoo, t.report.lines)
  }

  /** A block that was not made up for keeps the loop from sending until its retry time, and only such a
      block leaves its retry time in the status file. */
  lemma BlockHolds(ticks: seq<TickEnd>, runs: seq<StatusRun>, rounds: seq<Round>, i: nat)
    requires i < |ticks| == |runs| <= |rounds| && StatusHistory(runs) && AllTicks(ticks, runs, rounds)
    requires Blocked(ticks[i])
    ensures
      var b := ticks[i].report.walk.block;
      && (runs[i].after.nextRetry == Some(b.nextRetry) <==> !MadeUp(ticks[i], rounds[i]))
      && (MadeUp(ticks[i], rounds[i]) ==> runs[i].after == PullStatus(CompleteRun, None, None))
      && (!MadeUp(ticks[i], rounds[i]) ==> forall j, k :: i < j < |runs| && 0 <= k < |runs[j].sent| ==>
           b.nextRetry <= runs[j].sent[k].time)
  {
    hide StatusHistory, SchedulerHolds, WindowOpen, Reports, FallsBack;
    assert TickRun(ticks[i], runs[i], rounds[i]);
    if !MadeUp(ticks[i], rounds[i]) {
      forall j, k | i < j < |runs| && 0 <= k < |runs[j].sent|
        ensures ticks[i].report.walk.block.nextRetry <= runs[j].sent[k].time
      {
        NoRequestBeforeRetry(runs, i, j, k);
      }
    }
  }

  /** Main result: a tick inside the fetch window and before the retry time of the block before it is
      skipped if and only if that block was not made up for.  One that is not skipped sends at once,
      before the retry time, when the window and that time last until the script is up and the cache ends
      before then. */
  lemma BlockHoldsIff(ticks: seq<TickEnd>, runs: seq<StatusRun>, rounds: seq<Round>, i: nat)
    requires i + 1 < |ticks| == |runs| <= |rounds| && StatusHistory(runs) && AllTicks(ticks, runs, rounds)
    requires Blocked(ticks[i]) && rounds[i + 1].micros < MICRO
    requires WindowOpen(runs[i + 1].began) && runs[i + 1].began < ticks[i].report.walk.block.nextRetry
    ensures
      var b, next, up := ticks[i].report.walk.block, ticks[i + 1], runs[i + 1].began + rounds[i + 1].launch;
      && (next.Skipped? <==> !MadeUp(ticks[i], rounds[i]))
      && (MadeUp(ticks[i], rounds[i]) && WindowOpen(up) && up < b.nextRetry ==>
           Walking(next) && (next.report.start < next.report.end ==>
             runs[i + 1].sent != [] && runs[i + 1].sent[0].time < b.nextRetry))
  {
    hide StatusHistory, WindowOpen, Reports, FallsBack;
    BlockHolds(ticks, runs, rounds, i);
    NextBefore(runs, i);
    assert TickRun(ticks[i + 1], runs[i + 1], rounds[i + 1]);
  }

  lemma NextBefore(runs: seq<StatusRun>, i: nat)
    requires StatusHistory(runs) && i + 1 < |runs|
    ensures runs[i + 1].before == runs[i].after
  {
    hide StatusContract;
  }

  // ---------------------------------------------------------------- the loop

  /** A run from the resume point is a turn of a history. */
  lemma ResumedTurn(rows: seq<Row>, origin: int, first: seq<Bar>, visits: seq<RunRecord>, r: RunRecord)
    requires Series(rows) && OnGrid(origin)
    requires History(rows, origin, first, visits) && RunContract(rows, r) && Leaves(r)
    requires r.before == CacheAfter(first, visits) && r.start == ResumeFrom(LastKey(r.before), origin)
    requires visits != [] ==> Unread(r) == UnreadLeft(visits[|visits| - 1])
    ensures History(rows, origin, first, visits + [r]) && CacheAfter(first, visits + [r]) == r.left
    ensures Untouched(visits + [r]) <==> Untouched(visits) && !Replaced(r)
  {
    hide History, RunContract, Leaves, ResumeFrom, HoldsTo, BarsIn, Aligned, LastKey, Replaced;
    if IsPrefix(rows, origin, r.before) {
      var g :| HoldsTo(rows, origin, r.before, g);
      ResumePoint(rows, origin, r.before, g);
    }
    HistoryGrows(rows, origin, first, visits, r);
    assert (visits + [r])[|visits|] == r;
    assert forall i :: 0 <= i < |visits| ==> (visits + [r])[i] == visits[i];
  }

  /** The poll loop, over any ticks of any world.  `runs` and `visits` are what its ticks did to the
      status file and to the cache.  It sends nothing but the requests of its runs, all of them spaced,
      none before a retry time saved earlier or before that of a block that was not made up for; and as
      long as no tick met the guard of the overwrite, the cache only grows, and a prefix of the parseable
      server bars from `origin` stays one. */
  method Poll(f: Fetcher, rounds: seq<Round>, origin: int, ghost held: int)
    returns (ghost ticks: seq<TickEnd>, ghost runs: seq<StatusRun>, ghost visits: seq<RunRecord>, ghost frontier: int)
    requires Series(f.series) && f.cache.Valid() && OnGrid(origin)
    requires forall i :: 0 <= i < |rounds| ==> rounds[i].micros < MICRO
    modifies f, f.cache
    ensures f.cache.Valid()
    // status and requests
    ensures StatusHistory(runs) && |ticks| == |runs| == |rounds|
    ensures AllTicks(ticks, runs, rounds) && PolledFrom(runs, old(f.clock))
    ensures AllEnd(f.world, old(f.requests), ticks, runs)
    ensures rounds != [] ==> runs[0].before == old(f.status) && runs[|rounds| - 1].after == f.status
    ensures f.requests == old(f.requests) + Sent(runs)
    ensures Logged(f.world, f.requests, |old(f.requests)|, old(f.clock))
    ensures forall i, j, k ::
      0 <= i < j < |runs| && 0 <= k < |runs[j].sent| && Paired(runs[i].after) && runs[i].after.nextRetry.Some?
      ==> runs[i].after.nextRetry.value <= runs[j].sent[k].time
    ensures forall i, j, k ::
      0 <= i < j < |runs| && 0 <= k < |runs[j].sent| && Blocked(ticks[i]) && !MadeUp(ticks[i], rounds[i])
      ==> ticks[i].report.walk.block.nextRetry <= runs[j].sent[k].time
    // the cache
    ensures History(f.series, origin, old(f.cache.log), visits) && f.cache.log == CacheAfter(old(f.cache.log), visits)
    ensures visits != [] ==> Unread(visits[0]) == old(f.cache.unread)
    ensures Visited(Walks(ticks, rounds), visits, origin) && VisitsServed(f.series, f.requests, visits)
    ensures Untouched(visits) <==> NoneMet(ticks, rounds)
    ensures Untouched(visits) ==> old(f.cache.log) <= f.cache.log
    ensures Untouched(visits) && HoldsTo(f.series, origin, old(f.cache.log), held) ==>
      held <= frontier && HoldsTo(f.series, origin, f.cache.log, frontier)
    ensures !Untouched(visits) ==> Seeded(f.cache.log)
    ensures old(f.cache.Lines()) >= MIN_BARS || NoneDelivers(rounds) ==> Untouched(visits)
  {
    hide HoldsTo, RunContract, StatusContract, WindowOpen, ResumeFrom, Untouched, Seeded, Ordered, Keys, LastKey,
      SpansServed, AnyServed, Ladder, RunEnds, SeedBars, StatusSide, WireSide, CacheSide, TickRun, Logged,
      SchedulerHolds, Overwrites, FallsBack, Reports, StatusAfter, Leaves, Appended, NextStart, Paired;
    ticks, runs, visits := [], [], [];
    ghost var first, junk, before, lo, was := f.cache.log, f.cache.unread, f.requests, f.clock, f.status;
    NothingPolled(f.series, f.world, f.requests, f.clock, f.status, rounds, origin, first, junk);
    var n := 0;
    while n < |rounds|
      invariant 0 <= n <= |rounds| && |ticks| == |runs| == n && f.cache.Valid()
      invariant CacheSide(f.series, f.requests, origin, first, junk, f.cache.log, f.cache.unread, ticks, rounds, visits)
      invariant StatusSide(ticks, runs, rounds, was, f.status, lo, f.clock)
      invariant WireSide(f.world, before, f.requests, ticks, runs, lo, f.clock)
    {
      ghost var log, unread, status, began, sent := f.cache.log, f.cache.unread, f.status, f.clock, f.requests;
      var t, reach, walked := Tick(f, rounds[n], origin);
      ghost var run := StatusRun(status, f.status, began, f.clock, f.requests[|sent|..]);
      ghost var r: Option<RunRecord> := None;
      if Walking(t) {
        EndsInTime(f.world, t.report, f.requests, |sent|, f.clock);
        r := Some(RunOf(t.report, log, walked, reach, rounds[n].yahoo, f.cache.log));
      }
      StatusTime(run);
      TickIsRun(t, run, rounds[n]);
      CacheStep(f.series, sent, f.requests, origin, first, junk, log, unread, f.cache.log, f.cache.unread, ticks,
                rounds, visits, t, r);
      StatusStep(ticks, runs, rounds, was, lo, t, run);
      RequestStep(f.world, before, sent, f.requests, ticks, runs, lo, t, run);
      ticks, runs, visits := ticks + [t], runs + [run], visits + (if r.Some? then [r.value] else []);
      f.clock := f.clock + POLL_INTERVAL;
      n := n + 1;
    }
    PollEnds(f.series, f.world, before, f.requests, origin, first, junk, f.cache.log, f.cache.unread, ticks, runs,
             visits, rounds, was, f.status, lo, f.clock);
    SeededForEver(f.series, origin, first, visits);
    VisitsNeverJump(f.series, origin, Walks(ticks, rounds), visits);
    frontier := held;
    if HoldsTo(f.series, origin, first, held) {
      frontier := ResumeKeepsPrefix(f.series, origin, first, held, visits);
    }
    LongOrUndelivered(f.series, origin, first, junk, ticks, rounds, visits);
    NoRetryMissed(runs);
    NoBlockMissed(ticks, runs, rounds);
  }

  lemma NoBlockMissed(ticks: seq<TickEnd>, runs: seq<StatusRun>, rounds: seq<Round>)
    requires |ticks| == |runs| <= |rounds| && StatusHistory(runs) && AllTicks(ticks, runs, rounds)
    ensures forall i, j, k ::
      0 <= i < j < |runs| && 0 <= k < |runs[j].sent| && Blocked(ticks[i]) && !MadeUp(ticks[i], rounds[i])
      ==> ticks[i].report.walk.block.nextRetry <= runs[j].sent[k].time
  {
    hide StatusHistory, AllTicks, MadeUp;
    forall i, j, k | 0 <= i < j < |runs| && 0 <= k < |runs[j].sent| && Blocked(ticks[i]) && !MadeUp(ticks[i], rounds[i])
      ensures ticks[i].report.walk.block.nextRetry <= runs[j].sent[k].time
    {
      BlockHolds(ticks, runs, rounds, i);
    }
  }

  lemma LongOrUndelivered(
    rows: seq<Row>, origin: int, first: seq<Bar>, junk: nat, ticks: seq<TickEnd>, rounds: seq<Round>,
    visits: seq<RunRecord>)
    requires Series(rows) && History(rows, origin, first, visits) && |ticks| <= |rounds|
    requires visits != [] ==> Unread(visits[0]) == junk
    requires Untouched(visits) <==> NoneMet(ticks, rounds)
    ensures |first| + junk >= MIN_BARS || NoneDelivers(rounds) ==> Untouched(visits)
  {
    hide History, Replaced, Met, Unread;
    if |first| + junk >= MIN_BARS && visits != [] { LongIsKept(rows, origin, first, visits); }
    if NoneDelivers(rounds) { NoneDeliversNoneMet(ticks, rounds); }
  }

  // ---------------------------------------------------------------- the three sides of the loop

  /** The status file over the ticks so far. */
  ghost predicate StatusSide(
    ticks: seq<TickEnd>, runs: seq<StatusRun>, rounds: seq<Round>, was: PullStatus, status: PullStatus,
    lo: int, now: int)
    requires |ticks| == |runs| <= |rounds|
  {
    && StatusHistory(runs) && AllTicks(ticks, runs, rounds) && PolledFrom(runs, lo)
    && lo <= now
    && (runs == [] ==> status == was && now == lo)
    && (runs != [] ==> runs[0].before == was && runs[|runs| - 1].after == status)
    && (runs != [] ==> runs[|runs| - 1].ended + POLL_INTERVAL == now)
  }

  /** The price requests over the ticks so far. */
  ghost predicate WireSide(
    world: nat -> Answer, before: seq<Request>, requests: seq<Request>, ticks: seq<TickEnd>, runs: seq<StatusRun>,
    lo: int, now: int)
    requires |ticks| == |runs|
  {
    && requests == before + Sent(runs) && AllEnd(world, before, ticks, runs)
    && Logged(world, requests, |before|, lo) && Rested(world, requests, |before|, now) && lo <= now
  }

  ghost predicate NoneDelivers(rounds: seq<Round>) {
    forall i :: 0 <= i < |rounds| ==> !Delivers(rounds[i].yahoo)
  }

  /** The cache file over the ticks so far. */
  ghost predicate CacheSide(
    rows: seq<Row>, requests: seq<Request>, origin: int, first: seq<Bar>, junk: nat, log: seq<Bar>, unread: nat,
    ticks: seq<TickEnd>, rounds: seq<Round>, visits: seq<RunRecord>)
    requires Series(rows) && |ticks| <= |rounds|
  {
    && History(rows, origin, first, visits) && log == CacheAfter(first, visits)
    && (visits == [] ==> unread == junk)
    && (visits != [] ==> Unread(visits[0]) == junk && unread == UnreadLeft(visits[|visits| - 1]))
    && Visited(Walks(ticks, rounds), visits, origin) && VisitsServed(rows, requests, visits)
    && (Untouched(visits) <==> NoneMet(ticks, rounds))
  }

  lemma NothingPolled(
    rows: seq<Row>, world: nat -> Answer, requests: seq<Request>, now: int, status: PullStatus, rounds: seq<Round>,
    origin: int, first: seq<Bar>, junk: nat)
    requires Series(rows)
    ensures CacheSide(rows, requests, origin, first, junk, first, junk, [], rounds, [])
    ensures StatusSide([], [], rounds, status, status, now, now)
    ensures WireSide(world, requests, requests, [], [], now, now)
  {
    NothingYet(world, rows, requests, [], status, now);
    ClockedSince(world, requests, |requests|, now, 0, now);
    assert requests + Sent([]) == requests;
  }

  lemma TickIsRun(t: TickEnd, r: StatusRun, round: Round)
    requires t.Skipped? <==> SchedulerHolds(r.before, r.began * MICRO + round.micros) || !WindowOpen(r.began)
    requires t.Skipped? ==> r.sent == [] && r.after == r.before && r.ended == r.began
    requires t.Invoked? ==> !t.report.HeldBack?
    requires t.Invoked? ==> (t.report.ClosedWindow? <==> !WindowOpen(r.began + round.launch))
    requires t.Invoked? && t.report.ClosedWindow? ==> r.sent == [] && r.after == r.before
    requires Walking(t) ==> t.report.end == r.began + round.launch
    requires Walking(t) ==> (t.report.start < t.report.end <==> r.sent != [])
    requires Walking(t) ==> (r.sent != [] ==> r.sent[0].time == t.report.end)
    requires Walking(t) ==> r.after == StatusAfter(t.report.walk, Reports(round.yahoo, t.report.lines))
    ensures TickRun(t, r, round)
  {
  }

  lemma StatusStep(
    ticks: seq<TickEnd>, runs: seq<StatusRun>, rounds: seq<Round>, was: PullStatus, lo: int, t: TickEnd, r: StatusRun)
    requires |ticks| == |runs| < |rounds| && StatusSide(ticks, runs, rounds, was, r.before, lo, r.began)
    requires StatusContract(r) && TickRun(t, r, rounds[|runs|])
    ensures StatusSide(ticks + [t], runs + [r], rounds, was, r.after, lo, r.ended + POLL_INTERVAL)
  {
    hide TickRun, StatusContract;
    StatusTime(r);
  }

  lemma StatusTime(r: StatusRun)
    requires StatusContract(r)
    ensures r.began <= r.ended
  {
  }

  lemma RequestStep(
    world: nat -> Answer, before: seq<Request>, sent: seq<Request>, requests: seq<Request>, ticks: seq<TickEnd>,
    runs: seq<StatusRun>, lo: int, t: TickEnd, r: StatusRun)
    requires |ticks| == |runs| && WireSide(world, before, sent, ticks, runs, lo, r.began)
    requires t.Invoked? && t.report.Ran? ==> |sent| <= |requests| && RunEnds(world, t.report, requests, |sent|, r.ended)
    requires sent <= requests && r.sent == requests[|sent|..]
    requires Logged(world, requests, |sent|, r.began) && r.began <= r.ended
    requires requests != sent ==> requests[|requests| - 1].time <= r.ended
    ensures WireSide(world, before, requests, ticks + [t], runs + [r], lo, r.ended + POLL_INTERVAL)
  {
    hide Logged, Sent, Rested, AllEnd, RunEnds;
    SentSnoc(runs, r);
    MoreSent(before, Sent(runs), r.sent);
    assert requests == sent + r.sent;
    EndSnoc(world, before, ticks, runs, t, r);
    if requests != sent {
      LoggedOn(world, sent, requests, |before|, lo, r.began);
      RestedAfter(world, requests, |before|, r.ended + POLL_INTERVAL);
    } else {
      RestedOn(world, requests, |before|, r.began, r.ended + POLL_INTERVAL);
    }
  }

  lemma MoreSent(a: seq<Request>, b: seq<Request>, c: seq<Request>)
    ensures a + b + c == a + (b + c)
  {
  }

  lemma RestedOn(world: nat -> Answer, requests: seq<Request>, k: nat, now: int, later: int)
    requires Rested(world, requests, k, now) && now <= later
    ensures Rested(world, requests, k, later)
  {
  }

  lemma CacheStep(
    rows: seq<Row>, sent: seq<Request>, requests: seq<Request>, origin: int, first: seq<Bar>, junk: nat,
    log: seq<Bar>, unread: nat, log': seq<Bar>, unread': nat, ticks: seq<TickEnd>, rounds: seq<Round>,
    visits: seq<RunRecord>, t: TickEnd, r: Option<RunRecord>)
    requires Series(rows) && OnGrid(origin) && |ticks| < |rounds|
    requires CacheSide(rows, sent, origin, first, junk, log, unread, ticks, rounds, visits) && sent <= requests
    requires r.Some? <==> Walking(t)
    requires r.None? ==> log' == log && unread' == unread
    requires r.Some? ==>
      && r.value == RunOf(t.report, r.value.before, r.value.after, r.value.reach, rounds[|ticks|].yahoo, r.value.left)
      && RunContract(rows, r.value) && Leaves(r.value) && SpansServed(rows, requests, r.value.spans)
      && r.value.before == log && r.value.left == log' && r.value.start == ResumeFrom(LastKey(log), origin)
      && Unread(r.value) == unread && unread' == UnreadLeft(r.value)
    ensures CacheSide(rows, requests, origin, first, junk, log', unread', ticks + [t], rounds,
                      visits + (if r.Some? then [r.value] else []))
  {
    hide RunContract, Leaves, SpansServed, Overwrites, FallsBack, ResumeFrom, LastKey, HoldsTo, OnGrid, History,
      Untouched, VisitsServed, Visited, Walks, NoneMet, Unread, UnreadLeft;
    VisitsStillServed(rows, sent, requests, visits);
    WalksSnoc(ticks, rounds, t);
    NoneMetSnoc(ticks, rounds, t);
    match r {
      case None => assert visits + [] == visits && Walks(ticks, rounds) + [] == Walks(ticks, rounds);
      case Some(v) =>
        ResumedTurn(rows, origin, first, visits, v);
        VisitsSnoc(rows, requests, visits, v);
        VisitedSnoc(Walks(ticks, rounds), visits, origin, (t.report, rounds[|ticks|].yahoo), v);
    }
  }

  lemma PollEnds(
    rows: seq<Row>, world: nat -> Answer, before: seq<Request>, requests: seq<Request>, origin: int, first: seq<Bar>,
    junk: nat, log: seq<Bar>, unread: nat, ticks: seq<TickEnd>, runs: seq<StatusRun>, visits: seq<RunRecord>,
    rounds: seq<Round>, was: PullStatus, status: PullStatus, lo: int, now: int)
    requires Series(rows) && |ticks| == |runs| == |rounds|
    requires CacheSide(rows, requests, origin, first, junk, log, unread, ticks, rounds, visits)
    requires StatusSide(ticks, runs, rounds, was, status, lo, now)
    requires WireSide(world, before, requests, ticks, runs, lo, now)
    ensures History(rows, origin, first, visits) && log == CacheAfter(first, visits)
    ensures visits != [] ==> Unread(visits[0]) == junk
    ensures Visited(Walks(ticks, rounds), visits, origin) && AllEnd(world, before, ticks, runs)
    ensures VisitsServed(rows, requests, visits) && (Untouched(visits) <==> NoneMet(ticks, rounds))
    ensures StatusHistory(runs) && AllTicks(ticks, runs, rounds) && PolledFrom(runs, lo)
    ensures runs != [] ==> runs[0].before == was && runs[|runs| - 1].after == status
    ensures requests == before + Sent(runs) && Logged(world, requests, |before|, lo)
  {
    hide History, VisitsServed, Untouched, StatusHistory, AllTicks, PolledFrom, Logged, Sent, NoneMet, Visited,
      AllEnd, Walks, Unread, UnreadLeft;
  }

  // ---------------------------------------------------------------- a block that does not hold

  lemma {:induction false} RefusedAtOnce(n: nat)
    ensures Latencies(Refusing, 0, n) == 0 && !MaySleep(Refusing, 0, n)
  {
    if n > 0 { RefusedAtOnce(n - 1); }
  }

  /** A walk in the refusing world is blocked by the allowance the moment it begins. */
  lemma RefusedTick(ticks: seq<TickEnd>, runs: seq<StatusRun>)
    requires |ticks| == |runs| > 0 && TickEnds(Refusing, [], ticks, runs, 0)
    requires Walking(ticks[0]) && runs[0].sent != []
    ensures runs[0].ended == ticks[0].report.end
    ensures ticks[0].report.walk == StoppedBy(Block(AllowanceBlock, runs[0].ended + ALLOWANCE_RETRY))
  {
    hide Recovers;
    assert Sent(runs[..0]) == [] && [] + runs[0].sent == runs[0].sent;
    RefusedAtOnce(|runs[0].sent|);
  }

  lemma FirstWalk(ticks: seq<TickEnd>, rounds: seq<Round>)
    requires 1 <= |ticks| <= 2 && |ticks| <= |rounds| && Walking(ticks[0])
    ensures Walks(ticks, rounds) != [] && Walks(ticks, rounds)[0] == (ticks[0].report, rounds[0].yahoo)
    ensures |ticks| == 2 && Walking(ticks[1]) ==>
      |Walks(ticks, rounds)| == 2 && Walks(ticks, rounds)[1] == (ticks[1].report, rounds[1].yahoo)
  {
    assert Walks(ticks[..0], rounds) == [];
    assert Walks(ticks[..1], rounds) == [(ticks[0].report, rounds[0].yahoo)] by {
      assert ticks[..1][..0] == ticks[..0];
    }
  }

  /** The failing input: a mapped epic with a hundred cached lines, the allowance refusing every request.
      The block counts as seeded although nothing is downloaded, the status file loses its retry time, and
      the next poll, five minutes later and forty minutes too early, sends again. */
  method RetryForgotten(rows: seq<Row>, cache: BarCache, clock: int, origin: int, yahoo: Seed)
    returns (ghost ticks: seq<TickEnd>, ghost runs: seq<StatusRun>)
    requires Series(rows) && cache.Valid() && OnGrid(origin) && yahoo.mapped && cache.Lines() >= MIN_BARS
    requires WindowOpen(clock) && WindowOpen(clock + POLL_INTERVAL) && ResumeFrom(LastKey(cache.log), origin) < clock
    modifies cache
    ensures |ticks| == |runs| == 2 && Blocked(ticks[0])
    ensures ticks[0].report.walk.block == Block(AllowanceBlock, clock + ALLOWANCE_RETRY)
    ensures runs[0].after == PullStatus(CompleteRun, None, None)
    ensures runs[1].sent != [] && runs[1].sent[0].time == clock + POLL_INTERVAL < clock + ALLOWANCE_RETRY
  {
    hide StatusHistory, WindowOpen, ResumeFrom, LastKey, History, Visited, VisitsServed, Untouched, AllTicks, AllEnd,
      TickEnds, HoldsTo, Seeded, NoneMet, Logged, Sent, Walks, NoneDelivers, Ordered, Keys, TickRun, RunContract,
      BarsIn, Overwrites;
    var f := new Fetcher(rows, Refusing, cache, clock, NEVER);
    ghost var first, junk := cache.log, cache.unread;
    var round := Round(0, 0, yahoo);
    var rounds := [round, round];
    ghost var visits, frontier;
    ticks, runs, visits, frontier := Poll(f, rounds, origin, origin);
    TickAt(ticks, runs, rounds, 0);
    FirstGate(ticks[0], runs[0], round);
    FirstWalk(ticks, rounds);
    VisitAt(Walks(ticks, rounds), visits, origin, 0);
    EndAt(ticks, runs, 0);
    FirstVisit(rows, origin, first, visits);
    StartedBelow(ticks[0], runs[0], round);
    RefusedTick(ticks, runs);
    CountsAsSeeded(ticks[0], round);
    BlockHolds(ticks, runs, rounds, 0);
    BlockHoldsIff(ticks, runs, rounds, 0);
    VisitAt(Walks(ticks, rounds), visits, origin, 1);
    ResumesBelow(rows, origin, visits[0]);
    SecondVisit(rows, origin, first, visits);
    TickAt(ticks, runs, rounds, 1);
    StartedBelow(ticks[1], runs[1], round);
  }

  lemma TickAt(ticks: seq<TickEnd>, runs: seq<StatusRun>, rounds: seq<Round>, i: nat)
    requires |ticks| == |runs| <= |rounds| && AllTicks(ticks, runs, rounds) && i < |ticks|
    ensures TickRun(ticks[i], runs[i], rounds[i])
  {
    hide TickRun;
  }

  lemma EndAt(ticks: seq<TickEnd>, runs: seq<StatusRun>, i: nat)
    requires |ticks| == |runs| && AllEnd(Refusing, [], ticks, runs) && i < |ticks|
    ensures TickEnds(Refusing, [], ticks, runs, i)
  {
    hide TickEnds;
  }

  lemma VisitAt(walks: seq<(RunReport, Seed)>, visits: seq<RunRecord>, origin: int, i: nat)
    requires Visited(walks, visits, origin) && i < |walks|
    ensures |visits| == |walks| && VisitOf(walks[i], visits[i], origin)
  {
    hide VisitOf;
  }

  lemma FirstVisit(rows: seq<Row>, origin: int, first: seq<Bar>, visits: seq<RunRecord>)
    requires Series(rows) && History(rows, origin, first, visits) && visits != []
    ensures visits[0].before == first && Leaves(visits[0]) && RunContract(rows, visits[0])
    ensures |first| <= |visits[0].after|
  {
    hide RunContract, Leaves, Aligned, IsPrefix;
    assert Turn(rows, origin, visits[0]);
    ContractGrows(rows, visits[0]);
  }

  lemma SecondVisit(rows: seq<Row>, origin: int, first: seq<Bar>, visits: seq<RunRecord>)
    requires Series(rows) && History(rows, origin, first, visits) && |visits| > 1
    ensures visits[1].before == visits[0].left
  {
    hide Turn;
    assert TakesUp(visits[0], visits[1]);
  }

  lemma FirstGate(t: TickEnd, r: StatusRun, round: Round)
    requires TickRun(t, r, round) && r.before == NEVER && round.launch == 0 && WindowOpen(r.began)
    ensures Walking(t)
  {
    hide WindowOpen;
  }

  lemma StartedBelow(t: TickEnd, r: StatusRun, round: Round)
    requires TickRun(t, r, round) && Walking(t)
    ensures t.report.end == r.began + round.launch
    ensures t.report.start < t.report.end ==> r.sent != [] && r.sent[0].time == t.report.end
  {
    hide WindowOpen, SchedulerHolds;
  }

  lemma CountsAsSeeded(t: TickEnd, round: Round)
    requires Blocked(t) && t.report.walk.block.reason == AllowanceBlock
    requires round.yahoo.mapped && t.report.lines >= MIN_BARS
    ensures MadeUp(t, round) && !Overwrites(round.yahoo, t.report.lines)
  {
    hide Delivers;
  }
}
