/** The fetcher in particular worlds, where its promises leave something open: an undisturbed run, a pair
    of histories that differ by the bar at their end, and a blocked run that ends in a Yahoo file.
 */
module BackfillRuns {
  import opened Wrappers
  import opened IsoTime
  import opened BarLog
  import opened PriceServer
  import opened YahooSeeder
  import opened BackfillSteps
  import opened Backfill
  import opened BackfillHistory

  // ---------------------------------------------------------------- an undisturbed run

  function Serving(n: nat): Answer {
    Answer(Http(200, false, false), 0)
  }

  const NEVER := PullStatus(NeverRun, None, None)

  lemma ServingServes(k: nat)
    ensures Recovers(Serving, k)
  {
    forall n | n >= k
      ensures Answered(Serving(n).signal) && !FourRefused(Serving, n)
    {
      assert !Transient(Serving(n).signal);
    }
  }

  ghost predicate AllDays(spans: seq<Span>, days: int) {
    forall i :: 0 <= i < |spans| ==> spans[i].days == days
  }

  lemma FullSize(spans: seq<Span>, start: int, end: int)
    requires Tiles(spans, start, end) && (spans != [] ==> 28 <= spans[|spans| - 1].days)
    ensures AllDays(spans, 28)
  {
    forall i | 0 <= i < |spans|
      ensures spans[i].days == 28
    {
      assert Cut(spans[i], end);
      assert i < |spans| - 1 ==> spans[|spans| - 1].days <= spans[i].days;
    }
  }

  /** Where the world serves every page after three refusals at most, a run in the fetch window without a
      block in its status file completes, with chunks of full size, and leaves what its walk built. */
  method UndisturbedRun(
    rows: seq<Row>, world: nat -> Answer, cache: BarCache, clock: int, argFrom: Option<int>, fallback: int)
    returns (ghost r: RunRecord)
    requires Series(rows) && cache.Valid() && WindowOpen(clock) && Recovers(world, 0)
    modifies cache
    ensures cache.Valid() && RunContract(rows, r) && Leaves(r) && AllDays(r.spans, 28)
    ensures Appended(rows, r.before, r.spans, r.after)
    ensures r.before == old(cache.log) && r.after == r.left == cache.log
    ensures r.lines == |r.after| + old(cache.unread) && cache.unread == old(cache.unread)
    ensures r.start == StartOf(argFrom, LastKey(old(cache.log)), fallback, true, clock) && r.end == clock
    ensures r.walk == Complete && !Replaced(r)
  {
    hide RunContract, WindowOpen, SpansServed, Recovers, Appended, AnyServed, Ordered, Keys, SeedBars, Clocked,
      Latencies, LastVerdict, WalkEndsAs, LastKey, StartOf, Overwrites;
    var f := new Fetcher(rows, world, cache, clock, NEVER);
    ghost var before := cache.log;
    var report, reach, walked := f.Run(argFrom, fallback, true, NO_YAHOO);
    r := RunOf(report, before, walked, reach, NO_YAHOO, cache.log);
    ContractTiles(rows, r);
    FullSize(r.spans, r.start, r.end);
  }

  lemma ContractTiles(rows: seq<Row>, r: RunRecord)
    requires Series(rows) && RunContract(rows, r)
    ensures Tiles(r.spans, r.start, r.end)
  {
    hide Tiles, Grows, AllTook, Extends, BarsIn, OnGrid;
  }

  /** Chunks of one size that cover a range are the same chunks. */
  lemma {:induction false} SameChunk(a: seq<Span>, b: seq<Span>, start: int, end: int, i: nat)
    requires Tiles(a, start, end) && Tiles(b, start, end) && AllDays(a, 28) && AllDays(b, 28)
    requires i < |a| && i < |b|
    ensures a[i] == b[i]
    decreases i
  {
    assert Cut(a[i], end) && Cut(b[i], end);
    if i > 0 {
      SameChunk(a, b, start, end, i - 1);
      assert a[i].from == a[i - 1].to + STEP && b[i].from == b[i - 1].to + STEP;
    }
  }

  lemma SameChunks(a: seq<Span>, b: seq<Span>, start: int, end: int)
    requires Tiles(a, start, end) && Tiles(b, start, end) && AllDays(a, 28) && AllDays(b, 28)
    requires end <= NextStart(a, start) && end <= NextStart(b, start)
    ensures a == b
  {
    forall i | 0 <= i < |a| && i < |b|
      ensures a[i] == b[i]
    {
      SameChunk(a, b, start, end, i);
    }
    NoMoreChunks(a, b, start, end);
    NoMoreChunks(b, a, start, end);
  }

  lemma NextChunk(b: seq<Span>, start: int, end: int, n: nat)
    requires Tiles(b, start, end) && n < |b|
    ensures NextStart(b[..n], start) < end
  {
    assert Cut(b[n], end);
    if n > 0 { assert b[n].from == b[n - 1].to + STEP; }
  }

  lemma NoMoreChunks(a: seq<Span>, b: seq<Span>, start: int, end: int)
    requires Tiles(b, start, end) && end <= NextStart(a, start)
    requires forall i :: 0 <= i < |a| && i < |b| ==> a[i] == b[i]
    ensures |b| <= |a|
  {
    hide Tiles, NextStart;
    if |a| < |b| {
      assert a == b[..|a|];
      NextChunk(b, start, end, |a|);
    }
  }

  lemma ContractEnds(rows: seq<Row>, r: RunRecord)
    requires Series(rows) && RunContract(rows, r) && r.walk.Complete?
    ensures Tiles(r.spans, r.start, r.end) && r.end <= NextStart(r.spans, r.start)
  {
    hide Tiles, Grows, AllTook, Extends, BarsIn, OnGrid;
  }

  /** Main result on retries: in every world of 200s and of refusals to be waited out, never four in a row,
      a run leaves the same cache through the same chunks as where every answer is a 200, from any start. */
  method RetriesLeaveNoTrace(
    rows: seq<Row>, world: nat -> Answer, cache: BarCache, calm: BarCache, clock: int, argFrom: Option<int>,
    fallback: int)
    returns (ghost r: RunRecord, ghost s: RunRecord)
    requires Series(rows) && cache.Valid() && calm.Valid() && cache != calm && cache.log == calm.log
    requires WindowOpen(clock) && Recovers(world, 0)
    modifies cache, calm
    ensures cache.log == calm.log && r.spans == s.spans && r.walk == s.walk == Complete
    ensures r.before == s.before == old(cache.log) && r.left == cache.log && s.left == calm.log
    ensures RunContract(rows, r) && RunContract(rows, s)
  {
    hide RunContract, WindowOpen, Recovers, Appended, Ordered, Keys, LastKey, StartOf, Overwrites, Leaves, AllDays;
    ServingServes(0);
    r := UndisturbedRun(rows, world, cache, clock, argFrom, fallback);
    s := UndisturbedRun(rows, Serving, calm, clock, argFrom, fallback);
    ContractEnds(rows, r);
    ContractEnds(rows, s);
    SameChunks(r.spans, s.spans, r.start, r.end);
    AppendedUnique(rows, r.before, r.spans, r.after, s.after);
  }

  // ---------------------------------------------------------------- the bar at the end instant

  lemma FirstChunk(spans: seq<Span>, start: int, end: int)
    requires Tiles(spans, start, end) && spans != []
    ensures Cut(spans[0], end) && spans[0].from == start
    ensures |spans| > 1 ==> spans[0].to + STEP < end
  {
    assert |spans| > 1 ==> Cut(spans[1], end);
  }

  /** A full-size walk over at most 28 days and a step fetches one chunk. */
  lemma OneChunk(spans: seq<Span>, start: int, end: int)
    requires Tiles(spans, start, end) && AllDays(spans, 28) && end <= NextStart(spans, start)
    requires start < end <= start + 28 * DAY + STEP
    ensures spans == [Span(start, Min(start + 28 * DAY, end), 28)]
  {
    hide Tiles;
    FirstChunk(spans, start, end);
  }

  /** The cache of an aligned, completed one-chunk run is determined. */
  lemma OneChunkCache(rows: seq<Row>, r: RunRecord, after: seq<Bar>)
    requires Series(rows) && RunContract(rows, r) && r.walk.Complete?
    requires OnGrid(r.start) && AllDays(r.spans, 28)
    requires r.start < r.end <= r.start + 28 * DAY + STEP
    requires Extends(r.before, BarsIn(rows, r.start, Min(r.start + 28 * DAY, r.end) + 1), after)
    ensures r.after == after && r.spans == [Span(r.start, Min(r.start + 28 * DAY, r.end), 28)]
  {
    hide Tiles, Grows, AllTook, Extends, BarsIn, OnGrid;
    OneChunk(r.spans, r.start, r.end);
    ExtendsUnique(r.before, BarsIn(rows, r.start, r.reach), r.after, after);
  }

  lemma SoloHistory(rows: seq<Row>, origin: int, r: RunRecord)
    requires Series(rows) && RunContract(rows, r) && Leaves(r) && r.before == [] && !Replaced(r)
    requires OnGrid(origin) && r.start == origin
    ensures History(rows, origin, [], [r]) && Untouched([r]) && Sound(rows, origin, [r])
  {
    hide RunContract, Leaves, OnGrid, Replaced;
    assert SoundStart(rows, origin, [], origin);
    assert Turn(rows, origin, r) && SoundTurn(rows, origin, r);
  }

  lemma EndsAt(runs: seq<RunRecord>, until: int)
    requires runs != [] && runs[|runs| - 1].walk.Complete? && runs[|runs| - 1].end == until
    requires |runs| == 2 ==> runs[0].end <= until
    ensures |runs| <= 2 ==> FinishesAt(runs, until)
  {
  }

  lemma NextRun(rows: seq<Row>, origin: int, r: RunRecord, s: RunRecord)
    requires Series(rows) && History(rows, origin, [], [r]) && Untouched([r]) && Sound(rows, origin, [r])
    requires RunContract(rows, s) && Leaves(s) && TakesUp(r, s) && !Replaced(s)
    requires SoundStart(rows, origin, s.before, s.start)
    ensures History(rows, origin, [], [r, s]) && Untouched([r, s]) && Sound(rows, origin, [r, s])
  {
    hide RunContract, Leaves, Aligned, Replaced;
    HistoryGrows(rows, origin, [], [r], s);
    assert [r] + [s] == [r, s];
    assert !Replaced([r][0]) && SoundTurn(rows, origin, [r][0]);
    assert SoundTurn(rows, origin, s);
  }

  /** The exception is real, for every aligned start in the fetch window: 28 days and one step later a
      run straight through stops short of the bar at the end, while a run after one day and a second one
      to the end fetch it. */
  method EndBarMayDiffer(origin: int, body: Body)
    returns (straight: BarCache, split: BarCache, ghost rows: seq<Row>, ghost until: int,
             ghost once: seq<RunRecord>, ghost twice: seq<RunRecord>)
    requires InRange(origin) && OnGrid(origin) && InRange(origin + 28 * DAY + STEP)
    requires WindowOpen(origin) && WindowOpen(origin + STEP)
    ensures Series(rows) && until == origin + 28 * DAY + STEP
    ensures History(rows, origin, [], once) && FinishesAt(once, until) && Unbroken(rows, origin, once)
    ensures History(rows, origin, [], twice) && FinishesAt(twice, until) && Unbroken(rows, origin, twice)
    ensures straight.log == CacheAfter([], once) && split.log == CacheAfter([], twice)
    ensures straight.log < split.log
  {
    hide BarsIn, RunContract, Leaves, SoundStart, Key, ParseKey, WindowOpen, History, Extends, Ordered, Keys, InRange,
      OnGrid, AllDays, Readable, FinishesAt, Untouched, Sound, Unbroken, ResumeFrom, LastKey, Replaced;
    var day := origin + DAY;
    var end := origin + 28 * DAY + STEP;
    until := end;
    var series := [Row(day, Some(body)), Row(end, Some(body))];
    rows := series;
    TwoRows(origin, body);
    WindowDaily(origin);
    ServingServes(0);
    EmptyFile();

    straight := new BarCache([]);
    ghost var r := UndisturbedRun(series, Serving, straight, end, Some(origin), origin);
    FromEmpty(rows, origin, origin + 28 * DAY + 1);
    OneChunkCache(rows, r, BarsIn(rows, origin, origin + 28 * DAY + 1));
    SoloHistory(rows, origin, r);
    SoundIsUnbroken(rows, origin, [r]);
    once := [r];
    EndsAt([r], end);

    split := new BarCache([]);
    ghost var s := UndisturbedRun(series, Serving, split, day, Some(origin), origin);
    FromEmpty(rows, origin, day + 1);
    OneChunkCache(rows, s, BarsIn(rows, origin, day + 1));
    SoloHistory(rows, origin, s);
    OnlyBar(rows, origin, day + 1, 0);

    ghost var t := UndisturbedRun(series, Serving, split, end, None, origin);
    ResumeAt(rows, origin, day, s.after, end);
    SecondWindow(rows, origin, day, end);
    OneChunkCache(rows, t, BarsIn(rows, origin, end + 1));
    NextRun(rows, origin, s, t);
    SoundIsUnbroken(rows, origin, [s, t]);
    twice := [s, t];
    EndsAt([s, t], end);

    WindowSplit(rows, origin, origin + 28 * DAY + 1, end + 1);
    OnlyBar(rows, origin + 28 * DAY + 1, end + 1, 1);
  }

  lemma EmptyFile()
    ensures Readable([]) == [] && Ordered(Readable([]))
  {
  }

  lemma TwoRows(origin: int, body: Body)
    requires InRange(origin) && OnGrid(origin) && InRange(origin + 28 * DAY + STEP)
    ensures Series([Row(origin + DAY, Some(body)), Row(origin + 28 * DAY + STEP, Some(body))])
  {
  }

  /** The fetch window is the same every day. */
  lemma WindowDaily(t: int)
    ensures WindowOpen(t + DAY) <==> WindowOpen(t)
    ensures WindowOpen(t + 28 * DAY + STEP) <==> WindowOpen(t + STEP)
  {
    assert (t + DAY) % DAY == t % DAY;
    assert (t + STEP + 28 * DAY) % DAY == (t + STEP) % DAY;
  }

  lemma ResumeAt(rows: seq<Row>, origin: int, day: int, log: seq<Bar>, now: int)
    requires Series(rows) && OnGrid(origin) && day == origin + DAY && InRange(day)
    requires log != [] && log[|log| - 1].t == Key(day)
    ensures StartOf(None, LastKey(log), origin, true, now) == day + STEP
    ensures SoundStart(rows, origin, log, day + STEP) && OnGrid(day + STEP)
  {
    hide Key, ParseKey, InRange;
    KeyRoundTrip(day, Key(day));
  }

  lemma SecondWindow(rows: seq<Row>, origin: int, day: int, end: int)
    requires Series(rows) && OnGrid(origin) && day == origin + DAY && day + STEP <= end
    ensures Extends(BarsIn(rows, origin, day + 1), BarsIn(rows, day + STEP, end + 1), BarsIn(rows, origin, end + 1))
  {
    hide BarsIn, Extends;
    SkipTail(rows, origin, day, day + STEP);
    AppendToPrefix(rows, origin, day + STEP, day + STEP, end + 1);
  }

  lemma FromEmpty(rows: seq<Row>, origin: int, e: int)
    requires Series(rows) && origin <= e
    ensures Extends([], BarsIn(rows, origin, e), BarsIn(rows, origin, e))
  {
    NothingBetween(rows, origin, origin);
    AppendToPrefix(rows, origin, origin, origin, e);
  }

  lemma OnlyBar(rows: seq<Row>, from: int, until: int, i: nat)
    requires Series(rows) && i < |rows| && rows[i].body.Some?
    requires forall j :: 0 <= j < |rows| ==> (from <= rows[j].at < until <==> j == i)
    ensures BarsIn(rows, from, until) == [Bar(Key(rows[i].at), rows[i].body.value, IG)]
  {
    var k, m := WindowSlice(rows, from, until);
    assert k <= i < m;
    var first := rows[k];
    if i + 1 < |rows| { var next := rows[i + 1]; }
    assert rows[k..m] == [rows[i]];
    UnfoldParse([rows[i]]);
    assert [rows[i]][..0] == [];
  }

  // ---------------------------------------------------------------- a blocked run

  function Refusing(n: nat): Answer {
    Answer(Http(403, true, false), 0)
  }

  lemma NothingServed(requests: seq<Request>, lo: int)
    requires Logged(Refusing, requests, 0, lo)
    ensures !AnyServed(requests, 0) && (requests != [] ==> LastVerdict(Refusing, requests) == Allowance)
  {
  }

  /** The failing input of the prefix property: when the historical allowance refuses every request and
      Yahoo delivers, a short cache, an empty one included, is replaced by the Yahoo file, the run counts
      as complete, and no prefix of the server's series is left. */
  method YahooReplaces(rows: seq<Row>, cache: BarCache, clock: int, fallback: int, home: bool, yahoo: Seed)
    requires Series(rows) && cache.Valid() && WindowOpen(clock)
    requires StartOf(None, LastKey(cache.log), fallback, home, clock) < clock && Overwrites(yahoo, cache.Lines())
    modifies cache
    ensures cache.Valid() && cache.log == SeedBars(yahoo.frame.value) && Seeded(cache.log)
    ensures forall from, until :: !(cache.log <= BarsIn(rows, from, until))
  {
    hide RunContract, WindowOpen, SpansServed, Recovers, Appended, AnyServed, Ordered, Keys, SeedBars, Logged,
      Latencies, MaySleep, LastVerdict, LastKey, StartOf, Overwrites, Seeded, BarsIn;
    var f := new Fetcher(rows, Refusing, cache, clock, NEVER);
    OverwriteSeeds(yahoo, cache.Lines());
    var report, reach, walked := f.Run(None, fallback, home, yahoo);
    NothingServed(f.requests, clock);
    forall from, until
      ensures !(cache.log <= BarsIn(rows, from, until))
    {
      SeededIsForeign(rows, from, until, cache.log);
    }
  }

  /** There are frames that Yahoo can deliver. */
  lemma SomeFrame(from: int, body: Body) returns (frame: Frame)
    requires InRange(from) && OnGrid(from) && InRange(from + 99 * STEP) && Sane(body)
    ensures Overwrites(Seed(true, Some(frame), true), 0)
  {
    hide InRange, OnGrid, Sane, SeedBars, Acceptable;
    var rows := seq(100, i requires 0 <= i < 100 => Row(from + i * STEP, Some(body)));
    forall i | 0 <= i < 100
      ensures InRange(rows[i].at) && OnGrid(rows[i].at)
    {
      InsideRange(from, i);
    }
    frame := rows;
    GridFrameAccepted(frame);
  }

  lemma InsideRange(from: int, i: int)
    requires InRange(from) && OnGrid(from) && InRange(from + 99 * STEP) && 0 <= i < 100
    ensures InRange(from + i * STEP) && OnGrid(from + i * STEP)
  {
  }
}
