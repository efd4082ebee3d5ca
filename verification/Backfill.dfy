/** One run of the historical back-fill: the page request with its retries, the page loop of a
    chunk, the chunk walk with its shrinking chunk size, the Yahoo fallback of a blocked run, and
    the status file around them.

    The outside world is a script: `world(n)` says what the n-th price request meets.
 */
module Backfill {
  import opened Wrappers
  import opened IsoTime
  import opened BarLog
  import opened PriceServer
  import opened YahooSeeder
  import opened BackfillSteps

  datatype RunReport =
    | ClosedWindow
    | HeldBack
    | Ran(start: int, end: int, spans: seq<Span>, halvings: nat, tries: nat, walk: WalkEnd, lines: nat)

  function RunOf(
    report: RunReport, before: seq<Bar>, walked: seq<Bar>, reach: int, yahoo: Seed, left: seq<Bar>): RunRecord
    requires report.Ran?
  {
    RunRecord(before, walked, report.start, report.end, reach, report.spans, report.walk, yahoo, report.lines, left)
  }

  /** What a run builds and leaves, with how many chunks, and out of which requests. */
  ghost predicate RunBuilds(
    rows: seq<Row>, report: RunReport, before: seq<Bar>, walked: seq<Bar>, reach: int, yahoo: Seed, left: seq<Bar>,
    requests: seq<Request>, k: nat)
    requires Series(rows) && report.Ran?
  {
    && RunContract(rows, RunOf(report, before, walked, reach, yahoo, left))
    && Leaves(RunOf(report, before, walked, reach, yahoo, left))
    && SpansServed(rows, requests, report.spans)
    && (walked == before || AnyServed(requests, k))
    && (report.walk == Complete && report.halvings == 0 ==> Appended(rows, before, report.spans, walked))
    && report.halvings <= 4 && report.tries <= |report.spans| + report.halvings + 1
    && (report.spans != [] ==> Ladder(report.halvings) <= report.spans[|report.spans| - 1].days)
  }

  /** Why and when a run ends: as its last answer says, and whole where every answer serves; its first
      request is sent at once, and without a served or retryable answer only latencies pass. */
  ghost predicate RunEnds(world: nat -> Answer, report: RunReport, requests: seq<Request>, k: nat, now: int)
    requires report.Ran? && k <= |requests|
  {
    && (report.start < report.end <==> k < |requests|)
    && (k < |requests| ==> requests[k].time == report.end && requests[|requests| - 1].time <= now)
    && report.end + Latencies(world, k, |requests|) <= now
    && (!MaySleep(world, k, |requests|) ==> now == report.end + Latencies(world, k, |requests|))
    && (if k < |requests| then WalkEndsAs(report.walk, LastVerdict(world, requests), now) else report.walk == Complete)
    && (report.walk.StoppedBy? && report.walk.block.reason == AllowanceBlock ==> report.halvings == 4)
    && (Recovers(world, k) ==> report.walk == Complete && report.halvings == 0)
  }

  lemma EndsWell(
    world: nat -> Answer, report: RunReport, requests: seq<Request>, k: nat, slept: int, now: int)
    requires report.Ran? && Clocked(world, requests, k, report.end, slept, now)
    requires report.start < report.end <==> k < |requests|
    requires k < |requests| ==> WalkEndsAs(report.walk, LastVerdict(world, requests), now)
    requires k == |requests| ==> report.walk == Complete
    requires report.walk.StoppedBy? && report.walk.block.reason == AllowanceBlock ==> report.halvings == 4
    requires Recovers(world, k) ==> report.walk == Complete && report.halvings == 0
    ensures RunEnds(world, report, requests, k, now)
  {
    hide WalkEndsAs, LastVerdict, Recovers, MaySleep, Latencies, Logged;
    ClockedSince(world, requests, k, report.end, slept, now);
    ClockedEnds(world, requests, k, report.end, slept, now);
  }

  class Fetcher {
    const series: seq<Row>
    const world: nat -> Answer
    const cache: BarCache
    var clock: int
    var requests: seq<Request>
    var slept: nat
    var status: PullStatus
    var saved: seq<PullStatus>

    constructor (series: seq<Row>, world: nat -> Answer, cache: BarCache, clock: int, status: PullStatus)
      ensures this.series == series && this.world == world && this.cache == cache && this.clock == clock
      ensures this.status == status && requests == [] && saved == [] && slept == 0
    {
      this.series, this.world, this.cache := series, world, cache;
      this.clock, this.status := clock, status;
      requests, saved, slept := [], [], 0;
    }

    method FetchPage(from: int, to: int, page: nat) returns (r: PageResult)
      requires page >= 1
      modifies this`clock, this`requests, this`slept
      ensures old(requests) < requests && |requests| <= |old(requests)| + MAX_FETCH_RETRIES
      ensures OnePage(world, |old(requests)|, |requests|)
      ensures PageEnds(series, r, world(|requests| - 1).signal, |requests| - |old(requests)|, clock, from, to, page)
      ensures Settles(series, r, LastVerdict(world, requests), |requests| - |old(requests)|, clock, from, to, page)
      ensures slept == old(slept) + [0, 12, 36, 84][|requests| - |old(requests)| - 1]
      ensures AllFor(requests, |old(requests)|, from, to, page)
      ensures Clocked(world, requests, |old(requests)|, old(clock), slept - old(slept), clock)
    {
      hide PageRows, TotalPages, Backoff, Backoffs, Pow2, Clocked, Rested, Classify, Transient, Answered, AllTransient,
        AllFor;
      ghost var k := |requests|;
      var attempt := 1;
      BackoffSchedule(0);
      NoBackoff();
      NothingSent(world, requests, clock, from, to, page);
      while true
        invariant 1 <= attempt <= MAX_FETCH_RETRIES && attempt == |requests| - k + 1
        invariant old(requests) <= requests
        invariant AllTransient(world, k, |requests|) && AllFor(requests, k, from, to, page)
        invariant slept == old(slept) + Backoffs(attempt - 1)
        invariant Clocked(world, requests, k, old(clock), slept - old(slept), clock)
        invariant Rested(world, requests, k, clock)
        decreases MAX_FETCH_RETRIES - attempt
      {
        BackoffSchedule(attempt - 1);
        var answer := world(|requests|);
        var verdict := Classify(answer.signal);
        var request := Request(clock, from, to, page, verdict == Serve);
        ClockedRequest(world, requests, k, old(clock), slept - old(slept), request);
        VerdictIs(answer.signal);
        PageSleeps(attempt - 1);
        OneMoreTransient(world, k, |requests|);
        OneMoreFor(requests, k, request);
        requests := requests + [request];
        clock := clock + answer.latency;
        match verdict {
          case Serve => return Rows(PageRows(series, from, to, page), TotalPages(series, from, to));
          case Throttle => return Blocked(Block(ThrottleBlock, clock + THROTTLE_RETRY));
          case Allowance => return Blocked(Block(AllowanceBlock, clock + ALLOWANCE_RETRY));
          case Fail => return Failed;
          case Die => return Died;
          case Retry =>
            var sleep := Backoff(attempt);
            if attempt >= MAX_FETCH_RETRIES {
              return Blocked(Block(RateLimitBlock, clock + RATE_LIMIT_RETRY));
            }
            BackoffRests(attempt);
            ClockedSleep(world, requests, k, old(clock), slept - old(slept), clock, sleep);
            slept := slept + sleep;
            clock := clock + sleep;
            attempt := attempt + 1;
        }
      }
    }

    method Save()
      modifies this`saved
      ensures saved == old(saved) + [status]
    {
      saved := saved + [status];
    }

    /** The page loop of one chunk. */
    method FetchChunk(from: int, to: int) returns (r: ChunkResult, ghost edge: int)
      requires Series(series) && cache.Valid() && from <= to
      requires status == PullStatus(Running, None, None)
      modifies this`clock, this`requests, this`slept, this`saved, cache`log, cache`seen, cache`lastWritten
      ensures cache.Valid()
      ensures from <= edge && (if r.Whole? then edge == to + 1 else edge <= to)
      ensures Extends(old(cache.log), BarsIn(series, from, edge), cache.log)
      ensures cache.log == old(cache.log) || AnyServed(requests, |old(requests)|)
      ensures r.Whole? ==> AllPagesServed(series, requests, from, to)
      ensures Recovers(world, |old(requests)|) ==> r.Whole?
      ensures old(requests) < requests && EndsAs(r, LastVerdict(world, requests), clock)
      ensures Clocked(world, requests, |old(requests)|, old(clock), slept - old(slept), clock)
      ensures old(saved) <= saved && SavedOnly(saved, |old(saved)|, status)
    {
      hide Extends, BarsIn, PageRows, TotalPages, PageEdge, ParseRows, Backoffs, Ordered, Keys, Clocked, SavedOnly,
        PagesServed, PageServed, AnyServed, Rested, Settles, EndsAs, LastVerdict, OnePage, PageEnds, LastKey, PagesOf,
        Recovers, AllPagesServed, Sleepable, AllFor, Classify;
      NothingYet(world, series, requests, saved, status, clock);
      var page, totalPages := 1, 1;
      edge := from;
      ghost var first, k, lo := cache.log, |requests|, clock;
      StartWindow(series, first, from, to);
      NoPageYet(series, requests, from, to);
      UnfinishedEdge(series, from, to, page);
      while page <= totalPages
        invariant 1 <= page <= totalPages && page <= PagesOf(series, from, to)
        invariant cache.Valid() && edge == PageEdge(series, from, to, page - 1) && from <= edge <= to
        invariant Extends(first, BarsIn(series, from, edge), cache.log)
        invariant if page == 1 then cache.log == first else AnyServed(requests, k)
        invariant PagesServed(requests, from, to, page - 1)
        invariant if page == 1 then requests == old(requests) && slept == old(slept) else old(requests) < requests
        invariant Clocked(world, requests, k, lo, slept - old(slept), clock) && Rested(world, requests, k, clock)
        invariant old(saved) <= saved && SavedOnly(saved, |old(saved)|, status)
        decreases PagesOf(series, from, to) - page
      {
        ghost var sent, sentAt, rested, kept := requests, clock, slept, saved;
        var res := FetchPage(from, to, page);
        RecoversLater(world, k, |sent|);
        PageRecovers(world, |sent|, |requests|);
        LastVerdictIs(world, requests);
        SettledEnds(series, res, LastVerdict(world, requests), |requests| - |sent|, clock, from, to, page);
        ServedStays(sent, requests, from, to, page - 1);
        ClockedOn(world, sent, requests, k, lo, rested - old(slept), sentAt, slept - rested, clock);
        SavedOne(kept, |old(saved)|, status);
        SavedOne(kept + [status], |old(saved)|, status);
        if page > 1 { ServedStill(sent, requests, k); }
        match res {
          case Failed => return Broken, edge;
          case Died => return Dead, edge;
          case Blocked(b) => Save(); return Refused(b), edge;
          case Rows(rows, pages) =>
            ServedMarked(world, requests, |sent|, sentAt, slept - rested, clock, k, from, to, page);
            OneMorePage(requests, from, to, page - 1);
            Save();
            ghost var mid := cache.log;
            PageBars(series, from, to, page);
            var parsed := ParseRows(rows);
            var added := cache.AppendBars(parsed);
            PageStep(series, first, mid, cache.log, from, to, page);
            edge := PageEdge(series, from, to, page);
            if added > 0 { Save(); }
            totalPages := if pages == 0 then 1 else pages;
            PageCount(series, from, to);
            if page >= totalPages {
              WholeChunk(series, requests, from, to, page);
              return Whole, edge;
            }
            page := page + 1;
            UnfinishedEdge(series, from, to, page);
            ClockedSleep(world, requests, k, lo, slept - old(slept), clock, REST_SLEEP);
            slept := slept + REST_SLEEP;
            clock := clock + REST_SLEEP;
        }
      }
    }

    /** Fetches one chunk and joins what it appended to what the walk from `start` built before. */
    method TryChunk(from: int, to: int, ghost first: seq<Bar>, ghost start: int, ghost reach: int)
      returns (r: ChunkResult, ghost reach': int)
      requires Series(series) && cache.Valid() && from <= to && start <= from && start <= reach && from - STEP < reach
      requires status == PullStatus(Running, None, None)
      requires (OnGrid(start) ==> OnGrid(from)) && Built(series, first, cache.log, start, reach, from)
      modifies this`clock, this`requests, this`slept, this`saved, cache`log, cache`seen, cache`lastWritten
      ensures cache.Valid() && old(cache.log) <= cache.log
      ensures Max(reach, from) <= reach' <= Max(Max(reach, from), if r.Whole? then to + 1 else to)
      ensures Built(series, first, cache.log, start, reach', from)
      ensures cache.log == old(cache.log) || AnyServed(requests, |old(requests)|)
      ensures r.Whole? ==> to < reach' && AllPagesServed(series, requests, from, to)
      ensures r.Whole? ==> Extends(old(cache.log), BarsIn(series, from, to + 1), cache.log)
      ensures Recovers(world, |old(requests)|) ==> r.Whole?
      ensures r.Whole? ==> Took(series, first, cache.log, from, to)
      ensures old(requests) < requests && EndsAs(r, LastVerdict(world, requests), clock)
      ensures Clocked(world, requests, |old(requests)|, old(clock), slept - old(slept), clock)
      ensures old(saved) <= saved && SavedOnly(saved, |old(saved)|, status)
    {
      hide Extends, BarsIn, AllPagesServed, OnGrid, Clocked, SavedOnly, Ordered, Keys, Built, Took, EndsAs, AnyServed,
        LastVerdict, Recovers;
      reach' := Max(reach, from);
      BuiltAcrossGap(series, first, cache.log, start, reach, from);
      ghost var mid := cache.log;
      ghost var edge;
      r, edge := FetchChunk(from, to);
      BuiltOn(series, first, mid, cache.log, start, reach', from, edge);
      if r.Whole? { NowTook(series, first, mid, cache.log, start, reach', from, to); }
      reach' := Max(reach', edge);
    }

    /** The chunk walk; `halvings` counts its step-downs and `tries` the chunks it attempted. */
    method Walk(start: int, end: int)
      returns (walk: WalkEnd, spans: seq<Span>, halvings: nat, tries: nat, ghost reach: int)
      requires Series(series) && cache.Valid()
      requires status == PullStatus(Running, None, None)
      modifies this`clock, this`requests, this`slept, this`saved, cache`log, cache`seen, cache`lastWritten
      ensures cache.Valid()
      ensures RunContract(series, Walked(old(cache.log), cache.log, start, end, reach, spans, walk))
      ensures SpansServed(series, requests, spans)
      ensures halvings <= 4 && tries <= |spans| + halvings + 1
      ensures spans != [] ==> Ladder(halvings) <= spans[|spans| - 1].days
      ensures old(requests) <= requests && (start < end <==> old(requests) < requests)
      ensures if start < end then WalkEndsAs(walk, LastVerdict(world, requests), clock) else walk == Complete
      ensures walk.StoppedBy? && walk.block.reason == AllowanceBlock ==> halvings == 4
      ensures Recovers(world, |old(requests)|) ==> walk == Complete && halvings == 0
      ensures walk == Complete && halvings == 0 ==> Appended(series, old(cache.log), spans, cache.log)
      ensures cache.log == old(cache.log) || AnyServed(requests, |old(requests)|)
      ensures Clocked(world, requests, |old(requests)|, old(clock), slept - old(slept), clock)
      ensures old(saved) <= saved && SavedOnly(saved, |old(saved)|, status)
    {
      hide RunContract, Ladder, OnWalk, OnWire, Rested, Built, Took, Clocked, AnyServed, Recovers, AllPagesServed,
        Appended, Extends, BarsIn, SavedOnly, LastVerdict, EndsAs, WalkEndsAs, Ordered, Keys, SpansServed, OnGrid,
        OnLadder, NextStart, Fetched, LastKey;
      NothingYet(world, series, requests, saved, status, clock);
      ghost var first, k, lo := cache.log, |requests|, clock;
      WalkBegins(series, first, start, end);
      WireBegins(world, series, requests, clock, first);
      AppendedNone(series, first);
      LadderStep(0);
      var chunkStart, chunkDays := start, 28;
      spans, halvings, tries, reach := [], 0, 0, start;
      while chunkStart < end
        invariant cache.Valid() && OnWalk(series, first, cache.log, start, end, reach, spans, halvings)
        invariant chunkStart == NextStart(spans, start) && halvings <= 4 && chunkDays == Ladder(halvings)
        invariant tries == |spans| + halvings
        invariant if tries > 0 then start < end && old(requests) < requests
          else requests == old(requests) && slept == old(slept)
        invariant tries > 0 && end <= chunkStart ==> LastVerdict(world, requests) == Serve
        invariant Recovers(world, k) ==> halvings == 0
        invariant halvings == 0 ==> Appended(series, first, spans, cache.log)
        invariant OnWire(world, series, requests, k, lo, slept - old(slept), clock, spans, first, cache.log)
        invariant chunkStart < end ==> Rested(world, requests, k, clock)
        invariant old(saved) <= saved && SavedOnly(saved, |old(saved)|, status)
        decreases chunkDays, end - chunkStart
      {
        var chunkEnd := Min(chunkStart + chunkDays * DAY, end);
        ghost var sent, sentAt, rested, kept, mid, reached := requests, clock, slept, saved, cache.log, reach;
        tries := tries + 1;
        LadderStep(halvings);
        WalkGoesOn(series, first, mid, start, end, reach, spans, halvings);
        var r;
        r, reach := TryChunk(chunkStart, chunkEnd, first, start, reach);
        EndFollows(r, LastVerdict(world, requests), clock);
        WireOn(world, series, sent, requests, k, lo, rested - old(slept), sentAt, slept - rested, clock,
               spans, first, mid, cache.log);
        WireEnds(world, series, requests, k, lo, slept - old(slept), clock, spans, first, cache.log);
        RecoversLater(world, k, |sent|);
        SavedMore(kept, saved, |old(saved)|, status);
        if !r.Whole? { WalkStays(series, first, mid, cache.log, start, end, reached, reach, spans, halvings); }
        match r {
          case Broken => return Raised, spans, halvings, tries, reach;
          case Dead => return Ended, spans, halvings, tries, reach;
          case Refused(b) =>
            if b.reason == AllowanceBlock && chunkDays > 1 {
              chunkDays := Max(1, chunkDays / 2);
              halvings := halvings + 1;
              RestedAfterAllowance(world, requests, k, clock);
            } else {
              return StoppedBy(b), spans, halvings, tries, reach;
            }
          case Whole =>
            ghost var s := Span(chunkStart, chunkEnd, chunkDays);
            WalkStep(series, first, mid, cache.log, start, end, reached, reach, spans, halvings, s);
            if halvings == 0 { AppendedStep(series, first, spans, mid, s, cache.log); }
            WireStep(world, series, requests, k, lo, slept - old(slept), clock, spans, first, cache.log, s);
            spans := spans + [Span(chunkStart, chunkEnd, chunkDays)];
            chunkStart := chunkEnd + STEP;
            if chunkStart < end {
              WireRests(world, series, requests, k, lo, slept - old(slept), clock, spans, first, cache.log);
              slept := slept + REST_SLEEP;
              clock := clock + REST_SLEEP;
            }
        }
      }
      ServedWalk(clock);
      WireEnds(world, series, requests, k, lo, slept - old(slept), clock, spans, first, cache.log);
      WalkEnds(series, first, cache.log, start, end, reach, spans, halvings);
      reach := if OnGrid(start) then Fetched(spans, start) else reach;
      return Complete, spans, halvings, tries, reach;
    }

    /** The end of a run that did not break off: the Yahoo fallback of a blocked one, and its status. */
    method Conclude(walk: WalkEnd, yahoo: Seed)
      requires cache.Valid() && !walk.Raised? && !walk.Ended?
      modifies this`status, this`saved, cache
      ensures cache.Valid()
      ensures if FallsBack(walk) && Overwrites(yahoo, old(cache.Lines()))
        then cache.log == SeedBars(yahoo.frame.value) && cache.unread == 0
        else cache.log == old(cache.log) && cache.unread == old(cache.unread)
      ensures status == StatusAfter(walk, Reports(yahoo, old(cache.Lines())))
      ensures saved == old(saved) + [status]
    {
      hide Overwrites, Reports, SeedBars;
      var seeded := false;
      if walk.StoppedBy? && walk.block.reason in {AllowanceBlock, RateLimitBlock} {
        seeded := SeedEpic(cache, yahoo);
      }
      if walk.StoppedBy? && !seeded {
        status := PullStatus(BlockedRun, Some(walk.block.reason), Some(walk.block.nextRetry));
      } else {
        status := PullStatus(CompleteRun, None, None);
      }
      Save();
    }

    /** A run that is allowed to send: resume, walk, conclude.  `home` says that the epic is the default one. */
    method Pull(argFrom: Option<int>, fallback: int, home: bool, yahoo: Seed)
      returns (report: RunReport, ghost reach: int, ghost walked: seq<Bar>)
      requires Series(series) && cache.Valid()
      modifies this, cache
      ensures cache.Valid() && report.Ran?
      ensures report.start == StartOf(argFrom, LastKey(old(cache.log)), fallback, home, old(clock))
      ensures report.end == old(clock) && report.lines == |walked| + old(cache.unread)
      ensures RunBuilds(series, report, old(cache.log), walked, reach, yahoo, cache.log, requests, |old(requests)|)
      ensures cache.unread == if FallsBack(report.walk) && Overwrites(yahoo, report.lines) then 0 else old(cache.unread)
      ensures old(requests) <= requests && RunEnds(world, report, requests, |old(requests)|, clock)
      ensures Clocked(world, requests, |old(requests)|, old(clock), slept - old(slept), clock)
      ensures old(saved) < saved && AllPaired(saved, |old(saved)|) && status == saved[|saved| - 1]
      ensures status == StatusAfter(report.walk, Reports(yahoo, report.lines))
    {
      hide RunContract, SpansServed, Ordered, Keys, LastKey, Clocked, SavedOnly, AnyServed, Recovers, Appended, Ladder,
        LastVerdict, WalkEndsAs, Overwrites, Reports, SeedBars, AllPaired, FallsBack, StatusAfter, StartOf, Latencies,
        MaySleep, RunEnds;
      var start := StartOf(argFrom, cache.lastWritten, fallback, home, clock);
      var end := clock;
      status := PullStatus(Running, None, None);
      NothingSaved(saved, status);
      SavedOne(saved, |saved|, status);
      ghost var first, kept, unread := cache.log, |saved|, cache.unread;
      Save();
      ghost var early := saved;
      var walk, spans, halvings, tries;
      walk, spans, halvings, tries, reach := Walk(start, end);
      report := Ran(start, end, spans, halvings, tries, walk, cache.Lines());
      walked := cache.log;
      EndsWell(world, report, requests, |old(requests)|, slept - old(slept), clock);
      SavedMore(early, saved, kept, status);
      OnlyPaired(saved, kept, status);
      LastSaved(saved, kept, status);
      if walk.Raised? || walk.Ended? {
        BrokenOff(walk, Reports(yahoo, cache.Lines()));
      } else {
        PairedAfter(walk, Reports(yahoo, cache.Lines()));
        OneMorePaired(saved, kept, StatusAfter(walk, Reports(yahoo, cache.Lines())));
        Conclude(walk, yahoo);
      }
      ContractLeft(series, Walked(first, walked, start, end, reach, spans, walk), yahoo, report.lines, cache.log);
    }

    /** One invocation of the script with the IG source; `walked` is the cache when the walk ended. */
    method Run(argFrom: Option<int>, fallback: int, home: bool, yahoo: Seed)
      returns (report: RunReport, ghost reach: int, ghost walked: seq<Bar>)
      requires Series(series) && cache.Valid()
      modifies this, cache
      ensures cache.Valid()
      ensures report.ClosedWindow? <==> !WindowOpen(old(clock))
      ensures report.HeldBack? <==> WindowOpen(old(clock)) && FetcherHolds(old(status), old(clock))
      ensures !report.Ran? ==> cache.log == old(cache.log) && cache.unread == old(cache.unread)
      ensures !report.Ran? ==> requests == old(requests) && clock == old(clock)
      ensures report.Ran? ==>
        && report.start == StartOf(argFrom, LastKey(old(cache.log)), fallback, home, old(clock))
        && report.end == old(clock) && report.lines == |walked| + old(cache.unread)
        && RunBuilds(series, report, old(cache.log), walked, reach, yahoo, cache.log, requests, |old(requests)|)
        && cache.unread == if FallsBack(report.walk) && Overwrites(yahoo, report.lines) then 0 else old(cache.unread)
      ensures old(requests) <= requests
      ensures Clocked(world, requests, |old(requests)|, old(clock), slept - old(slept), clock)
      ensures report.Ran? ==> RunEnds(world, report, requests, |old(requests)|, clock)
      ensures StatusContract(StatusRun(old(status), status, old(clock), clock, requests[|old(requests)|..]))
      ensures old(saved) <= saved && AllPaired(saved, |old(saved)|)
      ensures status == if saved == old(saved) then old(status) else saved[|saved| - 1]
      ensures report.Ran? ==> status == StatusAfter(report.walk, Reports(yahoo, report.lines))
      ensures report.ClosedWindow? ==> status == old(status)
      ensures report.HeldBack? ==> status == old(status).(run := WaitingRetry)
    {
      hide RunBuilds, RunEnds, StatusContract, WindowOpen, Clocked, AllPaired, Overwrites, Reports, FallsBack,
        StatusAfter, StartOf, Ordered, Keys, LastKey;
      NothingYet(world, series, requests, saved, status, clock);
      ghost var was, began, sent := status, clock, |requests|;
      StatusIdle(was, was, began, requests);
      NonePaired(saved);
      walked := cache.log;
      if !WindowOpen(clock) {
        return ClosedWindow, 0, walked;
      }
      var now := clock;
      if status.nextRetry.Some? && status.block.Some? && now < status.nextRetry.value {
        StatusIdle(was, was.(run := WaitingRetry), began, requests);
        status := status.(run := WaitingRetry);
        OneMorePaired(saved, |saved|, status);
        Save();
        return HeldBack, 0, walked;
      }
      report, reach, walked := Pull(argFrom, fallback, home, yahoo);
      LastPaired(saved, |old(saved)|);
      ClockedSince(world, requests, sent, began, slept - old(slept), clock);
      StatusRan(world, was, status, began, clock, requests, sent);
    }
  }
}
