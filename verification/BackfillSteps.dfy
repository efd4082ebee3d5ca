/** The vocabulary of one back-fill run and the steps of its loops, on values: answers of the world,
    backoff, chunks, requests, the status file, and what a walk builds in the cache.
 */
module BackfillSteps {
  import opened Wrappers
  import opened IsoTime
  import opened BarLog
  import opened PriceServer
  import opened YahooSeeder

  const MAX_FETCH_RETRIES := 4
  const BASE_BACKOFF := 12
  const MAX_BACKOFF := 240
  const REST_SLEEP := 12
  const MINUTE := 60
  const ALLOWANCE_RETRY := 45 * MINUTE
  const RATE_LIMIT_RETRY := 12 * MINUTE
  const THROTTLE_RETRY := 5 * MINUTE

  // ---------------------------------------------------------------- answers of the world

  /** An HTTP answer with what its error text contains, a refusal by the local budget, or the end
      of the process. */
  datatype Signal =
    | Http(status: int, allowanceText: bool, rateText: bool)
    | Paused(preemptive: bool)
    | Killed

  datatype Answer = Answer(signal: Signal, latency: nat)

  datatype Verdict = Serve | Throttle | Retry | Allowance | Fail | Die

  function Classify(s: Signal): Verdict {
    match s
    case Killed => Die
    case Paused(preemptive) => if preemptive then Throttle else Retry
    case Http(status, allowanceText, rateText) =>
      if status == 200 then Serve
      else if allowanceText then Allowance
      else if status == 429 || (status == 403 && rateText) then Retry
      else Fail
  }

  /** An answer that serves the page. */
  predicate Answered(s: Signal) {
    s.Http? && s.status == 200
  }

  /** A refusal that is waited out: HTTP 429, a 403 whose text hints at a rate limit, both without the text
      of the historical allowance, or a pause of the local budget that is not preemptive. */
  predicate Transient(s: Signal) {
    match s
    case Http(status, allowanceText, rateText) => !allowanceText && (status == 429 || (status == 403 && rateText))
    case Paused(preemptive) => !preemptive
    case Killed => false
  }

  /** What each answer means. */
  lemma VerdictIs(s: Signal)
    ensures Classify(s) == Serve <==> Answered(s)
    ensures Classify(s) == Retry <==> Transient(s)
    ensures Classify(s) == Throttle <==> s == Paused(true)
    ensures Classify(s) == Allowance <==> s.Http? && s.status != 200 && s.allowanceText
    ensures Classify(s) == Fail <==> s.Http? && s.status != 200 && !s.allowanceText && !Transient(s)
    ensures Classify(s) == Die <==> s == Killed
  {
  }

  datatype Reason = ThrottleBlock | RateLimitBlock | AllowanceBlock | OtherBlock

  datatype Block = Block(reason: Reason, nextRetry: int)

  datatype PageResult = Rows(rows: seq<Row>, totalPages: nat) | Blocked(block: Block) | Failed | Died

  datatype Request = Request(time: int, from: int, to: int, page: nat, served: bool)

  // ---------------------------------------------------------------- backoff

  function Pow2(n: nat): nat {
    if n == 0 then 1 else 2 * Pow2(n - 1)
  }

  function Backoff(attempt: nat): nat {
    Min(MAX_BACKOFF, BASE_BACKOFF * Pow2(if attempt == 0 then 0 else attempt - 1))
  }

  /** Sleep of the first n attempts together. */
  function Backoffs(n: nat): nat {
    if n == 0 then 0 else Backoffs(n - 1) + Backoff(n)
  }

  /** The sleeps double from 12 seconds and are capped at 240; retries of one page sleep at most 84. */
  lemma {:induction false} BackoffSchedule(n: nat)
    ensures Backoff(n + 1) == if n < 5 then 12 * Pow2(n) else 240
    ensures n <= 3 ==> Backoffs(n) == 12 * (Pow2(n) - 1) && Backoffs(n) <= 84
    ensures Backoffs(n + 1) == Backoffs(n) + Backoff(n + 1)
  {
    assert Pow2(5) == 32;
    if n <= 5 {
      Doubling(n, 5);
    } else {
      Doubling(5, n);
    }
    if n > 0 { BackoffSchedule(n - 1); }
  }

  lemma BackoffRests(attempt: nat)
    ensures 1 <= attempt <= 4 ==> Backoff(attempt) >= REST_SLEEP
  {
    if 1 <= attempt <= 4 {
      BackoffSchedule(attempt - 1);
      Doubling(0, attempt - 1);
    }
  }

  lemma NoBackoff()
    ensures Backoffs(0) == 0
  {
  }

  /** The sleeps of up to three retries, in seconds. */
  lemma PageSleeps(n: nat)
    ensures n <= 3 ==> Backoffs(n) == [0, 12, 36, 84][n]
  {
    BackoffSchedule(n);
  }

  lemma {:induction false} Doubling(m: nat, n: nat)
    requires m <= n
    ensures Pow2(m) <= Pow2(n) && (m < n ==> 2 * Pow2(m) <= Pow2(n))
  {
    if m < n { Doubling(m, n - 1); }
  }

  // ---------------------------------------------------------------- chunks

  /** A chunk whose pages were all fetched; both ends belong to it. */
  datatype Span = Span(from: int, to: int, days: int)

  datatype ChunkResult = Whole | Refused(block: Block) | Broken | Dead

  datatype WalkEnd = Complete | StoppedBy(block: Block) | Raised | Ended

  /** What one page fetch of `sent` requests ends in at `now`, from the verdict on its last request. */
  predicate Settles(
    rows: seq<Row>, r: PageResult, v: Verdict, sent: nat, now: int, from: int, to: int, page: nat)
    requires page >= 1
  {
    match v
    case Serve => r == Rows(PageRows(rows, from, to, page), TotalPages(rows, from, to))
    case Throttle => r == Blocked(Block(ThrottleBlock, now + THROTTLE_RETRY))
    case Allowance => r == Blocked(Block(AllowanceBlock, now + ALLOWANCE_RETRY))
    case Retry => sent == MAX_FETCH_RETRIES && r == Blocked(Block(RateLimitBlock, now + RATE_LIMIT_RETRY))
    case Fail => r == Failed
    case Die => r == Died
  }

  /** The same, from the last answer itself. */
  predicate PageEnds(
    rows: seq<Row>, r: PageResult, s: Signal, sent: nat, now: int, from: int, to: int, page: nat)
    requires page >= 1
  {
    if Answered(s) then r == Rows(PageRows(rows, from, to, page), TotalPages(rows, from, to))
    else if Transient(s) then sent == 4 && r == Blocked(Block(RateLimitBlock, now + 12 * 60))
    else match s
      case Paused(_) => r == Blocked(Block(ThrottleBlock, now + 5 * 60))
      case Killed => r == Died
      case Http(_, allowanceText, _) =>
        if allowanceText then r == Blocked(Block(AllowanceBlock, now + 45 * 60)) else r == Failed
  }

  /** The answers k to n - 1 were waited out. */
  ghost predicate AllTransient(world: nat -> Answer, k: nat, n: nat) {
    forall i :: k <= i < n ==> Transient(world(i).signal)
  }

  /** The requests k to n - 1 are those of one page: up to four, of which only the last was not waited out. */
  ghost predicate OnePage(world: nat -> Answer, k: nat, n: nat) {
    && k < n <= k + 4 && AllTransient(world, k, n - 1)
    && (n == k + 4 || !Transient(world(n - 1).signal))
  }

  lemma OneMoreTransient(world: nat -> Answer, k: nat, n: nat)
    requires AllTransient(world, k, n)
    ensures Transient(world(n).signal) ==> AllTransient(world, k, n + 1)
  {
    hide Transient;
  }

  /** So the number of requests for a page is one more than that of the refusals before its answer, and four
      when there is none among the first four. */
  lemma RequestsOfPage(world: nat -> Answer, k: nat, n: nat, refusals: nat)
    requires OnePage(world, k, n) && AllTransient(world, k, k + refusals)
    ensures refusals < 4 && !Transient(world(k + refusals).signal) ==> n == k + refusals + 1
    ensures refusals >= 4 ==> n == k + 4 && Transient(world(n - 1).signal)
  {
    hide Transient;
  }

  /** From the k-th request on every answer serves or is a refusal to be waited out, and no four refusals
      come in a row. */
  ghost predicate Recovers(world: nat -> Answer, k: nat) {
    && (forall n :: n >= k ==> Answered(world(n).signal) || Transient(world(n).signal))
    && (forall n :: n >= k ==> !FourRefused(world, n))
  }

  ghost predicate FourRefused(world: nat -> Answer, n: nat) {
    AllTransient(world, n, n + 4)
  }

  lemma RecoversLater(world: nat -> Answer, k: nat, n: nat)
    requires k <= n
    ensures Recovers(world, k) ==> Recovers(world, n)
  {
    hide Answered, Transient, FourRefused;
  }

  /** Then the page is served. */
  lemma PageRecovers(world: nat -> Answer, k: nat, n: nat)
    requires OnePage(world, k, n)
    ensures Recovers(world, k) ==> Classify(world(n - 1).signal) == Serve
  {
    hide Answered, Transient, Classify;
    VerdictIs(world(n - 1).signal);
    if Recovers(world, k) { assert !FourRefused(world, k); }
  }

  /** A chunk ends as the last answer it got says; a block carries its retry time. */
  predicate EndsAs(r: ChunkResult, v: Verdict, now: int) {
    match v
    case Serve => r == Whole
    case Throttle => r == Refused(Block(ThrottleBlock, now + THROTTLE_RETRY))
    case Retry => r == Refused(Block(RateLimitBlock, now + RATE_LIMIT_RETRY))
    case Allowance => r == Refused(Block(AllowanceBlock, now + ALLOWANCE_RETRY))
    case Fail => r == Broken
    case Die => r == Dead
  }

  /** So does a walk. */
  predicate WalkEndsAs(w: WalkEnd, v: Verdict, now: int) {
    match v
    case Serve => w == Complete
    case Throttle => w == StoppedBy(Block(ThrottleBlock, now + THROTTLE_RETRY))
    case Retry => w == StoppedBy(Block(RateLimitBlock, now + RATE_LIMIT_RETRY))
    case Allowance => w == StoppedBy(Block(AllowanceBlock, now + ALLOWANCE_RETRY))
    case Fail => w == Raised
    case Die => w == Ended
  }

  /** The end of a page loop that stops at an unserved page. */
  lemma SettledEnds(
    rows: seq<Row>, r: PageResult, v: Verdict, sent: nat, now: int, from: int, to: int, page: nat)
    requires page >= 1 && Settles(rows, r, v, sent, now, from, to, page)
    ensures r.Rows? <==> v == Serve
    ensures r.Rows? ==> r == Rows(PageRows(rows, from, to, page), TotalPages(rows, from, to)) && EndsAs(Whole, v, now)
    ensures r.Blocked? ==> EndsAs(Refused(r.block), v, now)
    ensures r.Failed? ==> EndsAs(Broken, v, now)
    ensures r.Died? ==> EndsAs(Dead, v, now)
  {
    hide PageRows, TotalPages;
  }

  /** The walk's end after a chunk that is not tried again. */
  function EndOf(r: ChunkResult): WalkEnd {
    match r
    case Whole => Complete
    case Refused(b) => StoppedBy(b)
    case Broken => Raised
    case Dead => Ended
  }

  lemma EndFollows(r: ChunkResult, v: Verdict, now: int)
    requires EndsAs(r, v, now)
    ensures WalkEndsAs(EndOf(r), v, now)
    ensures r.Whole? <==> v == Serve
    ensures r.Refused? && r.block.reason == AllowanceBlock <==> v == Allowance
  {
  }

  lemma ServedWalk(now: int)
    ensures WalkEndsAs(Complete, Serve, now)
  {
  }

  lemma LastVerdictIs(world: nat -> Answer, requests: seq<Request>)
    requires requests != []
    ensures LastVerdict(world, requests) == Classify(world(|requests| - 1).signal)
  {
  }

  function LastVerdict(world: nat -> Answer, requests: seq<Request>): Verdict
    requires requests != []
  {
    Classify(world(|requests| - 1).signal)
  }

  /** The chunk sizes in the order the walk steps down them. */
  function Ladder(halvings: nat): int
    requires halvings <= 4
  {
    if halvings == 0 then 28 else if halvings == 1 then 14 else if halvings == 2 then 7
    else if halvings == 3 then 3 else 1
  }

  /** Halving a chunk size, never below a day, is one step down the ladder. */
  lemma LadderStep(h: nat)
    requires h <= 4
    ensures Ladder(0) == 28 && OnLadder(Ladder(h)) && (Ladder(h) > 1 <==> h < 4)
    ensures h < 4 ==> Max(1, Ladder(h) / 2) == Ladder(h + 1) < Ladder(h)
  {
  }

  predicate OnLadder(days: int) {
    days == 28 || days == 14 || days == 7 || days == 3 || days == 1
  }

  function NextStart(spans: seq<Span>, start: int): int {
    if spans == [] then start else spans[|spans| - 1].to + STEP
  }

  /** A fetched chunk: a ladder size, cut off at `end`. */
  predicate Cut(s: Span, end: int) {
    OnLadder(s.days) && s.from < end && s.to == Min(s.from + s.days * DAY, end)
  }

  /** The fetched chunks follow one another from `start`, one grid step apart, never past `end`,
      and their sizes only step down the ladder. */
  ghost predicate Tiles(spans: seq<Span>, start: int, end: int) {
    && (forall i :: 0 <= i < |spans| ==> Cut(spans[i], end))
    && (spans != [] ==> spans[0].from == start)
    && (forall i, j :: 0 <= i && j == i + 1 && j < |spans| ==> spans[j].from == spans[i].to + STEP)
    && (forall i, j :: 0 <= i < j < |spans| ==> spans[j].days <= spans[i].days)
  }

  ghost predicate PageServed(requests: seq<Request>, from: int, to: int, page: nat) {
    exists i :: 0 <= i < |requests| && requests[i].served
      && requests[i].from == from && requests[i].to == to && requests[i].page == page
  }

  function PagesOf(rows: seq<Row>, from: int, to: int): nat {
    if TotalPages(rows, from, to) == 0 then 1 else TotalPages(rows, from, to)
  }

  ghost predicate PagesServed(requests: seq<Request>, from: int, to: int, n: nat) {
    forall p :: 1 <= p <= n ==> PageServed(requests, from, to, p)
  }

  ghost predicate AllPagesServed(rows: seq<Row>, requests: seq<Request>, from: int, to: int) {
    PagesServed(requests, from, to, PagesOf(rows, from, to))
  }

  ghost predicate SpansServed(rows: seq<Row>, requests: seq<Request>, spans: seq<Span>) {
    forall i :: 0 <= i < |spans| ==> AllPagesServed(rows, requests, spans[i].from, spans[i].to)
  }

  /** The requests from the k-th on were sent at `lo` or later. */
  ghost predicate SentSince(requests: seq<Request>, k: nat, lo: int) {
    k <= |requests| && forall i :: k <= i < |requests| ==> lo <= requests[i].time
  }

  predicate Excused(world: nat -> Answer, n: nat) {
    Classify(world(n).signal) == Allowance
  }

  /** From the k-th on, a request follows its predecessor after at least twelve seconds, unless that
      one met the historical allowance. */
  ghost predicate Paced(world: nat -> Answer, requests: seq<Request>, k: nat) {
    forall i, j :: k <= i && j == i + 1 && j < |requests| ==>
      Excused(world, i) || requests[i].time + 12 <= requests[j].time
  }

  /** A request may be sent now. */
  ghost predicate Rested(world: nat -> Answer, requests: seq<Request>, k: nat, now: int) {
    |requests| > k ==> Excused(world, |requests| - 1) || requests[|requests| - 1].time + 12 <= now
  }

  /** From the k-th on, a request counts as served exactly when the world served it. */
  ghost predicate Marked(world: nat -> Answer, requests: seq<Request>, k: nat) {
    forall i :: k <= i < |requests| ==> (requests[i].served <==> Classify(world(i).signal) == Serve)
  }

  /** What is known of the requests from the k-th on. */
  ghost predicate Logged(world: nat -> Answer, requests: seq<Request>, k: nat, lo: int) {
    SentSince(requests, k, lo) && Paced(world, requests, k) && Marked(world, requests, k)
  }

  ghost predicate AnyServed(requests: seq<Request>, k: nat) {
    exists i :: k <= i < |requests| && requests[i].served
  }

  /** One more request, sent when that was allowed. */
  lemma OneRequest(world: nat -> Answer, requests: seq<Request>, k: nat, lo: int, q: Request)
    requires Logged(world, requests, k, lo) && Rested(world, requests, k, q.time) && lo <= q.time
    requires q.served <==> Classify(world(|requests|).signal) == Serve
    ensures Logged(world, requests + [q], k, lo)
  {
    hide Excused, Classify;
  }

  lemma RestedAfter(world: nat -> Answer, requests: seq<Request>, k: nat, now: int)
    requires requests != [] && requests[|requests| - 1].time + REST_SLEEP <= now
    ensures Rested(world, requests, k, now)
  {
  }

  /** What held of the requests so far still holds after more of them. */
  lemma LoggedOn(
    world: nat -> Answer, sent: seq<Request>, requests: seq<Request>, k: nat, lo: int, now: int)
    requires sent < requests && lo <= now
    requires Logged(world, sent, k, lo) && Rested(world, sent, k, now) && Logged(world, requests, |sent|, now)
    ensures Logged(world, requests, k, lo)
  {
    hide Excused, Classify;
    forall i | k <= i < |requests|
      ensures lo <= requests[i].time && (requests[i].served <==> Classify(world(i).signal) == Serve)
    {
      if i < |sent| { assert sent[i] == requests[i]; }
    }
    forall i, j | k <= i && j == i + 1 && j < |requests|
      ensures Excused(world, i) || requests[i].time + REST_SLEEP <= requests[j].time
    {
      if j < |sent| { assert sent[i] == requests[i] && sent[j] == requests[j]; }
      else if i < |sent| { assert sent[i] == requests[i]; }
    }
  }

  // ---------------------------------------------------------------- the clock of a run

  /** The latencies of the answers k to n - 1 together. */
  function Latencies(world: nat -> Answer, k: nat, n: nat): nat {
    if n <= k then 0 else Latencies(world, k, n - 1) + world(n - 1).latency
  }

  lemma {:induction false} LatenciesJoin(world: nat -> Answer, k: nat, m: nat, n: nat)
    requires k <= m <= n
    ensures Latencies(world, k, n) == Latencies(world, k, m) + Latencies(world, m, n)
    decreases n
  {
    if m < n { LatenciesJoin(world, k, m, n - 1); }
  }

  /** The fetcher sleeps after an answer that it served or may retry, and after no other. */
  predicate Sleepable(world: nat -> Answer, n: nat) {
    Classify(world(n).signal) == Serve || Classify(world(n).signal) == Retry
  }

  ghost predicate MaySleep(world: nat -> Answer, k: nat, n: nat) {
    exists i :: k <= i < n && Sleepable(world, i)
  }

  /** A run that began at `lo` with the k-th request, and has slept `slept` seconds: its first request went
      out at once, and since then exactly its sleeps and the latencies of the answers have passed. */
  ghost predicate Clocked(world: nat -> Answer, requests: seq<Request>, k: nat, lo: int, slept: int, now: int) {
    && Logged(world, requests, k, lo)
    && 0 <= slept && now == lo + slept + Latencies(world, k, |requests|)
    && (slept > 0 ==> MaySleep(world, k, |requests|))
    && (k < |requests| ==> requests[k].time == lo && requests[|requests| - 1].time <= now)
  }

  lemma ClockedRequest(
    world: nat -> Answer, requests: seq<Request>, k: nat, lo: int, slept: int, q: Request)
    requires Clocked(world, requests, k, lo, slept, q.time) && Rested(world, requests, k, q.time)
    requires k == |requests| ==> slept == 0
    requires q.served <==> Classify(world(|requests|).signal) == Serve
    ensures Clocked(world, requests + [q], k, lo, slept, q.time + world(|requests|).latency)
  {
    hide Logged, Rested, Classify, Sleepable;
    OneRequest(world, requests, k, lo, q) by { ClockedSince(world, requests, k, lo, slept, q.time); }
    MoreSleep(world, k, |requests|, k, |requests| + 1);
    LatenciesJoin(world, k, |requests|, |requests| + 1) by { ClockedSince(world, requests, k, lo, slept, q.time); }
    LatencyOf(world, |requests|);
  }

  lemma LatencyOf(world: nat -> Answer, n: nat)
    ensures Latencies(world, n, n + 1) == world(n).latency
  {
  }

  lemma ClockedSince(world: nat -> Answer, requests: seq<Request>, k: nat, lo: int, slept: int, now: int)
    requires Clocked(world, requests, k, lo, slept, now)
    ensures Logged(world, requests, k, lo) && k <= |requests| && lo <= now
    ensures k < |requests| ==> requests[k].time == lo && requests[|requests| - 1].time <= now
  {
    hide Paced, Marked;
  }

  lemma MoreSleep(world: nat -> Answer, m: nat, n: nat, m': nat, n': nat)
    requires m' <= m && n <= n'
    ensures MaySleep(world, m, n) ==> MaySleep(world, m', n')
  {
    hide Sleepable;
  }

  /** A sleep after an answer that allows it; twelve seconds of it make the next request possible. */
  lemma ClockedSleep(
    world: nat -> Answer, requests: seq<Request>, k: nat, lo: int, slept: int, now: int, more: nat)
    requires Clocked(world, requests, k, lo, slept, now) && k < |requests| && Sleepable(world, |requests| - 1)
    ensures Clocked(world, requests, k, lo, slept + more, now + more)
    ensures more >= REST_SLEEP ==> Rested(world, requests, k, now + more)
  {
    hide Logged, Sleepable, Excused;
  }

  /** Two stretches of requests are one. */
  lemma ClockedOn(
    world: nat -> Answer, sent: seq<Request>, requests: seq<Request>, k: nat, lo: int, slept: int, now: int,
    more: int, later: int)
    requires sent < requests && Clocked(world, sent, k, lo, slept, now) && Rested(world, sent, k, now)
    requires k == |sent| ==> slept == 0
    requires Clocked(world, requests, |sent|, now, more, later)
    ensures Clocked(world, requests, k, lo, slept + more, later)
  {
    hide Logged, Rested, Sleepable, Latencies;
    ClockedSince(world, sent, k, lo, slept, now);
    LoggedOn(world, sent, requests, k, lo, now);
    LatenciesJoin(world, k, |sent|, |requests|);
    MoreSleep(world, k, |sent|, k, |requests|);
    MoreSleep(world, |sent|, |requests|, k, |requests|);
    if k == |sent| { NoLatency(world, k); } else { assert requests[k] == sent[k]; }
  }

  lemma NoLatency(world: nat -> Answer, k: nat)
    ensures Latencies(world, k, k) == 0
  {
  }

  lemma ServedStill(sent: seq<Request>, requests: seq<Request>, k: nat)
    requires sent <= requests && AnyServed(sent, k)
    ensures AnyServed(requests, k)
  {
    var i :| k <= i < |sent| && sent[i].served;
    assert requests[i] == sent[i];
  }

  /** Nothing but one status was saved from the k-th on. */
  ghost predicate SavedOnly(saved: seq<PullStatus>, k: nat, status: PullStatus) {
    k <= |saved| && forall i :: k <= i < |saved| ==> saved[i] == status
  }

  lemma SavedMore(old': seq<PullStatus>, saved: seq<PullStatus>, k: nat, status: PullStatus)
    requires old' <= saved && SavedOnly(old', k, status) && SavedOnly(saved, |old'|, status)
    ensures SavedOnly(saved, k, status)
  {
    forall i | k <= i < |saved|
      ensures saved[i] == status
    {
      if i < |old'| { assert old'[i] == saved[i]; }
    }
  }

  /** The cache after its chunks were appended whole, one after another, and nothing else. */
  ghost predicate Appended(rows: seq<Row>, first: seq<Bar>, spans: seq<Span>, log: seq<Bar>)
    requires Series(rows)
  {
    if spans == [] then log == first
    else
      var n := |spans| - 1;
      exists mid :: Appended(rows, first, spans[..n], mid)
        && Extends(mid, BarsIn(rows, spans[n].from, spans[n].to + 1), log)
  }

  lemma AppendedNone(rows: seq<Row>, first: seq<Bar>)
    requires Series(rows)
    ensures Appended(rows, first, [], first)
  {
  }

  lemma AppendedStep(rows: seq<Row>, first: seq<Bar>, spans: seq<Span>, mid: seq<Bar>, s: Span, log: seq<Bar>)
    requires Series(rows) && Appended(rows, first, spans, mid) && Extends(mid, BarsIn(rows, s.from, s.to + 1), log)
    ensures Appended(rows, first, spans + [s], log)
  {
    hide BarsIn, Extends;
    var longer := spans + [s];
    assert longer[..|longer| - 1] == spans && longer[|longer| - 1] == s;
  }

  /** The chunks determine the cache. */
  lemma {:induction false} AppendedUnique(
    rows: seq<Row>, first: seq<Bar>, spans: seq<Span>, x: seq<Bar>, y: seq<Bar>)
    requires Series(rows) && Appended(rows, first, spans, x) && Appended(rows, first, spans, y)
    ensures x == y
    decreases |spans|
  {
    hide BarsIn, Extends;
    if spans != [] {
      var n := |spans| - 1;
      var bars := BarsIn(rows, spans[n].from, spans[n].to + 1);
      var a :| Appended(rows, first, spans[..n], a) && Extends(a, bars, x);
      var b :| Appended(rows, first, spans[..n], b) && Extends(b, bars, y);
      AppendedUnique(rows, first, spans[..n], a, b);
      ExtendsUnique(a, bars, x, y);
    }
  }

  lemma SpansStillServed(rows: seq<Row>, sent: seq<Request>, requests: seq<Request>, spans: seq<Span>)
    requires SpansServed(rows, sent, spans) && sent <= requests
    ensures SpansServed(rows, requests, spans)
  {
    hide PagesServed, PagesOf;
    forall i | 0 <= i < |spans|
      ensures AllPagesServed(rows, requests, spans[i].from, spans[i].to)
    {
      assert AllPagesServed(rows, sent, spans[i].from, spans[i].to);
      ServedStays(sent, requests, spans[i].from, spans[i].to, PagesOf(rows, spans[i].from, spans[i].to));
    }
  }

  lemma ServedStays(requests: seq<Request>, more: seq<Request>, from: int, to: int, n: nat)
    requires PagesServed(requests, from, to, n) && requests <= more
    ensures PagesServed(more, from, to, n)
  {
    forall p | 1 <= p <= n
      ensures PageServed(more, from, to, p)
    {
      assert PageServed(requests, from, to, p);
      var i :| 0 <= i < |requests| && requests[i].served
        && requests[i].from == from && requests[i].to == to && requests[i].page == p;
      assert more[i] == requests[i];
    }
  }

  lemma OneMorePage(requests: seq<Request>, from: int, to: int, n: nat)
    requires PagesServed(requests, from, to, n) && PageServed(requests, from, to, n + 1)
    ensures PagesServed(requests, from, to, n + 1)
  {
    hide PageServed;
  }

  /** From the k-th on, every request was for one page of one range. */
  ghost predicate AllFor(requests: seq<Request>, k: nat, from: int, to: int, page: nat) {
    forall i :: k <= i < |requests| ==> requests[i].from == from && requests[i].to == to && requests[i].page == page
  }

  lemma OneMoreFor(requests: seq<Request>, k: nat, q: Request)
    requires AllFor(requests, k, q.from, q.to, q.page)
    ensures AllFor(requests + [q], k, q.from, q.to, q.page)
  {
  }

  // ---------------------------------------------------------------- status file

  datatype RunState = NeverRun | Running | WaitingRetry | BlockedRun | CompleteRun

  datatype PullStatus = PullStatus(run: RunState, block: Option<Reason>, nextRetry: Option<int>)

  predicate Paired(s: PullStatus) {
    s.block.Some? <==> s.nextRetry.Some?
  }

  /** The fetcher's own check of a loaded status. */
  predicate FetcherHolds(s: PullStatus, now: int) {
    s.nextRetry.Some? && s.block.Some? && now < s.nextRetry.value
  }

  /** 07:00 inclusive to 22:30 exclusive. */
  predicate WindowOpen(now: int) {
    7 * 60 <= now % DAY / 60 < 22 * 60 + 30
  }

  /** Five minutes after the last cached bar; the default when there is none or it does not parse. */
  function ResumeFrom(lastKey: string, default: int): int {
    if lastKey == "" then default
    else match ParseKey(lastKey)
      case None => default
      case Some(t) => t + STEP
  }

  const FRESH_DAYS := 90

  /** Where a run starts: at the argument, else where the cache ends.  Without a cached key it starts at the
      fixed default for the default epic and ninety days back for any other. */
  function StartOf(argFrom: Option<int>, lastKey: string, fallback: int, home: bool, now: int): int {
    match argFrom
    case Some(t) => t
    case None => if lastKey != "" || home then ResumeFrom(lastKey, fallback) else now - FRESH_DAYS * DAY
  }

  /** The start, case by case: an argument always counts; without one a run resumes five minutes after the
      last cached bar, and on an empty cache it takes the default, or ninety days for another epic. */
  lemma StartRules(argFrom: Option<int>, lastKey: string, fallback: int, home: bool, now: int, t: int)
    requires InRange(t)
    ensures argFrom.Some? ==> StartOf(argFrom, lastKey, fallback, home, now) == argFrom.value
    ensures argFrom == None && lastKey == Key(t) ==> StartOf(argFrom, lastKey, fallback, home, now) == t + 5 * 60
    ensures argFrom == None && lastKey != "" && ParseKey(lastKey) == None ==>
      StartOf(argFrom, lastKey, fallback, home, now) == fallback
    ensures argFrom == None && lastKey == "" ==>
      StartOf(argFrom, lastKey, fallback, home, now) == if home then fallback else now - 90 * 24 * 3600
  {
    hide Key, ParseKey;
    KeyRoundTrip(t, lastKey);
  }

  /** The fetch window on the clock: from 07:00 to before 22:30 of every day. */
  lemma WindowHours(s: Stamp)
    requires Valid(s)
    ensures WindowOpen(Instant(s)) <==> 7 <= s.hour < 22 || (s.hour == 22 && s.minute < 30)
  {
    hide Ordinal;
    ClockIs(Ordinal(s) - 1, SecondOfDay(s));
  }

  lemma ClockIs(day: int, second: int)
    requires 0 <= second < DAY
    ensures (day * DAY + second) % DAY == second
  {
  }

  // ---------------------------------------------------------------- what a run promises

  /** A run seen from outside: the cache before it, after its walk and as it leaves it; `reach` is the
      instant below which its appends reached, `yahoo` what a seed would have delivered, and `lines` the
      lines of the file when the walk ended. */
  datatype RunRecord = RunRecord(
    before: seq<Bar>, after: seq<Bar>, start: int, end: int, reach: int, spans: seq<Span>, walk: WalkEnd,
    yahoo: Seed, lines: nat, left: seq<Bar>)

  /** A walk on its own. */
  function Walked(
    before: seq<Bar>, after: seq<Bar>, start: int, end: int, reach: int, spans: seq<Span>, walk: WalkEnd): RunRecord
  {
    RunRecord(before, after, start, end, reach, spans, walk, NO_YAHOO, |after|, after)
  }

  /** The cache keeps its lines and gains server bars from `start` to before `reach` only. */
  ghost predicate Grows(rows: seq<Row>, before: seq<Bar>, log: seq<Bar>, start: int, reach: int)
    requires Series(rows)
  {
    && before <= log && Ordered(log)
    && forall i :: |before| <= i < |log| ==> log[i] in BarsIn(rows, start, reach)
  }

  /** Every server key of a chunk that is above the old last key is cached. */
  ghost predicate Took(rows: seq<Row>, before: seq<Bar>, log: seq<Bar>, from: int, to: int)
    requires Series(rows)
  {
    forall k :: Offers(BarsIn(rows, from, to + 1), LastKey(before), k) ==> k in Keys(log)
  }

  ghost predicate AllTook(rows: seq<Row>, before: seq<Bar>, log: seq<Bar>, spans: seq<Span>)
    requires Series(rows)
  {
    forall i :: 0 <= i < |spans| ==> Took(rows, before, log, spans[i].from, spans[i].to)
  }

  /** The promise of a run, aligned or not. */
  ghost predicate RunContract(rows: seq<Row>, r: RunRecord)
    requires Series(rows)
  {
    && Tiles(r.spans, r.start, r.end)
    && Grows(rows, r.before, r.after, r.start, r.reach)
    && AllTook(rows, r.before, r.after, r.spans)
    && (OnGrid(r.start) ==> Extends(r.before, BarsIn(rows, r.start, r.reach), r.after))
    && Fetched(r.spans, r.start) <= r.reach
    && (if r.walk.Complete? then
          && r.end <= NextStart(r.spans, r.start) && r.reach <= Max(Fetched(r.spans, r.start), r.end)
          && (OnGrid(r.start) ==> r.reach == Fetched(r.spans, r.start))
        else NextStart(r.spans, r.start) < r.end && r.reach <= Max(r.start, r.end))
  }

  /** The run met the guard of the overwrite: its walk was stopped by one of the two blocks, the file was
      short, and Yahoo delivered. */
  predicate Replaced(r: RunRecord) {
    FallsBack(r.walk) && Overwrites(r.yahoo, r.lines)
  }

  /** What a run leaves: the Yahoo file when it met the guard, what its walk built otherwise. */
  ghost predicate Leaves(r: RunRecord) {
    && |r.after| <= r.lines
    && r.left == if Replaced(r) then SeedBars(r.yahoo.frame.value) else r.after
  }

  /** The guard is the outcome: a run leaves another file than its walk built exactly when it met it. */
  lemma ReplacedIff(r: RunRecord)
    requires Leaves(r)
    ensures Replaced(r) <==> r.left != r.after
    ensures Replaced(r) ==> !r.walk.Complete? && |r.after| < MIN_BARS && Ordered(r.left) && Seeded(r.left)
  {
    hide SeedBars, Ordered, Overwrites;
    if Replaced(r) { OverwriteSeeds(r.yahoo, r.lines); }
  }

  /** The first instant after the fetched chunks. */
  function Fetched(spans: seq<Span>, start: int): int {
    if spans == [] then start else spans[|spans| - 1].to + 1
  }

  /** The blocks after which a run turns to Yahoo. */
  predicate FallsBack(w: WalkEnd) {
    w.StoppedBy? && w.block.reason in {AllowanceBlock, RateLimitBlock}
  }

  /** The status a walk calls for; `seeded` says that Yahoo made up for a block. */
  function StatusAfter(w: WalkEnd, seeded: bool): PullStatus {
    match w
    case Complete => PullStatus(CompleteRun, None, None)
    case StoppedBy(b) =>
      if FallsBack(w) && seeded then PullStatus(CompleteRun, None, None)
      else PullStatus(BlockedRun, Some(b.reason), Some(b.nextRetry))
    case Raised => PullStatus(Running, None, None)
    case Ended => PullStatus(Running, None, None)
  }

  ghost predicate AllPaired(saved: seq<PullStatus>, k: nat) {
    forall i :: k <= i < |saved| ==> Paired(saved[i])
  }

  lemma OnlyPaired(saved: seq<PullStatus>, k: nat, status: PullStatus)
    requires SavedOnly(saved, k, status) && Paired(status)
    ensures AllPaired(saved, k)
  {
  }

  lemma NothingSaved(saved: seq<PullStatus>, status: PullStatus)
    ensures SavedOnly(saved, |saved|, status)
  {
  }

  lemma OneMorePaired(saved: seq<PullStatus>, k: nat, status: PullStatus)
    requires AllPaired(saved, k) && Paired(status)
    ensures AllPaired(saved + [status], k)
  {
  }

  lemma LastPaired(saved: seq<PullStatus>, k: nat)
    requires k < |saved| && AllPaired(saved, k)
    ensures Paired(saved[|saved| - 1])
  {
  }

  lemma PairedAfter(w: WalkEnd, seeded: bool)
    ensures Paired(StatusAfter(w, seeded))
  {
  }

  /** The status file and the price requests of one run. */
  datatype StatusRun = StatusRun(
    before: PullStatus, after: PullStatus, began: int, ended: int, sent: seq<Request>)

  /** What a run does to the status file, seen from outside. */
  ghost predicate StatusContract(r: StatusRun) {
    && r.began <= r.ended
    && (forall i :: 0 <= i < |r.sent| ==> r.began <= r.sent[i].time)
    && (FetcherHolds(r.before, r.began) ==>
         r.sent == [] && r.after.block == r.before.block && r.after.nextRetry == r.before.nextRetry)
    && (Paired(r.after) || r.after == r.before)
  }

  // ---------------------------------------------------------------- lemmas of the loops

  lemma StartWindow(rows: seq<Row>, log: seq<Bar>, from: int, to: int)
    requires Series(rows) && Ordered(log)
    ensures PageEdge(rows, from, to, 0) == from && Extends(log, BarsIn(rows, from, from), log)
  {
    NothingBetween(rows, from, from);
    ExtendsNothing(log);
  }

  /** Before the last page the edge is the time of a row still to come. */
  lemma UnfinishedEdge(rows: seq<Row>, from: int, to: int, page: nat)
    requires Series(rows) && from <= to && 1 <= page <= PagesOf(rows, from, to)
    ensures PageEdge(rows, from, to, page - 1) <= to
  {
    if page > 1 {
      var w := RowsIn(rows, from, to + 1);
      assert (page - 1) * PAGE_SIZE < |w|;
      var i := RowsBefore(rows, from) + (page - 1) * PAGE_SIZE;
      assert rows[i] == w[(page - 1) * PAGE_SIZE];
    }
  }

  lemma NoPageYet(rows: seq<Row>, requests: seq<Request>, from: int, to: int)
    ensures PagesServed(requests, from, to, 0) && PagesOf(rows, from, to) >= 1
  {
  }

  lemma WholeChunk(rows: seq<Row>, requests: seq<Request>, from: int, to: int, n: nat)
    requires PagesServed(requests, from, to, n) && n >= PagesOf(rows, from, to)
    ensures AllPagesServed(rows, requests, from, to)
  {
    hide PageServed, PagesOf;
  }

  lemma PageCount(rows: seq<Row>, from: int, to: int)
    ensures PagesOf(rows, from, to) == if TotalPages(rows, from, to) == 0 then 1 else TotalPages(rows, from, to)
  {
  }

  lemma SavedOne(saved: seq<PullStatus>, k: nat, status: PullStatus)
    requires SavedOnly(saved, k, status)
    ensures SavedOnly(saved + [status], k, status)
  {
  }

  lemma PageStep(rows: seq<Row>, first: seq<Bar>, mid: seq<Bar>, log: seq<Bar>, from: int, to: int, page: nat)
    requires Series(rows) && from <= to + 1 && page >= 1
    requires Extends(first, BarsIn(rows, from, PageEdge(rows, from, to, page - 1)), mid)
    requires Datable(PageRows(rows, from, to, page)) && Extends(mid, ParseRows(PageRows(rows, from, to, page)), log)
    ensures Extends(first, BarsIn(rows, from, PageEdge(rows, from, to, page)), log)
    ensures from <= PageEdge(rows, from, to, page) <= to + 1
    ensures page >= PagesOf(rows, from, to) ==> PageEdge(rows, from, to, page) == to + 1
  {
    hide Extends, BarsIn, PageEdge, PageRows;
    PageBars(rows, from, to, page);
    PageIsWindow(rows, from, to, page);
    var e, e' := PageEdge(rows, from, to, page - 1), PageEdge(rows, from, to, page);
    ChainWindows(rows, first, mid, log, from, e, e, e');
  }

  lemma PageBars(rows: seq<Row>, from: int, to: int, page: nat)
    requires Series(rows) && from <= to + 1 && page >= 1
    ensures Datable(PageRows(rows, from, to, page))
    ensures ParseRows(PageRows(rows, from, to, page)) ==
      BarsIn(rows, PageEdge(rows, from, to, page - 1), PageEdge(rows, from, to, page))
  {
    PageIsWindow(rows, from, to, page);
  }

  /** Between the end of a chunk and the next chunk's start there is no grid instant. */
  lemma SkipGap(rows: seq<Row>, start: int, reach: int, next: int)
    requires Series(rows) && start <= reach <= next && OnGrid(next) && next - STEP < reach
    ensures BarsIn(rows, start, next) == BarsIn(rows, start, reach)
  {
    WindowSplit(rows, start, reach, next);
    forall t | reach <= t < next
      ensures !OnGrid(t)
    {
      assert 0 < next - t < STEP;
    }
    NothingBetween(rows, reach, next);
  }

  lemma StatusIdle(before: PullStatus, after: PullStatus, now: int, requests: seq<Request>)
    requires after == before || (FetcherHolds(before, now) && after == before.(run := WaitingRetry))
    ensures StatusContract(StatusRun(before, after, now, now, requests[|requests|..]))
  {
  }

  lemma StatusRan(
    world: nat -> Answer, before: PullStatus, after: PullStatus, began: int, ended: int, requests: seq<Request>, k: nat)
    requires !FetcherHolds(before, began) && began <= ended && Logged(world, requests, k, began) && Paired(after)
    ensures StatusContract(StatusRun(before, after, began, ended, requests[k..]))
  {
    hide Paced, Marked;
  }

  /** After the last chunk, too, there is no grid instant left. */
  lemma SkipTail(rows: seq<Row>, start: int, last: int, reach: int)
    requires Series(rows) && start <= last + 1 <= reach <= last + STEP
    requires OnGrid(last + STEP) || reach == last + 1
    ensures BarsIn(rows, start, reach) == BarsIn(rows, start, last + 1)
  {
    WindowSplit(rows, start, last + 1, reach);
    forall t | last + 1 <= t < reach
      ensures !OnGrid(t)
    {
      assert 0 < t - last < STEP;
    }
    NothingBetween(rows, last + 1, reach);
  }

  // ---------------------------------------------------------------- what a walk builds

  /** No server key from `at` on is missing below the last cached key. */
  ghost predicate NoGap(rows: seq<Row>, first: seq<Bar>, log: seq<Bar>, at: int)
    requires Series(rows)
  {
    forall k :: Offers(BarsIn(rows, at, END_INSTANT), LastKey(first), k) && !Less(LastKey(log), k) ==> k in Keys(log)
  }

  /** The cache of a walk that began at `start` with cache `first` and goes on at `at`. */
  ghost predicate Built(rows: seq<Row>, first: seq<Bar>, log: seq<Bar>, start: int, reach: int, at: int)
    requires Series(rows)
  {
    && Grows(rows, first, log, start, reach)
    && NoGap(rows, first, log, at)
    && (OnGrid(start) ==> Extends(first, BarsIn(rows, start, reach), log))
  }

  lemma KeysKept(log: seq<Bar>, log': seq<Bar>)
    requires log <= log'
    ensures Keys(log) <= Keys(log')
  {
    KeysConcat(log, log'[|log|..]);
    assert log + log'[|log|..] == log';
  }

  lemma BuiltNone(rows: seq<Row>, first: seq<Bar>, start: int)
    requires Series(rows) && Ordered(first)
    ensures Built(rows, first, first, start, start, start) && AllTook(rows, first, first, [])
  {
    hide Extends, BarsIn, Ordered, Keys, Less;
    StartWindow(rows, first, start, start);
  }

  lemma GrowsWider(rows: seq<Row>, first: seq<Bar>, log: seq<Bar>, start: int, reach: int, reach': int)
    requires Series(rows) && Grows(rows, first, log, start, reach) && reach <= reach'
    ensures Grows(rows, first, log, start, reach')
  {
    hide BarsIn, Ordered;
    forall i | |first| <= i < |log|
      ensures log[i] in BarsIn(rows, start, reach')
    {
      InPart(rows, start, reach, start, reach', log[i]);
    }
  }

  lemma BuiltAcrossGap(rows: seq<Row>, first: seq<Bar>, log: seq<Bar>, start: int, reach: int, from: int)
    requires Series(rows) && Built(rows, first, log, start, reach, from)
    requires start <= from && start <= reach && from - STEP < reach && (OnGrid(start) ==> OnGrid(from))
    ensures Built(rows, first, log, start, Max(reach, from), from)
  {
    hide BarsIn, Extends, OnGrid, NoGap, Grows;
    GrowsWider(rows, first, log, start, reach, Max(reach, from));
    if OnGrid(start) && reach < from { SkipGap(rows, start, reach, from); }
  }

  lemma GrowsOn(
    rows: seq<Row>, first: seq<Bar>, mid: seq<Bar>, log: seq<Bar>, start: int, reach: int, from: int, edge: int)
    requires Series(rows) && Grows(rows, first, mid, start, reach) && start <= from
    requires Extends(mid, BarsIn(rows, from, edge), log)
    ensures Grows(rows, first, log, start, Max(reach, edge))
  {
    hide BarsIn, Ordered, Less, Keys, LastKey, FirstWith;
    forall i | |first| <= i < |log|
      ensures log[i] in BarsIn(rows, start, Max(reach, edge))
    {
      if i < |mid| {
        assert log[i] == mid[i];
        InPart(rows, start, reach, start, Max(reach, edge), log[i]);
      } else {
        assert Brings(BarsIn(rows, from, edge), LastKey(mid), log[i]);
        InPart(rows, from, edge, start, Max(reach, edge), log[i]);
      }
    }
  }

  lemma NoGapOn(rows: seq<Row>, first: seq<Bar>, mid: seq<Bar>, log: seq<Bar>, from: int, edge: int)
    requires Series(rows) && NoGap(rows, first, mid, from) && Extends(mid, BarsIn(rows, from, edge), log)
    ensures NoGap(rows, first, log, from)
  {
    hide BarsIn, Ordered, Less, Keys, LastKey, Brings;
    KeysKept(mid, log);
    forall k | Offers(BarsIn(rows, from, END_INSTANT), LastKey(first), k) && !Less(LastKey(log), k)
      ensures k in Keys(log)
    {
      if Less(LastKey(mid), k) { BelowTop(rows, mid, log, from, edge, k); }
    }
  }

  /** A server key between the old last key and the new one lies in the window that was appended. */
  lemma BelowTop(rows: seq<Row>, mid: seq<Bar>, log: seq<Bar>, from: int, edge: int, k: string)
    requires Series(rows) && Extends(mid, BarsIn(rows, from, edge), log)
    requires k in Keys(BarsIn(rows, from, END_INSTANT)) && Less(LastKey(mid), k) && !Less(LastKey(log), k)
    ensures k in Keys(log)
  {
    hide BarsIn, Ordered, Less, Keys, LastKey, Brings, Key, InRange;
    TopOrigin(mid, BarsIn(rows, from, edge), log);
    var t := KeyTime(rows, from, END_INSTANT, k);
    var u := KeyTime(rows, from, edge, LastKey(log));
    KeyOrder(u, t);
    KeyInPart(rows, from, END_INSTANT, from, edge, k, t);
    assert Offers(BarsIn(rows, from, edge), LastKey(mid), k);
  }

  lemma BuiltOn(
    rows: seq<Row>, first: seq<Bar>, mid: seq<Bar>, log: seq<Bar>, start: int, reach: int, from: int, edge: int)
    requires Series(rows) && Built(rows, first, mid, start, reach, from)
    requires start <= from <= reach && from <= edge && Extends(mid, BarsIn(rows, from, edge), log)
    ensures Built(rows, first, log, start, Max(reach, edge), from) && mid <= log
  {
    hide BarsIn, OnGrid, NoGap, Grows, Ordered, Brings, Offers;
    GrowsOn(rows, first, mid, log, start, reach, from, edge);
    NoGapOn(rows, first, mid, log, from, edge);
    if OnGrid(start) { ChainWindows(rows, first, mid, log, start, reach, from, edge); }
  }

  lemma LaterOffers(rows: seq<Row>, at: int, at': int, last: string, k: string)
    requires Series(rows) && at <= at' && Offers(BarsIn(rows, at', END_INSTANT), last, k)
    ensures Offers(BarsIn(rows, at, END_INSTANT), last, k)
  {
    hide BarsIn, Less;
    InPart(rows, at', END_INSTANT, at, END_INSTANT, FirstWith(BarsIn(rows, at', END_INSTANT), k));
  }

  lemma BuiltLater(rows: seq<Row>, first: seq<Bar>, log: seq<Bar>, start: int, reach: int, at: int, at': int)
    requires Series(rows) && Built(rows, first, log, start, reach, at) && at <= at'
    ensures Built(rows, first, log, start, reach, at')
  {
    hide BarsIn, Extends, OnGrid, Grows, Less, Keys, Offers;
    forall k | Offers(BarsIn(rows, at', END_INSTANT), LastKey(first), k) && !Less(LastKey(log), k)
      ensures k in Keys(log)
    {
      LaterOffers(rows, at, at', LastKey(first), k);
    }
  }

  /** A chunk appended to its end is cached above the first last key, also where it was begun before. */
  lemma NowTook(
    rows: seq<Row>, first: seq<Bar>, mid: seq<Bar>, log: seq<Bar>, start: int, reach: int, from: int, to: int)
    requires Series(rows) && Built(rows, first, mid, start, reach, from)
    requires Extends(mid, BarsIn(rows, from, to + 1), log)
    ensures Took(rows, first, log, from, to)
  {
    hide BarsIn, OnGrid, Grows, Ordered, Less, Keys, LastKey, Brings;
    KeysKept(mid, log);
    forall k | Offers(BarsIn(rows, from, to + 1), LastKey(first), k)
      ensures k in Keys(log)
    {
      if Less(LastKey(mid), k) {
        assert Offers(BarsIn(rows, from, to + 1), LastKey(mid), k);
      } else {
        WholeOffers(rows, from, to + 1, LastKey(first), k);
      }
    }
  }

  lemma WholeOffers(rows: seq<Row>, from: int, until: int, last: string, k: string)
    requires Series(rows) && Offers(BarsIn(rows, from, until), last, k)
    ensures Offers(BarsIn(rows, from, END_INSTANT), last, k)
  {
    hide BarsIn, Less, Key, ParsedFrom, OnGrid;
    var b := FirstWith(BarsIn(rows, from, until), k);
    BarTime(rows, from, until, b);
    BarTime(rows, from, END_INSTANT, b);
  }

  lemma AllStillTook(rows: seq<Row>, first: seq<Bar>, mid: seq<Bar>, log: seq<Bar>, spans: seq<Span>)
    requires Series(rows) && mid <= log && AllTook(rows, first, mid, spans)
    ensures AllTook(rows, first, log, spans)
  {
    hide BarsIn, Keys, LastKey, Offers;
    KeysKept(mid, log);
    forall i | 0 <= i < |spans|
      ensures Took(rows, first, log, spans[i].from, spans[i].to)
    {
      assert Took(rows, first, mid, spans[i].from, spans[i].to);
    }
  }

  lemma OneMoreTook(rows: seq<Row>, first: seq<Bar>, log: seq<Bar>, spans: seq<Span>, s: Span)
    requires Series(rows) && AllTook(rows, first, log, spans) && Took(rows, first, log, s.from, s.to)
    ensures AllTook(rows, first, log, spans + [s])
  {
    hide Took;
  }

  // ---------------------------------------------------------------- the walk

  lemma TilesNone(start: int, end: int)
    ensures Tiles([], start, end)
  {
  }

  /** Only the last chunk may end off the grid. */
  lemma GridStep(t: int, days: int, end: int)
    requires OnGrid(t)
    ensures Min(t + days * DAY, end) < end ==> OnGrid(Min(t + days * DAY, end) + STEP)
  {
    assert t + days * DAY + STEP == t + STEP * (288 * days + 1);
  }

  lemma TilesGrow(spans: seq<Span>, start: int, end: int, s: Span)
    requires Tiles(spans, start, end) && Cut(s, end) && s.from == NextStart(spans, start)
    requires spans != [] ==> s.days <= spans[|spans| - 1].days
    ensures Tiles(spans + [s], start, end)
  {
    hide Cut;
  }

  /** The walk over cache and chunks, before its next chunk is tried. */
  ghost predicate OnWalk(
    rows: seq<Row>, first: seq<Bar>, log: seq<Bar>, start: int, end: int, reach: int, spans: seq<Span>, halvings: nat)
    requires Series(rows)
  {
    && halvings <= 4 && Tiles(spans, start, end)
    && (spans != [] ==> Ladder(halvings) <= spans[|spans| - 1].days)
    && start <= Fetched(spans, start) <= reach <= Max(Fetched(spans, start), end)
    && (OnGrid(start) && Fetched(spans, start) <= end ==> OnGrid(NextStart(spans, start)))
    && Built(rows, first, log, start, reach, NextStart(spans, start))
    && AllTook(rows, first, log, spans)
  }

  lemma WalkBegins(rows: seq<Row>, first: seq<Bar>, start: int, end: int)
    requires Series(rows) && Ordered(first)
    ensures OnWalk(rows, first, first, start, end, start, [], 0) && NextStart([], start) == start
  {
    hide Built, AllTook, OnGrid, Tiles;
    BuiltNone(rows, first, start);
    TilesNone(start, end);
  }

  /** The next chunk may be tried. */
  lemma WalkGoesOn(
    rows: seq<Row>, first: seq<Bar>, log: seq<Bar>, start: int, end: int, reach: int, spans: seq<Span>, halvings: nat)
    requires Series(rows) && OnWalk(rows, first, log, start, end, reach, spans, halvings)
    requires NextStart(spans, start) < end
    ensures var from := NextStart(spans, start);
      && start <= from && start <= reach && from - STEP < reach && (OnGrid(start) ==> OnGrid(from))
      && Built(rows, first, log, start, reach, from)
      && from < Min(from + Ladder(halvings) * DAY, end)
  {
    hide Built, AllTook, OnGrid, Tiles;
  }

  /** Whatever a tried chunk appended, the walk stands where it stood, with a smaller chunk size or not. */
  lemma WalkStays(
    rows: seq<Row>, first: seq<Bar>, mid: seq<Bar>, log: seq<Bar>, start: int, end: int, reach: int, reach': int,
    spans: seq<Span>, halvings: nat)
    requires Series(rows) && OnWalk(rows, first, mid, start, end, reach, spans, halvings) && mid <= log
    requires NextStart(spans, start) < end && Built(rows, first, log, start, reach', NextStart(spans, start))
    requires Max(reach, NextStart(spans, start)) <= reach' <= Max(Max(reach, NextStart(spans, start)), end)
    ensures OnWalk(rows, first, log, start, end, reach', spans, halvings)
    ensures halvings < 4 ==> OnWalk(rows, first, log, start, end, reach', spans, halvings + 1)
    ensures forall walk: WalkEnd ::
      !walk.Complete? ==> RunContract(rows, Walked(first, log, start, end, reach', spans, walk))
    ensures spans != [] ==> Ladder(halvings) <= spans[|spans| - 1].days
  {
    hide AllTook, OnGrid, Tiles, Grows, NoGap, Extends, BarsIn;
    AllStillTook(rows, first, mid, log, spans);
  }

  /** A chunk fetched whole joins the others. */
  lemma WalkStep(
    rows: seq<Row>, first: seq<Bar>, mid: seq<Bar>, log: seq<Bar>, start: int, end: int, reach: int, reach': int,
    spans: seq<Span>, halvings: nat, s: Span)
    requires Series(rows) && OnWalk(rows, first, mid, start, end, reach, spans, halvings) && mid <= log
    requires s.from == NextStart(spans, start) && s.days == Ladder(halvings)
    requires s.to == Min(s.from + Ladder(halvings) * DAY, end)
    requires s.from < end && Built(rows, first, log, start, reach', s.from) && Took(rows, first, log, s.from, s.to)
    requires Max(reach, s.from) <= reach' <= Max(Max(reach, s.from), s.to + 1) && s.to < reach'
    ensures OnWalk(rows, first, log, start, end, reach', spans + [s], halvings)
    ensures NextStart(spans + [s], start) == s.to + STEP
  {
    hide AllTook, OnGrid, Tiles, Built, Took, Ladder, OnLadder;
    LadderStep(halvings);
    TilesGrow(spans, start, end, s);
    if OnGrid(s.from) { GridStep(s.from, s.days, end); }
    AllStillTook(rows, first, mid, log, spans);
    OneMoreTook(rows, first, log, spans, s);
    BuiltLater(rows, first, log, start, reach', s.from, s.to + STEP);
  }

  lemma WalkEnds(
    rows: seq<Row>, first: seq<Bar>, log: seq<Bar>, start: int, end: int, reach: int, spans: seq<Span>, halvings: nat)
    requires Series(rows) && OnWalk(rows, first, log, start, end, reach, spans, halvings)
    requires end <= NextStart(spans, start)
    ensures RunContract(rows, Walked(first, log, start, end, if OnGrid(start) then Fetched(spans, start) else reach,
                                     spans, Complete))
    ensures spans != [] ==> Ladder(halvings) <= spans[|spans| - 1].days
  {
    hide Extends, BarsIn, OnGrid, Tiles, AllTook, NoGap, Ordered;
    if OnGrid(start) && spans != [] { SkipTail(rows, start, spans[|spans| - 1].to, reach); }
  }

  /** The requests of a walk that began with the k-th one. */
  ghost predicate OnWire(
    world: nat -> Answer, rows: seq<Row>, requests: seq<Request>, k: nat, lo: int, slept: int, now: int,
    spans: seq<Span>, first: seq<Bar>, log: seq<Bar>)
  {
    && SpansServed(rows, requests, spans) && Clocked(world, requests, k, lo, slept, now)
    && (log == first || AnyServed(requests, k))
  }

  lemma WireBegins(world: nat -> Answer, rows: seq<Row>, requests: seq<Request>, now: int, log: seq<Bar>)
    ensures OnWire(world, rows, requests, |requests|, now, 0, now, [], log, log)
  {
  }

  lemma WireEnds(
    world: nat -> Answer, rows: seq<Row>, requests: seq<Request>, k: nat, lo: int, slept: int, now: int,
    spans: seq<Span>, first: seq<Bar>, log: seq<Bar>)
    requires OnWire(world, rows, requests, k, lo, slept, now, spans, first, log)
    ensures SpansServed(rows, requests, spans) && Clocked(world, requests, k, lo, slept, now)
    ensures log == first || AnyServed(requests, k)
  {
  }

  lemma WireOn(
    world: nat -> Answer, rows: seq<Row>, sent: seq<Request>, requests: seq<Request>, k: nat, lo: int, slept: int,
    now: int, more: int, later: int, spans: seq<Span>, first: seq<Bar>, mid: seq<Bar>, log: seq<Bar>)
    requires OnWire(world, rows, sent, k, lo, slept, now, spans, first, mid) && sent < requests
    requires k <= |sent| && (k == |sent| ==> slept == 0)
    requires Rested(world, sent, k, now) && Clocked(world, requests, |sent|, now, more, later)
    requires log == mid || AnyServed(requests, |sent|)
    ensures OnWire(world, rows, requests, k, lo, slept + more, later, spans, first, log)
  {
    hide Clocked, SpansServed, Rested;
    ClockedOn(world, sent, requests, k, lo, slept, now, more, later);
    SpansStillServed(rows, sent, requests, spans);
    if AnyServed(sent, k) { ServedStill(sent, requests, k); }
  }

  lemma WireStep(
    world: nat -> Answer, rows: seq<Row>, requests: seq<Request>, k: nat, lo: int, slept: int, now: int,
    spans: seq<Span>, first: seq<Bar>, log: seq<Bar>, s: Span)
    requires OnWire(world, rows, requests, k, lo, slept, now, spans, first, log)
    requires AllPagesServed(rows, requests, s.from, s.to)
    ensures OnWire(world, rows, requests, k, lo, slept, now, spans + [s], first, log)
  {
    hide AllPagesServed, Clocked, AnyServed;
  }

  /** The rest between two chunks. */
  lemma WireRests(
    world: nat -> Answer, rows: seq<Row>, requests: seq<Request>, k: nat, lo: int, slept: int, now: int,
    spans: seq<Span>, first: seq<Bar>, log: seq<Bar>)
    requires OnWire(world, rows, requests, k, lo, slept, now, spans, first, log)
    requires k < |requests| && LastVerdict(world, requests) == Serve
    ensures OnWire(world, rows, requests, k, lo, slept + REST_SLEEP, now + REST_SLEEP, spans, first, log)
    ensures Rested(world, requests, k, now + REST_SLEEP)
  {
    hide SpansServed, Clocked, AnyServed, Rested;
    ClockedSleep(world, requests, k, lo, slept, now, REST_SLEEP);
  }

  /** A run's promise does not speak of what is left after its walk. */
  lemma ContractLeft(rows: seq<Row>, r: RunRecord, yahoo: Seed, lines: nat, left: seq<Bar>)
    requires Series(rows) && RunContract(rows, r)
    ensures RunContract(rows, r.(yahoo := yahoo, lines := lines, left := left))
  {
    hide Tiles, Grows, AllTook, Extends, BarsIn, OnGrid;
  }

  lemma BrokenOff(walk: WalkEnd, seeded: bool)
    requires walk.Raised? || walk.Ended?
    ensures !FallsBack(walk) && StatusAfter(walk, seeded) == PullStatus(Running, None, None)
  {
  }

  lemma ClockedEnds(world: nat -> Answer, requests: seq<Request>, k: nat, lo: int, slept: int, now: int)
    requires Clocked(world, requests, k, lo, slept, now)
    ensures k < |requests| ==> requests[k].time == lo && requests[|requests| - 1].time <= now
    ensures lo + Latencies(world, k, |requests|) <= now
    ensures !MaySleep(world, k, |requests|) ==> now == lo + Latencies(world, k, |requests|)
  {
    hide Logged, MaySleep, Latencies;
  }

  lemma NonePaired(saved: seq<PullStatus>)
    ensures AllPaired(saved, |saved|)
  {
  }

  lemma LastSaved(saved: seq<PullStatus>, k: nat, status: PullStatus)
    requires k < |saved| && SavedOnly(saved, k, status)
    ensures saved[|saved| - 1] == status
  {
  }

  // ---------------------------------------------------------------- before the first request

  lemma NothingYet(
    world: nat -> Answer, rows: seq<Row>, requests: seq<Request>, saved: seq<PullStatus>, status: PullStatus, now: int)
    ensures Clocked(world, requests, |requests|, now, 0, now) && Rested(world, requests, |requests|, now)
    ensures SpansServed(rows, requests, [])
    ensures SavedOnly(saved, |saved|, status)
  {
  }

  lemma NothingSent(world: nat -> Answer, requests: seq<Request>, now: int, from: int, to: int, page: nat)
    ensures Clocked(world, requests, |requests|, now, 0, now) && Rested(world, requests, |requests|, now)
    ensures AllTransient(world, |requests|, |requests|) && AllFor(requests, |requests|, from, to, page)
  {
  }

  /** The page just served. */
  lemma ServedMarked(
    world: nat -> Answer, requests: seq<Request>, m: nat, lo: int, slept: int, now: int, k: nat,
    from: int, to: int, page: nat)
    requires k <= m < |requests| && Clocked(world, requests, m, lo, slept, now)
    requires LastVerdict(world, requests) == Serve && AllFor(requests, m, from, to, page)
    ensures PageServed(requests, from, to, page) && AnyServed(requests, k) && Sleepable(world, |requests| - 1)
  {
    hide Classify;
    assert requests[|requests| - 1].served;
  }

  lemma RestedAfterAllowance(world: nat -> Answer, requests: seq<Request>, k: nat, now: int)
    requires requests != [] && LastVerdict(world, requests) == Allowance
    ensures Rested(world, requests, k, now)
  {
  }
}
