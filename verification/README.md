# Verified models of the IG Agent scripts

A Dafny 4.11 project about the parts of IG Agent v25 that hold real algorithms. `dafny verify dfyconfig.toml`
checks all of it.

- **Back-fill** (`IsoTime`, `BarLog`, `PriceServer`, `YahooSeeder`, `BackfillSteps`, `Backfill`, `BackfillHistory`,
  `BackfillRuns`, `OhlcScheduler`): the resumable download of five-minute bars into an append-only cache. The cache
  file, its `seen` set and last key are a class; so is the fetcher, whose methods are the page request with its retries,
  the page loop of a chunk, the chunk walk with its shrinking chunk size, the Yahoo fallback, and a whole run around the
  status file. The outside world is a script: `world(n)` is what the n-th price request meets, the end of the process
  included, and a `Seed` is what Yahoo would deliver. Histories of runs and of saved statuses are reasoned about as
  sequences of what single runs promise, and `BackfillRuns` follows the fetcher through particular worlds where the
  promises leave something open. Keys are text and times are numbers; `IsoTime` proves, through the Gregorian calendar,
  that text order is time order.
- **Replay** (`Indicators`, `RollUp`, `Scoring`, `ScoreMeaning`, `MirrorLimits`, `Replay`, `Report`): the walk-forward
  scorer over exact reals. Columns are computed over the whole series, future bars included, as the script does;
  causality is a theorem. `ScoreMeaning` says what a score says of prices.
- **Protocols** (`LineFraming`, `TickBridge`, `PacedTransport`, `JsonOffThread`): the socket framer and the bounded
  queue to the tick parser, the two-lock paced order transport, and the off-thread JSON parse. Each has a transition
  system whose events interleave freely, and a class that moves through it the way the handlers do.
- **PNG writer** (`PngChunks`): chunk layout and scanlines.

Readings of the code that the properties rest on, or that they turned up:

- The price server is one fixed series on the five-minute grid. A range request is closed at both ends, which is what
  the five-minute step between chunks presumes, and pages come in time order.
- **The Yahoo fallback replaces the file.** After an allowance or rate-limit block a cache of fewer than a hundred
  lines is overwritten with Yahoo's bars, and the next run resumes after them. `ReplacedIff`: a run leaves another file
  than its walk built exactly under that guard. `SeededForEver` and `ReplacedOnce` say what follows, and `YahooReplaces`
  follows the fetcher through it. A download that misses its time limit is reported as a failure but still writes its
  file.
- **A late `--from` leaves a hole.** A start past the resume point that skips a parseable bar and then caches a later
  one moves the last key past the skipped bar: `MissingForEver`, no later run fetches it. `PrefixIff`: the cache is a
  prefix of the server's series exactly when no run of the history did that and none met the guard of the overwrite.
- **A block on a long cache is forgotten.** For an epic that Yahoo maps, an allowance or rate-limit block on a cache of
  a hundred lines counts as seeded although nothing is downloaded. The run is saved as complete, without a retry time.
  `BlockHoldsIff`: the next tick before the retry time is skipped if and only if the block did not count as seeded;
  `RetryForgotten` follows the poll loop to a request forty minutes too early.
- **An unreadable last line loses the last key.** `UnreadableTail`: the append then accepts bars from before the last
  one, and the file is no longer in order. `AppendBars` says what is added to any file.
- **The bar at the end instant.** A bar stamped exactly at the end of a run is fetched only when the last chunk ends
  there. If the last chunk ends one step earlier, the loop stops without it. So two finished histories can differ by
  that one bar. `FinishedCachesAgree` gives the exact condition, `EndBarRule` says when it happens to an undisturbed
  run, and `EndBarMayDiffer` follows the fetcher through three runs that leave two caches that differ.
- **Off-grid starts.** `TilingNeedsGrid`: a run of two or more chunks covers the grid exactly when it starts on it.
- **Report thresholds.** The report filters on a score rounded to one decimal. `SubsetIsReplay`: its subset at a whole
  threshold t is what a replay fires at t - 0.05, not at t.
- **RSI.** A zero smoothed loss gives 50, not 100, because the quotient is undefined there and is then filled.
  `RsiMirror` says that this is exactly what limits the symmetry of the RSI column, `BalancedAtIff` says it of the
  closes (they both rose and fell, or did neither), and `OneWayRsi` gives the failing series: always rising, RSI 50,
  mirrored RSI 0. On balanced closes the scores swap (`MirrorSymmetry`). On closes that only rose the buy score
  becomes the mirrored sell score exactly when the RSI parts for 50 and for 0 happen to agree (`RisingSwapIff`), which
  they do not for a buy range around 50 that begins above 30 (`RisingBreaksSwap`).
- **Pacing.** `EarlyStartIff`: an order that ends lets another start less than the interval later exactly when it raised
  or the clock does not read more than zero.

## Model

| member | source | states |
|---|---|---|
| IsoTime.InstantOrder | scripts/fetch_historical_ohlc.py:143-150 | counting seconds over the Gregorian calendar neither reorders nor merges date-times, for all valid dates of the years 1000 to 9999 |
| IsoTime.StampOf | scripts/fetch_historical_ohlc.py:59-62 | every instant in range has a valid date-time that counts back to it |
| IsoTime.KeyOrder | scripts/fetch_historical_ohlc.py:285-288 | comparing bar keys as text is comparing their instants, and distinct instants have distinct keys |
| IsoTime.KeyRoundTrip | scripts/fetch_historical_ohlc.py:143-150 | a key parses back to its instant, and no other fixed-width text parses to it |
| IsoTime.ParsedInRange | scripts/fetch_historical_ohlc.py:143-150 | whatever fixed-width text parses is the key of the instant it parses to |
| IsoTime.DayByDay | scripts/fetch_historical_ohlc.py:143-150 | the date after a date, over month ends and year ends, is 86400 seconds later |
| IsoTime.LeapYears | scripts/fetch_historical_ohlc.py:143-150 | leap years repeat every 400 years, which are 146097 days; 2000 and 2024 are leap years, 1900 and 2023 are not |
| IsoTime.KeyText | scripts/fetch_historical_ohlc.py:59-62 | a key is its six fields, zero-padded, at fixed places between `-`, `T` and `:` |
| BarLog.BarCache.constructor | scripts/fetch_historical_ohlc.py:408-419 | opening any file, unreadable and unordered lines included, collects the non-empty keys of its readable lines and the key of its last line; with increasing keys and a readable last line that is its key set and its last key |
| BarLog.BarCache.Overwrite | src/data/ohlc_yahoo_seeder.py:181-186 | writing a file replaces all its lines, and what is written reads back |
| BarLog.BarCache.AppendBars | scripts/fetch_historical_ohlc.py:273-299 | for any batch and any file: the file keeps its lines and gains exactly the distinct batch keys that are not in `seen` and above the last key held, in key order, each with the first body the batch gives for it; `seen` and the last key follow, and the count returned is the number of lines added; onto a file in good order that is the promise above a strictly increasing file, its own key set and its own last key, and it stays in good order |
| BarLog.UnreadableTail | scripts/fetch_historical_ohlc.py:111-124 | a file whose last line is unreadable opens without a last key, so that a bar from before its last bar is appended after it |
| BarLog.ExtendsUnique | scripts/fetch_historical_ohlc.py:273-299 | that promise leaves only one possible file |
| BarLog.RepeatAddsNothing | scripts/fetch_historical_ohlc.py:285-288 | appending a batch a second time adds nothing |
| BarLog.AppendConcat | scripts/fetch_historical_ohlc.py:490-496 | appending two batches in turn equals appending their concatenation if and only if the second brings no new key at or below the last key the first left |
| BarLog.SortFacts | scripts/fetch_historical_ohlc.py:277 | the stable sort keeps the keys, orders them and keeps the first bar of each key first |
| PriceServer.PageIsWindow | scripts/fetch_historical_ohlc.py:202-208 | page p of a range is the rows between two consecutive page edges, and the last page ends at the end of the range |
| PriceServer.PageSizes | scripts/fetch_historical_ohlc.py:202-208 | every page of a range but the last has a thousand rows, the last has some, and there is none where the range has no rows |
| PriceServer.ChainWindows | scripts/fetch_historical_ohlc.py:490-496 | appending two overlapping or adjacent time windows in turn is appending their union, onto any ordered cache |
| PriceServer.AppendToPrefix | scripts/fetch_historical_ohlc.py:490-496 | appending a window that starts inside what is cached moves the cache's end and changes nothing else |
| BackfillSteps.BackoffSchedule | scripts/fetch_historical_ohlc.py:153-154 | the sleeps double from 12 seconds up to the cap of 240, and the retries of one page sleep at most 84 seconds together |
| BackfillSteps.VerdictIs | scripts/fetch_historical_ohlc.py:169-266 | which answers are served, waited out, blocked or raised: a 200 serves; 429, a 403 with a rate hint and a pause that is not preemptive are waited out unless the text names the historical allowance, which blocks, as a preemptive pause does; any other status raises |
| BackfillSteps.RequestsOfPage | scripts/fetch_historical_ohlc.py:210-266 | a page that is refused n times, n below four, before another answer costs n + 1 requests, and one refused four times costs four |
| Backfill.Fetcher.FetchPage | scripts/fetch_historical_ohlc.py:194-270 | stated on the answers themselves: a page costs one to four requests, of which all but the last were refusals to be waited out, with 0, 12, 36 or 84 seconds of sleep; a 200 then gives the page's rows, a fourth refusal a rate-limit block for twelve minutes, a preemptive pause a throttle block for five and an allowance text an allowance block for forty-five, and any other status raises; exactly the served requests count as served |
| Backfill.Fetcher.FetchChunk | scripts/fetch_historical_ohlc.py:449-506 | whatever happens, the cache grows by the parseable bars of the chunk up to some edge: past its end when every page was served, at most its end otherwise, and not at all when nothing was served; the chunk ends as its last answer says, a block with its retry time |
| Backfill.Fetcher.TryChunk | scripts/fetch_historical_ohlc.py:445-506 | onto whatever the run appended before, aligned or not, a chunk that is retried or continued takes no line away, adds only bars of the run's window, leaves no server key out below the last cached one and, fetched whole, caches each of its keys above the first last key |
| Backfill.Fetcher.Walk | scripts/fetch_historical_ohlc.py:445-525 | the walk ends for every script of the world, and as its last answer says; where every answer is a 200 or a refusal to be waited out, never four of them in a row, it is whole without halving; a whole walk without halving leaves what appending its chunks one after another leaves; its fetched chunks follow one another one step apart with sizes stepping down 28, 14, 7, 3, 1; it halves at most four times and attempts at most one chunk more than it fetched or halved; every page of a fetched chunk was served; the cache keeps its lines and gains server bars of the window only, all of the fetched chunks above the old last key and, from an aligned start, exactly those it reached; an allowance block ends it only at one-day chunks |
| Backfill.Fetcher.Conclude | scripts/fetch_historical_ohlc.py:550-593 | after an allowance or rate-limit block, and no other end, a seed that delivers replaces a cache of fewer than a hundred lines; the status saved is complete when the walk was or the seed reports success, and carries the block's reason and retry time otherwise |
| Backfill.Fetcher.Pull | scripts/fetch_historical_ohlc.py:392-593 | a run that may send starts at its argument, else where the cache ends, else at the default or, for another epic's empty cache, ninety days back; it keeps the walk's promises, sends its first request at once, ends as its last answer says and when its sleeps and the latencies of its answers are over, leaves the Yahoo file exactly under the guard of the overwrite and what its walk built otherwise, and saves exactly the status its end calls for |
| BackfillSteps.StartRules | scripts/fetch_historical_ohlc.py:392-400 | an argument always sets the start; without one a run starts five minutes after the last cached bar, at the default where that does not parse, and on an empty cache at the default or, for another epic, ninety days back |
| Backfill.Fetcher.Run | scripts/fetch_historical_ohlc.py:347-593 | a run outside the window or held back by its retry time leaves cache, clock and requests alone; any other is a run that may send, with its exact final status; every status saved has a block reason exactly when it has a retry time; across pages, retries and chunks, requests are at least twelve seconds apart unless the earlier one met the historical allowance |
| BackfillSteps.WindowHours | src/system/ohlc_fetch_window.py:9-22 | the fetch window is open from 07:00 to before 22:30 on the clock of every day |
| BackfillSteps.ReplacedIff | src/data/ohlc_yahoo_seeder.py:293-305 | a run leaves another file than its walk built if and only if the walk ended in one of the two blocks, the file had fewer than a hundred lines and Yahoo delivered |
| BackfillSteps.LadderStep | scripts/fetch_historical_ohlc.py:467-468 | halving a chunk size, never below one day, is one step down the ladder, four times at most |
| BackfillHistory.Tiling | scripts/fetch_historical_ohlc.py:445-523 | every grid instant of a finished aligned run lies in exactly one fetched chunk, whatever halvings happened |
| BackfillHistory.TilingNeedsGrid | scripts/fetch_historical_ohlc.py:446-523 | a finished run of two or more chunks covers every grid instant of its range if and only if it starts on the grid |
| BackfillHistory.WalkBound | scripts/fetch_historical_ohlc.py:445-525 | the number of chunks a walk attempts is at most the range divided by a day and a step, plus six |
| BackfillHistory.ResumePoint | scripts/fetch_historical_ohlc.py:392-400 | nothing parseable lies between what is cached and five minutes after the last cached bar, and resuming there is aligned and not early |
| BackfillHistory.RunKeepsPrefix | scripts/fetch_historical_ohlc.py:392-525 | the walk of one run that skips no parseable bar, however it ends, turns a cache that is a prefix of the parseable server bars into a longer such prefix, and says where it ends |
| BackfillHistory.WalkKeepsPrefixIff | scripts/fetch_historical_ohlc.py:392-525 | from a prefix and any aligned start, early or late, the walk of a run leaves a prefix if and only if it did not start past a parseable bar after the resume point and cache a later one |
| BackfillHistory.MissingForEver | scripts/fetch_historical_ohlc.py:285-288 | a key missing below the last cached one stays missing over every history without a Yahoo overwrite |
| BackfillHistory.ResumeKeepsPrefix | scripts/fetch_historical_ohlc.py:392-593 | over every history of runs from a prefix of the server's bars and from any aligned starts, whatever kills, blocks and throttles: where no run met the guard of the overwrite or jumped over a bar, the cache is the parseable server bars from the first start up to some instant, at least as far as it was and as any run that skipped nothing reached; after an overwrite it begins with Yahoo bars, and after a jump a bar is missing below its last one |
| BackfillHistory.PrefixIff | scripts/fetch_historical_ohlc.py:392-593 | from an empty file, the cache is a prefix of the parseable server bars if and only if no run of the history met the guard of the Yahoo overwrite and none jumped over a bar |
| BackfillHistory.SeededForEver | scripts/fetch_historical_ohlc.py:551-557 | from any file, a history in which no run met the guard only adds lines, and after one that did the file begins with Yahoo bars for ever |
| BackfillHistory.LongIsKept | src/data/ohlc_yahoo_seeder.py:292-298 | a file of a hundred lines or more, unreadable ones counted, is never overwritten and stays that long |
| BackfillHistory.ReplacedOnce | src/data/ohlc_yahoo_seeder.py:292-305 | a history overwrites the file at most once, and only when it held fewer than a hundred bars |
| BackfillHistory.NothingAfterEnd | scripts/fetch_historical_ohlc.py:445-447 | a history whose runs end by an instant caches only the parseable server bars before it, and the bar at it only through a last chunk that ended there, if and only if no run met the guard of the overwrite and none jumped over a bar |
| BackfillHistory.FinishedCache | scripts/fetch_historical_ohlc.py:445-593 | a history that finishes at an instant has cached exactly the parseable bars before it, and the bar at it when some last chunk ended there, if and only if no run met the guard of the overwrite, none jumped over a bar and the last one skipped none |
| BackfillHistory.FinishedCachesAgree | scripts/fetch_historical_ohlc.py:445-593 | interrupted runs that finish leave the cache of an unbroken history, such as one uninterrupted run, if and only if they are unbroken too (no overwrite, no jump, nothing skipped by the last run) and there is no bar at the end instant or both or neither had a last chunk ending there; with the end off the grid, if and only if they are unbroken |
| BackfillHistory.EndBarRule | scripts/fetch_historical_ohlc.py:446-523 | with one chunk size, the last chunk ends at an aligned end instant if and only if the range is not a whole number of chunk-and-step strides |
| BackfillRuns.UndisturbedRun | scripts/fetch_historical_ohlc.py:392-593 | where every answer is a 200 or a refusal to be waited out, never four in a row, a run in the fetch window without a block in its status file completes with 28-day chunks and leaves what appending them leaves |
| BackfillRuns.RetriesLeaveNoTrace | scripts/fetch_historical_ohlc.py:194-270 | in every such world, from any start, two runs of the fetcher leave equal caches through the same chunks, one with the refusals and one where every answer is a 200 |
| BackfillRuns.EndBarMayDiffer | scripts/fetch_historical_ohlc.py:446-523 | for every aligned start in the fetch window, one run of the fetcher to 28 days and five minutes after it leaves a cache without the bar at that end, which a run after one day and another to the end cache |
| BackfillRuns.YahooReplaces | scripts/fetch_historical_ohlc.py:551-557 | a run of the fetcher on any cache of fewer than a hundred lines, an empty one included, where the allowance refuses every request and Yahoo delivers, leaves exactly the Yahoo file, which is no prefix of any window of the server's bars |
| BackfillRuns.SomeFrame | src/data/ohlc_yahoo_seeder.py:158-178 | Yahoo can deliver: a hundred grid rows at any sane price are accepted |
| YahooSeeder.Validate | src/data/ohlc_yahoo_seeder.py:158-178 | a list of bars with keys passes exactly when it has at least a hundred, opens and closes between lows and highs throughout, and strictly increasing keys |
| YahooSeeder.SeedBarsMarked | src/data/ohlc_yahoo_seeder.py:139-155 | every bar of a seed has a key and is marked as Yahoo's |
| YahooSeeder.SeedBarsAre | src/data/ohlc_yahoo_seeder.py:132-154 | a seeded file holds, in key order, exactly the rows of the frame that have their prices, under their own times and with Yahoo's mark |
| YahooSeeder.GridFrameAccepted | src/data/ohlc_yahoo_seeder.py:102-178 | every frame of a hundred or more sane rows on the grid is accepted, with one bar a row |
| YahooSeeder.SeedEpic | src/data/ohlc_yahoo_seeder.py:274-315 | the file is replaced exactly when the epic is mapped, the file has fewer than a hundred lines and the download passes the checks; success is reported for a mapped epic with a hundred lines, or when it was replaced in time |
| OhlcScheduler.SchedulerPassesFetcher | scripts/ohlc_fetch_scheduler.py:57-70 | whenever the scheduler's retry check passes, the fetcher's own check on the same status passes at that time or later, sub-second readings included |
| OhlcScheduler.GatesAgree | scripts/fetch_historical_ohlc.py:368-373 | on saved statuses the two retry checks are the same check; on a status with a retry time but no reason the fetcher never holds back |
| OhlcScheduler.RetryStandsOrPasses | scripts/fetch_historical_ohlc.py:367-391 | a saved retry time still stands before any later run or has passed by then |
| OhlcScheduler.NoRequestBeforeRetry | scripts/fetch_historical_ohlc.py:367-391 | over every history of runs no price request is sent before a retry time that any earlier run saved |
| OhlcScheduler.AlwaysPaired | scripts/fetch_historical_ohlc.py:570-593 | from a missing or paired status file on, every status has a reason exactly when it has a retry time |
| OhlcScheduler.Tick | scripts/ohlc_fetch_scheduler.py:86-112 | a tick is skipped, with nothing sent, saved or cached, exactly when a retry time is ahead or the window is closed; the script it starts is never held back, does nothing when the window closed meanwhile, and otherwise keeps the promises of a run, overwrites exactly under the guard and leaves exactly the status its end calls for |
| OhlcScheduler.Poll | scripts/ohlc_fetch_scheduler.py:130-141 | over any number of ticks in any world: exactly the requests of its runs are sent, in order, none before a retry time saved earlier or before that of a block that was not made up for, all twelve seconds apart unless the earlier one met the historical allowance; each tick is skipped, run, sent and saved as its gate and its walk say, five minutes after the one before ended; each walk starts at the resume point of the cache it found and ends as its last answer says; no visit overwrites if and only if no tick met the guard, which no tick does on a hundred lines or where Yahoo never delivers, and then the cache only grows, a prefix of the server's bars stays one that is no shorter, and every fetched chunk was served |
| OhlcScheduler.BlockHolds | scripts/fetch_historical_ohlc.py:551-593 | the retry time of a block is saved if and only if the block did not count as seeded; then no later request precedes it, and otherwise the run is saved as complete |
| OhlcScheduler.BlockHoldsIff | scripts/ohlc_fetch_scheduler.py:86-112 | a tick in the window and before the retry time of the block before it is skipped if and only if that block did not count as seeded; one that is not skipped sends before the retry time, if the window lasts and the cache ends before then |
| OhlcScheduler.RetryForgotten | src/data/ohlc_yahoo_seeder.py:293-298 | two polls of a mapped epic with a hundred cached lines under an allowance that refuses everything: the block is saved as a completed run, and the second poll sends five minutes later, forty minutes before the retry time |
| Indicators.EwmPrefix | scripts/replay_signals.py:229-233 | entry k of an exponential mean depends on the first k + 1 values only |
| Indicators.ColumnsPrefix | scripts/replay_signals.py:226-246 | so do both moving averages, RSI and ATR |
| Indicators.ColumnSteps | scripts/replay_signals.py:226-246 | from row to row an average over n rows gives the new close two parts in n + 1, and ATR the new true range one part in its period; they begin at the first close and the first range |
| Indicators.MeanSteps | scripts/replay_signals.py:231-233 | from row to row the mean gain and loss give the rise or fall of the close one part in the period; they begin with the first change |
| Indicators.TrueRangeIs | scripts/replay_signals.py:236-244 | the true range is the width of the smallest interval that holds the bar and the close before it |
| Indicators.RisingColumns | scripts/replay_signals.py:226-235 | on rising closes the fast average is above the slow one from the second row on, and RSI is 50 |
| Indicators.FallingColumns | scripts/replay_signals.py:226-235 | on falling closes it is below, and RSI is 0, or 50 on the first row |
| Indicators.IndicatorBounds | scripts/replay_signals.py:226-246 | at every row each moving average stays within any bounds of the closes up to that row, RSI within 0 and 100, and ATR is not negative |
| Indicators.RsiRange | scripts/replay_signals.py:232-235 | with a positive smoothed loss RSI is the share of the gain in gain plus loss |
| Indicators.RsiMirror | scripts/replay_signals.py:231-235 | exchanging gain and loss reflects RSI about 50 if and only if both vanish or neither does |
| Indicators.EwmZero | scripts/replay_signals.py:231-233 | for a smoothing factor strictly between 0 and 1 the mean of non-negative values vanishes exactly when all values seen did |
| Indicators.BalancedIff | scripts/replay_signals.py:231-235 | with an RSI period of two or more, gain and loss are balanced exactly when the closes so far both rose and fell or did neither; with a period of one, exactly when the last close did not move |
| Indicators.OneWayRsi | scripts/replay_signals.py:231-235 | closes that rose and never fell give RSI 50, and 0 in the mirror; closes that fell and never rose give 0, and 50 in the mirror |
| Indicators.ColumnsMirror | scripts/replay_signals.py:226-246 | turning the prices over reflects both averages, keeps ATR, and reflects RSI if and only if the smoothed gain and loss are balanced |
| RollUp.BinsSummarise | scripts/replay_signals.py:251-262 | each fifteen-minute candle begins at a multiple of 900 seconds and summarises exactly the bars of the 900 seconds from there: first open, attained highest high and lowest low, last close and spread |
| RollUp.BinTimes | scripts/replay_signals.py:253 | candle times are increasing quarter hours and the last one is that of the last bar |
| RollUp.BinsGrow | scripts/replay_signals.py:251-262 | later bars change no candle but the last one begun |
| RollUp.JoinPicksOwnBin | scripts/replay_signals.py:277-284 | the backward join gives each bar the row of its own quarter hour |
| RollUp.JoinCausal | scripts/replay_signals.py:264-285 | the shifted and joined fifteen-minute value of a bar is the same over any two series that agree up to that bar: the column's entry one candle before the bar's own, and none in the first |
| RollUp.JoinIsLastFinished | scripts/replay_signals.py:264-285 | the joined value is missing exactly when no bar precedes the bar's own quarter hour; otherwise it is the last entry of the column over the candles of the preceding bars alone, which is the last finished quarter hour that has a bar |
| RollUp.BinsMirror | scripts/replay_signals.py:251-262 | rolling up commutes with turning the prices over |
| Scoring.NoLookAhead | scripts/replay_signals.py:226-411 | over any two series that agree before loop index i, everything the formula reads at i, both scores, RSI and volatility regime are equal |
| Scoring.ScoreBounds | scripts/replay_signals.py:327-387 | both scores lie between 0 and 120, and the penalties only lower them |
| ScoreMeaning.ClimbingBuys | scripts/replay_signals.py:304-401 | with a fast span below the slow one, after bars that close higher and higher, each above its open, the fast average is above the slow one, buy leads by at least forty points before the RSI parts, exceeds sell, and the direction is never to sell, for every configuration and at every index |
| ScoreMeaning.SlidingSells | scripts/replay_signals.py:304-401 | the same for bars that close lower and lower, each below its open: it never buys |
| ScoreMeaning.BuyIncrements | scripts/replay_signals.py:352-364 | two views that differ in one condition only differ in the raw buy score by 30 points for the fifteen-minute trend, 20 and the momentum for the five-minute one, 10 for three closes and 10 for two candles, and by their own parts for RSI and spread |
| ScoreMeaning.SellIncrements | scripts/replay_signals.py:365-377 | the same for the raw sell score |
| ScoreMeaning.NothingMet | scripts/replay_signals.py:352-377 | a view that meets none of the conditions scores nothing |
| ScoreMeaning.RsiPoints | scripts/replay_signals.py:332-333 | the RSI parts grow a point a point from the edge of the range inwards, to twenty or to the far edge, which for an empty range is 99 or 0 |
| ScoreMeaning.SpreadPoints | scripts/replay_signals.py:335-339 | the spread part falls in a straight line from twenty without a spread to nothing at the largest one |
| ScoreMeaning.MomentumPoints | scripts/replay_signals.py:327-330 | momentum is proportional to the gap of the averages, ten points at the configured gap and beyond |
| ScoreMeaning.PenaltyFactors | scripts/replay_signals.py:379-387 | an ATR over its limit leaves 0.325 of a score, else a filtered low regime a half; a spread over its limit halves what is left |
| ScoreMeaning.FiresIff | scripts/replay_signals.py:392-410 | a signal fires exactly when the larger score, buy on a tie, meets the threshold and RSI is not beyond the far edge of its range |
| ScoreMeaning.RegimeIs | scripts/replay_signals.py:288-295 | the regime is unknown below ten ATR values, and else compares the last one with two quantiles of the last hundred, high first |
| ScoreMeaning.ViewOwn | scripts/replay_signals.py:305-313 | the five-minute side of a view is the three bars before the index and the last entries of the columns over the bars before it alone |
| ScoreMeaning.ViewIs | scripts/replay_signals.py:314-316 | the fifteen-minute side is the last entries of the columns over the quarter hours finished before that of the bar before the index, missing when there is none, with a zero read as the five-minute value |
| Scoring.DirectionIsLarger | scripts/replay_signals.py:392-401 | a direction is given exactly when the larger score meets the threshold, and is BUY exactly when buy is at least sell |
| Scoring.ThresholdMonotone | scripts/replay_signals.py:389-410 | raising the threshold never flips a direction, and what fires at the higher threshold is what fired at the lower one and reaches the higher |
| Scoring.ScoresMirror | scripts/replay_signals.py:327-387 | on a mirrored view under reflected RSI ranges the two scores change places |
| Scoring.ViewMirror | scripts/replay_signals.py:304-316 | the view of the mirrored series is the mirrored view, through both time frames and the zero-means-missing fallback |
| Scoring.BalancedAtIff | scripts/replay_signals.py:231-316 | the balance condition at a loop index holds exactly when, in the bars before it and in the finished quarter hours before them, closes both rose and fell or did neither |
| Scoring.StandingStillIsBalanced | scripts/replay_signals.py:231-235 | a series whose closes never move is balanced at every index |
| Scoring.ZigZagIsBalanced | scripts/replay_signals.py:231-316 | so is, at every index from 4 on, a series that moves both ways in both frames between any two prices, so the symmetry below is not empty where the loop runs |
| Scoring.MirrorSymmetry | scripts/replay_signals.py:226-411 | mirrored prices and reflected ranges swap the scores, keep the regime, and give the opposite direction if and only if the scores are not tied at or above the threshold; without a tie the signal fires exactly when the original does |
| MirrorLimits.RisingSwapIff | scripts/replay_signals.py:226-411 | on closes that only rose the buy score becomes the mirrored sell score if and only if the RSI part of 50 under the ranges is that of 0 under the mirrored ones; which score is larger is decided by the same comparison |
| MirrorLimits.RisingBreaksSwap | scripts/replay_signals.py:226-411 | at every loop index and for every buy range around 50 that begins above 30 there is a series whose mirrored sell score is larger than its buy score |
| Replay.LabelHorizon | scripts/replay_signals.py:96-150 | a longer horizon never turns a win into a loss or a loss into a win, and a bar that hit both sides stays a break-even |
| Replay.RecordHorizon | scripts/replay_signals.py:416-432 | so the three-bar and six-bar labels of a record never contradict each other |
| Replay.LabelMirror | scripts/replay_signals.py:128-150 | mirrored prices and the opposite direction give the same label |
| Replay.RecordMirror | scripts/replay_signals.py:304-467 | mirrored prices and reflected ranges write the same record with the opposite direction and reflected RSI: same score, regime, block, firing and labels, or none on both sides, unless both scores tie at or above the threshold |
| Replay.ReplayBatch | scripts/replay_signals.py:299-480 | the records are those of the loop indices that pass the gate, in order, and their labels say what the bars after them did; `fired` is the number of fired records and the sum of the three label counts, and each label count is that of the fired records with the label |
| Replay.LabelMeans | scripts/replay_signals.py:96-150 | a label is a win when entry and stop distance are positive and some one of the next three bars, or six, reaches the entry plus the stop distance on the side of the direction while none reaches it on the other, a loss in the reverse case, and even otherwise; the stop distance is a ten-thousandth of the points on FX epics |
| Replay.RecordIs | scripts/replay_signals.py:392-467 | a record is written exactly when the signal fires or a score is fifty or more, and one of the next three bars has a price; it names the direction of the larger score, that score rounded, whether it fired and whether RSI blocked it |
| Replay.RoundIs | scripts/replay_signals.py:447-448 | a score is recorded as a nearest tenth, an even one in the middle |
| Replay.WarmupIs | scripts/replay_signals.py:302-304 | the loop begins at the first index that is at least the slow span plus four, the RSI period plus four, and six |
| Replay.RecordsAre | scripts/replay_signals.py:299-480 | the records are those of the indices from the warm-up to the last bar but one, each once and in increasing order |
| Replay.LabelsPartition | scripts/replay_signals.py:433-434 | every record has exactly one three-bar label |
| Replay.RecordCausal | scripts/replay_signals.py:304-467 | changing bars from index i on changes nothing of the record at i but its labels: it is written in both replays or in neither |
| Report.FilterThreshold | scripts/analyse_replay.py:90-100 | keeps, in order, exactly the rows with a direction, a score at the threshold or above and no RSI block |
| Report.KeptNested | scripts/analyse_replay.py:90-100 | threshold subsets are nested |
| Report.RoundReaches | scripts/replay_signals.py:447-448 | a score rounded to a tenth reaches a whole threshold if and only if the score is at most a twentieth below it |
| Report.KeepsIsFires | scripts/analyse_replay.py:90-100 | a row recorded at one threshold is kept at t if and only if a replay at the larger of that threshold and t - 0.05 fires it |
| Report.SubsetIsReplay | scripts/analyse_replay.py:122-124 | the report's subset at a whole threshold t is the list of signals a replay fires at t - 0.05, or at its own threshold when that is higher |
| Report.RoundingAdmits | scripts/analyse_replay.py:95 | a record is kept at a whole threshold t that a replay at t does not fire if and only if the replay fired it and its raw score lies within a twentieth below t |
| Report.FactorIsRatio | scripts/analyse_replay.py:70-87 | the profit factor is wins over losses whatever the stop distance, and the win rate is the hundredfold share of wins among wins and losses, zero without any |
| Report.BestThreshold | scripts/analyse_replay.py:120-128 | the recommended threshold is the first of 50, 60, 70, 75, 80, 85 and 90 with the largest profit factor among those keeping at least five rows, and 70 when none does |
| LineFraming.PiecesRejoin | main.js:818-827 | cutting a text at its newlines loses nothing and leaves no newline in a piece |
| LineFraming.TrimIs | main.js:824 | trimming cuts white space off both ends and nothing else, down to a text that neither begins nor ends with any; nothing is left exactly when all was white space |
| LineFraming.LinesAre | main.js:818-827 | the lines are, in order and by position, the pieces that hold anything but white space, each without the white space at its ends |
| LineFraming.LinesConcat | main.js:818-827 | framing a text in two parts emits the lines of the whole |
| LineFraming.Framer.OnData | main.js:819-827 | a chunk emits, in order, the newline-terminated pieces of buffer and chunk that hold anything but white space, each without the white space at its ends, and leaves the unterminated tail |
| LineFraming.Framer.OnAll | main.js:818-827 | whatever the chunks, the emitted lines are those pieces of the whole stream and the buffer is its tail |
| TickBridge.RunKeepsInv | main.js:329-391 | over every run a ready parser has nothing pending and the queue never holds more than 256 lines |
| TickBridge.RunIs | main.js:343-391 | over every run, while the parser is not ready the queue is exactly the latest 256 lines since it was last emptied, and what the parser was given is what came while it was ready and those latest lines |
| TickBridge.ReadyDelivers | main.js:345-391 | lines that came before the parser was ready are handed over when it is, the latest 256 of them |
| TickBridge.ArrivalOrder | main.js:829-847 | over every run, what was posted followed by what is pending is taken from the arrivals at strictly increasing positions |
| TickBridge.BurstsMerge | main.js:829-847 | two bursts of lines do what one burst with all of them does, through both dispatch paths |
| TickBridge.ChunkingInvariance | main.js:818-847 | how the stream was cut into chunks leaves no trace in the bridge |
| TickBridge.Bridge.Dispatch | main.js:377-391 | a single line is posted, queued with the oldest dropped over the limit, or refused when no parser can be started |
| TickBridge.Bridge.OnLines | main.js:828-851 | any burst moves the bridge as the transition system says, whether it takes the single-line or the batch path |
| TickBridge.Bridge.OnReady | main.js:345-352 | the ready message hands over the queue once and empties it |
| TickBridge.Bridge.OnExit | main.js:370-373 | the exit of the parser keeps what is pending |
| TickBridge.Bridge.OnRelease | main.js:277-286 | shutting down drops what is pending |
| PacedTransport.OrdersArePaced | scripts/inject_live_limit_torture.py:74-83 | for every interleaving, orders never overlap and each starts at least the interval after every earlier order that returned |
| PacedTransport.OneInFlight | scripts/inject_live_limit_torture.py:74-83 | while an order is in flight every earlier one has ended, by at least the interval if it returned |
| PacedTransport.RateBound | scripts/inject_live_limit_torture.py:74-83 | over every interleaving in which no order function raises, a window holds at most the floor of its length over the interval, plus one, order starts, the order in flight included |
| PacedTransport.TrailIsIndependent | scripts/inject_live_limit_torture.py:70-83 | dropping every trailing PUT from any run leaves a run with the same orders, clock and order lock |
| PacedTransport.TrailNeverWaits | scripts/inject_live_limit_torture.py:70-83 | into any run a trailing PUT can be inserted wherever its lock is free, over any stretch of order events, and the run ends as it did |
| PacedTransport.EarlyStartIff | scripts/inject_live_limit_torture.py:74-83 | in every reachable state, an order that ends lets another start less than the interval later if and only if it raised or the clock does not read more than zero |
| PacedTransport.RaiseBreaksPacing | scripts/inject_live_limit_torture.py:81-83 | in every reachable state, after an order function that raises the next order may start at once |
| PacedTransport.ZeroClockBreaksPacing | scripts/inject_live_limit_torture.py:77 | in every state, after an order that completes while the clock reads zero or less the next order may start at once |
| PacedTransport.Transport.RunOrder | scripts/inject_live_limit_torture.py:74-83 | one coroutine call is a run of the transition system; it starts at once, or at the end of the interval plus what the sleep oversleeps when that is ahead, appends one order and remembers its completion only if it returned |
| JsonOffThread.RunKeepsInv | cockpit-web/app.js:163-205 | over every interleaving a call waits exactly until it is settled, and settled calls are distinct |
| JsonOffThread.SettlesOnce | cockpit-web/app.js:189-205 | each off-thread call settles at most once, has settled once its timer fired or its reply came, and settles with null or the worker's parse of its own text |
| JsonOffThread.WorkerAnswers | cockpit-web/app.js:163-205 | a long text that the worker answers settles with what the worker made of it |
| JsonOffThread.FetchRefinesMainThread | cockpit-web/app.js:210-226 | whatever settled it, the fetch returns what parsing the text on the main thread returns: the parsed value if the text parses to an object, and null otherwise |
| JsonOffThread.JsonParser.ParseOffThread | cockpit-web/app.js:189-205 | a call registers a fresh waiter and posts its text, or is answered null at once without a worker or below 4096 characters |
| JsonOffThread.JsonParser.OnMessage | cockpit-web/app.js:172-179 | a reply settles its own waiter with the parse of its own text if that is an object and with null otherwise, and does nothing once that is settled |
| JsonOffThread.JsonParser.OnTimer | cockpit-web/app.js:198-203 | a timer settles its own waiter with null, and does nothing once that is settled |
| JsonOffThread.JsonParser.OnError | cockpit-web/app.js:180-182 | a worker error drops the worker and leaves every waiter to its timer |
| PngChunks.ParseBack | launcher/build_mac_app.py:64-67 | every concatenation of chunks reads back as exactly those chunks, in the layout of section 3.2 of RFC 2083 |
| PngChunks.ParsedIsEmitted | launcher/build_mac_app.py:64-67 | every stream that reads as chunks is the stream written for them |
| PngChunks.SplitIsUnique | launcher/build_mac_app.py:64-67 | two lists of chunks with the same stream are the same list |
| PngChunks.WordRoundTrip | launcher/build_mac_app.py:67 | four-byte big-endian packing round-trips both ways |
| PngChunks.Scanlines | launcher/build_mac_app.py:57-62 | the loop emits exactly height times (1 + 4 width) bytes; each row starts with filter byte 0 and holds its pixels' colours in order |
| PngChunks.HeaderReads | launcher/build_mac_app.py:69 | the header is width and height as big-endian words and the bytes 8, 6, 0, 0, 0 |
| PngChunks.NamesSpell | launcher/build_mac_app.py:70-73 | the signature is 137, `PNG`, 13, 10, 26, 10, and the chunk types spell IHDR, IDAT and IEND |
| PngChunks.WritePng | launcher/build_mac_app.py:69-74 | what follows the signature reads back as header, pixel data and end |

## Left out

- Backfill.Fetcher.Run: credential failures, the `--source yahoo` call and the seconds a Yahoo download takes. The end instant is read once, with the retry check.
- YahooSeeder.SeedEpic: the resampling of the download and its synthetic spreads; a frame row either has its prices or is dropped. Blank lines of the cache file, which its line count also counts.
- PriceServer.ParseRow: the choice among mid, last, bid and ask prices and the rounding of a candle are not modelled; a row either gives a bar under its own time or none.
- PriceServer.PageIsWindow: pages of exactly 1000 rows, in time order, over a series that does not change between requests.
- BackfillHistory.ResumeKeepsPrefix: from a prefix, starts are aligned instants from the first start on; for off-grid starts, such as the usual one ninety days back that other epics get on an empty cache, the promise of the run (`RunContract`) and `TilingNeedsGrid` say what is cached.
- Backfill.Fetcher.Walk: runs begin on a cache file with increasing keys and a readable last line; on any other, `AppendBars` says what each append adds.
- BarLog.BarCache.AppendBars: a last line without its newline, as a process that ends inside a write leaves it; the next bar appended joins that line.
- IsoTime.KeyRoundTrip: the other formats that datetime.fromisoformat accepts, and the repeated hour when London clocks go back.
- Scoring.NoLookAhead: bar times strictly increasing and no bar dropped for a missing price; a dropped bar also shifts the forward windows against the scored rows.
- Scoring.RegimeAt: the rolling quantile is any function of the last hundred ATR values.
- Replay.ReplayBatch: timestamps, the rounding of the recorded RSI, setup keys, entry and forward prices in a record; the choice of the effective spread; the text test that tells FX epics, whose stops are in pips, from others.
- Report.SubsetIsReplay: scores are exact reals, rounded half to even.
- Report.BestThreshold: RSI ranges, sessions, regimes and the text of the report.
- TickBridge.RunIs: one live parser at a time; a late exit event of an earlier process, and posting into a process that has died, are not modelled.
- LineFraming.Framer.OnAll: decoded characters; a character split across two chunks of bytes is not modelled.
- PacedTransport.RateBound: the cancellation of a waiting coroutine.
- JsonOffThread.SettlesOnce: that the timer fires after five seconds is the browser's promise; HTTP errors and aborts of the fetch are not modelled.
- PngChunks.ParseBack: the checksum is any function of the chunk body, and compression is left to the caller.
- The line-distance test that colours a pixel, the sequential replay against the live signal engine, pacing adaptation, the trailing loop, broker calls, rendering and process supervision.
