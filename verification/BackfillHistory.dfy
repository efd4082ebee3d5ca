/** Whole histories of runs: what interrupted, resumed and repeated runs leave in the cache, how the
    chunks of a run tile its range, and when requests may be sent at all.
 */
module BackfillHistory {
  import opened IsoTime
  import opened BarLog
  import opened PriceServer
  import opened YahooSeeder
  import opened BackfillSteps

  // ---------------------------------------------------------------- tiling

  predicate Covers(s: Span, t: int) {
    s.from <= t <= s.to
  }

  lemma {:induction false} LaterSpans(spans: seq<Span>, start: int, end: int, i: nat, j: nat)
    requires Tiles(spans, start, end) && i < j < |spans|
    ensures spans[i].to < spans[j].from
    ensures spans[i].to == spans[i].from + spans[i].days * DAY < end
    decreases j
  {
    assert Cut(spans[i], end) && Cut(spans[j], end);
    assert spans[i + 1].from == spans[i].to + STEP && Cut(spans[i + 1], end);
    if i + 1 < j {
      LaterSpans(spans, start, end, i, j - 1);
      assert spans[j].from == spans[j - 1].to + STEP && Cut(spans[j - 1], end);
    }
  }

  /** On an aligned run only the last chunk may end off the grid. */
  lemma {:induction false} SpansOnGrid(spans: seq<Span>, start: int, end: int, i: nat)
    requires Tiles(spans, start, end) && OnGrid(start) && i < |spans|
    ensures OnGrid(spans[i].from)
    decreases i
  {
    if i > 0 {
      SpansOnGrid(spans, start, end, i - 1);
      LaterSpans(spans, start, end, i - 1, i);
      GridStep(spans[i - 1].from, spans[i - 1].days, end);
      assert spans[i].from == spans[i - 1].to + STEP;
    }
  }

  /** Every grid instant of a finished aligned run lies in exactly one of its chunks. */
  lemma Tiling(spans: seq<Span>, start: int, end: int, t: int) returns (i: nat)
    requires Tiles(spans, start, end) && end <= NextStart(spans, start)
    requires OnGrid(start) && OnGrid(t) && start <= t < end
    ensures i < |spans| && Covers(spans[i], t)
    ensures forall j :: 0 <= j < |spans| && Covers(spans[j], t) ==> j == i
  {
    i := FindSpan(spans, start, end, t, |spans|);
    forall j | 0 <= j < |spans| && Covers(spans[j], t)
      ensures j == i
    {
      if i < j { LaterSpans(spans, start, end, i, j); }
      if j < i { LaterSpans(spans, start, end, j, i); }
    }
  }

  lemma NoGridInGap(spans: seq<Span>, start: int, end: int, i: nat, t: int)
    requires Tiles(spans, start, end) && OnGrid(start) && i < |spans|
    requires OnGrid(t) && t < end && t < spans[i].to + STEP
    ensures t <= spans[i].to
  {
    assert Cut(spans[i], end);
    SpansOnGrid(spans, start, end, i);
    GridStep(spans[i].from, spans[i].days, end);
    var next := spans[i].to + STEP;
    assert OnGrid(next) ==> (next - t) % STEP == 0;
  }

  lemma {:induction false} FindSpan(spans: seq<Span>, start: int, end: int, t: int, n: nat) returns (i: nat)
    requires Tiles(spans, start, end) && OnGrid(start) && OnGrid(t) && start <= t
    requires 0 < n <= |spans| && t < spans[n - 1].to + STEP && t < end
    ensures i < n && Covers(spans[i], t)
    decreases n
  {
    if spans[n - 1].from <= t {
      i := n - 1;
      NoGridInGap(spans, start, end, i, t);
    } else {
      assert n > 1 && spans[n - 1].from == spans[n - 2].to + STEP;
      i := FindSpan(spans, start, end, t, n - 1);
    }
  }

  /** A run of two or more chunks tiles the grid exactly when it starts on the grid: otherwise each
      step between chunks jumps over one grid instant. */
  lemma TilingNeedsGrid(spans: seq<Span>, start: int, end: int)
    requires Tiles(spans, start, end) && end <= NextStart(spans, start) && |spans| >= 2
    ensures OnGrid(start) <==>
      forall t :: OnGrid(t) && start <= t < end ==> exists i :: 0 <= i < |spans| && Covers(spans[i], t)
  {
    if OnGrid(start) {
      forall t | OnGrid(t) && start <= t < end
        ensures exists i :: 0 <= i < |spans| && Covers(spans[i], t)
      {
        var i := Tiling(spans, start, end, t);
      }
    } else {
      var a := spans[0];
      LaterSpans(spans, start, end, 0, 1);
      assert a.from == start && Cut(a, end) && Cut(spans[1], end) && spans[1].from == a.to + STEP;
      var t := (a.to / STEP + 1) * STEP;
      assert a.to % STEP == start % STEP by { assert a.to == start + STEP * (288 * a.days); }
      assert a.to < t < a.to + STEP && OnGrid(t) && start <= t < end;
      forall i | 0 <= i < |spans|
        ensures !Covers(spans[i], t)
      {
        if i > 1 { LaterSpans(spans, start, end, 1, i); }
      }
    }
  }

  /** Every chunk but the last spans at least a day, so a walk attempts a bounded number of chunks. */
  lemma {:induction false} SpanAt(spans: seq<Span>, start: int, end: int, i: nat)
    requires Tiles(spans, start, end) && i < |spans|
    ensures start + i * (DAY + STEP) <= spans[i].from < end
    decreases i
  {
    assert Cut(spans[i], end);
    if i > 0 {
      SpanAt(spans, start, end, i - 1);
      LaterSpans(spans, start, end, i - 1, i);
      assert Cut(spans[i - 1], end) && spans[i].from == spans[i - 1].to + STEP;
    }
  }

  lemma WalkBound(spans: seq<Span>, start: int, end: int, halvings: nat, tries: nat)
    requires Tiles(spans, start, end) && start <= end && halvings <= 4 && tries <= |spans| + halvings + 1
    ensures tries <= (end - start) / (DAY + STEP) + 6
  {
    if spans != [] { SpanAt(spans, start, end, |spans| - 1); }
  }

  // ---------------------------------------------------------------- resuming

  /** The cache holds exactly the parseable server bars with origin <= time < f. */
  ghost predicate HoldsTo(rows: seq<Row>, origin: int, log: seq<Bar>, f: int)
    requires Series(rows)
  {
    origin <= f && log == BarsIn(rows, origin, f)
  }

  ghost predicate Aligned(origin: int, start: int) {
    OnGrid(start) && origin <= start
  }

  /** An aligned start that skips no parseable bar: at the resume point, anywhere before it, or after it
      over an empty stretch. */
  ghost predicate SoundStart(rows: seq<Row>, origin: int, log: seq<Bar>, start: int)
    requires Series(rows)
  {
    var resume := ResumeFrom(LastKey(log), origin);
    Aligned(origin, start) && (resume < start ==> BarsIn(rows, resume, start) == [])
  }

  /** Nothing lies between what is cached and the resume point, and resuming there is sound. */
  lemma ResumePoint(rows: seq<Row>, origin: int, log: seq<Bar>, f: int)
    requires Series(rows) && OnGrid(origin) && HoldsTo(rows, origin, log, f)
    ensures HoldsTo(rows, origin, log, Max(f, ResumeFrom(LastKey(log), origin)))
    ensures SoundStart(rows, origin, log, ResumeFrom(LastKey(log), origin))
  {
    hide BarsIn, InRange, Key, ParseKey;
    if log != [] {
      BarsOrdered(rows, origin, f);
      assert LastKey(log) in Keys(log);
      var t := KeyTime(rows, origin, f, LastKey(log));
      KeyRoundTrip(t, LastKey(log));
      assert ResumeFrom(LastKey(log), origin) == t + STEP;
      if f < t + STEP {
        forall u | f <= u < t + STEP
          ensures !OnGrid(u)
        {
          assert 0 < u - t < STEP;
        }
        NothingBetween(rows, f, t + STEP);
        WindowSplit(rows, origin, f, t + STEP);
        assert log + [] == log;
      }
    }
  }

  /** What is cached ends at the resume point. */
  lemma EndsAtResume(rows: seq<Row>, origin: int, log: seq<Bar>, f: int)
    requires Series(rows) && OnGrid(origin) && HoldsTo(rows, origin, log, f)
    ensures HoldsTo(rows, origin, log, ResumeFrom(LastKey(log), origin))
  {
    hide BarsIn, InRange, Key, ParseKey, OnGrid, ResumeFrom, LastKey;
    var resume := ResumeFrom(LastKey(log), origin);
    ResumePoint(rows, origin, log, f);
    if resume < f {
      WindowSplit(rows, origin, resume, f);
      var rest := BarsIn(rows, resume, f);
      if rest != [] { LastInRest(rows, origin, log, resume, f); }
      assert BarsIn(rows, origin, resume) + [] == BarsIn(rows, origin, resume);
    }
  }

  lemma LastInRest(rows: seq<Row>, origin: int, log: seq<Bar>, from: int, f: int)
    requires Series(rows) && OnGrid(origin) && origin <= from <= f
    requires log == BarsIn(rows, origin, from) + BarsIn(rows, from, f) && BarsIn(rows, from, f) != []
    ensures from < ResumeFrom(LastKey(log), origin)
  {
    hide BarsIn, InRange, Key, ParseKey;
    var rest := BarsIn(rows, from, f);
    assert log[|log| - 1] == rest[|rest| - 1];
    assert LastKey(log) in Keys(rest);
    var t := KeyTime(rows, from, f, LastKey(log));
    KeyRoundTrip(t, LastKey(log));
  }

  /** A sound start lies in what is cached, as far as bars go. */
  lemma HoldsToStart(rows: seq<Row>, origin: int, log: seq<Bar>, f: int, start: int)
    requires Series(rows) && OnGrid(origin) && HoldsTo(rows, origin, log, f) && SoundStart(rows, origin, log, start)
    ensures HoldsTo(rows, origin, log, Max(Max(f, ResumeFrom(LastKey(log), origin)), start))
  {
    hide BarsIn, ResumeFrom, OnGrid;
    var resume := ResumeFrom(LastKey(log), origin);
    ResumePoint(rows, origin, log, f);
    if Max(f, resume) < start {
      WindowSplit(rows, resume, Max(f, resume), start);
      WindowSplit(rows, origin, Max(f, resume), start);
      assert BarsIn(rows, Max(f, resume), start) == [];
      assert log + [] == log;
    }
  }

  /** One run turns a prefix into a prefix; `f'` is where the new one ends. */
  lemma RunKeepsPrefix(rows: seq<Row>, origin: int, r: RunRecord, f: int) returns (f': int)
    requires Series(rows) && OnGrid(origin) && HoldsTo(rows, origin, r.before, f)
    requires RunContract(rows, r) && SoundStart(rows, origin, r.before, r.start)
    ensures HoldsTo(rows, origin, r.after, f')
    ensures f' == Max(Max(f, ResumeFrom(LastKey(r.before), origin)), r.reach)
  {
    hide BarsIn, Tiles, Extends, ResumeFrom;
    HoldsToStart(rows, origin, r.before, f, r.start);
    var g := Max(Max(f, ResumeFrom(LastKey(r.before), origin)), r.start);
    f' := Max(g, r.reach);
    ReachAfterStart(rows, r);
    AppendToPrefix(rows, origin, g, r.start, r.reach);
    ExtendsUnique(r.before, BarsIn(rows, r.start, r.reach), r.after, BarsIn(rows, origin, f'));
  }

  /** A run that was stopped resumes before the end instant of the next poll at the latest. */
  lemma ResumesBelow(rows: seq<Row>, origin: int, r: RunRecord)
    requires Series(rows) && RunContract(rows, r) && !r.walk.Complete?
    ensures
      ResumeFrom(LastKey(r.after), origin) <
      Max(ResumeFrom(LastKey(r.before), origin) + 1, Max(r.start, r.end) + STEP)
  {
    hide Tiles, AllTook, Extends, BarsIn, Ordered, InRange, Key, ParseKey;
    if |r.after| > |r.before| {
      var b := r.after[|r.after| - 1];
      var bars := BarsIn(rows, r.start, r.reach);
      var i :| 0 <= i < |bars| && bars[i] == b;
      assert b.t in Keys(bars);
      var t := KeyTime(rows, r.start, r.reach, b.t);
      KeyRoundTrip(t, b.t);
    }
  }

  lemma ReachAfterStart(rows: seq<Row>, r: RunRecord)
    requires Series(rows) && RunContract(rows, r)
    ensures r.start <= r.reach
  {
    if r.spans != [] { LastSpanFrom(r.spans, r.start, r.end); }
  }

  lemma LastSpanFrom(spans: seq<Span>, start: int, end: int)
    requires Tiles(spans, start, end) && spans != []
    ensures start <= spans[|spans| - 1].from <= spans[|spans| - 1].to <= end
  {
    SpanAt(spans, start, end, |spans| - 1);
    assert Cut(spans[|spans| - 1], end);
  }

  // ---------------------------------------------------------------- histories

  /** No run of the history met the guard of the overwrite. */
  predicate Untouched(runs: seq<RunRecord>) {
    forall i :: 0 <= i < |runs| ==> !Replaced(runs[i])
  }

  /** The run started past the resume point, over parseable bars, and cached a later one. */
  ghost predicate Jumps(rows: seq<Row>, origin: int, r: RunRecord)
    requires Series(rows)
  {
    var resume := ResumeFrom(LastKey(r.before), origin);
    resume < r.start && BarsIn(rows, resume, r.start) != [] && BarsIn(rows, r.start, r.reach) != []
  }

  ghost predicate NoJump(rows: seq<Row>, origin: int, runs: seq<RunRecord>)
    requires Series(rows)
  {
    forall i :: 0 <= i < |runs| ==> !Jumps(rows, origin, runs[i])
  }

  ghost predicate IsPrefix(rows: seq<Row>, origin: int, log: seq<Bar>)
    requires Series(rows)
  {
    exists f :: HoldsTo(rows, origin, log, f)
  }

  /** The lines of the file that hold no bar, after a walk and as the run leaves it. */
  function Unread(r: RunRecord): int {
    r.lines - |r.after|
  }

  function UnreadLeft(r: RunRecord): int {
    if Replaced(r) then 0 else Unread(r)
  }

  /** Runs one after another on one cache that began as `first`, whatever that is.  From a prefix of the
      server's series each may start at any aligned instant from `origin` on; from any other file,
      anywhere. */
  ghost predicate History(rows: seq<Row>, origin: int, first: seq<Bar>, runs: seq<RunRecord>)
    requires Series(rows)
  {
    && (runs != [] ==> runs[0].before == first)
    && (forall i, j :: 0 <= i && j == i + 1 && j < |runs| ==> TakesUp(runs[i], runs[j]))
    && (forall i :: 0 <= i < |runs| ==> Turn(rows, origin, runs[i]))
  }

  /** Run s finds the file as run r left it. */
  predicate TakesUp(r: RunRecord, s: RunRecord) {
    s.before == r.left && Unread(s) == UnreadLeft(r)
  }

  ghost predicate Turn(rows: seq<Row>, origin: int, r: RunRecord)
    requires Series(rows)
  {
    RunContract(rows, r) && Leaves(r) && (IsPrefix(rows, origin, r.before) ==> Aligned(origin, r.start))
  }

  /** No run skips a parseable bar, as far as the cache is the server's. */
  ghost predicate Sound(rows: seq<Row>, origin: int, runs: seq<RunRecord>)
    requires Series(rows)
  {
    forall i :: 0 <= i < |runs| ==> SoundTurn(rows, origin, runs[i])
  }

  ghost predicate SoundTurn(rows: seq<Row>, origin: int, r: RunRecord)
    requires Series(rows)
  {
    IsPrefix(rows, origin, r.before) ==> SoundStart(rows, origin, r.before, r.start)
  }

  function CacheAfter(first: seq<Bar>, runs: seq<RunRecord>): seq<Bar> {
    if runs == [] then first else runs[|runs| - 1].left
  }

  ghost predicate EndsBy(runs: seq<RunRecord>, until: int) {
    forall i :: 0 <= i < |runs| ==> runs[i].end <= until
  }

  /** The last chunk of a finished run ended at `until` itself. */
  ghost predicate ReachedEnd(r: RunRecord, until: int) {
    r.walk.Complete? && r.spans != [] && r.spans[|r.spans| - 1].to == until
  }

  ghost predicate TookEndBar(runs: seq<RunRecord>, until: int) {
    exists i :: 0 <= i < |runs| && ReachedEnd(runs[i], until)
  }

  lemma HistoryPrefix(rows: seq<Row>, origin: int, first: seq<Bar>, runs: seq<RunRecord>)
    requires Series(rows) && History(rows, origin, first, runs) && runs != []
    ensures History(rows, origin, first, runs[..|runs| - 1]) && Turn(rows, origin, runs[|runs| - 1])
    ensures runs[|runs| - 1].before == CacheAfter(first, runs[..|runs| - 1])
  {
    hide Turn;
    var n := |runs| - 1;
    if n > 0 { assert TakesUp(runs[n - 1], runs[n]); }
  }

  /** What is said of all runs is said of all but the last, and of the last. */
  lemma AllButLast(rows: seq<Row>, origin: int, runs: seq<RunRecord>)
    requires Series(rows) && runs != []
    ensures Untouched(runs) <==> Untouched(runs[..|runs| - 1]) && !Replaced(runs[|runs| - 1])
    ensures NoJump(rows, origin, runs) <==>
      NoJump(rows, origin, runs[..|runs| - 1]) && !Jumps(rows, origin, runs[|runs| - 1])
    ensures Sound(rows, origin, runs) ==>
      Sound(rows, origin, runs[..|runs| - 1]) && SoundTurn(rows, origin, runs[|runs| - 1])
  {
    hide Replaced, Jumps, SoundTurn;
    var n := |runs| - 1;
    assert runs == runs[..n] + [runs[n]];
  }

  lemma HistoryGrows(rows: seq<Row>, origin: int, first: seq<Bar>, runs: seq<RunRecord>, r: RunRecord)
    requires Series(rows) && History(rows, origin, first, runs) && Turn(rows, origin, r)
    requires r.before == CacheAfter(first, runs)
    requires runs != [] ==> Unread(r) == UnreadLeft(runs[|runs| - 1])
    ensures History(rows, origin, first, runs + [r]) && CacheAfter(first, runs + [r]) == r.left
  {
    hide Turn, Unread, UnreadLeft;
  }

  lemma NothingHeld(rows: seq<Row>, origin: int)
    requires Series(rows)
    ensures HoldsTo(rows, origin, [], origin)
  {
    NothingBetween(rows, origin, origin);
  }

  lemma ServerBarsAreIG(rows: seq<Row>, from: int, until: int, b: Bar)
    requires Series(rows) && b in BarsIn(rows, from, until)
    ensures b.source == IG
  {
    hide InRange, OnGrid, BarsIn, Key;
    BarTime(rows, from, until, b);
  }

  /** A file that begins with Yahoo bars is no part of the server's series. */
  lemma SeededIsForeign(rows: seq<Row>, from: int, until: int, log: seq<Bar>)
    requires Series(rows) && Seeded(log)
    ensures !(log <= BarsIn(rows, from, until))
  {
    hide InRange, OnGrid, BarsIn;
    if log <= BarsIn(rows, from, until) {
      assert log[0] == BarsIn(rows, from, until)[0];
      ServerBarsAreIG(rows, from, until, log[0]);
    }
  }

  lemma ContractGrows(rows: seq<Row>, r: RunRecord)
    requires Series(rows) && RunContract(rows, r)
    ensures r.before <= r.after && Ordered(r.after)
  {
    hide Tiles, AllTook, Extends, BarsIn, OnGrid, Ordered;
  }

  // ---------------------------------------------------------------- starts past the resume point

  /** A run from an aligned start at or past the resume point appends the bars of its window. */
  lemma LateRun(rows: seq<Row>, origin: int, r: RunRecord, f: int)
    requires Series(rows) && OnGrid(origin) && HoldsTo(rows, origin, r.before, f) && RunContract(rows, r)
    requires Aligned(origin, r.start) && ResumeFrom(LastKey(r.before), origin) <= r.start
    ensures r.after == r.before + BarsIn(rows, r.start, r.reach)
  {
    hide BarsIn, Tiles, Extends, ResumeFrom, OnGrid;
    var resume := ResumeFrom(LastKey(r.before), origin);
    EndsAtResume(rows, origin, r.before, f);
    ReachAfterStart(rows, r);
    AppendPast(rows, origin, resume, r.start, r.reach);
    ExtendsUnique(r.before, BarsIn(rows, r.start, r.reach), r.after, r.before + BarsIn(rows, r.start, r.reach));
  }

  lemma AppendPast(rows: seq<Row>, origin: int, f: int, a: int, e: int)
    requires Series(rows) && origin <= f <= a <= e
    ensures Extends(BarsIn(rows, origin, f), BarsIn(rows, a, e), BarsIn(rows, origin, f) + BarsIn(rows, a, e))
  {
    hide BarsIn, InRange, OnGrid, Less, Keys, LastKey, FirstWith, Ordered;
    var log, bars := BarsIn(rows, origin, f), BarsIn(rows, a, e);
    BarsOrdered(rows, origin, f);
    BarsOrdered(rows, a, e);
    KeysConcat(log, bars);
    OrderedPast(rows, origin, f, a, e);
    forall i | |log| <= i < |log + bars|
      ensures Brings(bars, LastKey(log), (log + bars)[i])
    {
      FirstOfOrdered(bars, i - |log|);
      AllPast(rows, origin, f, a, e, i - |log|);
    }
  }

  lemma AllPast(rows: seq<Row>, origin: int, f: int, a: int, e: int, i: nat)
    requires Series(rows) && origin <= f <= a <= e && i < |BarsIn(rows, a, e)|
    ensures Less(LastKey(BarsIn(rows, origin, f)), BarsIn(rows, a, e)[i].t)
  {
    hide BarsIn, InRange, OnGrid, Less, Key;
    var log, k := BarsIn(rows, origin, f), BarsIn(rows, a, e)[i].t;
    var u := KeyTime(rows, a, e, k);
    EmptyIsBottom(k);
    if log != [] { WindowKeyBelow(rows, origin, f, LastKey(log), u) by { LastIsKey(log); } }
  }

  lemma LastIsKey(log: seq<Bar>)
    requires log != []
    ensures LastKey(log) in Keys(log)
  {
  }

  lemma OrderedPast(rows: seq<Row>, origin: int, f: int, a: int, e: int)
    requires Series(rows) && origin <= f <= a <= e
    ensures Ordered(BarsIn(rows, origin, f) + BarsIn(rows, a, e))
  {
    hide BarsIn, InRange, OnGrid, Less;
    var log, bars := BarsIn(rows, origin, f), BarsIn(rows, a, e);
    BarsOrdered(rows, origin, f);
    BarsOrdered(rows, a, e);
    forall i, j | 0 <= i < |log| && 0 <= j < |bars|
      ensures Less(log[i].t, bars[j].t)
    {
      AllPast(rows, origin, f, a, e, j);
      if i < |log| - 1 { LessTransitive(log[i].t, LastKey(log), bars[j].t); }
    }
  }

  /** A parseable server bar from `origin` on is missing although a later one is cached. */
  ghost predicate Hole(rows: seq<Row>, origin: int, log: seq<Bar>)
    requires Series(rows)
  {
    exists k :: HoleAt(rows, origin, log, k)
  }

  ghost predicate HoleAt(rows: seq<Row>, origin: int, log: seq<Bar>, k: string)
    requires Series(rows)
  {
    k in Keys(BarsIn(rows, origin, END_INSTANT)) && Less(k, LastKey(log)) && k !in Keys(log)
  }

  /** A file with a hole is no prefix of the server's series. */
  lemma HoleIsForeign(rows: seq<Row>, origin: int, log: seq<Bar>, until: int)
    requires Series(rows) && Hole(rows, origin, log)
    ensures !(log <= BarsIn(rows, origin, until))
  {
    hide BarsIn, InRange, OnGrid, Less, Key;
    var k :| HoleAt(rows, origin, log, k);
    if log <= BarsIn(rows, origin, until) {
      HoleIsCached(rows, origin, log, until, k);
    }
  }

  lemma HoleIsCached(rows: seq<Row>, origin: int, log: seq<Bar>, until: int, k: string)
    requires Series(rows) && k in Keys(BarsIn(rows, origin, END_INSTANT)) && Less(k, LastKey(log))
    requires log <= BarsIn(rows, origin, until)
    ensures k in Keys(log)
  {
    hide BarsIn, InRange, OnGrid, Less, Key;
    var w := BarsIn(rows, origin, until);
    NothingBelow(k);
    assert w[|log| - 1] == log[|log| - 1];
    assert LastKey(log) in Keys(w);
    var u := KeyTime(rows, origin, until, LastKey(log));
    var t := KeyTime(rows, origin, END_INSTANT, k);
    KeyOrder(t, u);
    KeyInPart(rows, origin, END_INSTANT, origin, until, k, t);
    var i :| 0 <= i < |w| && w[i].t == k;
    BarsOrdered(rows, origin, until);
    if i >= |log| {
      Above(w, |log| - 1, i);
      NotBoth(k, LastKey(log));
    } else {
      assert log[i].t == k;
    }
  }

  lemma NothingBelow(k: string)
    ensures !Less(k, LastKey([]))
  {
  }

  lemma Above(log: seq<Bar>, i: nat, j: nat)
    requires Ordered(log) && i <= j < |log|
    ensures Less(log[i].t, log[j].t) || log[i].t == log[j].t
  {
  }

  lemma TurnGrows(rows: seq<Row>, origin: int, r: RunRecord)
    requires Series(rows) && Turn(rows, origin, r)
    ensures r.before <= r.after && Ordered(r.after) && (!Replaced(r) ==> r.left == r.after)
  {
    hide RunContract, IsPrefix, Aligned, Replaced, Ordered;
    ContractGrows(rows, r);
  }

  /** A missing key below the last cached one is never filled in by appends. */
  lemma MissingStays(before: seq<Bar>, after: seq<Bar>, k: string)
    requires before <= after && Ordered(after) && Less(k, LastKey(before)) && k !in Keys(before)
    ensures Less(k, LastKey(after)) && k !in Keys(after)
  {
    hide Less;
    NothingBelow(k);
    var n := |before| - 1;
    assert before[n] == after[n];
    Above(after, n, |after| - 1);
    if after[n].t != LastKey(after) { LessTransitive(k, after[n].t, LastKey(after)); }
    forall j | 0 <= j < |after|
      ensures after[j].t != k
    {
      if j <= n {
        assert after[j] == before[j];
      } else {
        Above(after, n, j);
        NotBoth(k, after[n].t);
      }
    }
  }

  /** ... by any run of any untouched history. */
  lemma {:induction false} MissingForEver(
    rows: seq<Row>, origin: int, first: seq<Bar>, runs: seq<RunRecord>, k: string)
    requires Series(rows) && History(rows, origin, first, runs) && Untouched(runs)
    requires Less(k, LastKey(first)) && k !in Keys(first)
    ensures Less(k, LastKey(CacheAfter(first, runs))) && k !in Keys(CacheAfter(first, runs))
    decreases |runs|
  {
    hide Turn, Ordered, Less, Keys, LastKey, Replaced, History, Untouched;
    if runs != [] {
      var n := |runs| - 1;
      HistoryPrefix(rows, origin, first, runs);
      AllButLast(rows, origin, runs);
      MissingForEver(rows, origin, first, runs[..n], k);
      TurnGrows(rows, origin, runs[n]);
      MissingStays(runs[n].before, runs[n].after, k);
    }
  }

  /** A jump leaves a hole. */
  lemma JumpLeavesHole(rows: seq<Row>, origin: int, r: RunRecord, f: int)
    requires Series(rows) && OnGrid(origin) && HoldsTo(rows, origin, r.before, f) && RunContract(rows, r)
    requires Aligned(origin, r.start) && Jumps(rows, origin, r)
    ensures Hole(rows, origin, r.after)
  {
    hide BarsIn, ResumeFrom, OnGrid, RunContract, Keys, Less;
    var resume := ResumeFrom(LastKey(r.before), origin);
    EndsAtResume(rows, origin, r.before, f);
    LateRun(rows, origin, r, f);
    SkippedIsMissing(rows, origin, resume, r.start, r.reach, r.after);
  }

  lemma SkippedIsMissing(rows: seq<Row>, origin: int, f: int, a: int, e: int, log: seq<Bar>)
    requires Series(rows) && origin <= f <= a && BarsIn(rows, f, a) != [] && BarsIn(rows, a, e) != []
    requires log == BarsIn(rows, origin, f) + BarsIn(rows, a, e)
    ensures Hole(rows, origin, log)
  {
    hide BarsIn, InRange, OnGrid, Less, Key;
    var skipped, later := BarsIn(rows, f, a), BarsIn(rows, a, e);
    var k := skipped[0].t;
    var t := KeyTime(rows, f, a, k);
    assert log[|log| - 1] == later[|later| - 1];
    assert LastKey(log) in Keys(later);
    var u := KeyTime(rows, a, e, LastKey(log));
    KeyOrder(t, u);
    UptoEnd(rows, origin, f, a, k);
    if k in Keys(log) {
      KeysConcat(BarsIn(rows, origin, f), later);
      if k in Keys(later) {
        var v := KeyTime(rows, a, e, k);
        KeyOrder(t, v);
      } else {
        var v := KeyTime(rows, origin, f, k);
        KeyOrder(t, v);
      }
    }
    assert HoleAt(rows, origin, log, k);
  }

  lemma UptoEnd(rows: seq<Row>, origin: int, f: int, a: int, k: string)
    requires Series(rows) && origin <= f && k in Keys(BarsIn(rows, f, a))
    ensures k in Keys(BarsIn(rows, origin, END_INSTANT))
  {
    hide BarsIn, OnGrid, ParsedFrom;
    var b := FirstWith(BarsIn(rows, f, a), k);
    BarTime(rows, f, a, b);
    BarTime(rows, origin, END_INSTANT, b);
  }

  /** The walk of one run from a prefix and an aligned start, early or late, leaves a prefix exactly when it
      does not jump. */
  lemma WalkKeepsPrefixIff(rows: seq<Row>, origin: int, r: RunRecord, f: int)
    requires Series(rows) && OnGrid(origin) && HoldsTo(rows, origin, r.before, f)
    requires RunContract(rows, r) && Aligned(origin, r.start)
    ensures IsPrefix(rows, origin, r.after) <==> !Jumps(rows, origin, r)
  {
    hide RunContract, BarsIn, ResumeFrom, OnGrid, Hole;
    if Jumps(rows, origin, r) {
      JumpLeavesHole(rows, origin, r, f);
      forall x
        ensures !HoldsTo(rows, origin, r.after, x)
      {
        HoleIsForeign(rows, origin, r.after, x);
      }
    } else if SoundStart(rows, origin, r.before, r.start) {
      var f' := RunKeepsPrefix(rows, origin, r, f);
    } else {
      LateRun(rows, origin, r, f);
      assert r.before + [] == r.before;
    }
  }

  // ---------------------------------------------------------------- what a history keeps

  /** One more run keeps a prefix a prefix unless it jumps; `f` is at least its reach when it skips nothing. */
  lemma TurnKeeps(rows: seq<Row>, origin: int, r: RunRecord, g: int) returns (f: int)
    requires Series(rows) && OnGrid(origin) && Turn(rows, origin, r)
    requires HoldsTo(rows, origin, r.before, g)
    ensures Aligned(origin, r.start)
    ensures Jumps(rows, origin, r) ==> Hole(rows, origin, r.after)
    ensures !Jumps(rows, origin, r) ==> HoldsTo(rows, origin, r.after, f) && g <= f
    ensures SoundTurn(rows, origin, r) ==> !Jumps(rows, origin, r) && r.reach <= f
  {
    hide RunContract, BarsIn, ResumeFrom, Leaves, HoldsTo, Hole, OnGrid;
    assert IsPrefix(rows, origin, r.before);
    f := g;
    if SoundStart(rows, origin, r.before, r.start) {
      f := RunKeepsPrefix(rows, origin, r, g);
    } else {
      LateRun(rows, origin, r, g);
      if Jumps(rows, origin, r) {
        JumpLeavesHole(rows, origin, r, g);
      } else {
        assert r.before + [] == r.before;
      }
    }
  }

  /** A file of a hundred lines is never replaced. */
  lemma TurnStaysLong(rows: seq<Row>, origin: int, r: RunRecord)
    requires Series(rows) && Turn(rows, origin, r) && |r.before| + Unread(r) >= MIN_BARS
    ensures !Replaced(r) && |r.left| + Unread(r) >= MIN_BARS && (Seeded(r.before) ==> Seeded(r.left))
  {
    hide RunContract, Aligned, IsPrefix;
    ContractGrows(rows, r);
  }

  /** Only a Yahoo seed takes lines away, and a file it wrote begins with its bars for ever. */
  lemma {:induction false} SeededForEver(rows: seq<Row>, origin: int, first: seq<Bar>, runs: seq<RunRecord>)
    requires Series(rows) && History(rows, origin, first, runs)
    ensures Untouched(runs) ==> first <= CacheAfter(first, runs)
    ensures !Untouched(runs) ==> Seeded(CacheAfter(first, runs))
    decreases |runs|
  {
    hide RunContract, IsPrefix, Aligned, Seeded, Ordered, Replaced;
    if runs != [] {
      var n, most := |runs| - 1, runs[..|runs| - 1];
      HistoryPrefix(rows, origin, first, runs);
      AllButLast(rows, origin, runs);
      SeededForEver(rows, origin, first, most);
      ContractGrows(rows, runs[n]);
      ReplacedIff(runs[n]);
      if !Untouched(most) {
        SeededIsLong(runs[n].before);
        TurnStaysLong(rows, origin, runs[n]);
      }
    }
  }

  /** Main result.  Over every history, whatever kills, blocks, throttles and step-downs: as long as no run
      met the guard of the overwrite and none jumped over a bar, the cache is the parseable server bars
      from `origin` up to some instant; after an overwrite the file begins with Yahoo bars for ever, and
      after a jump it has a hole for ever. */
  lemma {:induction false} ResumeKeepsPrefix(
    rows: seq<Row>, origin: int, first: seq<Bar>, held: int, runs: seq<RunRecord>) returns (f: int)
    requires Series(rows) && OnGrid(origin) && HoldsTo(rows, origin, first, held)
    requires History(rows, origin, first, runs)
    ensures Untouched(runs) && NoJump(rows, origin, runs) ==>
      held <= f && HoldsTo(rows, origin, CacheAfter(first, runs), f) && first <= CacheAfter(first, runs)
    ensures Untouched(runs) && Sound(rows, origin, runs) ==>
      NoJump(rows, origin, runs) && forall i :: 0 <= i < |runs| ==> runs[i].reach <= f
    ensures !Untouched(runs) ==> Seeded(CacheAfter(first, runs))
    ensures Untouched(runs) && !NoJump(rows, origin, runs) ==> Hole(rows, origin, CacheAfter(first, runs))
    decreases |runs|
  {
    hide Turn, BarsIn, ResumeFrom, HoldsTo, Seeded, Jumps, Hole, SoundTurn, Replaced;
    f := held;
    SeededForEver(rows, origin, first, runs);
    if runs != [] {
      var n, most := |runs| - 1, runs[..|runs| - 1];
      HistoryPrefix(rows, origin, first, runs);
      AllButLast(rows, origin, runs);
      var g := ResumeKeepsPrefix(rows, origin, first, held, most);
      TurnGrows(rows, origin, runs[n]);
      if Untouched(most) && NoJump(rows, origin, most) {
        assert forall i :: 0 <= i < n ==> runs[i] == most[i];
        f := TurnKeeps(rows, origin, runs[n], g);
      } else if Untouched(runs) {
        HoleStays(rows, origin, runs[n]);
      }
    }
  }

  lemma HoleStays(rows: seq<Row>, origin: int, r: RunRecord)
    requires Series(rows) && Turn(rows, origin, r) && Hole(rows, origin, r.before)
    ensures Hole(rows, origin, r.after)
  {
    hide RunContract, Leaves, Aligned, BarsIn, Ordered, Less, Keys, LastKey;
    ContractGrows(rows, r);
    var k :| HoleAt(rows, origin, r.before, k);
    MissingStays(r.before, r.after, k);
    assert HoleAt(rows, origin, r.after, k);
  }

  lemma SeededIsLong(log: seq<Bar>)
    requires Seeded(log)
    ensures |log| >= MIN_BARS
  {
  }

  /** So the cache is a prefix of the server's series exactly when no run of the history met the guard of
      the overwrite and none jumped over a bar. */
  lemma PrefixIff(rows: seq<Row>, origin: int, runs: seq<RunRecord>)
    requires Series(rows) && OnGrid(origin) && History(rows, origin, [], runs)
    ensures IsPrefix(rows, origin, CacheAfter([], runs)) <==> Untouched(runs) && NoJump(rows, origin, runs)
  {
    hide History, BarsIn, Seeded, Untouched, NoJump, Hole;
    NothingHeld(rows, origin);
    var f := ResumeKeepsPrefix(rows, origin, [], origin, runs);
    if !(Untouched(runs) && NoJump(rows, origin, runs)) {
      forall x
        ensures !HoldsTo(rows, origin, CacheAfter([], runs), x)
      {
        if Untouched(runs) {
          HoleIsForeign(rows, origin, CacheAfter([], runs), x);
        } else {
          SeededIsForeign(rows, origin, x, CacheAfter([], runs));
        }
      }
    }
  }

  /** A file of a hundred lines is never replaced, so over a whole history at most one run replaces it. */
  lemma {:induction false} LongIsKept(rows: seq<Row>, origin: int, first: seq<Bar>, runs: seq<RunRecord>)
    requires Series(rows) && History(rows, origin, first, runs) && runs != []
    requires |first| + Unread(runs[0]) >= MIN_BARS
    ensures Untouched(runs) && |CacheAfter(first, runs)| + UnreadLeft(runs[|runs| - 1]) >= MIN_BARS
    decreases |runs|
  {
    hide Turn, Replaced, Unread;
    var n := |runs| - 1;
    HistoryPrefix(rows, origin, first, runs);
    AllButLast(rows, origin, runs);
    if n > 0 {
      LongIsKept(rows, origin, first, runs[..n]);
      assert TakesUp(runs[n - 1], runs[n]);
    }
    TurnStaysLong(rows, origin, runs[n]);
  }

  lemma HistoryRest(rows: seq<Row>, origin: int, first: seq<Bar>, runs: seq<RunRecord>, i: nat)
    requires Series(rows) && History(rows, origin, first, runs) && i < |runs|
    ensures History(rows, origin, runs[i].left, runs[i + 1..])
    ensures i + 1 < |runs| ==> TakesUp(runs[i], runs[i + 1])
  {
    hide Turn;
    if i + 1 < |runs| { assert TakesUp(runs[i], runs[i + 1]); }
  }

  lemma ReplacedOnce(rows: seq<Row>, origin: int, first: seq<Bar>, runs: seq<RunRecord>, i: nat, j: nat)
    requires Series(rows) && History(rows, origin, first, runs) && i < j < |runs| && Replaced(runs[i])
    ensures !Replaced(runs[j]) && |runs[i].after| < MIN_BARS
  {
    hide RunContract, Aligned, IsPrefix, Replaced, Ordered;
    assert Turn(rows, origin, runs[i]);
    ReplacedIff(runs[i]);
    HistoryRest(rows, origin, first, runs, i);
    LongIsKept(rows, origin, runs[i].left, runs[i + 1..]);
    assert runs[j] == runs[i + 1..][j - i - 1];
  }

  // ---------------------------------------------------------------- where histories end

  /** Appends stay below the end instant of the run, or reach just past it in a last chunk that ends there. */
  lemma ReachByEnd(rows: seq<Row>, r: RunRecord)
    requires Series(rows) && RunContract(rows, r) && OnGrid(r.start)
    ensures r.reach <= Max(r.start, r.end) || (ReachedEnd(r, r.end) && r.reach == r.end + 1)
    ensures forall u :: ReachedEnd(r, u) ==> u <= r.end && r.reach == u + 1
  {
    hide Extends, BarsIn, Grows, AllTook, OnGrid;
    if r.spans != [] { LastSpanFrom(r.spans, r.start, r.end); }
  }

  /** A history without overwrite or jump that ends by `until` caches no bar from after `until`, and the bar
      at `until` itself only by a run whose last chunk reached it. */
  lemma {:induction false} NothingAfterEnd(rows: seq<Row>, origin: int, runs: seq<RunRecord>, until: int)
    requires Series(rows) && OnGrid(origin) && History(rows, origin, [], runs)
    requires EndsBy(runs, until) && origin <= until
    ensures CacheAfter([], runs) <= BarsIn(rows, origin, Top(TookEndBar(runs, until), until)) <==>
      Untouched(runs) && NoJump(rows, origin, runs)
    decreases |runs|
  {
    hide Turn, BarsIn, TookEndBar, Seeded, HoldsTo, Replaced, SoundTurn, Jumps, Hole;
    NothingHeld(rows, origin);
    if !Untouched(runs) {
      var f := ResumeKeepsPrefix(rows, origin, [], origin, runs);
      SeededIsForeign(rows, origin, Top(TookEndBar(runs, until), until), CacheAfter([], runs));
    } else if !NoJump(rows, origin, runs) {
      var f := ResumeKeepsPrefix(rows, origin, [], origin, runs);
      HoleIsForeign(rows, origin, CacheAfter([], runs), Top(TookEndBar(runs, until), until));
    } else if runs != [] {
      var n := |runs| - 1;
      var r, most := runs[n], runs[..n];
      HistoryPrefix(rows, origin, [], runs);
      AllButLast(rows, origin, runs);
      NothingAfterEnd(rows, origin, most, until);
      EndBarSpreads(runs, until);
      var g := ResumeKeepsPrefix(rows, origin, [], origin, most);
      OneRunEnd(rows, origin, r, g, until, TookEndBar(most, until));
    }
  }

  function Top(took: bool, until: int): int {
    if took then until + 1 else until
  }

  lemma EndBarSpreads(runs: seq<RunRecord>, until: int)
    requires runs != []
    ensures TookEndBar(runs, until) <==>
      TookEndBar(runs[..|runs| - 1], until) || ReachedEnd(runs[|runs| - 1], until)
  {
    hide ReachedEnd;
    var most := runs[..|runs| - 1];
    if TookEndBar(most, until) {
      var i :| 0 <= i < |most| && ReachedEnd(most[i], until);
      assert ReachedEnd(runs[i], until);
    }
    if TookEndBar(runs, until) {
      var i :| 0 <= i < |runs| && ReachedEnd(runs[i], until);
      if i < |runs| - 1 { assert ReachedEnd(most[i], until); }
    }
  }

  lemma ShorterWindow(rows: seq<Row>, origin: int, a: int, b: int)
    requires Series(rows) && origin <= a <= b
    ensures BarsIn(rows, origin, a) <= BarsIn(rows, origin, b)
  {
    WindowSplit(rows, origin, a, b);
  }

  lemma OneRunEnd(rows: seq<Row>, origin: int, r: RunRecord, g: int, until: int, had: bool)
    requires Series(rows) && OnGrid(origin) && origin <= until && r.end <= until
    requires Turn(rows, origin, r) && !Jumps(rows, origin, r) && !Replaced(r)
    requires HoldsTo(rows, origin, r.before, g) && r.before <= BarsIn(rows, origin, Top(had, until))
    ensures r.left <= BarsIn(rows, origin, Top(had || ReachedEnd(r, until), until))
  {
    hide BarsIn, RunContract, ResumeFrom, ReachedEnd, OnGrid, Replaced;
    assert IsPrefix(rows, origin, r.before);
    var top := Top(had || ReachedEnd(r, until), until);
    if !SoundStart(rows, origin, r.before, r.start) {
      LateRun(rows, origin, r, g);
      assert r.before + [] == r.before;
      ShorterWindow(rows, origin, Top(had, until), top);
      return;
    }
    var f := RunKeepsPrefix(rows, origin, r, g);
    ReachByEnd(rows, r);
    if f <= top {
      ShorterWindow(rows, origin, f, top);
    } else {
      ShorterWindow(rows, origin, Top(had, until), top);
      if r.end <= r.start {
        NotBeyondStart(rows, origin, r);
      } else {
        ResumePoint(rows, origin, r.before, g);
        assert r.reach <= top;
      }
    }
  }

  lemma NoSpans(spans: seq<Span>, start: int, end: int)
    requires Tiles(spans, start, end)
    ensures spans != [] ==> start < end
  {
    if spans != [] { assert Cut(spans[0], end); }
  }

  /** A run that starts at or after its end fetches nothing. */
  lemma NotBeyondStart(rows: seq<Row>, origin: int, r: RunRecord)
    requires Series(rows) && RunContract(rows, r) && OnGrid(r.start)
    ensures r.end <= r.start ==> r.reach == r.start && r.after == r.before
  {
    hide Extends, BarsIn, AllTook;
    if r.end <= r.start {
      NoSpans(r.spans, r.start, r.end);
      StartWindow(rows, r.before, r.start, r.start) by { ContractOrdered(rows, r); }
      ExtendsUnique(r.before, BarsIn(rows, r.start, r.start), r.after, r.before);
    }
  }

  lemma ContractOrdered(rows: seq<Row>, r: RunRecord)
    requires Series(rows) && RunContract(rows, r)
    ensures Ordered(r.before)
  {
    hide Tiles, Extends, BarsIn, AllTook, Less, OnGrid;
    assert forall i :: 0 <= i < |r.before| ==> r.before[i] == r.after[i];
  }

  // ---------------------------------------------------------------- interrupted against uninterrupted

  ghost predicate FinishesAt(runs: seq<RunRecord>, until: int) {
    runs != [] && runs[|runs| - 1].walk.Complete? && runs[|runs| - 1].end == until && EndsBy(runs, until)
  }

  /** A finished run has fetched everything before its end instant. */
  lemma FinishedHoldsAll(rows: seq<Row>, origin: int, r: RunRecord, f: int)
    requires Series(rows) && RunContract(rows, r) && r.walk.Complete?
    requires OnGrid(r.start) && origin <= r.start && origin <= r.end
    requires r.reach <= f && HoldsTo(rows, origin, r.after, f)
    ensures BarsIn(rows, origin, r.end) <= r.after
  {
    hide Extends, BarsIn, Grows, AllTook;
    if r.end <= f {
      ShorterWindow(rows, origin, r.end, f);
    } else {
      var last := r.spans[|r.spans| - 1];
      LastSpanFrom(r.spans, r.start, r.end);
      SpansOnGrid(r.spans, r.start, r.end, |r.spans| - 1);
      assert Cut(last, r.end);
      GridStep(last.from, last.days, r.end);
      SkipTail(rows, origin, last.to, f);
      SkipTail(rows, origin, last.to, r.end);
    }
  }

  /** The run started past the resume point, over a parseable bar from before its end. */
  ghost predicate Skips(rows: seq<Row>, origin: int, r: RunRecord)
    requires Series(rows)
  {
    var resume, to := ResumeFrom(LastKey(r.before), origin), Min(r.start, r.end);
    resume < to && BarsIn(rows, resume, to) != []
  }

  /** No run met the guard of the overwrite or jumped over a bar, and the last one skipped none. */
  ghost predicate Unbroken(rows: seq<Row>, origin: int, runs: seq<RunRecord>)
    requires Series(rows)
  {
    Untouched(runs) && NoJump(rows, origin, runs) && (runs != [] ==> !Skips(rows, origin, runs[|runs| - 1]))
  }

  /** An untouched history of sound starts is unbroken. */
  lemma SoundIsUnbroken(rows: seq<Row>, origin: int, runs: seq<RunRecord>)
    requires Series(rows) && OnGrid(origin) && History(rows, origin, [], runs)
    requires Untouched(runs) && Sound(rows, origin, runs)
    ensures Unbroken(rows, origin, runs)
  {
    hide Turn, BarsIn, HoldsTo, Jumps, ResumeFrom, LastKey, SoundTurn, Replaced;
    NothingHeld(rows, origin);
    var f := ResumeKeepsPrefix(rows, origin, [], origin, runs);
    if runs != [] {
      var n := |runs| - 1;
      HistoryPrefix(rows, origin, [], runs);
      AllButLast(rows, origin, runs);
      var g := ResumeKeepsPrefix(rows, origin, [], origin, runs[..n]);
      SoundNeverSkips(rows, origin, runs[n], g);
    }
  }

  lemma SoundNeverSkips(rows: seq<Row>, origin: int, r: RunRecord, g: int)
    requires Series(rows) && SoundTurn(rows, origin, r) && HoldsTo(rows, origin, r.before, g)
    ensures !Skips(rows, origin, r)
  {
    hide BarsIn, ResumeFrom, LastKey, OnGrid;
    assert IsPrefix(rows, origin, r.before);
    var resume, to := ResumeFrom(LastKey(r.before), origin), Min(r.start, r.end);
    if resume < to { WindowSplit(rows, resume, to, r.start); }
  }

  /** A run that starts past the resume point over a parseable bar, without a jump, adds nothing. */
  lemma LateAddsNothing(rows: seq<Row>, origin: int, r: RunRecord, g: int)
    requires Series(rows) && OnGrid(origin) && Turn(rows, origin, r) && !Jumps(rows, origin, r) && !Replaced(r)
    requires HoldsTo(rows, origin, r.before, g) && !SoundStart(rows, origin, r.before, r.start)
    ensures HoldsTo(rows, origin, r.left, ResumeFrom(LastKey(r.before), origin))
    ensures ResumeFrom(LastKey(r.before), origin) < r.start && BarsIn(rows, r.start, r.reach) == []
  {
    hide BarsIn, RunContract, ResumeFrom, LastKey, OnGrid, Replaced;
    assert IsPrefix(rows, origin, r.before);
    EndsAtResume(rows, origin, r.before, g);
    LateRun(rows, origin, r, g);
    assert r.before + [] == r.before;
  }

  /** A finished run holds every bar from before its end, exactly when it skipped none. */
  lemma LastHoldsAll(rows: seq<Row>, origin: int, r: RunRecord, g: int)
    requires Series(rows) && OnGrid(origin) && Turn(rows, origin, r) && !Jumps(rows, origin, r) && !Replaced(r)
    requires HoldsTo(rows, origin, r.before, g) && r.walk.Complete? && origin <= r.end
    ensures BarsIn(rows, origin, r.end) <= r.left <==> !Skips(rows, origin, r)
  {
    hide BarsIn, RunContract, ResumeFrom, LastKey, OnGrid, Replaced, Jumps;
    assert IsPrefix(rows, origin, r.before);
    var resume, to := ResumeFrom(LastKey(r.before), origin), Min(r.start, r.end);
    if SoundStart(rows, origin, r.before, r.start) {
      var f := RunKeepsPrefix(rows, origin, r, g);
      FinishedHoldsAll(rows, origin, r, f);
      SoundNeverSkips(rows, origin, r, g);
    } else {
      LateAddsNothing(rows, origin, r, g);
      if r.end <= resume {
        ShorterWindow(rows, origin, r.end, resume);
      } else {
        WindowSplit(rows, origin, resume, r.end);
        WindowSplit(rows, resume, to, r.end);
        assert BarsIn(rows, origin, resume) + [] == BarsIn(rows, origin, resume);
      }
    }
  }

  /** A last chunk that ended at `until` leaves the bar there cached, if there is one. */
  lemma {:induction false} EndBarCached(rows: seq<Row>, origin: int, runs: seq<RunRecord>, until: int, i: nat)
    requires Series(rows) && OnGrid(origin) && History(rows, origin, [], runs) && i < |runs|
    requires Untouched(runs) && NoJump(rows, origin, runs) && ReachedEnd(runs[i], until)
    ensures origin <= until
    ensures BarsIn(rows, until, until + 1) == [] || BarsIn(rows, origin, until + 1) <= CacheAfter([], runs)
    decreases |runs|
  {
    hide Turn, BarsIn, HoldsTo, Jumps, Replaced, ReachedEnd;
    var n := |runs| - 1;
    HistoryPrefix(rows, origin, [], runs);
    AllButLast(rows, origin, runs);
    TurnGrows(rows, origin, runs[n]);
    if i < n {
      EndBarCached(rows, origin, runs[..n], until, i);
    } else {
      NothingHeld(rows, origin);
      var g := ResumeKeepsPrefix(rows, origin, [], origin, runs[..n]);
      LastTookEnd(rows, origin, runs[n], g, until);
    }
  }

  lemma LastTookEnd(rows: seq<Row>, origin: int, r: RunRecord, g: int, until: int)
    requires Series(rows) && OnGrid(origin) && Turn(rows, origin, r) && !Jumps(rows, origin, r) && !Replaced(r)
    requires HoldsTo(rows, origin, r.before, g) && ReachedEnd(r, until)
    ensures origin <= until
    ensures BarsIn(rows, until, until + 1) == [] || BarsIn(rows, origin, until + 1) <= r.left
  {
    hide BarsIn, RunContract, ResumeFrom, LastKey, OnGrid, Replaced, Jumps;
    assert IsPrefix(rows, origin, r.before);
    ReachByEnd(rows, r);
    StartsByEnd(rows, r, until);
    if SoundStart(rows, origin, r.before, r.start) {
      var f := RunKeepsPrefix(rows, origin, r, g);
      ShorterWindow(rows, origin, until + 1, f);
    } else {
      LateAddsNothing(rows, origin, r, g);
      WindowSplit(rows, r.start, until, until + 1);
    }
  }

  lemma StartsByEnd(rows: seq<Row>, r: RunRecord, until: int)
    requires Series(rows) && RunContract(rows, r) && ReachedEnd(r, until)
    ensures r.start <= until
  {
    hide Tiles, Grows, AllTook, Extends, BarsIn, OnGrid;
    LastSpanFrom(r.spans, r.start, r.end);
  }

  /** A history that finishes at `until` leaves exactly the parseable bars from `origin` to before
      `until`, and the bar at `until` itself when some run's last chunk ended there, if and only if it is
      unbroken. */
  lemma FinishedCache(rows: seq<Row>, origin: int, runs: seq<RunRecord>, until: int)
    requires Series(rows) && OnGrid(origin) && origin <= until
    requires History(rows, origin, [], runs) && FinishesAt(runs, until)
    ensures CacheAfter([], runs) == BarsIn(rows, origin, Top(TookEndBar(runs, until), until)) <==>
      Unbroken(rows, origin, runs)
  {
    hide BarsIn, Turn, ReachedEnd, History, NoJump, OnGrid, Skips, Untouched, HoldsTo, Jumps, Replaced;
    var n := |runs| - 1;
    NothingAfterEnd(rows, origin, runs, until);
    if Untouched(runs) && NoJump(rows, origin, runs) {
      NothingHeld(rows, origin);
      HistoryPrefix(rows, origin, [], runs);
      AllButLast(rows, origin, runs);
      var g := ResumeKeepsPrefix(rows, origin, [], origin, runs[..n]);
      LastHoldsAll(rows, origin, runs[n], g);
      WindowSplit(rows, origin, until, until + 1);
      if TookEndBar(runs, until) {
        var i :| 0 <= i < |runs| && ReachedEnd(runs[i], until);
        EndBarCached(rows, origin, runs, until, i);
        assert BarsIn(rows, origin, until) + [] == BarsIn(rows, origin, until);
      }
    }
  }

  /** A broken history that finishes is no finished cache of another one either. */
  lemma BrokenIsForeign(rows: seq<Row>, origin: int, runs: seq<RunRecord>, until: int, took: bool)
    requires Series(rows) && OnGrid(origin) && origin <= until
    requires History(rows, origin, [], runs) && FinishesAt(runs, until) && !Unbroken(rows, origin, runs)
    ensures CacheAfter([], runs) != BarsIn(rows, origin, Top(took, until))
  {
    hide BarsIn, Turn, History, NoJump, OnGrid, Skips, Untouched, HoldsTo, Jumps, Replaced, Hole, Seeded;
    var n := |runs| - 1;
    NothingHeld(rows, origin);
    if !Untouched(runs) {
      var f := ResumeKeepsPrefix(rows, origin, [], origin, runs);
      SeededIsForeign(rows, origin, Top(took, until), CacheAfter([], runs));
    } else if !NoJump(rows, origin, runs) {
      var f := ResumeKeepsPrefix(rows, origin, [], origin, runs);
      HoleIsForeign(rows, origin, CacheAfter([], runs), Top(took, until));
    } else {
      HistoryPrefix(rows, origin, [], runs);
      AllButLast(rows, origin, runs);
      var g := ResumeKeepsPrefix(rows, origin, [], origin, runs[..n]);
      LastHoldsAll(rows, origin, runs[n], g);
      ShorterWindow(rows, origin, until, until + 1);
    }
  }

  /** Main result: interrupted runs that eventually finish leave the same cache as an unbroken history
      finishing at the same instant, an uninterrupted run included, exactly when they are unbroken as well
      and, if there is a bar at that very instant, both or neither had a last chunk ending there. */
  lemma FinishedCachesAgree(rows: seq<Row>, origin: int, a: seq<RunRecord>, b: seq<RunRecord>, until: int)
    requires Series(rows) && OnGrid(origin) && origin <= until
    requires History(rows, origin, [], a) && FinishesAt(a, until)
    requires History(rows, origin, [], b) && FinishesAt(b, until) && Unbroken(rows, origin, b)
    ensures CacheAfter([], a) == CacheAfter([], b) <==>
      && Unbroken(rows, origin, a)
      && (BarsIn(rows, until, until + 1) == [] || (TookEndBar(a, until) <==> TookEndBar(b, until)))
    ensures !OnGrid(until) ==> (CacheAfter([], a) == CacheAfter([], b) <==> Unbroken(rows, origin, a))
  {
    hide BarsIn, History, FinishesAt, TookEndBar, Unbroken;
    FinishedCache(rows, origin, a, until);
    FinishedCache(rows, origin, b, until);
    WindowSplit(rows, origin, until, until + 1);
    if !OnGrid(until) { NothingBetween(rows, until, until + 1); }
    if !Unbroken(rows, origin, a) { BrokenIsForeign(rows, origin, a, until, TookEndBar(b, until)); }
  }

  /** When does a last chunk end at an aligned end instant?  With one chunk size throughout, unless
      the range is a whole number of chunk-and-step strides. */
  lemma EndBarRule(spans: seq<Span>, start: int, end: int, days: int)
    requires Tiles(spans, start, end) && end <= NextStart(spans, start) && start < end
    requires OnGrid(start) && OnGrid(end)
    requires forall i :: 0 <= i < |spans| ==> spans[i].days == days
    ensures spans[|spans| - 1].to == end <==> (end - start) % (days * DAY + STEP) != 0
  {
    hide OnGrid;
    var n := |spans| - 1;
    assert Cut(spans[n], end);
    EvenStrides(spans, start, end, days, n);
    SpansOnGrid(spans, start, end, n);
    LastGap(spans[n].from, end, days);
    RemainderOf(end - start, days * DAY + STEP, n, end - spans[n].from);
  }

  /** A last chunk ends at an aligned end unless it leaves exactly one step. */
  lemma LastGap(from: int, end: int, days: int)
    requires OnGrid(from) && OnGrid(end) && OnLadder(days)
    requires from < end <= Min(from + days * DAY, end) + STEP
    ensures
      var rest, stride := end - from, days * DAY + STEP;
      0 < rest <= stride && (Min(from + days * DAY, end) == end <==> rest != stride)
  {
    assert (end - from) % STEP == 0;
  }

  lemma {:induction false} EvenStrides(spans: seq<Span>, start: int, end: int, days: int, i: nat)
    requires Tiles(spans, start, end) && i < |spans|
    requires forall j :: 0 <= j < |spans| ==> spans[j].days == days
    ensures spans[i].from == start + i * (days * DAY + STEP)
    decreases i
  {
    if i > 0 {
      EvenStrides(spans, start, end, days, i - 1);
      LaterSpans(spans, start, end, i - 1, i);
      assert spans[i].from == spans[i - 1].to + STEP;
      assert i * (days * DAY + STEP) == (i - 1) * (days * DAY + STEP) + (days * DAY + STEP);
    }
  }

  lemma RemainderOf(total: int, stride: int, n: int, rest: int)
    requires stride > 0 && 0 < rest <= stride && total == n * stride + rest
    ensures total % stride == if rest == stride then 0 else rest
  {
    if rest == stride {
      assert total == (n + 1) * stride;
      ModOf(n + 1, stride, 0);
    } else {
      ModOf(n, stride, rest);
    }
  }

  lemma ModOf(n: int, stride: int, rest: int)
    requires 0 <= rest < stride
    ensures (n * stride + rest) % stride == rest
  {
    var t := n * stride + rest;
    var q, m := t / stride, t % stride;
    assert q * stride + m == n * stride + rest;
    Distribute(q, n, stride);
    SmallMultiple(q - n, stride, rest - m);
  }

  lemma Distribute(a: int, b: int, c: int)
    ensures (a - b) * c == a * c - b * c
  {
  }

  lemma SmallMultiple(a: int, c: int, d: int)
    requires c > 0 && d == a * c && -c < d < c
    ensures a == 0
  {
  }
}
