/** The batch replay loop: forward labels, the records it writes and the counts it returns. */
module Replay {
  import opened Wrappers
  import opened Indicators
  import opened RollUp
  import opened Scoring

  datatype Label = Win | Loss | BreakEven

  // ---------------------------------------------------------------- forward labels

  function Window(cs: seq<Candle>, idx: nat, n: nat): seq<Candle>
    requires idx < |cs|
  {
    cs[idx + 1..if idx + 1 + n < |cs| then idx + 1 + n else |cs|]
  }

  function Highest(w: seq<Candle>): (h: real)
    requires w != []
    ensures (exists i :: 0 <= i < |w| && w[i].high == h) && forall i :: 0 <= i < |w| ==> w[i].high <= h
  {
    if |w| == 1 then w[0].high else Max(Highest(w[..|w| - 1]), w[|w| - 1].high)
  }

  function Lowest(w: seq<Candle>): (l: real)
    requires w != []
    ensures (exists i :: 0 <= i < |w| && w[i].low == l) && forall i :: 0 <= i < |w| ==> l <= w[i].low
  {
    if |w| == 1 then w[0].low else Min(Lowest(w[..|w| - 1]), w[|w| - 1].low)
  }

  /** Highest high and lowest low of the next n bars; zeros when there is none. */
  function ForwardExtremes(cs: seq<Candle>, idx: nat, n: nat): (real, real)
    requires idx < |cs|
  {
    var w := Window(cs, idx, n);
    if w == [] then (0.0, 0.0) else (Highest(w), Lowest(w))
  }

  /** Stop distance in price units: pips on the FX epics. */
  function StopDelta(fx: bool, stopPts: real): real {
    if stopPts <= 0.0 then 0.0 else if fx then stopPts * 0.0001 else stopPts
  }

  function LabelOf(d: Direction, entry: real, high: real, low: real, stop: real): Label {
    if entry <= 0.0 || stop <= 0.0 || d == Wait then BreakEven
    else
      var win := if d == Sell then low <= entry - stop else high >= entry + stop;
      var loss := if d == Sell then high >= entry + stop else low <= entry - stop;
      if win && !loss then Win else if loss && !win then Loss else BreakEven
  }

  lemma WiderExtremes(cs: seq<Candle>, idx: nat, n: nat, m: nat)
    requires idx + 1 < |cs| && 1 <= n <= m
    ensures ForwardExtremes(cs, idx, n).0 <= ForwardExtremes(cs, idx, m).0
    ensures ForwardExtremes(cs, idx, m).1 <= ForwardExtremes(cs, idx, n).1
  {
    var u, w := Window(cs, idx, n), Window(cs, idx, m);
    assert u == w[..|u|];
  }

  /** A longer horizon never turns a win into a loss or a loss into a win, and a bar that hit both
      sides stays a break-even. */
  lemma LabelHorizon(cs: seq<Candle>, idx: nat, n: nat, m: nat, d: Direction, entry: real, stop: real)
    requires idx + 1 < |cs| && 1 <= n <= m
    ensures
      var (h, l), (h', l') := ForwardExtremes(cs, idx, n), ForwardExtremes(cs, idx, m);
      var near, far := LabelOf(d, entry, h, l, stop), LabelOf(d, entry, h', l', stop);
      && (near == Win ==> far != Loss) && (near == Loss ==> far != Win)
      && (h >= entry + stop && l <= entry - stop ==> near == BreakEven && far == BreakEven)
  {
    WiderExtremes(cs, idx, n, m);
  }

  lemma ExtremesMirror(c: real, cs: seq<Candle>, idx: nat, n: nat)
    requires idx + 1 < |cs| && n >= 1
    ensures ForwardExtremes(Mirror(c, cs), idx, n) ==
      (c - ForwardExtremes(cs, idx, n).1, c - ForwardExtremes(cs, idx, n).0)
  {
    hide Highest, Lowest, Window, Mirror;
    var w := Window(cs, idx, n);
    WindowMirror(c, cs, idx, n);
    HighestMirror(c, w);
  }

  lemma WindowMirror(c: real, cs: seq<Candle>, idx: nat, n: nat)
    requires idx + 1 < |cs| && n >= 1
    ensures Window(Mirror(c, cs), idx, n) == Mirror(c, Window(cs, idx, n)) && Window(cs, idx, n) != []
  {
    hide MirrorCandle;
    var w := Window(cs, idx, n);
    forall i | 0 <= i < |w|
      ensures Window(Mirror(c, cs), idx, n)[i] == Mirror(c, w)[i]
    {
      assert w[i] == cs[idx + 1 + i];
    }
  }

  lemma {:induction false} HighestMirror(c: real, w: seq<Candle>)
    requires w != []
    ensures Highest(Mirror(c, w)) == c - Lowest(w) && Lowest(Mirror(c, w)) == c - Highest(w)
  {
    var n := |w| - 1;
    if n > 0 {
      assert Mirror(c, w)[..n] == Mirror(c, w[..n]);
      HighestMirror(c, w[..n]);
    }
  }

  /** Mirrored prices and the opposite direction give the same label. */
  lemma LabelMirror(c: real, cs: seq<Candle>, idx: nat, n: nat, d: Direction, stop: real)
    requires idx + 1 < |cs| && n >= 1 && 0.0 < cs[idx].close < c
    ensures
      var (h, l), (h', l') := ForwardExtremes(cs, idx, n), ForwardExtremes(Mirror(c, cs), idx, n);
      LabelOf(Opposite(d), Mirror(c, cs)[idx].close, h', l', stop) == LabelOf(d, cs[idx].close, h, l, stop)
  {
    ExtremesMirror(c, cs, idx, n);
  }

  // ---------------------------------------------------------------- records

  /** Rounds to one decimal, ties to even. */
  function Round1(x: real): real {
    Nearest(10.0 * x) as real / 10.0
  }

  function Nearest(y: real): int {
    var f := y.Floor;
    var d := y - f as real;
    if d < 0.5 then f else if d > 0.5 then f + 1 else if f % 2 == 0 then f else f + 1
  }

  datatype Record = Record(
    index: nat, direction: Direction, score: real, rsi: real, regime: Regime, rsiBlock: bool,
    fired: bool, label3: Label, label6: Label)

  /** One replay: series, configuration, quantile, and the stop distance in points of the epic. */
  datatype Job = Job(cs: seq<Candle>, cfg: Config, q: Quantile, fx: bool, stopPts: real) {
    function Stop(): real {
      StopDelta(fx, stopPts)
    }
  }

  predicate Runnable(job: Job) {
    Usable(job.cfg.periods)
  }

  function Warmup(cfg: Config): int {
    var a, b := cfg.periods.slow + 4, cfg.periods.rsi + 4;
    if a >= b && a >= 6 then a else if b >= 6 then b else 6
  }

  /** The record written at loop index i, if any. */
  function RecordAt(job: Job, threshold: real, i: nat): Option<Record>
    requires Runnable(job) && 3 <= i < |job.cs|
  {
    RecordFrom(i, ScoresAt(job.cs, job.cfg, job.q, i), job.cfg, threshold, job.cs[i - 1].close,
               ForwardExtremes(job.cs, i - 1, 3), ForwardExtremes(job.cs, i - 1, 6), job.Stop())
  }

  function RecordFrom(
    i: nat, s: Scores, cfg: Config, threshold: real, entry: real,
    near: (real, real), far: (real, real), stop: real): Option<Record>
  {
    var d := Choose(s, threshold);
    var block := RsiBlocks(d, s, cfg);
    var meets := d != Wait && !block;
    var raw := Max(s.buy, s.sell);
    if !(meets || raw >= 50.0) || near.0 <= 0.0 then None
    else Some(Record(i, d, Round1(raw), s.rsi, s.regime, block, meets,
                     LabelOf(d, entry, near.0, near.1, stop), LabelOf(d, entry, far.0, far.1, stop)))
  }

  function Listed<T>(x: Option<T>): seq<T> {
    match x
    case None => []
    case Some(v) => [v]
  }

  /** The records of the loop indices warm-up .. n - 1, in order. */
  function Records(job: Job, threshold: real, n: nat): seq<Record>
    requires Runnable(job) && n <= |job.cs|
  {
    if n <= Warmup(job.cfg) then []
    else Records(job, threshold, n - 1) + Listed(RecordAt(job, threshold, n - 1))
  }

  /** The loop stops one short of the last bar. */
  function AllRecords(job: Job, threshold: real): seq<Record>
    requires Runnable(job)
  {
    if job.cs == [] then [] else Records(job, threshold, |job.cs| - 1)
  }

  function Fired(rows: seq<Record>): (r: seq<Record>)
    ensures |r| <= |rows|
  {
    if rows == [] then []
    else Fired(rows[..|rows| - 1]) + (if rows[|rows| - 1].fired then [rows[|rows| - 1]] else [])
  }

  function CountLabel(rows: seq<Record>, l: Label): nat {
    if rows == [] then 0
    else CountLabel(rows[..|rows| - 1], l) + (if rows[|rows| - 1].label3 == l then 1 else 0)
  }

  lemma {:induction false} LabelsPartition(rows: seq<Record>)
    ensures CountLabel(rows, Win) + CountLabel(rows, Loss) + CountLabel(rows, BreakEven) == |rows|
  {
    if rows != [] { LabelsPartition(rows[..|rows| - 1]); }
  }

  lemma CountSnoc(rows: seq<Record>, r: Record, l: Label)
    ensures CountLabel(rows + [r], l) == CountLabel(rows, l) + (if r.label3 == l then 1 else 0)
    ensures Fired(rows + [r]) == Fired(rows) + (if r.fired then [r] else [])
  {
    assert (rows + [r])[..|rows|] == rows;
  }

  datatype Summary = Summary(records: nat, fired: nat, wins: nat, losses: nat, breakEvens: nat)

  /** The replay loop.  Its counts are the counts of what it wrote: every fired record is counted
      once in `fired` and once under its three-bar label, and nothing else is; and the labels say what
      the bars after the record did. */
  method ReplayBatch(job: Job, threshold: real) returns (records: seq<Record>, summary: Summary)
    requires Runnable(job)
    ensures records == AllRecords(job, threshold)
    ensures forall k :: 0 <= k < |records| ==>
      6 <= records[k].index < |job.cs| - 1 && RecordAt(job, threshold, records[k].index) == Some(records[k])
      && LabelsSay(job, records[k])
    ensures summary.records == |records| && summary.fired == |Fired(records)|
    ensures summary.wins == CountLabel(Fired(records), Win)
    ensures summary.losses == CountLabel(Fired(records), Loss)
    ensures summary.breakEvens == CountLabel(Fired(records), BreakEven)
    ensures summary.fired == summary.wins + summary.losses + summary.breakEvens
  {
    hide Warmup, RecordAt, Records, AllRecords, Fired, CountLabel, Increasing, LabelsSay;
    NoRecords(job, threshold);
    records := [];
    var fired, wins, losses, evens := 0, 0, 0, 0;
    var i := Warmup(job.cfg);
    while i < |job.cs| - 1
      invariant i >= Warmup(job.cfg) >= 6
      invariant i <= |job.cs| - 1 ==> records == Records(job, threshold, i)
      invariant i > |job.cs| - 1 ==> records == AllRecords(job, threshold)
      invariant fired == |Fired(records)| && wins == CountLabel(Fired(records), Win)
      invariant losses == CountLabel(Fired(records), Loss) && evens == CountLabel(Fired(records), BreakEven)
    {
      var r := RecordAt(job, threshold, i);
      RecordsStep(job, threshold, i);
      if r.Some? {
        var v := r.value;
        CountSnoc(records, v, v.label3);
        if v.fired {
          FiredCounts(Fired(records), v);
          fired := fired + 1;
          match v.label3 {
            case Win => wins := wins + 1;
            case Loss => losses := losses + 1;
            case BreakEven => evens := evens + 1;
          }
        } else {
          assert Fired(records) + [] == Fired(records);
        }
        records := records + [v];
      } else {
        assert records + [] == records;
      }
      i := i + 1;
    }
    LabelsPartition(Fired(records));
    RecordsSay(job, threshold);
    summary := Summary(|records|, fired, wins, losses, evens);
  }

  lemma WarmupIsEnough(cfg: Config)
    ensures Warmup(cfg) >= 6
  {
  }

  lemma NoRecords(job: Job, threshold: real)
    requires Runnable(job)
    ensures Warmup(job.cfg) >= 6
    ensures if Warmup(job.cfg) <= |job.cs| - 1 then Records(job, threshold, Warmup(job.cfg)) == []
      else AllRecords(job, threshold) == []
    ensures job.cs != [] ==> AllRecords(job, threshold) == Records(job, threshold, |job.cs| - 1)
    ensures Fired([]) == [] && forall l :: CountLabel([], l) == 0
  {
    hide RecordAt;
  }

  lemma RecordsStep(job: Job, threshold: real, i: nat)
    requires Runnable(job) && 6 <= Warmup(job.cfg) <= i < |job.cs|
    ensures Records(job, threshold, i + 1) == Records(job, threshold, i) + Listed(RecordAt(job, threshold, i))
  {
    hide RecordAt;
  }

  lemma FiredCounts(rows: seq<Record>, v: Record)
    ensures CountLabel(rows + [v], Win) == CountLabel(rows, Win) + (if v.label3 == Win then 1 else 0)
    ensures CountLabel(rows + [v], Loss) == CountLabel(rows, Loss) + (if v.label3 == Loss then 1 else 0)
    ensures CountLabel(rows + [v], BreakEven) == CountLabel(rows, BreakEven) + (if v.label3 == BreakEven then 1 else 0)
  {
    CountSnoc(rows, v, Win);
    CountSnoc(rows, v, Loss);
    CountSnoc(rows, v, BreakEven);
  }

  /** Changing the bars from index i on changes nothing of what is decided at i: with a price in both
      forward windows a record is written in both replays or in neither, and the two differ in
      nothing but their labels. */
  lemma RecordCausal(a: Job, b: Job, threshold: real, i: nat)
    requires Runnable(a) && a.cfg == b.cfg && a.q == b.q && Increasing(a.cs) && Increasing(b.cs)
    requires 3 <= i < |a.cs| && i < |b.cs| && a.cs[..i] == b.cs[..i]
    requires ForwardExtremes(a.cs, i - 1, 3).0 > 0.0 && ForwardExtremes(b.cs, i - 1, 3).0 > 0.0
    ensures RecordAt(a, threshold, i).Some? <==> RecordAt(b, threshold, i).Some?
    ensures RecordAt(a, threshold, i).Some? ==>
      var x, y := RecordAt(a, threshold, i).value, RecordAt(b, threshold, i).value;
      x.(label3 := y.label3, label6 := y.label6) == y
  {
    hide ScoresAt, RecordFrom, ForwardExtremes;
    NoLookAhead(a.cs, b.cs, a.cfg, a.q, i);
    assert a.cs[i - 1] == a.cs[..i][i - 1] == b.cs[i - 1];
    OnlyLabelsDiffer(i, ScoresAt(a.cs, a.cfg, a.q, i), a.cfg, threshold, a.cs[i - 1].close,
                     ForwardExtremes(a.cs, i - 1, 3), ForwardExtremes(a.cs, i - 1, 6), a.Stop(),
                     ForwardExtremes(b.cs, i - 1, 3), ForwardExtremes(b.cs, i - 1, 6), b.Stop());
  }

  lemma OnlyLabelsDiffer(
    i: nat, s: Scores, cfg: Config, threshold: real, entry: real, near: (real, real), far: (real, real), stop: real,
    near': (real, real), far': (real, real), stop': real)
    requires near.0 > 0.0 && near'.0 > 0.0
    ensures
      var x := RecordFrom(i, s, cfg, threshold, entry, near, far, stop);
      var y := RecordFrom(i, s, cfg, threshold, entry, near', far', stop');
      (x.Some? <==> y.Some?) && (x.Some? ==> x.value.(label3 := y.value.label3, label6 := y.value.label6) == y.value)
  {
    hide Choose, RsiBlocks, Round1, LabelOf;
  }

  /** The three-bar and six-bar labels of a record never contradict each other. */
  lemma RecordHorizon(job: Job, threshold: real, i: nat)
    requires Runnable(job) && 3 <= i < |job.cs| && RecordAt(job, threshold, i).Some?
    ensures
      var r := RecordAt(job, threshold, i).value;
      (r.label3 == Win ==> r.label6 != Loss) && (r.label3 == Loss ==> r.label6 != Win)
  {
    hide ScoresAt, Choose, RsiBlocks, Round1, ForwardExtremes, LabelOf;
    var d := Choose(ScoresAt(job.cs, job.cfg, job.q, i), threshold);
    LabelHorizon(job.cs, i - 1, 3, 6, d, job.cs[i - 1].close, job.Stop());
  }

  // ---------------------------------------------------------------- what a record says

  /** Some one of the n bars from i on reaches up to a level. */
  ghost predicate ReachesUp(cs: seq<Candle>, i: nat, n: nat, level: real) {
    exists j :: i <= j < i + n && j < |cs| && cs[j].high >= level
  }

  ghost predicate ReachesDown(cs: seq<Candle>, i: nat, n: nat, level: real) {
    exists j :: i <= j < i + n && j < |cs| && cs[j].low <= level
  }

  lemma ExtremesReach(cs: seq<Candle>, i: nat, n: nat, level: real)
    requires 1 <= i < |cs| && n >= 1
    ensures ForwardExtremes(cs, i - 1, n).0 >= level <==> ReachesUp(cs, i, n, level)
    ensures ForwardExtremes(cs, i - 1, n).1 <= level <==> ReachesDown(cs, i, n, level)
  {
    var w := Window(cs, i - 1, n);
    var (h, l) := ForwardExtremes(cs, i - 1, n);
    assert forall m :: 0 <= m < |w| ==> w[m] == cs[i + m];
    var a :| 0 <= a < |w| && w[a].high == h;
    var b :| 0 <= b < |w| && w[b].low == l;
    assert cs[i + a].high == h && cs[i + b].low == l;
    if ReachesUp(cs, i, n, level) {
      var j :| i <= j < i + n && j < |cs| && cs[j].high >= level;
      assert w[j - i] == cs[j];
    }
    if ReachesDown(cs, i, n, level) {
      var j :| i <= j < i + n && j < |cs| && cs[j].low <= level;
      assert w[j - i] == cs[j];
    }
  }

  /** A trade of direction d opened at `entry` before bar i reaches its target within n bars ... */
  ghost predicate HitsTarget(cs: seq<Candle>, i: nat, n: nat, d: Direction, entry: real, stop: real) {
    (d == Buy && ReachesUp(cs, i, n, entry + stop)) || (d == Sell && ReachesDown(cs, i, n, entry - stop))
  }

  /** ... or its stop. */
  ghost predicate HitsStop(cs: seq<Candle>, i: nat, n: nat, d: Direction, entry: real, stop: real) {
    (d == Buy && ReachesDown(cs, i, n, entry - stop)) || (d == Sell && ReachesUp(cs, i, n, entry + stop))
  }

  /** What a label means, on the bars themselves. */
  ghost predicate LabelSays(l: Label, cs: seq<Candle>, i: nat, n: nat, d: Direction, entry: real, stop: real) {
    var target, stopped := HitsTarget(cs, i, n, d, entry, stop), HitsStop(cs, i, n, d, entry, stop);
    && (l == Win <==> entry > 0.0 && stop > 0.0 && target && !stopped)
    && (l == Loss <==> entry > 0.0 && stop > 0.0 && stopped && !target)
  }

  /** The stop distance in price units: ten-thousandths of the points on FX epics. */
  function StopOf(job: Job): real {
    if job.fx then job.stopPts / 10000.0 else job.stopPts
  }

  /** What the two labels of a record mean. */
  ghost predicate LabelsSay(job: Job, r: Record)
    requires 1 <= r.index < |job.cs|
  {
    var entry := job.cs[r.index - 1].close;
    && LabelSays(r.label3, job.cs, r.index, 3, r.direction, entry, StopOf(job))
    && LabelSays(r.label6, job.cs, r.index, 6, r.direction, entry, StopOf(job))
  }

  lemma LabelIs(cs: seq<Candle>, i: nat, n: nat, d: Direction, entry: real, stop: real)
    requires 1 <= i < |cs| && n >= 1
    ensures
      var (h, l) := ForwardExtremes(cs, i - 1, n);
      LabelSays(LabelOf(d, entry, h, l, stop), cs, i, n, d, entry, stop)
  {
    hide ForwardExtremes, ReachesUp, ReachesDown;
    ExtremesReach(cs, i, n, entry + stop);
    ExtremesReach(cs, i, n, entry - stop);
  }

  /** Main result on labels: a record's label is a win when the trade at the close before i, with the stop
      distance in points or in ten-thousandths of them on FX epics, reaches its target and not its stop in
      the next three (or six) bars, a loss when it reaches its stop and not its target, and else even. */
  lemma LabelMeans(job: Job, threshold: real, i: nat)
    requires Runnable(job) && 3 <= i < |job.cs| && RecordAt(job, threshold, i).Some?
    ensures RecordAt(job, threshold, i).value.index == i && LabelsSay(job, RecordAt(job, threshold, i).value)
  {
    hide ScoresAt, Choose, RsiBlocks, Round1, ForwardExtremes, LabelOf, HitsTarget, HitsStop;
    var d, entry := Choose(ScoresAt(job.cs, job.cfg, job.q, i), threshold), job.cs[i - 1].close;
    LabelIs(job.cs, i, 3, d, entry, job.Stop());
    LabelIs(job.cs, i, 6, d, entry, job.Stop());
    if StopOf(job) <= 0.0 { assert job.Stop() == 0.0; } else { assert job.Stop() == StopOf(job); }
  }

  /** Rounding goes to a nearest tenth, and to an even one in the middle. */
  lemma RoundIs(x: real) returns (n: int)
    ensures Round1(x) == n as real / 10.0
    ensures -0.05 <= x - Round1(x) <= 0.05
    ensures x - Round1(x) == 0.05 || x - Round1(x) == -0.05 ==> n % 2 == 0
  {
    n := Nearest(10.0 * x);
    var f := (10.0 * x).Floor;
    assert f as real <= 10.0 * x < f as real + 1.0;
    assert (f + 1) as real == f as real + 1.0;
  }

  /** Main result on records: one is written for index i exactly when its signal fires or its larger score
      is at least fifty, and some one of the next three bars has a price; it names the direction of the
      larger score, that score to a tenth, and whether it fired or was blocked by RSI. */
  lemma RecordIs(job: Job, threshold: real, i: nat)
    requires Runnable(job) && 3 <= i < |job.cs|
    ensures
      var s := ScoresAt(job.cs, job.cfg, job.q, i);
      RecordAt(job, threshold, i).Some? <==>
        (Fires(s, job.cfg, threshold) || s.buy >= 50.0 || s.sell >= 50.0)
        && exists j :: i <= j < i + 3 && j < |job.cs| && job.cs[j].high > 0.0
    ensures RecordAt(job, threshold, i).Some? ==>
      var s, r := ScoresAt(job.cs, job.cfg, job.q, i), RecordAt(job, threshold, i).value;
      && r.index == i && r.rsi == s.rsi && r.regime == s.regime
      && (r.direction == Wait <==> s.buy < threshold && s.sell < threshold)
      && (r.direction == Buy <==> s.buy >= threshold && s.buy >= s.sell)
      && r.score == Round1(if s.buy >= s.sell then s.buy else s.sell)
      && (r.fired <==> Fires(s, job.cfg, threshold)) && (r.rsiBlock <==> r.direction != Wait && !r.fired)
  {
    hide ScoresAt, Round1, ForwardExtremes, LabelOf;
    SomePrice(job.cs, i);
  }

  lemma SomePrice(cs: seq<Candle>, i: nat)
    requires 1 <= i < |cs|
    ensures ForwardExtremes(cs, i - 1, 3).0 > 0.0 <==> exists j :: i <= j < i + 3 && j < |cs| && cs[j].high > 0.0
  {
    hide ForwardExtremes;
    var h := ForwardExtremes(cs, i - 1, 3).0;
    ExtremesReach(cs, i, 3, h);
    if j :| i <= j < i + 3 && j < |cs| && cs[j].high > 0.0 {
      ExtremesReach(cs, i, 3, cs[j].high);
    }
  }

  /** The loop begins after the longest warm-up. */
  lemma WarmupIs(cfg: Config, i: int)
    ensures i >= Warmup(cfg) <==> i >= cfg.periods.slow + 4 && i >= cfg.periods.rsi + 4 && i >= 6
  {
  }

  /** The records of a replay are those of the indices from the warm-up to the last bar but one, each once
      and in order. */
  lemma RecordsAre(job: Job, threshold: real, r: Record)
    requires Runnable(job)
    ensures r in AllRecords(job, threshold) <==>
      exists i :: Warmup(job.cfg) <= i < |job.cs| - 1 && i >= 3 && RecordAt(job, threshold, i) == Some(r)
    ensures forall m, n :: 0 <= m < n < |AllRecords(job, threshold)| ==>
      AllRecords(job, threshold)[m].index < AllRecords(job, threshold)[n].index
  {
    hide Warmup, RecordAt, Records;
    if job.cs != [] { RecordsUpTo(job, threshold, |job.cs| - 1, r); }
  }

  lemma RecordsSay(job: Job, threshold: real)
    requires Runnable(job)
    ensures forall k :: 0 <= k < |AllRecords(job, threshold)| ==>
      var r := AllRecords(job, threshold)[k];
      6 <= r.index < |job.cs| - 1 && RecordAt(job, threshold, r.index) == Some(r) && LabelsSay(job, r)
  {
    hide Warmup, RecordAt, AllRecords, LabelsSay;
    forall k | 0 <= k < |AllRecords(job, threshold)|
      ensures
        var r := AllRecords(job, threshold)[k];
        6 <= r.index < |job.cs| - 1 && RecordAt(job, threshold, r.index) == Some(r) && LabelsSay(job, r)
    {
      var r := AllRecords(job, threshold)[k];
      RecordsAre(job, threshold, r);
      var i :| Warmup(job.cfg) <= i < |job.cs| - 1 && i >= 3 && RecordAt(job, threshold, i) == Some(r);
      WarmupIs(job.cfg, i);
      LabelMeans(job, threshold, i);
    }
  }

  lemma {:induction false} RecordsUpTo(job: Job, threshold: real, n: nat, r: Record)
    requires Runnable(job) && n <= |job.cs|
    ensures r in Records(job, threshold, n) <==>
      exists i :: Warmup(job.cfg) <= i < n && i >= 3 && RecordAt(job, threshold, i) == Some(r)
    ensures forall k :: 0 <= k < |Records(job, threshold, n)| ==> Records(job, threshold, n)[k].index < n
    ensures forall k, m :: 0 <= k < m < |Records(job, threshold, n)| ==>
      Records(job, threshold, n)[k].index < Records(job, threshold, n)[m].index
    decreases n
  {
    hide Warmup, RecordAt;
    WarmupIsEnough(job.cfg);
    if n > Warmup(job.cfg) {
      RecordsUpTo(job, threshold, n - 1, r);
      RecordIndex(job, threshold, n - 1);
    }
  }

  lemma RecordIndex(job: Job, threshold: real, i: nat)
    requires Runnable(job) && 3 <= i < |job.cs|
    ensures RecordAt(job, threshold, i).Some? ==> RecordAt(job, threshold, i).value.index == i
  {
    hide ScoresAt, RsiBlocks, Round1, ForwardExtremes, LabelOf, Choose;
  }

  // ---------------------------------------------------------------- the mirrored replay

  function MirrorJob(c: real, job: Job): Job {
    job.(cs := Mirror(c, job.cs), cfg := MirrorConfig(job.cfg))
  }

  function MirrorRecord(r: Record): Record {
    r.(direction := Opposite(r.direction), rsi := 100.0 - r.rsi)
  }

  /** Both scores reach the threshold and are equal: the code then prefers to buy, on both sides. */
  predicate Tied(s: Scores, threshold: real) {
    s.buy == s.sell >= threshold
  }

  /** Main result: the replay of the mirrored prices under the mirrored ranges writes a record at i when
      the original does, and it is the same record with the opposite direction and the reflected RSI:
      same score and regime, same block and firing, same labels. */
  lemma RecordMirror(c: real, job: Job, threshold: real, i: nat)
    requires Runnable(job) && Increasing(job.cs) && 3 <= i < |job.cs| && ProperRanges(job.cfg)
    requires TwoSided(c, job.cs) && 0.0 < c && BalancedAt(job.cfg.periods, job.cs, i)
    requires 0.0 < ForwardExtremes(job.cs, i - 1, 3).0 && ForwardExtremes(job.cs, i - 1, 3).1 < c
    requires !Tied(ScoresAt(job.cs, job.cfg, job.q, i), threshold)
    ensures RecordAt(MirrorJob(c, job), threshold, i) ==
      match RecordAt(job, threshold, i)
      case None => None
      case Some(r) => Some(MirrorRecord(r))
  {
    hide ScoresAt, ForwardExtremes, RecordFrom, BalancedAt, Increasing;
    var s := ScoresAt(job.cs, job.cfg, job.q, i);
    var m := ScoresAt(Mirror(c, job.cs), MirrorConfig(job.cfg), job.q, i);
    MirrorSymmetry(c, job.cs, job.cfg, job.q, i, threshold);
    RsiSeen(job.cs, job.cfg, job.q, i);
    var d := Choose(s, threshold);
    BlockMirror(d, s, m, job.cfg);
    ExtremesMirror(c, job.cs, i - 1, 3);
    LabelMirror(c, job.cs, i - 1, 3, d, job.Stop());
    LabelMirror(c, job.cs, i - 1, 6, d, job.Stop());
    FromMirror(c, i, s, m, job.cfg, threshold, job.cs[i - 1].close, Mirror(c, job.cs)[i - 1].close,
               ForwardExtremes(job.cs, i - 1, 3), ForwardExtremes(job.cs, i - 1, 6),
               ForwardExtremes(Mirror(c, job.cs), i - 1, 3), ForwardExtremes(Mirror(c, job.cs), i - 1, 6), job.Stop());
  }

  lemma FromMirror(
    c: real, i: nat, s: Scores, m: Scores, cfg: Config, threshold: real, entry: real, entry': real,
    near: (real, real), far: (real, real), near': (real, real), far': (real, real), stop: real)
    requires m.buy == s.sell && m.sell == s.buy && m.rsi == 100.0 - s.rsi && m.regime == s.regime
    requires Choose(m, threshold) == Opposite(Choose(s, threshold))
    requires RsiBlocks(Choose(m, threshold), m, MirrorConfig(cfg)) <==> RsiBlocks(Choose(s, threshold), s, cfg)
    requires near.0 > 0.0 && near'.0 > 0.0
    requires LabelOf(Choose(m, threshold), entry', near'.0, near'.1, stop) ==
      LabelOf(Choose(s, threshold), entry, near.0, near.1, stop)
    requires LabelOf(Choose(m, threshold), entry', far'.0, far'.1, stop) ==
      LabelOf(Choose(s, threshold), entry, far.0, far.1, stop)
    ensures RecordFrom(i, m, MirrorConfig(cfg), threshold, entry', near', far', stop) ==
      match RecordFrom(i, s, cfg, threshold, entry, near, far, stop)
      case None => None
      case Some(r) => Some(MirrorRecord(r))
  {
    hide Choose, RsiBlocks, Round1, LabelOf, MirrorConfig;
  }
}
