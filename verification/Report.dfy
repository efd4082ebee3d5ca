/** The replay report: threshold subsets, win statistics and the recommended threshold. */
module Report {
  import opened Wrappers
  import opened Indicators
  import opened Scoring
  import opened Replay

  const THRESHOLDS: seq<int> := [50, 60, 70, 75, 80, 85, 90]
  const MIN_ROWS := 5
  const NO_LOSS_FACTOR := 99.99

  predicate Keeps(r: Record, thr: real) {
    r.direction != Wait && r.score >= thr && !r.rsiBlock
  }

  function Kept(rows: seq<Record>, thr: real): seq<Record> {
    if rows == [] then []
    else Kept(rows[..|rows| - 1], thr) + (if Keeps(rows[|rows| - 1], thr) then [rows[|rows| - 1]] else [])
  }

  method FilterThreshold(rows: seq<Record>, thr: real) returns (out: seq<Record>)
    ensures out == Kept(rows, thr)
  {
    out := [];
    var i := 0;
    while i < |rows|
      invariant 0 <= i <= |rows| && out == Kept(rows[..i], thr)
    {
      var r := rows[i];
      assert rows[..i + 1][..i] == rows[..i];
      if r.direction != Wait && !(r.score < thr) && !r.rsiBlock {
        out := out + [r];
      } else {
        assert out + [] == out;
      }
      i := i + 1;
    }
    assert rows[..|rows|] == rows;
  }

  lemma KeptSnoc(rows: seq<Record>, r: Record, thr: real)
    ensures Kept(rows + [r], thr) == Kept(rows, thr) + (if Keeps(r, thr) then [r] else [])
  {
    assert (rows + [r])[..|rows|] == rows;
  }

  /** Threshold subsets are nested: filtering high after low is filtering high. */
  lemma {:induction false} KeptNested(rows: seq<Record>, low: real, high: real)
    requires low <= high
    ensures Kept(Kept(rows, low), high) == Kept(rows, high)
  {
    if rows != [] {
      var init, r := rows[..|rows| - 1], rows[|rows| - 1];
      KeptNested(init, low, high);
      if Keeps(r, low) { KeptSnoc(Kept(init, low), r, high); } else { assert Kept(init, low) + [] == Kept(init, low); }
    }
  }

  // ---------------------------------------------------------------- report thresholds are replay thresholds

  lemma NearestReaches(y: real, n: int)
    requires n % 2 == 0
    ensures Nearest(y) >= n <==> y >= n as real - 0.5
  {
    var f := y.Floor;
    assert f as real <= y < f as real + 1.0;
    if f >= n {
      assert f as real >= n as real;
    } else if f == n - 1 {
      assert f as real == n as real - 1.0;
    } else {
      assert (f + 2) as real <= n as real;
      assert f as real + 2.0 == (f + 2) as real;
    }
  }

  /** Rounding to a tenth reaches a whole number from a twentieth below it. */
  lemma RoundReaches(x: real, t: int)
    ensures Round1(x) >= t as real <==> x >= t as real - 0.05
  {
    hide Nearest, Round1;
    TenthAtLeast(x, t);
    NearestReaches(10.0 * x, 10 * t);
    Scaled(x, t);
  }

  lemma TenthAtLeast(x: real, t: int)
    ensures Round1(x) >= t as real <==> Nearest(10.0 * x) >= 10 * t
  {
    hide Nearest;
    var n := Nearest(10.0 * x);
    assert n as real / 10.0 >= t as real <==> n as real >= 10.0 * t as real;
    assert (10 * t) as real == 10.0 * t as real;
  }

  lemma Scaled(x: real, t: int)
    ensures x >= t as real - 0.05 <==> 10.0 * x >= (10 * t) as real - 0.5
  {
    assert (10 * t) as real == 10.0 * t as real;
  }

  /** What the report keeps at t, of a row recorded at threshold `base`, is what a replay at the
      larger of `base` and t - 0.05 fires. */
  lemma KeepsIsFires(job: Job, base: real, t: int, i: nat)
    requires Runnable(job) && 3 <= i < |job.cs|
    ensures
      var higher := Max(base, t as real - 0.05);
      var a, b := RecordAt(job, base, i), RecordAt(job, higher, i);
      && (a.Some? && Keeps(a.value, t as real) <==> b.Some? && b.value.fired)
      && (b.Some? && b.value.fired ==> a == b)
  {
    hide ScoresAt, Round1, ForwardExtremes, LabelOf;
    var higher := Max(base, t as real - 0.05);
    var s := ScoresAt(job.cs, job.cfg, job.q, i);
    RoundReaches(Max(s.buy, s.sell), t);
    ThresholdMonotone(s, job.cfg, base, higher);
    DirectionIsLarger(s, base);
    DirectionIsLarger(s, higher);
  }

  lemma NoneKept()
    ensures Fired([]) == [] && forall thr :: Kept([], thr) == []
  {
  }

  lemma {:induction false} KeptIsFiredUpTo(job: Job, base: real, t: int, n: nat)
    requires Runnable(job) && n <= |job.cs|
    ensures Kept(Records(job, base, n), t as real) == Fired(Records(job, Max(base, t as real - 0.05), n))
    decreases n
  {
    hide RecordAt, Keeps, Fired, Kept, Warmup, Max, Records;
    var higher := Max(base, t as real - 0.05);
    WarmupIsEnough(job.cfg);
    NoneKept();
    if n <= Warmup(job.cfg) {
      BeforeWarmup(job, base, n);
      BeforeWarmup(job, higher, n);
    } else {
      KeptIsFiredUpTo(job, base, t, n - 1);
      KeepsIsFires(job, base, t, n - 1);
      RecordsStep(job, base, n - 1);
      RecordsStep(job, higher, n - 1);
      OneMore(Records(job, base, n - 1), Records(job, higher, n - 1),
              RecordAt(job, base, n - 1), RecordAt(job, higher, n - 1), t as real);
    }
  }

  lemma BeforeWarmup(job: Job, threshold: real, n: nat)
    requires Runnable(job) && n <= |job.cs| && n <= Warmup(job.cfg)
    ensures Records(job, threshold, n) == []
  {
  }

  lemma OneMore(x: seq<Record>, y: seq<Record>, a: Option<Record>, b: Option<Record>, thr: real)
    requires Kept(x, thr) == Fired(y)
    requires a.Some? && Keeps(a.value, thr) <==> b.Some? && b.value.fired
    requires b.Some? && b.value.fired ==> a == b
    ensures Kept(x + Listed(a), thr) == Fired(y + Listed(b))
  {
    hide Keeps, Kept, Fired;
    if a.Some? { KeptSnoc(x, a.value, thr); } else { assert x + [] == x; }
    if b.Some? { CountSnoc(y, b.value, Win); } else { assert y + [] == y; }
  }

  /** Main result across the two scripts: the report's subset at a whole threshold t is the list of
      signals a replay would fire at t - 0.05 (or at its own threshold, when that is higher). */
  lemma SubsetIsReplay(job: Job, base: real, t: int)
    requires Runnable(job)
    ensures Kept(AllRecords(job, base), t as real) == Fired(AllRecords(job, Max(base, t as real - 0.05)))
  {
    if job.cs != [] { KeptIsFiredUpTo(job, base, t, |job.cs| - 1); }
  }

  predicate FiresAt(job: Job, threshold: real, i: nat)
    requires Runnable(job) && 3 <= i < |job.cs|
  {
    var r := RecordAt(job, threshold, i);
    r.Some? && r.value.fired
  }

  predicate KeptAt(job: Job, base: real, t: int, i: nat)
    requires Runnable(job) && 3 <= i < |job.cs|
  {
    var r := RecordAt(job, base, i);
    r.Some? && Keeps(r.value, t as real)
  }

  /** So the subset at t is not what a replay at t fires.  The report keeps a record at t that a replay at
      t does not fire exactly when the replay fired it and its raw score lies within a twentieth below t. */
  lemma RoundingAdmits(job: Job, base: real, t: int, i: nat)
    requires Runnable(job) && 3 <= i < |job.cs|
    ensures
      var s := ScoresAt(job.cs, job.cfg, job.q, i);
      KeptAt(job, base, t, i) && !FiresAt(job, t as real, i) <==>
        FiresAt(job, base, i) && t as real - 0.05 <= Max(s.buy, s.sell) < t as real
  {
    hide ScoresAt, RecordAt, Fires, Keeps, Max;
    var s := ScoresAt(job.cs, job.cfg, job.q, i);
    var near := t as real - 0.05;
    KeepsIsFires(job, base, t, i);
    FiresAtIs(job, base, i);
    FiresAtIs(job, t as real, i);
    FiresAtIs(job, Max(base, near), i);
    MaxIs(base, near);
    ThresholdMonotone(s, job.cfg, base, Max(base, near));
    ThresholdMonotone(s, job.cfg, near, Max(base, near));
    if base <= t as real {
      ThresholdMonotone(s, job.cfg, base, t as real);
    } else {
      ThresholdMonotone(s, job.cfg, t as real, base);
    }
  }

  lemma MaxIs(a: real, b: real)
    ensures a <= Max(a, b) && b <= Max(a, b) && (Max(a, b) == a || Max(a, b) == b)
  {
  }

  /** A record fires when its scores do and the bars after it have a price. */
  lemma FiresAtIs(job: Job, threshold: real, i: nat)
    requires Runnable(job) && 3 <= i < |job.cs|
    ensures FiresAt(job, threshold, i) <==>
      Fires(ScoresAt(job.cs, job.cfg, job.q, i), job.cfg, threshold) && ForwardExtremes(job.cs, i - 1, 3).0 > 0.0
  {
    hide ScoresAt, ForwardExtremes, Choose, RsiBlocks, LabelOf, Round1;
  }

  // ---------------------------------------------------------------- statistics

  datatype Stats = Stats(rows: nat, winRate: real, profitFactor: real)

  function StatsOf(rows: seq<Record>, stop: real): Stats {
    if rows == [] then Stats(0, 0.0, 0.0)
    else
      var wins, losses := CountLabel(rows, Win), CountLabel(rows, Loss);
      var decided := wins + losses;
      var rate := if decided > 0 then 100.0 * wins as real / decided as real else 0.0;
      var won, lost := wins as real * stop, losses as real * stop;
      Stats(|rows|, rate, if lost > 0.0 then won / lost else if won > 0.0 then NO_LOSS_FACTOR else 0.0)
  }

  /** The profit factor is the ratio of wins to losses, whatever the stop distance. */
  lemma FactorIsRatio(rows: seq<Record>, stop: real)
    requires stop > 0.0
    ensures
      var s, wins, losses := StatsOf(rows, stop), CountLabel(rows, Win), CountLabel(rows, Loss);
      && s.rows == |rows| && 0.0 <= s.winRate <= 100.0 && 0.0 <= s.profitFactor
      && s.winRate * (wins + losses) as real == 100.0 * wins as real && (wins + losses == 0 ==> s.winRate == 0.0)
      && s.profitFactor ==
         if losses > 0 then wins as real / losses as real else if wins > 0 then 99.99 else 0.0
  {
    hide CountLabel;
    NoneCounted();
    if rows != [] {
      var wins, losses := CountLabel(rows, Win), CountLabel(rows, Loss);
      if wins + losses > 0 { ShareOf(wins, wins + losses); }
      if wins + losses == 0 { assert wins == 0; }
      if losses > 0 { CancelStop(wins as real, losses as real, stop); }
      if wins > 0 { assert wins as real * stop > 0.0; }
    }
  }

  lemma NoneCounted()
    ensures forall l :: CountLabel([], l) == 0
  {
  }

  lemma ShareOf(n: nat, d: nat)
    requires n <= d && d > 0
    ensures 0.0 <= 100.0 * n as real / d as real <= 100.0
    ensures 100.0 * n as real / d as real * d as real == 100.0 * n as real
  {
    var q := 100.0 * n as real / d as real;
    assert q * d as real == 100.0 * n as real;
    assert (100.0 - q) * d as real == 100.0 * (d as real - n as real);
    QuotientOf(100.0 * (d as real - n as real), d as real, 100.0 - q);
    NonNegativeQuotient(100.0 * (d as real - n as real), d as real);
    NonNegativeQuotient(100.0 * n as real, d as real);
  }

  lemma NonNegativeQuotient(n: real, d: real)
    requires n >= 0.0 && d > 0.0
    ensures n / d >= 0.0
  {
  }

  lemma CancelStop(wins: real, losses: real, stop: real)
    requires wins >= 0.0 && losses > 0.0 && stop > 0.0
    ensures losses * stop > 0.0 && wins * stop / (losses * stop) == wins / losses >= 0.0
  {
    var q := wins / losses;
    assert q * losses == wins;
    assert q * (losses * stop) == wins * stop;
    QuotientOf(wins * stop, losses * stop, q);
  }

  // ---------------------------------------------------------------- the recommendation

  function StatsAt(rows: seq<Record>, stop: real, k: nat): Stats
    requires k < |THRESHOLDS|
  {
    StatsOf(Kept(rows, THRESHOLDS[k] as real), stop)
  }

  predicate Eligible(rows: seq<Record>, stop: real, k: nat)
    requires k < |THRESHOLDS|
  {
    StatsAt(rows, stop, k).rows >= MIN_ROWS
  }

  /** Entry `at` has the largest profit factor of the eligible entries, and no earlier one matches it. */
  ghost predicate FirstBest(rows: seq<Record>, stop: real, at: nat) {
    && at < |THRESHOLDS| && Eligible(rows, stop, at)
    && forall k :: 0 <= k < |THRESHOLDS| && Eligible(rows, stop, k) ==>
         if k < at then StatsAt(rows, stop, k).profitFactor < StatsAt(rows, stop, at).profitFactor
         else StatsAt(rows, stop, k).profitFactor <= StatsAt(rows, stop, at).profitFactor
  }

  lemma EligibleIs(rows: seq<Record>, stop: real, t: int) returns (k: nat)
    requires t in [50, 60, 70, 75, 80, 85, 90]
    ensures k < |THRESHOLDS| && THRESHOLDS[k] == t
    ensures Eligible(rows, stop, k) <==> |Kept(rows, t as real)| >= 5
    ensures StatsAt(rows, stop, k) == StatsOf(Kept(rows, t as real), stop)
  {
    hide Kept;
    k := if t == 50 then 0 else if t == 60 then 1 else if t == 70 then 2 else if t == 75 then 3
         else if t == 80 then 4 else if t == 85 then 5 else 6;
  }

  lemma BestOfAll(rows: seq<Record>, stop: real, at: nat)
    requires FirstBest(rows, stop, at)
    ensures |Kept(rows, THRESHOLDS[at] as real)| >= 5
    ensures forall t :: t in [50, 60, 70, 75, 80, 85, 90] && |Kept(rows, t as real)| >= 5 ==>
      StatsOf(Kept(rows, t as real), stop).profitFactor <=
      StatsOf(Kept(rows, THRESHOLDS[at] as real), stop).profitFactor
  {
    hide StatsOf, Kept, Eligible;
    var best := EligibleIs(rows, stop, THRESHOLDS[at]);
    forall t | t in [50, 60, 70, 75, 80, 85, 90] && |Kept(rows, t as real)| >= 5
      ensures
        StatsOf(Kept(rows, t as real), stop).profitFactor <=
        StatsOf(Kept(rows, THRESHOLDS[at] as real), stop).profitFactor
    {
      var k := EligibleIs(rows, stop, t);
    }
  }

  lemma NoneEligible(rows: seq<Record>, stop: real)
    requires forall k :: 0 <= k < |THRESHOLDS| ==> !Eligible(rows, stop, k)
    ensures forall t :: t in [50, 60, 70, 75, 80, 85, 90] ==> |Kept(rows, t as real)| < 5
  {
    hide Kept, StatsOf, Eligible;
    forall t | t in [50, 60, 70, 75, 80, 85, 90]
      ensures |Kept(rows, t as real)| < 5
    {
      var k := EligibleIs(rows, stop, t);
    }
  }

  /** The recommended threshold is the first one with the largest profit factor among those that keep
      at least five rows, and 70 when none does. */
  method BestThreshold(rows: seq<Record>, stop: real) returns (best: int)
    requires stop > 0.0
    ensures if exists k :: 0 <= k < |THRESHOLDS| && Eligible(rows, stop, k)
      then exists at: nat :: FirstBest(rows, stop, at) && best == THRESHOLDS[at]
      else best == 70
    ensures best in [50, 60, 70, 75, 80, 85, 90]
    ensures forall t :: t in [50, 60, 70, 75, 80, 85, 90] && |Kept(rows, t as real)| >= 5 ==>
      && |Kept(rows, best as real)| >= 5
      && StatsOf(Kept(rows, t as real), stop).profitFactor <= StatsOf(Kept(rows, best as real), stop).profitFactor
  {
    hide StatsOf;
    best := 70;
    ghost var at := -1;
    var bestPf := -1.0;
    var k := 0;
    while k < |THRESHOLDS|
      invariant 0 <= k <= |THRESHOLDS| && -1 <= at < k
      invariant at < 0 ==> best == 70 && bestPf == -1.0 && forall j :: 0 <= j < k ==> !Eligible(rows, stop, j)
      invariant at >= 0 ==>
        best == THRESHOLDS[at] && Eligible(rows, stop, at) && bestPf == StatsAt(rows, stop, at).profitFactor
      invariant forall j :: 0 <= j < k && at >= 0 && Eligible(rows, stop, j) ==>
        if j < at then StatsAt(rows, stop, j).profitFactor < bestPf else StatsAt(rows, stop, j).profitFactor <= bestPf
    {
      var thr := THRESHOLDS[k];
      var subset := FilterThreshold(rows, thr as real);
      var s := StatsOf(subset, stop);
      FactorIsRatio(subset, stop);
      if s.rows >= MIN_ROWS && s.profitFactor > bestPf {
        bestPf, best := s.profitFactor, thr;
        at := k;
      }
      k := k + 1;
    }
    if at >= 0 {
      assert FirstBest(rows, stop, at);
      BestOfAll(rows, stop, at);
    } else {
      NoneEligible(rows, stop);
    }
  }
}
