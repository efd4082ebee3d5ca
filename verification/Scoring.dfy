/** The scoring formula of the batch replay at one loop index, and its laws. */
module Scoring {
  import opened Wrappers
  import opened Indicators
  import opened RollUp

  datatype Config = Config(
    periods: Periods, maxAtr: real, momentumGap: real, maxSpread: real,
    rsiBuyMin: real, rsiBuyMax: real, rsiSellMin: real, rsiSellMax: real, volFilter: bool)

  datatype Regime = Unknown | Low | Normal | High

  /** The rolling quantile of pandas, left abstract: a function of the window it is given. */
  type Quantile = (seq<real>, real) -> real

  const REGIME_WINDOW := 100
  const REGIME_MIN := 10

  function RegimeAt(atr: seq<real>, q: Quantile, k: nat): Regime
    requires k < |atr|
  {
    var w := atr[if k + 1 > REGIME_WINDOW then k + 1 - REGIME_WINDOW else 0..k + 1];
    if |w| < REGIME_MIN then Unknown
    else if atr[k] >= q(w, 0.75) then High
    else if atr[k] <= q(w, 0.25) then Low
    else Normal
  }

  /** Everything the formula reads at loop index i; None stands for NaN. */
  datatype View = View(
    last: Candle, prev: Candle, prev2: Candle, atr: real, rsi: real, fast: real, slow: real,
    fast15: Option<real>, slow15: Option<real>, rsi15: Option<real>, regime: Regime)

  /** Python's `x or fallback`: NaN stays, zero falls back. */
  function OrElse(x: Option<real>, fallback: real): Option<real> {
    match x
    case None => None
    case Some(v) => if v == 0.0 then Some(fallback) else x
  }

  function ViewAt(cs: seq<Candle>, cfg: Config, q: Quantile, i: nat): View
    requires Usable(cfg.periods) && 3 <= i <= |cs|
  {
    var p, k, bins := cfg.periods, i - 1, Bins(cs);
    var t := cs[k].time;
    var fast, slow, rsi := Fast(p, cs)[k], Slow(p, cs)[k], Rsi(p, cs)[k];
    View(cs[k], cs[k - 1], cs[k - 2], Atr(p, cs)[k], rsi, fast, slow,
         OrElse(Shifted(Fast(p, bins), bins, t), fast),
         OrElse(Shifted(Slow(p, bins), bins, t), slow),
         OrElse(Shifted(Rsi(p, bins), bins, t), rsi),
         RegimeAt(Atr(p, cs), q, k))
  }

  // ---------------------------------------------------------------- parts of the score

  /** Comparisons with NaN are false. */
  predicate AtLeast(x: Option<real>, y: Option<real>) {
    x.Some? && y.Some? && x.value >= y.value
  }

  function Points(b: bool, n: real): real {
    if b then n else 0.0
  }

  function Momentum(v: View, cfg: Config): real {
    Min(10.0, Abs(v.fast - v.slow) / Max(cfg.momentumGap, 1.0) * 10.0)
  }

  function BuyCap(cfg: Config): real {
    if cfg.rsiBuyMax > cfg.rsiBuyMin then cfg.rsiBuyMax else 99.0
  }

  function SellCap(cfg: Config): real {
    if cfg.rsiSellMin < cfg.rsiSellMax then cfg.rsiSellMin else 0.0
  }

  function BuyRsi(rsi: real, cfg: Config): real {
    if rsi >= cfg.rsiBuyMin then Min(20.0, Max(0.0, Min(rsi, BuyCap(cfg)) - cfg.rsiBuyMin)) else 0.0
  }

  function SellRsi(rsi: real, cfg: Config): real {
    if rsi <= cfg.rsiSellMax then Min(20.0, Max(0.0, cfg.rsiSellMax - Max(rsi, SellCap(cfg)))) else 0.0
  }

  function SpreadScore(spread: real, cfg: Config): real {
    if cfg.maxSpread > 0.0 then Max(0.0, Min(20.0, 20.0 * (1.0 - spread / Max(cfg.maxSpread, 0.01)))) else 0.0
  }

  predicate TwoBull(v: View) {
    v.last.close >= v.last.open && v.prev.close >= v.prev.open
  }

  predicate TwoBear(v: View) {
    v.last.close <= v.last.open && v.prev.close <= v.prev.open
  }

  predicate PriceUp(v: View) {
    v.last.close >= v.prev.close >= v.prev2.close
  }

  predicate PriceDown(v: View) {
    v.last.close <= v.prev.close <= v.prev2.close
  }

  function RawBuy(v: View, cfg: Config): real {
    Points(AtLeast(v.fast15, v.slow15) && AtLeast(v.rsi15, Some(50.0)), 30.0)
    + Points(v.fast > v.slow, 20.0)
    + BuyRsi(v.rsi, cfg)
    + Points(PriceUp(v), 10.0)
    + SpreadScore(v.last.spread, cfg)
    + Points(TwoBull(v), 10.0)
    + Points(v.fast > v.slow, Momentum(v, cfg))
  }

  function RawSell(v: View, cfg: Config): real {
    Points(AtLeast(v.slow15, v.fast15) && AtLeast(Some(50.0), v.rsi15), 30.0)
    + Points(v.fast < v.slow, 20.0)
    + SellRsi(v.rsi, cfg)
    + Points(PriceDown(v), 10.0)
    + SpreadScore(v.last.spread, cfg)
    + Points(TwoBear(v), 10.0)
    + Points(v.fast < v.slow, Momentum(v, cfg))
  }

  predicate AtrTooHigh(v: View, cfg: Config) {
    cfg.maxAtr > 0.0 && v.atr > cfg.maxAtr
  }

  predicate VolBlocked(v: View, cfg: Config) {
    AtrTooHigh(v, cfg) || (cfg.volFilter && v.regime == Low)
  }

  predicate Wide(v: View, cfg: Config) {
    cfg.maxSpread > 0.0 && v.last.spread > cfg.maxSpread
  }

  /** The three penalties, applied one after another. */
  function Penalised(score: real, v: View, cfg: Config): real {
    var a := if VolBlocked(v, cfg) then score * 0.5 else score;
    var b := if AtrTooHigh(v, cfg) then a * 0.65 else a;
    if Wide(v, cfg) then b * 0.5 else b
  }

  datatype Scores = Scores(buy: real, sell: real, rsi: real, regime: Regime)

  function ScoresOf(v: View, cfg: Config): Scores {
    Scores(Penalised(RawBuy(v, cfg), v, cfg), Penalised(RawSell(v, cfg), v, cfg), v.rsi, v.regime)
  }

  function ScoresAt(cs: seq<Candle>, cfg: Config, q: Quantile, i: nat): Scores
    requires Usable(cfg.periods) && 3 <= i <= |cs|
  {
    ScoresOf(ViewAt(cs, cfg, q, i), cfg)
  }

  // ---------------------------------------------------------------- decision

  datatype Direction = Buy | Sell | Wait

  function Choose(s: Scores, threshold: real): Direction {
    var buyOk, sellOk := s.buy >= threshold, s.sell >= threshold;
    if buyOk && sellOk then (if s.buy >= s.sell then Buy else Sell)
    else if buyOk then Buy
    else if sellOk then Sell
    else Wait
  }

  predicate RsiBlocks(d: Direction, s: Scores, cfg: Config) {
    || (d == Buy && cfg.rsiBuyMax > 0.0 && s.rsi > cfg.rsiBuyMax)
    || (d == Sell && cfg.rsiSellMin > 0.0 && s.rsi < cfg.rsiSellMin)
  }

  predicate Fires(s: Scores, cfg: Config, threshold: real) {
    var d := Choose(s, threshold);
    d != Wait && !RsiBlocks(d, s, cfg)
  }

  // ---------------------------------------------------------------- no look-ahead

  /** Two series that agree on the bars before loop index i score alike at i, whatever comes later:
      scores, RSI and volatility regime, through both time frames. */
  lemma NoLookAhead(a: seq<Candle>, b: seq<Candle>, cfg: Config, q: Quantile, i: nat)
    requires Usable(cfg.periods) && Increasing(a) && Increasing(b)
    requires 3 <= i <= |a| && i <= |b| && a[..i] == b[..i]
    ensures ViewAt(a, cfg, q, i) == ViewAt(b, cfg, q, i)
    ensures ScoresAt(a, cfg, q, i) == ScoresAt(b, cfg, q, i)
  {
    hide Bins, Shifted, Fast, Slow, Rsi, Atr, RegimeAt, ScoresOf;
    var p, k := cfg.periods, i - 1;
    ColumnsAgree(p, a, b, i);
    RegimeCausal(Atr(p, a), Atr(p, b), q, k);
    SlowFrameAgrees(p, a, b, k);
    assert a[k] == a[..i][k] == b[k] && a[k - 1] == a[..i][k - 1] == b[k - 1] && a[k - 2] == a[..i][k - 2] == b[k - 2];
  }

  lemma ColumnsAgree(p: Periods, a: seq<Candle>, b: seq<Candle>, n: nat)
    requires Usable(p) && n <= |a| && n <= |b| && a[..n] == b[..n]
    ensures Fast(p, a)[..n] == Fast(p, b)[..n] && Slow(p, a)[..n] == Slow(p, b)[..n]
    ensures Rsi(p, a)[..n] == Rsi(p, b)[..n] && Atr(p, a)[..n] == Atr(p, b)[..n]
    ensures forall k :: 0 <= k < n ==> Fast(p, a)[k] == Fast(p, b)[k] && Slow(p, a)[k] == Slow(p, b)[k]
    ensures forall k :: 0 <= k < n ==> Rsi(p, a)[k] == Rsi(p, b)[k] && Atr(p, a)[k] == Atr(p, b)[k]
  {
    hide Fast, Slow, Rsi, Atr;
    ColumnsPrefix(p, a, n);
    ColumnsPrefix(p, b, n);
    forall k | 0 <= k < n
      ensures Fast(p, a)[k] == Fast(p, b)[k] && Slow(p, a)[k] == Slow(p, b)[k]
      ensures Rsi(p, a)[k] == Rsi(p, b)[k] && Atr(p, a)[k] == Atr(p, b)[k]
    {
      assert Fast(p, a)[..n][k] == Fast(p, b)[..n][k] && Slow(p, a)[..n][k] == Slow(p, b)[..n][k];
      assert Rsi(p, a)[..n][k] == Rsi(p, b)[..n][k] && Atr(p, a)[..n][k] == Atr(p, b)[..n][k];
    }
  }

  lemma RegimeCausal(x: seq<real>, y: seq<real>, q: Quantile, k: nat)
    requires k < |x| && k < |y| && x[..k + 1] == y[..k + 1]
    ensures RegimeAt(x, q, k) == RegimeAt(y, q, k)
  {
    assert x[k] == x[..k + 1][k] && y[k] == y[..k + 1][k];
    var lo := if k + 1 > REGIME_WINDOW then k + 1 - REGIME_WINDOW else 0;
    assert x[lo..k + 1] == x[..k + 1][lo..] && y[lo..k + 1] == y[..k + 1][lo..];
  }

  /** The joined fifteen-minute values at bar k agree. */
  lemma SlowFrameAgrees(p: Periods, a: seq<Candle>, b: seq<Candle>, k: nat)
    requires Usable(p) && Increasing(a) && Increasing(b)
    requires k < |a| && k < |b| && a[..k + 1] == b[..k + 1]
    ensures Shifted(Fast(p, Bins(a)), Bins(a), a[k].time) == Shifted(Fast(p, Bins(b)), Bins(b), b[k].time)
    ensures Shifted(Slow(p, Bins(a)), Bins(a), a[k].time) == Shifted(Slow(p, Bins(b)), Bins(b), b[k].time)
    ensures Shifted(Rsi(p, Bins(a)), Bins(a), a[k].time) == Shifted(Rsi(p, Bins(b)), Bins(b), b[k].time)
  {
    hide Fast, Slow, Rsi, Atr, Shifted, Bins;
    var u, v := Bins(a), Bins(b);
    var m := |Bins(a[..k + 1])| - 1;
    BinsGrow(a, k + 1);
    BinsGrow(b, k + 1);
    ColumnsAgree(p, u, v, m);
    JoinCausal(a, b, k, Fast(p, u), Fast(p, v));
    JoinCausal(a, b, k, Slow(p, u), Slow(p, v));
    JoinCausal(a, b, k, Rsi(p, u), Rsi(p, v));
  }

  // ---------------------------------------------------------------- bounds

  lemma PartBounds(v: View, cfg: Config)
    ensures 0.0 <= BuyRsi(v.rsi, cfg) <= 20.0 && 0.0 <= SellRsi(v.rsi, cfg) <= 20.0
    ensures 0.0 <= SpreadScore(v.last.spread, cfg) <= 20.0
    ensures 0.0 <= Momentum(v, cfg) <= 10.0
  {
    var gap := Max(cfg.momentumGap, 1.0);
    var d := Abs(v.fast - v.slow);
    assert d / gap >= 0.0;
  }

  /** Both scores lie in [0, 120] before and after the penalties, for every configuration and series. */
  lemma ScoreBounds(v: View, cfg: Config)
    ensures 0.0 <= ScoresOf(v, cfg).buy <= RawBuy(v, cfg) <= 120.0
    ensures 0.0 <= ScoresOf(v, cfg).sell <= RawSell(v, cfg) <= 120.0
  {
    hide BuyRsi, SellRsi, SpreadScore, Momentum;
    PartBounds(v, cfg);
  }

  /** The penalties scale scores, so they neither make nor break an equality. */
  lemma PenaltyScales(x: real, y: real, v: View, cfg: Config)
    ensures Penalised(x, v, cfg) == Penalised(y, v, cfg) <==> x == y
    ensures Penalised(x, v, cfg) < Penalised(y, v, cfg) <==> x < y
  {
    hide VolBlocked, AtrTooHigh, Wide;
  }

  // ---------------------------------------------------------------- thresholds

  /** A direction other than Wait says which score is larger, whatever the threshold. */
  lemma DirectionIsLarger(s: Scores, threshold: real)
    ensures Choose(s, threshold) != Wait <==> Max(s.buy, s.sell) >= threshold
    ensures Choose(s, threshold) != Wait ==> (Choose(s, threshold) == Buy <==> s.buy >= s.sell)
  {
  }

  /** Raising the threshold only drops signals; it never adds or flips one. */
  lemma ThresholdMonotone(s: Scores, cfg: Config, low: real, high: real)
    requires low <= high
    ensures Choose(s, high) == Choose(s, low) || Choose(s, high) == Wait
    ensures Fires(s, cfg, high) <==> Fires(s, cfg, low) && Max(s.buy, s.sell) >= high
  {
    DirectionIsLarger(s, low);
    DirectionIsLarger(s, high);
  }

  // ---------------------------------------------------------------- mirror symmetry

  function MirrorConfig(cfg: Config): Config {
    cfg.(rsiBuyMin := 100.0 - cfg.rsiSellMax, rsiBuyMax := 100.0 - cfg.rsiSellMin,
         rsiSellMin := 100.0 - cfg.rsiBuyMax, rsiSellMax := 100.0 - cfg.rsiBuyMin)
  }

  predicate ProperRanges(cfg: Config) {
    && cfg.rsiBuyMin < cfg.rsiBuyMax && cfg.rsiSellMin < cfg.rsiSellMax
    && 0.0 < cfg.rsiBuyMax && cfg.rsiSellMin < 100.0
  }

  function Flip(x: Option<real>, c: real): Option<real> {
    match x
    case None => None
    case Some(v) => Some(c - v)
  }

  function MirrorView(c: real, v: View): View {
    View(MirrorCandle(c, v.last), MirrorCandle(c, v.prev), MirrorCandle(c, v.prev2), v.atr, 100.0 - v.rsi,
         c - v.fast, c - v.slow, Flip(v.fast15, c), Flip(v.slow15, c), Flip(v.rsi15, 100.0), v.regime)
  }

  function Opposite(d: Direction): Direction {
    match d
    case Buy => Sell
    case Sell => Buy
    case Wait => Wait
  }

  lemma RsiPartsMirror(rsi: real, cfg: Config)
    requires ProperRanges(cfg)
    ensures BuyRsi(100.0 - rsi, MirrorConfig(cfg)) == SellRsi(rsi, cfg)
    ensures SellRsi(100.0 - rsi, MirrorConfig(cfg)) == BuyRsi(rsi, cfg)
  {
  }

  /** On a mirrored view the two scores change places. */
  lemma ScoresMirror(c: real, v: View, cfg: Config)
    requires ProperRanges(cfg)
    ensures ScoresOf(MirrorView(c, v), MirrorConfig(cfg)).buy == ScoresOf(v, cfg).sell
    ensures ScoresOf(MirrorView(c, v), MirrorConfig(cfg)).sell == ScoresOf(v, cfg).buy
  {
    hide RawBuy, RawSell, Penalised;
    RawMirror(c, v, cfg);
    PenaltyMirror(c, v, cfg, RawBuy(v, cfg));
    PenaltyMirror(c, v, cfg, RawSell(v, cfg));
  }

  lemma RawMirror(c: real, v: View, cfg: Config)
    requires ProperRanges(cfg)
    ensures RawBuy(MirrorView(c, v), MirrorConfig(cfg)) == RawSell(v, cfg)
    ensures RawSell(MirrorView(c, v), MirrorConfig(cfg)) == RawBuy(v, cfg)
  {
    hide BuyRsi, SellRsi, SpreadScore, Momentum, MirrorConfig, Points;
    RsiPartsMirror(v.rsi, cfg);
    MomentumMirror(c, v, cfg);
  }

  lemma PenaltyMirror(c: real, v: View, cfg: Config, score: real)
    ensures Penalised(score, MirrorView(c, v), MirrorConfig(cfg)) == Penalised(score, v, cfg)
  {
  }

  lemma MomentumMirror(c: real, v: View, cfg: Config)
    ensures Momentum(MirrorView(c, v), MirrorConfig(cfg)) == Momentum(v, cfg)
    ensures SpreadScore(v.last.spread, MirrorConfig(cfg)) == SpreadScore(v.last.spread, cfg)
  {
    assert Abs((c - v.fast) - (c - v.slow)) == Abs(v.fast - v.slow);
  }

  /** The prices on both sides of the mirror are positive. */
  ghost predicate TwoSided(c: real, cs: seq<Candle>) {
    forall i :: 0 <= i < |cs| ==> 0.0 < cs[i].close < c
  }

  /** Neither smoothed gain nor smoothed loss vanishes alone at the rows read at loop index i. */
  ghost predicate BalancedAt(p: Periods, cs: seq<Candle>, i: nat)
    requires Usable(p) && 3 <= i <= |cs|
  {
    && Balanced(p.rsi, cs, i - 1)
    && (var m := AsOf(Bins(cs), cs[i - 1].time); m > 0 ==> Balanced(p.rsi, Bins(cs), m - 1))
  }

  lemma {:induction false} CloseRange(cs: seq<Candle>, c: real) returns (lo: real, hi: real)
    requires TwoSided(c, cs) && 0.0 < c
    ensures 0.0 < lo && hi < c && ClosesWithin(cs, lo, hi)
  {
    if cs == [] {
      lo, hi := 1.0, 0.0;
    } else {
      var n := |cs| - 1;
      lo, hi := CloseRange(cs[..n], c);
      lo, hi := Min(lo, cs[n].close), Max(hi, cs[n].close);
    }
  }

  lemma BalancedInterior(p: Periods, cs: seq<Candle>, k: nat)
    requires Usable(p) && k < |cs| && Balanced(p.rsi, cs, k)
    ensures 0.0 < Rsi(p, cs)[k] < 100.0
  {
    if k > 0 {
      MeansNonNegative(p.rsi, cs, k);
      RsiInterior(MeanGain(p.rsi, cs, k), MeanLoss(p.rsi, cs, k));
    }
  }

  lemma RsiInterior(gain: real, loss: real)
    requires 0.0 <= gain && 0.0 <= loss && (gain == 0.0 <==> loss == 0.0)
    ensures 0.0 < RsiOf(gain, loss) < 100.0
  {
    RsiRange(gain, loss);
    if loss > 0.0 {
      var d := gain + loss;
      var r := 100.0 * gain / d;
      assert r * d == 100.0 * gain;
      assert (100.0 - r) * d == 100.0 * loss;
      QuotientOf(100.0 * loss, d, 100.0 - r);
      PositiveQuotient(100.0 * gain, d);
      PositiveQuotient(100.0 * loss, d);
    }
  }

  lemma PositiveQuotient(n: real, d: real)
    requires n > 0.0 && d > 0.0
    ensures n / d > 0.0
  {
  }

  lemma EarlierWithin(cs: seq<Candle>, lo: real, hi: real, n: nat)
    requires ClosesWithin(cs, lo, hi) && n <= |cs|
    ensures ClosesWithin(cs[..n], lo, hi)
  {
  }

  /** The joined averages of the mirrored series are the mirrored joined averages, balanced or not, and
      none of them is zero. */
  lemma AveragesMirror(p: Periods, c: real, cs: seq<Candle>, k: nat)
    requires Usable(p) && Increasing(cs) && k < |cs| && TwoSided(c, cs) && 0.0 < c
    ensures
      var u, v, t := Bins(cs), Bins(Mirror(c, cs)), cs[k].time;
      && Shifted(Fast(p, v), v, t) == Flip(Shifted(Fast(p, u), u, t), c)
      && Shifted(Slow(p, v), v, t) == Flip(Shifted(Slow(p, u), u, t), c)
      && (Shifted(Fast(p, u), u, t).Some? ==> 0.0 < Shifted(Fast(p, u), u, t).value < c)
      && (Shifted(Slow(p, u), u, t).Some? ==> 0.0 < Shifted(Slow(p, u), u, t).value < c)
  {
    hide Fast, Slow, Rsi, Atr, Bins, AsOf, Balanced, ClosesWithin, Increasing, TwoSided;
    var u, t := Bins(cs), cs[k].time;
    BinsMirror(c, cs);
    AsOfMirror(c, u, t);
    var m := AsOf(u, t);
    if m > 0 {
      ColumnsMirror(p, c, u, m - 1);
      var lo, hi := CloseRange(cs, c);
      BinClosesWithin(cs, lo, hi);
      EarlierWithin(u, lo, hi, m);
      IndicatorBounds(p, u, lo, hi, m - 1);
    }
  }

  /** The joined values of the mirrored series are the mirrored joined values, and none of them is
      the zero that would fall back to the five-minute value. */
  lemma SlowFrameMirror(p: Periods, c: real, cs: seq<Candle>, k: nat)
    requires Usable(p) && Increasing(cs) && k < |cs| && 2 <= k && BalancedAt(p, cs, k + 1)
    requires TwoSided(c, cs) && 0.0 < c
    ensures
      var u, v, t := Bins(cs), Bins(Mirror(c, cs)), cs[k].time;
      && Shifted(Fast(p, v), v, t) == Flip(Shifted(Fast(p, u), u, t), c)
      && Shifted(Slow(p, v), v, t) == Flip(Shifted(Slow(p, u), u, t), c)
      && Shifted(Rsi(p, v), v, t) == Flip(Shifted(Rsi(p, u), u, t), 100.0)
      && (Shifted(Fast(p, u), u, t).Some? ==> 0.0 < Shifted(Fast(p, u), u, t).value < c)
      && (Shifted(Slow(p, u), u, t).Some? ==> 0.0 < Shifted(Slow(p, u), u, t).value < c)
      && (Shifted(Rsi(p, u), u, t).Some? ==> 0.0 < Shifted(Rsi(p, u), u, t).value < 100.0)
  {
    hide Fast, Slow, Rsi, Atr, Bins, AsOf, Balanced;
    var u, t := Bins(cs), cs[k].time;
    BinsMirror(c, cs);
    AsOfMirror(c, u, t);
    AveragesMirror(p, c, cs, k);
    var m := AsOf(u, t);
    if m > 0 {
      ColumnsMirror(p, c, u, m - 1);
      BalancedInterior(p, u, m - 1);
    }
  }

  /** The view of the mirrored series is the mirrored view. */
  lemma ViewMirror(c: real, cs: seq<Candle>, cfg: Config, q: Quantile, i: nat)
    requires Usable(cfg.periods) && Increasing(cs) && 3 <= i <= |cs|
    requires TwoSided(c, cs) && 0.0 < c && BalancedAt(cfg.periods, cs, i)
    ensures ViewAt(Mirror(c, cs), MirrorConfig(cfg), q, i) == MirrorView(c, ViewAt(cs, cfg, q, i))
  {
    hide Fast, Slow, Rsi, Atr, Bins, Shifted, RegimeAt, Balanced;
    var p, k := cfg.periods, i - 1;
    ColumnsMirror(p, c, cs, k);
    SlowFrameMirror(p, c, cs, k);
    AtrMirror(p, c, cs);
  }

  lemma AtrMirror(p: Periods, c: real, cs: seq<Candle>)
    requires Usable(p)
    ensures Atr(p, Mirror(c, cs)) == Atr(p, cs)
  {
    hide Atr;
    forall k | 0 <= k < |cs|
      ensures Atr(p, Mirror(c, cs))[k] == Atr(p, cs)[k]
    {
      ColumnsMirror(p, c, cs, k);
    }
  }

  /** The bin before the one that the join picks at loop index i; negative when there is none. */
  function LastJoined(cs: seq<Candle>, i: nat): int
    requires 3 <= i <= |cs|
  {
    AsOf(Bins(cs), cs[i - 1].time) - 1
  }

  /** The two moved, or neither did. */
  ghost predicate BothOrNeither(cs: seq<Candle>, k: nat)
    requires k < |cs|
  {
    Rose(cs, k) <==> Fell(cs, k)
  }

  /** The balance condition, on prices a caller holds: with an RSI period of two or more it says that, in
      the bars before i and in the finished quarter hours before them, closes both rose and fell or did
      neither. */
  lemma BalancedAtIff(p: Periods, cs: seq<Candle>, i: nat)
    requires Usable(p) && p.rsi >= 2 && 3 <= i <= |cs|
    ensures BalancedAt(p, cs, i) <==>
      BothOrNeither(cs, i - 1) && (LastJoined(cs, i) >= 0 ==> BothOrNeither(Bins(cs), LastJoined(cs, i)))
  {
    hide Balanced, Rose, Fell, Bins, AsOf;
    BalancedIff(p.rsi, cs, i - 1);
    var m := AsOf(Bins(cs), cs[i - 1].time);
    if m > 0 { BalancedIff(p.rsi, Bins(cs), m - 1); }
  }

  /** The premises below are met, for one, by every series that stands still. */
  lemma StandingStillIsBalanced(p: Periods, cs: seq<Candle>, price: real, i: nat)
    requires Usable(p) && Increasing(cs) && 3 <= i <= |cs| && ClosesWithin(cs, price, price)
    ensures BalancedAt(p, cs, i)
  {
    hide Balanced, Bins, AsOf, ClosesWithin, Increasing;
    NoMoveNoMeans(p.rsi, cs, price, i - 1);
    BinClosesWithin(cs, price, price);
    var m := AsOf(Bins(cs), cs[i - 1].time);
    if m > 0 { NoMoveNoMeans(p.rsi, Bins(cs), price, m - 1); }
  }

  lemma NoMoveNoMeans(period: int, cs: seq<Candle>, price: real, k: nat)
    requires period >= 1 && k < |cs| && ClosesWithin(cs, price, price)
    ensures Balanced(period, cs, k)
  {
    hide Balanced;
    BalancedIff(period, cs, k);
  }

  function Flat(time: int, price: real): Candle {
    Candle(time, price, price, price, price, 0.0)
  }

  /** One flat bar a quarter hour. */
  function Flats(time: int, closes: seq<real>): (cs: seq<Candle>)
    ensures |cs| == |closes|
  {
    seq(|closes|, k requires 0 <= k < |closes| => Flat(time + k * QUARTER, closes[k]))
  }

  /** Such bars are their own fifteen-minute candles, and the join picks the bar itself. */
  lemma FlatsAreBins(time: int, closes: seq<real>, i: nat)
    requires time % QUARTER == 0 && 3 <= i <= |closes|
    ensures Increasing(Flats(time, closes)) && Bins(Flats(time, closes)) == Flats(time, closes)
    ensures LastJoined(Flats(time, closes), i) == i - 2
  {
    hide Bins, AsOf, Increasing, Aligned;
    var cs := Flats(time, closes);
    FlatsAligned(time, closes);
    QuarterBars(cs);
    AsOfIs(cs, cs[i - 1].time, i - 1);
  }

  lemma FlatsAligned(time: int, closes: seq<real>)
    requires time % QUARTER == 0
    ensures Increasing(Flats(time, closes)) && Aligned(Flats(time, closes))
  {
    var cs := Flats(time, closes);
    forall m | 0 <= m < |cs|
      ensures cs[m].time % QUARTER == 0
    {
      assert (time + m * QUARTER) % QUARTER == 0;
    }
  }

  lemma WithinTwo(time: int, closes: seq<real>, low: real, high: real, c: real)
    requires 0.0 < low < high < c && forall k :: 0 <= k < |closes| ==> closes[k] == low || closes[k] == high
    ensures TwoSided(c, Flats(time, closes))
  {
  }

  /** And, at every index from 4 on, by series that move both ways in both frames: quarter-hour bars that
      go up and down between two prices. */
  lemma ZigZagIsBalanced(p: Periods, time: int, low: real, high: real, c: real, n: nat, i: nat)
    returns (cs: seq<Candle>)
    requires Usable(p) && p.rsi >= 2 && time % QUARTER == 0 && 0.0 < low < high < c && 4 <= i <= n
    ensures Increasing(cs) && |cs| == n && TwoSided(c, cs) && BalancedAt(p, cs, i)
    ensures Rose(cs, i - 1) && Fell(cs, i - 1)
    ensures LastJoined(cs, i) == i - 2 && Rose(Bins(cs), i - 2) && Fell(Bins(cs), i - 2)
  {
    hide Bins, AsOf, Balanced, BalancedAt, Rose, Fell, Increasing, LastJoined, TwoSided;
    var closes := seq(n, k requires 0 <= k < n => if k % 2 == 0 then low else high);
    cs := Flats(time, closes);
    FlatsAreBins(time, closes, i);
    assert closes[0] == low && closes[1] == high && closes[2] == low;
    WithinTwo(time, closes, low, high, c);
    Steps(cs, i - 1, 0);
    Steps(cs, i - 1, 1);
    Steps(cs, i - 2, 0);
    Steps(cs, i - 2, 1);
    BalancedAtIff(p, cs, i);
  }

  /** Main result: on the mirrored series under the mirrored ranges the scores change places, the
      signal fires when the original does, and the direction is the opposite one exactly when the
      original is not a tie that both sides win. */
  lemma MirrorSymmetry(c: real, cs: seq<Candle>, cfg: Config, q: Quantile, i: nat, threshold: real)
    requires Usable(cfg.periods) && Increasing(cs) && 3 <= i <= |cs| && ProperRanges(cfg)
    requires TwoSided(c, cs) && 0.0 < c && BalancedAt(cfg.periods, cs, i)
    ensures
      var s, m := ScoresAt(cs, cfg, q, i), ScoresAt(Mirror(c, cs), MirrorConfig(cfg), q, i);
      && m.buy == s.sell && m.sell == s.buy && m.rsi == 100.0 - s.rsi && m.regime == s.regime
      && (Choose(m, threshold) == Opposite(Choose(s, threshold)) <==> !(s.buy == s.sell >= threshold))
      && (s.buy != s.sell ==> (Fires(m, MirrorConfig(cfg), threshold) <==> Fires(s, cfg, threshold)))
  {
    hide Fast, Slow, Rsi, Atr, Bins, ViewAt;
    ViewMirror(c, cs, cfg, q, i);
    ScoresMirror(c, ViewAt(cs, cfg, q, i), cfg);
    RsiSeen(cs, cfg, q, i);
    var s, m := ScoresAt(cs, cfg, q, i), ScoresAt(Mirror(c, cs), MirrorConfig(cfg), q, i);
    FlipFacts(s, m, cfg, threshold);
  }

  lemma RsiSeen(cs: seq<Candle>, cfg: Config, q: Quantile, i: nat)
    requires Usable(cfg.periods) && 3 <= i <= |cs|
    ensures 0.0 <= ScoresAt(cs, cfg, q, i).rsi <= 100.0
  {
    hide Fast, Slow, Rsi, Atr, Bins, Shifted, RegimeAt, RawBuy, RawSell, Penalised;
    RsiWithin(cfg.periods, cs, i - 1);
  }

  lemma FlipFacts(s: Scores, m: Scores, cfg: Config, threshold: real)
    requires ProperRanges(cfg) && 0.0 <= s.rsi <= 100.0
    requires m.buy == s.sell && m.sell == s.buy && m.rsi == 100.0 - s.rsi
    ensures Choose(m, threshold) == Opposite(Choose(s, threshold)) <==> !(s.buy == s.sell >= threshold)
    ensures s.buy != s.sell ==> (Fires(m, MirrorConfig(cfg), threshold) <==> Fires(s, cfg, threshold))
  {
  }

  /** The opposite direction is blocked by the mirrored ranges exactly when the direction is by the ranges. */
  lemma BlockMirror(d: Direction, s: Scores, m: Scores, cfg: Config)
    requires ProperRanges(cfg) && 0.0 <= s.rsi <= 100.0 && m.rsi == 100.0 - s.rsi
    ensures RsiBlocks(Opposite(d), m, MirrorConfig(cfg)) <==> RsiBlocks(d, s, cfg)
  {
  }
}
