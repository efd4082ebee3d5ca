/** Where the buy/sell symmetry of the score ends: series that moved one way only. */
module MirrorLimits {
  import opened Wrappers
  import opened Indicators
  import opened RollUp
  import opened Scoring

  /** Before loop index i the closes rose and never fell, and the finished quarter hours never fell. */
  ghost predicate OnlyRose(cs: seq<Candle>, i: nat)
    requires 3 <= i <= |cs|
  {
    && Rose(cs, i - 1) && !Fell(cs, i - 1)
    && (LastJoined(cs, i) >= 0 ==> !Fell(Bins(cs), LastJoined(cs, i)))
  }

  /** With neither gain nor loss RSI is 50 on both sides of the mirror. */
  lemma StillRsi(p: Periods, c: real, cs: seq<Candle>, k: nat)
    requires Usable(p) && p.rsi >= 2 && k < |cs| && !Rose(cs, k) && !Fell(cs, k)
    ensures Rsi(p, cs)[k] == 50.0 && Rsi(p, Mirror(c, cs))[k] == 50.0
  {
    hide Rose, Fell, MeanGain, MeanLoss;
    if k > 0 {
      MeansVanish(p.rsi, cs, k);
      MeansMirror(p.rsi, c, cs, k);
    }
  }

  /** The joined RSI of a series that never fell is 50, and in the mirror 50 or 0. */
  lemma SlowRsi(p: Periods, c: real, cs: seq<Candle>, i: nat)
    requires Usable(p) && p.rsi >= 2 && Increasing(cs) && 3 <= i <= |cs| && TwoSided(c, cs) && 0.0 < c
    requires OnlyRose(cs, i)
    ensures
      var u, v, t := Bins(cs), Bins(Mirror(c, cs)), cs[i - 1].time;
      var x, y := Shifted(Rsi(p, u), u, t), Shifted(Rsi(p, v), v, t);
      (x == None && y == None) || (x == Some(50.0) && (y == Some(50.0) || y == Some(0.0)))
  {
    hide Fast, Slow, Rsi, Atr, Bins, AsOf, Rose, Fell;
    BinsMirror(c, cs);
    AsOfMirror(c, Bins(cs), cs[i - 1].time);
    var u, m := Bins(cs), LastJoined(cs, i);
    if m >= 0 {
      if Rose(u, m) { OneWayRsi(p, c, u, m); } else { StillRsi(p, c, u, m); }
    }
  }

  lemma FlipFallback(x: Option<real>, f: real, c: real)
    requires x.Some? ==> 0.0 < x.value < c
    ensures OrElse(Flip(x, c), c - f) == Flip(OrElse(x, f), c)
  {
  }

  lemma RsiFallback(x: Option<real>, y: Option<real>)
    requires (x == None && y == None) || (x == Some(50.0) && (y == Some(50.0) || y == Some(0.0)))
    ensures OrElse(x, 50.0) == x && OrElse(y, 0.0) == y
  {
  }

  /** The view of the mirrored series is the mirrored view but for its two RSI values. */
  lemma OneWayView(c: real, cs: seq<Candle>, cfg: Config, q: Quantile, i: nat)
    requires Usable(cfg.periods) && cfg.periods.rsi >= 2 && Increasing(cs) && 3 <= i <= |cs|
    requires TwoSided(c, cs) && 0.0 < c && OnlyRose(cs, i)
    ensures
      var v, w := ViewAt(cs, cfg, q, i), ViewAt(Mirror(c, cs), MirrorConfig(cfg), q, i);
      && v.rsi == 50.0 && w.rsi == 0.0
      && (v.rsi15 == None || v.rsi15 == Some(50.0))
      && (w.rsi15 == None <==> v.rsi15 == None)
      && (w.rsi15 != None ==> w.rsi15 == Some(50.0) || w.rsi15 == Some(0.0))
      && w.(rsi := 50.0, rsi15 := v.rsi15) == MirrorView(c, v)
  {
    hide Fast, Slow, Rsi, Atr, Bins, Shifted, RegimeAt, Rose, Fell, AsOf, OrElse, Flip, Increasing, TwoSided, Balanced;
    var p, k := cfg.periods, i - 1;
    var u, m, t := Bins(cs), Bins(Mirror(c, cs)), cs[k].time;
    ColumnsMirror(p, c, cs, k);
    AveragesMirror(p, c, cs, k);
    AtrMirror(p, c, cs);
    OneWayRsi(p, c, cs, k);
    SlowRsi(p, c, cs, i);
    FlipFallback(Shifted(Fast(p, u), u, t), Fast(p, cs)[k], c);
    FlipFallback(Shifted(Slow(p, u), u, t), Slow(p, cs)[k], c);
    RsiFallback(Shifted(Rsi(p, u), u, t), Shifted(Rsi(p, m), m, t));
    HalfFlips(OrElse(Shifted(Rsi(p, u), u, t), 50.0));
  }

  lemma HalfFlips(x: Option<real>)
    ensures x == None || x == Some(50.0) ==> Flip(x, 100.0) == x
  {
  }

  /** The scores differ by the RSI part alone. */
  lemma OneWayRaw(c: real, v: View, w: View, cfg: Config)
    requires ProperRanges(cfg) && v.rsi == 50.0 && w.rsi == 0.0
    requires v.rsi15 == None || v.rsi15 == Some(50.0)
    requires w.rsi15 == None <==> v.rsi15 == None
    requires w.rsi15 != None ==> w.rsi15 == Some(50.0) || w.rsi15 == Some(0.0)
    requires w.(rsi := 50.0, rsi15 := v.rsi15) == MirrorView(c, v)
    ensures RawSell(w, MirrorConfig(cfg)) - SellRsi(0.0, MirrorConfig(cfg)) == RawBuy(v, cfg) - BuyRsi(50.0, cfg)
    ensures forall x :: Penalised(x, w, MirrorConfig(cfg)) == Penalised(x, v, cfg)
  {
    var m := MirrorView(c, v);
    RawMirror(c, v, cfg);
    RsiPartsMirror(50.0, cfg);
    SameButRsi(m, w, MirrorConfig(cfg));
    forall x
      ensures Penalised(x, w, MirrorConfig(cfg)) == Penalised(x, v, cfg)
    {
      PenaltyMirror(c, v, cfg, x);
    }
  }

  lemma SameButRsi(m: View, w: View, cfg: Config)
    requires w.(rsi := m.rsi, rsi15 := m.rsi15) == m
    requires AtLeast(Some(50.0), w.rsi15) <==> AtLeast(Some(50.0), m.rsi15)
    ensures RawSell(w, cfg) - SellRsi(w.rsi, cfg) == RawSell(m, cfg) - SellRsi(m.rsi, cfg)
    ensures forall x :: Penalised(x, w, cfg) == Penalised(x, m, cfg)
  {
    hide SellRsi, SpreadScore, Points;
    assert Momentum(w, cfg) == Momentum(m, cfg);
  }

  /** For closes that only rose, the buy score becomes the mirrored sell score exactly when the two RSI
      parts agree: that of 50 under the ranges and that of 0 under the mirrored ones. */
  lemma RisingSwapIff(c: real, cs: seq<Candle>, cfg: Config, q: Quantile, i: nat)
    requires Usable(cfg.periods) && cfg.periods.rsi >= 2 && Increasing(cs) && 3 <= i <= |cs| && ProperRanges(cfg)
    requires TwoSided(c, cs) && 0.0 < c && OnlyRose(cs, i)
    ensures
      var buy, sell := ScoresAt(cs, cfg, q, i).buy, ScoresAt(Mirror(c, cs), MirrorConfig(cfg), q, i).sell;
      && (sell == buy <==> SellRsi(0.0, MirrorConfig(cfg)) == BuyRsi(50.0, cfg))
      && (sell > buy <==> SellRsi(0.0, MirrorConfig(cfg)) > BuyRsi(50.0, cfg))
  {
    hide ViewAt, RawBuy, RawSell, Penalised, SellRsi, BuyRsi, OnlyRose, MirrorView;
    var v, w := ViewAt(cs, cfg, q, i), ViewAt(Mirror(c, cs), MirrorConfig(cfg), q, i);
    OneWayView(c, cs, cfg, q, i);
    OneWayRaw(c, v, w, cfg);
    PenaltyScales(RawBuy(v, cfg), RawSell(w, MirrorConfig(cfg)), v, cfg);
  }

  /** With a buy range around 50 that begins above 30 they do not agree. */
  lemma RangesAround50(cfg: Config)
    requires ProperRanges(cfg) && 30.0 < cfg.rsiBuyMin <= 50.0 < cfg.rsiBuyMax
    ensures SellRsi(0.0, MirrorConfig(cfg)) > BuyRsi(50.0, cfg)
  {
  }

  /** The failing input of the symmetry: one rise and then nothing, at every loop index, under every buy
      range around 50 that begins above 30.  The mirrored sell score is larger than the buy score. */
  lemma RisingBreaksSwap(
    cfg: Config, q: Quantile, time: int, low: real, high: real, c: real, n: nat, i: nat)
    returns (cs: seq<Candle>)
    requires Usable(cfg.periods) && cfg.periods.rsi >= 2 && ProperRanges(cfg)
    requires 30.0 < cfg.rsiBuyMin <= 50.0 < cfg.rsiBuyMax
    requires time % QUARTER == 0 && 0.0 < low < high < c && 3 <= i <= n
    ensures Increasing(cs) && |cs| == n && TwoSided(c, cs) && OnlyRose(cs, i)
    ensures ScoresAt(Mirror(c, cs), MirrorConfig(cfg), q, i).sell > ScoresAt(cs, cfg, q, i).buy
  {
    hide Bins, Rose, Fell, Increasing, LastJoined, SellRsi, BuyRsi, ScoresAt;
    var closes := seq(n, k requires 0 <= k < n => if k == 0 then low else high);
    cs := Flats(time, closes);
    FlatsAreBins(time, closes, i);
    assert cs[0].close == low && cs[1].close == high;
    Steps(cs, i - 1, 0);
    NeverFalls(cs, i - 1);
    NeverFalls(cs, i - 2);
    RangesAround50(cfg);
    RisingSwapIff(c, cs, cfg, q, i);
  }

  lemma NeverFalls(cs: seq<Candle>, k: nat)
    requires k < |cs| && forall a, b :: 0 <= a < b < |cs| ==> cs[a].close <= cs[b].close
    ensures !Fell(cs, k)
  {
  }
}
