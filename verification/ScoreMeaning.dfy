/** What a score says of prices: which way it points on one-way markets, what each of its conditions is
    worth, and which bars it reads. */
module ScoreMeaning {
  import opened Wrappers
  import opened Indicators
  import opened RollUp
  import opened Scoring

  // ---------------------------------------------------------------- one-way markets

  /** The bars before loop index i close higher and higher, each above its open, at positive prices. */
  ghost predicate Climbs(cs: seq<Candle>, i: nat)
    requires i <= |cs|
  {
    && RisingCloses(cs[..i])
    && forall k :: 0 <= k < i ==> 0.0 < cs[k].close && cs[k].open < cs[k].close
  }

  ghost predicate Slides(cs: seq<Candle>, i: nat)
    requires i <= |cs|
  {
    && FallingCloses(cs[..i])
    && forall k :: 0 <= k < i ==> 0.0 < cs[k].close < cs[k].open
  }

  /** A view in which everything points up; the fifteen-minute values may be missing or level. */
  ghost predicate PointsUp(v: View) {
    && v.last.close > v.prev.close > v.prev2.close
    && v.last.close > v.last.open && v.prev.close > v.prev.open
    && v.fast > v.slow
    && (v.fast15.Some? ==> v.slow15.Some? && v.fast15.value >= v.slow15.value && v.rsi15 == Some(50.0))
  }

  ghost predicate PointsDown(v: View) {
    && v.last.close < v.prev.close < v.prev2.close
    && v.last.close < v.last.open && v.prev.close < v.prev.open
    && v.fast < v.slow
    && (v.fast15.Some? ==> v.slow15.Some? && v.fast15.value <= v.slow15.value && v.rsi15.Some? && v.rsi15.value <= 50.0)
  }

  lemma UpLeads(v: View, cfg: Config)
    requires PointsUp(v)
    ensures RawBuy(v, cfg) - BuyRsi(v.rsi, cfg) >= RawSell(v, cfg) - SellRsi(v.rsi, cfg) + 40.0
  {
    hide BuyRsi, SellRsi, SpreadScore, Momentum;
    PartBounds(v, cfg);
  }

  lemma DownLeads(v: View, cfg: Config)
    requires PointsDown(v)
    ensures RawSell(v, cfg) - SellRsi(v.rsi, cfg) >= RawBuy(v, cfg) - BuyRsi(v.rsi, cfg) + 40.0
  {
    hide BuyRsi, SellRsi, SpreadScore, Momentum;
    PartBounds(v, cfg);
  }

  lemma {:induction false} PositiveFloor(cs: seq<Candle>) returns (lo: real, hi: real)
    requires forall k :: 0 <= k < |cs| ==> 0.0 < cs[k].close
    ensures 0.0 < lo && ClosesWithin(cs, lo, hi)
  {
    if cs == [] {
      lo, hi := 1.0, 1.0;
    } else {
      var n := |cs| - 1;
      lo, hi := PositiveFloor(cs[..n]);
      lo, hi := Min(lo, cs[n].close), Max(hi, cs[n].close);
    }
  }

  lemma PositiveAverages(p: Periods, cs: seq<Candle>, k: nat)
    requires Usable(p) && k < |cs| && forall j :: 0 <= j < |cs| ==> 0.0 < cs[j].close
    ensures 0.0 < Fast(p, cs)[k] && 0.0 < Slow(p, cs)[k]
  {
    hide Fast, Slow, Rsi, Atr;
    var lo, hi := PositiveFloor(cs);
    EarlierWithin(cs, lo, hi, k + 1);
    IndicatorBounds(p, cs, lo, hi, k);
  }

  lemma BinsArePositive(cs: seq<Candle>)
    requires Increasing(cs) && forall k :: 0 <= k < |cs| ==> 0.0 < cs[k].close
    ensures forall m :: 0 <= m < |Bins(cs)| ==> 0.0 < Bins(cs)[m].close
  {
    hide Bins;
    var lo, hi := PositiveFloor(cs);
    BinClosesWithin(cs, lo, hi);
  }

  /** The joined values of a one-way series point its way, as far as there are any. */
  lemma JoinedPoints(p: Periods, cs: seq<Candle>, k: nat)
    requires Usable(p) && p.fast < p.slow && Increasing(cs) && k < |cs|
    requires forall j :: 0 <= j < |cs| ==> 0.0 < cs[j].close
    ensures
      var bins, t := Bins(cs), cs[k].time;
      var f, s, r := Shifted(Fast(p, bins), bins, t), Shifted(Slow(p, bins), bins, t), Shifted(Rsi(p, bins), bins, t);
      && (f.Some? ==> s.Some? && r.Some? && 0.0 < f.value && 0.0 < s.value)
      && (f.Some? && RisingCloses(cs) ==> f.value >= s.value && r == Some(50.0))
      && (f.Some? && FallingCloses(cs) ==> f.value <= s.value && (r == Some(0.0) || r == Some(50.0)))
  {
    hide Fast, Slow, Rsi, Atr, Bins, AsOf, RisingCloses, FallingCloses, Increasing;
    var bins := Bins(cs);
    var m := AsOf(bins, cs[k].time);
    if m > 0 {
      BinsArePositive(cs);
      PositiveAverages(p, bins, m - 1);
      BinClosesRise(cs);
      if RisingCloses(cs) { RisingColumns(p, bins, m - 1); }
      if FallingCloses(cs) { FallingColumns(p, bins, m - 1); }
    }
  }

  lemma ClimbingView(cs: seq<Candle>, cfg: Config, q: Quantile)
    requires Usable(cfg.periods) && cfg.periods.fast < cfg.periods.slow && Increasing(cs) && 3 <= |cs|
    ensures Climbs(cs, |cs|) ==> PointsUp(ViewAt(cs, cfg, q, |cs|))
    ensures Slides(cs, |cs|) ==> PointsDown(ViewAt(cs, cfg, q, |cs|))
  {
    hide Fast, Slow, Rsi, Atr, Bins, Shifted, RegimeAt, Increasing;
    var i := |cs|;
    var p, k := cfg.periods, i - 1;
    assert cs[..i] == cs;
    if Climbs(cs, i) {
      RisingColumns(p, cs, k);
      JoinedPoints(p, cs, k);
    }
    if Slides(cs, i) {
      FallingColumns(p, cs, k);
      JoinedPoints(p, cs, k);
    }
  }

  /** The score at loop index i is that of the bars before it alone. */
  lemma SameUpTo(cs: seq<Candle>, cfg: Config, q: Quantile, i: nat)
    requires Usable(cfg.periods) && Increasing(cs) && 3 <= i <= |cs|
    ensures Increasing(cs[..i]) && ViewAt(cs, cfg, q, i) == ViewAt(cs[..i], cfg, q, i)
    ensures ScoresAt(cs, cfg, q, i) == ScoresAt(cs[..i], cfg, q, i)
  {
    hide ViewAt, ScoresAt;
    assert cs[..i][..i] == cs[..i];
    NoLookAhead(cs, cs[..i], cfg, q, i);
  }

  /** Main result on direction: after bars that close higher and higher the fast average is above the slow
      one, buy leads by forty points before the RSI parts, which differ by at most twenty, and no
      configuration with a fast span below its slow one sells. */
  lemma ClimbingBuys(cs: seq<Candle>, cfg: Config, q: Quantile, i: nat, threshold: real)
    requires Usable(cfg.periods) && cfg.periods.fast < cfg.periods.slow && Increasing(cs) && 3 <= i <= |cs|
    requires Climbs(cs, i)
    ensures Fast(cfg.periods, cs)[i - 1] > Slow(cfg.periods, cs)[i - 1]
    ensures
      var v := ViewAt(cs, cfg, q, i);
      RawBuy(v, cfg) - BuyRsi(v.rsi, cfg) >= RawSell(v, cfg) - SellRsi(v.rsi, cfg) + 40.0
    ensures
      var s := ScoresAt(cs, cfg, q, i);
      s.buy > s.sell && Choose(s, threshold) == if s.buy >= threshold then Buy else Wait
  {
    hide RawBuy, RawSell, BuyRsi, SellRsi, Penalised, Climbs, Slides, PointsUp, PointsDown, ViewAt;
    StillClimbs(cs, i);
    SameUpTo(cs, cfg, q, i);
    ClimbingView(cs[..i], cfg, q);
    var v := ViewAt(cs, cfg, q, i);
    UpLeads(v, cfg);
    PartBounds(v, cfg);
    PenaltyScales(RawSell(v, cfg), RawBuy(v, cfg), v, cfg);
    AveragesSeen(cs, cfg, q, i);
    UpIsUp(v);
  }

  /** After bars that close lower and lower it never buys. */
  lemma SlidingSells(cs: seq<Candle>, cfg: Config, q: Quantile, i: nat, threshold: real)
    requires Usable(cfg.periods) && cfg.periods.fast < cfg.periods.slow && Increasing(cs) && 3 <= i <= |cs|
    requires Slides(cs, i)
    ensures Fast(cfg.periods, cs)[i - 1] < Slow(cfg.periods, cs)[i - 1]
    ensures
      var v := ViewAt(cs, cfg, q, i);
      RawSell(v, cfg) - SellRsi(v.rsi, cfg) >= RawBuy(v, cfg) - BuyRsi(v.rsi, cfg) + 40.0
    ensures
      var s := ScoresAt(cs, cfg, q, i);
      s.sell > s.buy && Choose(s, threshold) == if s.sell >= threshold then Sell else Wait
  {
    hide RawBuy, RawSell, BuyRsi, SellRsi, Penalised, Climbs, Slides, PointsUp, PointsDown, ViewAt;
    StillClimbs(cs, i);
    SameUpTo(cs, cfg, q, i);
    ClimbingView(cs[..i], cfg, q);
    var v := ViewAt(cs, cfg, q, i);
    DownLeads(v, cfg);
    PartBounds(v, cfg);
    PenaltyScales(RawBuy(v, cfg), RawSell(v, cfg), v, cfg);
    AveragesSeen(cs, cfg, q, i);
    UpIsUp(v);
  }

  lemma StillClimbs(cs: seq<Candle>, i: nat)
    requires i <= |cs|
    ensures Climbs(cs, i) ==> Climbs(cs[..i], i)
    ensures Slides(cs, i) ==> Slides(cs[..i], i)
  {
    assert cs[..i][..i] == cs[..i];
  }

  lemma AveragesSeen(cs: seq<Candle>, cfg: Config, q: Quantile, i: nat)
    requires Usable(cfg.periods) && 3 <= i <= |cs|
    ensures ViewAt(cs, cfg, q, i).fast == Fast(cfg.periods, cs)[i - 1]
    ensures ViewAt(cs, cfg, q, i).slow == Slow(cfg.periods, cs)[i - 1]
  {
    hide Fast, Slow, Rsi, Atr, Bins, Shifted, RegimeAt;
  }

  lemma UpIsUp(v: View)
    ensures PointsUp(v) ==> v.fast > v.slow
    ensures PointsDown(v) ==> v.fast < v.slow
  {
  }

  // ---------------------------------------------------------------- what each condition is worth

  /** The fifteen-minute trend, for buying: both averages and RSI known, and on the rising side. */
  ghost predicate SlowUp(v: View) {
    v.fast15.Some? && v.slow15.Some? && v.rsi15.Some? && v.fast15.value >= v.slow15.value && v.rsi15.value >= 50.0
  }

  ghost predicate SlowDown(v: View) {
    v.fast15.Some? && v.slow15.Some? && v.rsi15.Some? && v.fast15.value <= v.slow15.value && v.rsi15.value <= 50.0
  }

  /** Views that differ in one condition only, and the raw points it makes: thirty for the fifteen-minute
      trend, twenty and the momentum for the five-minute one, ten for three closes in a row and ten for
      two candles; RSI and spread count by their own parts. */
  lemma BuyIncrements(v: View, w: View, cfg: Config)
    ensures w == v.(fast15 := w.fast15, slow15 := w.slow15, rsi15 := w.rsi15) && SlowUp(v) && !SlowUp(w) ==>
      RawBuy(v, cfg) == RawBuy(w, cfg) + 30.0
    ensures w == v.(fast := v.slow, slow := v.fast) && v.fast > v.slow ==>
      RawBuy(v, cfg) == RawBuy(w, cfg) + 20.0 + Momentum(v, cfg)
    ensures (w == v.(prev2 := w.prev2) && v.last.close >= v.prev.close
             && v.prev2.close <= v.prev.close < w.prev2.close) ==>
      RawBuy(v, cfg) == RawBuy(w, cfg) + 10.0
    ensures (w == v.(last := v.last.(open := w.last.open)) && v.prev.close >= v.prev.open
             && v.last.open <= v.last.close < w.last.open) ==>
      RawBuy(v, cfg) == RawBuy(w, cfg) + 10.0
    ensures (w == v.(prev := v.prev.(open := w.prev.open)) && v.last.close >= v.last.open
             && v.prev.open <= v.prev.close < w.prev.open) ==>
      RawBuy(v, cfg) == RawBuy(w, cfg) + 10.0
    ensures w == v.(rsi := w.rsi) ==> RawBuy(v, cfg) - RawBuy(w, cfg) == BuyRsi(v.rsi, cfg) - BuyRsi(w.rsi, cfg)
    ensures w == v.(last := v.last.(spread := w.last.spread)) ==>
      RawBuy(v, cfg) - RawBuy(w, cfg) == SpreadScore(v.last.spread, cfg) - SpreadScore(w.last.spread, cfg)
  {
    hide BuyRsi, SpreadScore;
  }

  lemma SellIncrements(v: View, w: View, cfg: Config)
    ensures w == v.(fast15 := w.fast15, slow15 := w.slow15, rsi15 := w.rsi15) && SlowDown(v) && !SlowDown(w) ==>
      RawSell(v, cfg) == RawSell(w, cfg) + 30.0
    ensures w == v.(fast := v.slow, slow := v.fast) && v.fast < v.slow ==>
      RawSell(v, cfg) == RawSell(w, cfg) + 20.0 + Momentum(v, cfg)
    ensures (w == v.(prev2 := w.prev2) && v.last.close <= v.prev.close
             && w.prev2.close < v.prev.close <= v.prev2.close) ==>
      RawSell(v, cfg) == RawSell(w, cfg) + 10.0
    ensures (w == v.(last := v.last.(open := w.last.open)) && v.prev.close <= v.prev.open
             && w.last.open < v.last.close <= v.last.open) ==>
      RawSell(v, cfg) == RawSell(w, cfg) + 10.0
    ensures (w == v.(prev := v.prev.(open := w.prev.open)) && v.last.close <= v.last.open
             && w.prev.open < v.prev.close <= v.prev.open) ==>
      RawSell(v, cfg) == RawSell(w, cfg) + 10.0
    ensures w == v.(rsi := w.rsi) ==> RawSell(v, cfg) - RawSell(w, cfg) == SellRsi(v.rsi, cfg) - SellRsi(w.rsi, cfg)
    ensures w == v.(last := v.last.(spread := w.last.spread)) ==>
      RawSell(v, cfg) - RawSell(w, cfg) == SpreadScore(v.last.spread, cfg) - SpreadScore(w.last.spread, cfg)
  {
    hide SellRsi, SpreadScore;
  }

  /** Where nothing is met there are no points. */
  lemma NothingMet(v: View, cfg: Config)
    requires cfg.maxSpread <= 0.0 && cfg.rsiSellMax < v.rsi < cfg.rsiBuyMin && v.fast == v.slow
    ensures !SlowUp(v) && v.prev.close < v.prev2.close && v.last.close < v.last.open ==> RawBuy(v, cfg) == 0.0
    ensures !SlowDown(v) && v.prev.close > v.prev2.close && v.last.close > v.last.open ==> RawSell(v, cfg) == 0.0
  {
  }

  /** The RSI parts: a point a point from the edge of the range inwards, twenty at most, none outside, and
      no more once the far edge is reached; for an empty range that is 99, or 0. */
  lemma RsiPoints(cfg: Config, x: real, y: real)
    requires x <= y
    ensures
      var top := if cfg.rsiBuyMax > cfg.rsiBuyMin then cfg.rsiBuyMax else 99.0;
      && (x <= cfg.rsiBuyMin ==> BuyRsi(x, cfg) == 0.0)
      && (cfg.rsiBuyMin <= x && y <= top && y <= cfg.rsiBuyMin + 20.0 ==> BuyRsi(y, cfg) - BuyRsi(x, cfg) == y - x)
      && (top <= x || cfg.rsiBuyMin + 20.0 <= x ==> BuyRsi(y, cfg) == BuyRsi(x, cfg))
    ensures
      var bottom := if cfg.rsiSellMin < cfg.rsiSellMax then cfg.rsiSellMin else 0.0;
      && (y >= cfg.rsiSellMax ==> SellRsi(y, cfg) == 0.0)
      && (bottom <= x && cfg.rsiSellMax - 20.0 <= x && y <= cfg.rsiSellMax ==>
           SellRsi(x, cfg) - SellRsi(y, cfg) == y - x)
      && (y <= bottom || y <= cfg.rsiSellMax - 20.0 ==> SellRsi(y, cfg) == SellRsi(x, cfg))
  {
  }

  /** The spread part falls in a straight line from twenty without a spread to none at the largest one. */
  lemma SpreadPoints(spread: real, cfg: Config)
    ensures cfg.maxSpread <= 0.0 ==> SpreadScore(spread, cfg) == 0.0
    ensures cfg.maxSpread > 0.0 ==>
      var most := if cfg.maxSpread >= 0.01 then cfg.maxSpread else 0.01;
      && (spread <= 0.0 ==> SpreadScore(spread, cfg) == 20.0)
      && (spread >= most ==> SpreadScore(spread, cfg) == 0.0)
      && (0.0 <= spread <= most ==> SpreadScore(spread, cfg) * most == 20.0 * (most - spread))
  {
    if cfg.maxSpread > 0.0 {
      var most := Max(cfg.maxSpread, 0.01);
      Ratio(spread, most);
    }
  }

  lemma Ratio(n: real, d: real)
    requires d > 0.0
    ensures n / d * d == n
    ensures n >= d <==> n / d >= 1.0
    ensures n <= 0.0 <==> n / d <= 0.0
  {
    var x := n / d;
    assert x * d == n;
    if x >= 1.0 { ProductSign(x - 1.0, d); } else { assert (1.0 - x) * d > 0.0; }
    if x <= 0.0 { ProductSign(-x, d); } else { assert x * d > 0.0; }
  }

  /** Momentum is proportional to the gap of the averages, ten points at the configured gap and beyond. */
  lemma MomentumPoints(v: View, cfg: Config)
    ensures
      var full := if cfg.momentumGap >= 1.0 then cfg.momentumGap else 1.0;
      var gap := if v.fast >= v.slow then v.fast - v.slow else v.slow - v.fast;
      Momentum(v, cfg) * full == if gap >= full then 10.0 * full else 10.0 * gap
  {
    var full := Max(cfg.momentumGap, 1.0);
    Ratio(Abs(v.fast - v.slow), full);
  }

  /** The penalties: 0.325 for an ATR over its limit, else a half in a filtered low regime; and a half for
      a spread over its limit. */
  lemma PenaltyFactors(x: real, v: View, cfg: Config)
    ensures
      var high, wide := cfg.maxAtr > 0.0 && v.atr > cfg.maxAtr, cfg.maxSpread > 0.0 && v.last.spread > cfg.maxSpread;
      var a := if high then 0.325 else if cfg.volFilter && v.regime == Low then 0.5 else 1.0;
      Penalised(x, v, cfg) == x * a * (if wide then 0.5 else 1.0)
  {
  }

  /** A signal fires exactly when the larger score, buy on a tie, meets the threshold with an RSI that the
      far edge of its range, if there is one, does not block. */
  lemma FiresIff(s: Scores, cfg: Config, threshold: real)
    ensures Fires(s, cfg, threshold) <==>
      || (s.buy >= threshold && s.buy >= s.sell && (cfg.rsiBuyMax <= 0.0 || s.rsi <= cfg.rsiBuyMax))
      || (s.sell >= threshold && s.sell > s.buy && (cfg.rsiSellMin <= 0.0 || s.rsi >= cfg.rsiSellMin))
  {
  }

  // ---------------------------------------------------------------- what is read

  /** The regime compares the last ATR with two quantiles of the last hundred, or fewer; below ten values
      it is unknown, and where both comparisons hold it is high. */
  lemma RegimeIs(atr: seq<real>, q: Quantile, k: nat)
    requires k < |atr|
    ensures
      var w := if k < 100 then atr[..k + 1] else atr[k - 99..k + 1];
      && (RegimeAt(atr, q, k) == Unknown <==> k < 9)
      && (RegimeAt(atr, q, k) == High <==> k >= 9 && atr[k] >= q(w, 0.75))
      && (RegimeAt(atr, q, k) == Low <==> k >= 9 && atr[k] <= q(w, 0.25) && atr[k] < q(w, 0.75))
      && (RegimeAt(atr, q, k) == Normal <==> k >= 9 && q(w, 0.25) < atr[k] < q(w, 0.75))
  {
    assert k < 100 ==> atr[0..k + 1] == atr[..k + 1];
  }

  lemma ViewHere(cs: seq<Candle>, cfg: Config, q: Quantile, i: nat)
    requires Usable(cfg.periods) && 3 <= i <= |cs|
    ensures
      var v, p := ViewAt(cs, cfg, q, i), cfg.periods;
      && v.last == cs[i - 1] && v.prev == cs[i - 2] && v.prev2 == cs[i - 3]
      && v.fast == Fast(p, cs)[i - 1] && v.slow == Slow(p, cs)[i - 1] && v.rsi == Rsi(p, cs)[i - 1]
      && v.atr == Atr(p, cs)[i - 1] && v.regime == RegimeAt(Atr(p, cs), q, i - 1)
  {
    hide Fast, Slow, Rsi, Atr, Bins, Shifted, RegimeAt, OrElse;
  }

  lemma ViewJoined(cs: seq<Candle>, cfg: Config, q: Quantile, i: nat)
    requires Usable(cfg.periods) && 3 <= i <= |cs|
    ensures
      var v, p, bins, t := ViewAt(cs, cfg, q, i), cfg.periods, Bins(cs), cs[i - 1].time;
      && v.fast15 == OrElse(Shifted(Fast(p, bins), bins, t), v.fast)
      && v.slow15 == OrElse(Shifted(Slow(p, bins), bins, t), v.slow)
      && v.rsi15 == OrElse(Shifted(Rsi(p, bins), bins, t), v.rsi)
  {
    hide Fast, Slow, Rsi, Atr, Bins, Shifted, RegimeAt, OrElse;
  }

  /** The five-minute side of a view: the three bars before i, and the columns over the bars before i alone. */
  lemma ViewOwn(cs: seq<Candle>, cfg: Config, q: Quantile, i: nat)
    requires Usable(cfg.periods) && Increasing(cs) && 3 <= i <= |cs|
    ensures
      var v, p, seen := ViewAt(cs, cfg, q, i), cfg.periods, cs[..i];
      && v.last == cs[i - 1] && v.prev == cs[i - 2] && v.prev2 == cs[i - 3]
      && v.fast == Fast(p, seen)[i - 1] && v.slow == Slow(p, seen)[i - 1] && v.rsi == Rsi(p, seen)[i - 1]
      && v.atr == Atr(p, seen)[i - 1] && v.regime == RegimeAt(Atr(p, seen), q, i - 1)
  {
    hide Fast, Slow, Rsi, Atr, RegimeAt, Increasing, ViewAt, ScoresAt, Usable;
    SameUpTo(cs, cfg, q, i);
    ViewHere(cs[..i], cfg, q, i);
  }

  /** A joined value as the formula reads it: a zero stands for the five-minute value. */
  ghost predicate ReadAs(x: Option<real>, column: seq<real>, own: real) {
    if column == [] then x == None
    else
      var last := column[|column| - 1];
      x == Some(if last == 0.0 then own else last)
  }

  lemma ReadOr(x: Option<real>, column: seq<real>, own: real)
    requires x == if column == [] then None else Some(column[|column| - 1])
    ensures ReadAs(OrElse(x, own), column, own)
  {
  }

  /** Main result on the inputs: the fifteen-minute side of a view is the last entries of the columns over
      the quarter hours that were finished when the bar before i began its own, and nothing before any was. */
  lemma ViewIs(cs: seq<Candle>, cfg: Config, q: Quantile, i: nat) returns (lo: nat)
    requires Usable(cfg.periods) && Increasing(cs) && 3 <= i <= |cs|
    ensures lo < i && QuarterBegins(cs, i - 1, lo) && (Bins(cs[..lo]) == [] <==> lo == 0)
    ensures
      var v, p, done := ViewAt(cs, cfg, q, i), cfg.periods, Bins(cs[..lo]);
      ReadAs(v.fast15, Fast(p, done), v.fast) && ReadAs(v.slow15, Slow(p, done), v.slow)
      && ReadAs(v.rsi15, Rsi(p, done), v.rsi)
  {
    hide Fast, Slow, Rsi, Atr, Bins, Shifted, Increasing, ViewAt, QuarterBegins, OrElse, ReadAs, Usable;
    lo := JoinIsLastFinished(cfg.periods, cs, i - 1);
    ViewJoined(cs, cfg, q, i);
    var v, p, done, bins, t := ViewAt(cs, cfg, q, i), cfg.periods, Bins(cs[..lo]), Bins(cs), cs[i - 1].time;
    ReadOr(Shifted(Fast(p, bins), bins, t), Fast(p, done), v.fast);
    ReadOr(Shifted(Slow(p, bins), bins, t), Slow(p, done), v.slow);
    ReadOr(Shifted(Rsi(p, bins), bins, t), Rsi(p, done), v.rsi);
  }
}
