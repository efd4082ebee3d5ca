/** Column indicators of the replay: exponential means, RSI and ATR, over exact reals.

    A column is computed over the whole series at once, as the replay does; the `Prefix` lemmas
    say that entry k of a column depends on the first k + 1 rows only.
 */
module Indicators {

  datatype Candle = Candle(time: int, open: real, high: real, low: real, close: real, spread: real)

  function Min(a: real, b: real): real { if a <= b then a else b }

  function Max(a: real, b: real): real { if a <= b then b else a }

  function Abs(x: real): real { if x < 0.0 then -x else x }

  // ---------------------------------------------------------------- exponential mean

  function Mix(alpha: real, x: real, y: real): real {
    (1.0 - alpha) * x + alpha * y
  }

  /** y[0] = x[0]; y[k] = (1 - alpha) y[k-1] + alpha x[k]. */
  function Ewm(alpha: real, xs: seq<real>): (ys: seq<real>)
    ensures |ys| == |xs|
  {
    if |xs| <= 1 then xs
    else
      var ys := Ewm(alpha, xs[..|xs| - 1]);
      ys + [Mix(alpha, ys[|ys| - 1], xs[|xs| - 1])]
  }

  lemma {:induction false} EwmPrefix(alpha: real, xs: seq<real>, k: nat)
    requires k <= |xs|
    ensures Ewm(alpha, xs)[..k] == Ewm(alpha, xs[..k])
    decreases |xs|
  {
    if k < |xs| && |xs| > 1 {
      var init := xs[..|xs| - 1];
      EwmPrefix(alpha, init, k);
      assert init[..k] == xs[..k];
      assert Ewm(alpha, xs)[..k] == Ewm(alpha, init)[..k];
    } else {
      assert k < |xs| ==> k == 0;
      assert xs[..|xs|] == xs && Ewm(alpha, xs)[..|xs|] == Ewm(alpha, xs);
    }
  }

  lemma ProductSign(a: real, b: real)
    requires 0.0 <= a && 0.0 <= b
    ensures 0.0 <= a * b
  {
  }

  lemma MixBetween(alpha: real, x: real, y: real, lo: real, hi: real)
    requires 0.0 <= alpha <= 1.0 && lo <= x <= hi && lo <= y <= hi
    ensures lo <= Mix(alpha, x, y) <= hi
  {
    var m := Mix(alpha, x, y);
    ProductSign(1.0 - alpha, x - lo);
    ProductSign(alpha, y - lo);
    ProductSign(1.0 - alpha, hi - x);
    ProductSign(alpha, hi - y);
    assert m - lo == (1.0 - alpha) * (x - lo) + alpha * (y - lo);
    assert hi - m == (1.0 - alpha) * (hi - x) + alpha * (hi - y);
  }

  /** An exponential mean stays between the bounds of the values it has seen. */
  lemma {:induction false} EwmBetween(alpha: real, xs: seq<real>, lo: real, hi: real)
    requires 0.0 <= alpha <= 1.0
    requires forall i :: 0 <= i < |xs| ==> lo <= xs[i] <= hi
    ensures forall i :: 0 <= i < |xs| ==> lo <= Ewm(alpha, xs)[i] <= hi
    decreases |xs|
  {
    if |xs| > 1 {
      var n := |xs| - 1;
      var ys := Ewm(alpha, xs[..n]);
      EwmBetween(alpha, xs[..n], lo, hi);
      var last := Mix(alpha, ys[n - 1], xs[n]);
      assert lo <= last <= hi by { MixBetween(alpha, ys[n - 1], xs[n], lo, hi); }
      assert Ewm(alpha, xs) == ys + [last];
    }
  }

  /** Reflecting the values reflects the mean. */
  lemma {:induction false} EwmMirror(alpha: real, xs: seq<real>, ys: seq<real>, c: real)
    requires |xs| == |ys| && forall i :: 0 <= i < |xs| ==> ys[i] == c - xs[i]
    ensures forall i :: 0 <= i < |xs| ==> Ewm(alpha, ys)[i] == c - Ewm(alpha, xs)[i]
    decreases |xs|
  {
    if |xs| > 1 {
      var n := |xs| - 1;
      EwmMirror(alpha, xs[..n], ys[..n], c);
      MixMirror(alpha, Ewm(alpha, xs[..n])[n - 1], xs[n], c);
    }
  }

  lemma MixMirror(alpha: real, x: real, y: real, c: real)
    ensures Mix(alpha, c - x, c - y) == c - Mix(alpha, x, y)
  {
    assert (1.0 - alpha) * (c - x) == (1.0 - alpha) * c - (1.0 - alpha) * x;
    assert alpha * (c - y) == alpha * c - alpha * y;
  }

  // ---------------------------------------------------------------- columns of a frame

  function Closes(cs: seq<Candle>): (xs: seq<real>)
    ensures |xs| == |cs|
  {
    seq(|cs|, i requires 0 <= i < |cs| => cs[i].close)
  }

  /** The price changes from the second row on. */
  function Gains(cs: seq<Candle>): (xs: seq<real>)
    ensures cs != [] ==> |xs| == |cs| - 1
  {
    if cs == [] then [] else
      seq(|cs| - 1, i requires 0 <= i < |cs| - 1 => Max(0.0, cs[i + 1].close - cs[i].close))
  }

  function Losses(cs: seq<Candle>): (xs: seq<real>)
    ensures cs != [] ==> |xs| == |cs| - 1
  {
    if cs == [] then [] else
      seq(|cs| - 1, i requires 0 <= i < |cs| - 1 => -Min(0.0, cs[i + 1].close - cs[i].close))
  }

  function TrueRange(cs: seq<Candle>, i: nat): real
    requires i < |cs|
  {
    var c := cs[i];
    if i == 0 then Abs(c.high - c.low)
    else Max(Max(Abs(c.high - c.low), Abs(c.high - cs[i - 1].close)), Abs(c.low - cs[i - 1].close))
  }

  function TrueRanges(cs: seq<Candle>): (xs: seq<real>)
    ensures |xs| == |cs|
  {
    seq(|cs|, i requires 0 <= i < |cs| => TrueRange(cs, i))
  }

  /** 100 - 100 / (1 + gain / loss), and 50 where a zero loss leaves the quotient undefined. */
  function RsiOf(gain: real, loss: real): real {
    if loss == 0.0 || loss + gain == 0.0 then 50.0 else 100.0 - 100.0 / (1.0 + gain / loss)
  }

  /** The means of gains and losses that stand behind the RSI of row k. */
  function MeanGain(period: int, cs: seq<Candle>, k: nat): real
    requires period >= 1 && 1 <= k < |cs|
  {
    Ewm(1.0 / period as real, Gains(cs))[k - 1]
  }

  function MeanLoss(period: int, cs: seq<Candle>, k: nat): real
    requires period >= 1 && 1 <= k < |cs|
  {
    Ewm(1.0 / period as real, Losses(cs))[k - 1]
  }

  datatype Periods = Periods(fast: int, slow: int, rsi: int, atr: int)

  /** pandas accepts spans and periods of one or more. */
  predicate Usable(p: Periods) {
    p.fast >= 1 && p.slow >= 1 && p.rsi >= 1 && p.atr >= 1
  }

  function SpanAlpha(span: int): real
    requires span >= 1
  {
    2.0 / (span as real + 1.0)
  }

  function Fast(p: Periods, cs: seq<Candle>): (xs: seq<real>)
    requires Usable(p)
    ensures |xs| == |cs|
  {
    Ewm(SpanAlpha(p.fast), Closes(cs))
  }

  function Slow(p: Periods, cs: seq<Candle>): (xs: seq<real>)
    requires Usable(p)
    ensures |xs| == |cs|
  {
    Ewm(SpanAlpha(p.slow), Closes(cs))
  }

  function Rsi(p: Periods, cs: seq<Candle>): (xs: seq<real>)
    requires Usable(p)
    ensures |xs| == |cs|
  {
    seq(|cs|, k requires 0 <= k < |cs| =>
      if k == 0 then 50.0 else RsiOf(MeanGain(p.rsi, cs, k), MeanLoss(p.rsi, cs, k)))
  }

  function Atr(p: Periods, cs: seq<Candle>): (xs: seq<real>)
    requires Usable(p)
    ensures |xs| == |cs|
  {
    Ewm(1.0 / p.atr as real, TrueRanges(cs))
  }

  // ---------------------------------------------------------------- one row further

  lemma EwmStep(alpha: real, xs: seq<real>, k: nat)
    requires k + 1 < |xs|
    ensures Ewm(alpha, xs)[0] == xs[0]
    ensures Ewm(alpha, xs)[k + 1] == Mix(alpha, Ewm(alpha, xs)[k], xs[k + 1])
  {
    hide Mix;
    EwmPrefix(alpha, xs, k + 2);
    EwmPrefix(alpha, xs[..k + 2], k + 1);
    EwmPrefix(alpha, xs, 1);
    var ys := Ewm(alpha, xs[..k + 2]);
    assert xs[..k + 2][..k + 1] == xs[..k + 1];
    assert Ewm(alpha, xs)[k + 1] == ys[k + 1] && Ewm(alpha, xs)[k] == ys[..k + 1][k];
    assert Ewm(alpha, xs)[0] == Ewm(alpha, xs)[..1][0];
  }

  /** A mean with weight n / d, multiplied out. */
  lemma MixShare(n: real, d: real, y: real, x: real)
    requires d > 0.0
    ensures d * Mix(n / d, y, x) == (d - n) * y + n * x
  {
    var a := n / d;
    assert a * d == n;
    assert d * ((1.0 - a) * y + a * x) == (d - a * d) * y + a * d * x;
  }

  lemma EwmShare(n: real, d: real, xs: seq<real>, k: nat)
    requires d > 0.0 && k + 1 < |xs|
    ensures d * Ewm(n / d, xs)[k + 1] == (d - n) * Ewm(n / d, xs)[k] + n * xs[k + 1]
  {
    hide Ewm, Mix;
    EwmStep(n / d, xs, k);
    MixShare(n, d, Ewm(n / d, xs)[k], xs[k + 1]);
  }

  /** The averages and ATR from row to row, without a smoothing factor: an average over `span` rows weighs
      the new close twice against span - 1 times the old value, ATR the new true range once. */
  lemma ColumnSteps(p: Periods, cs: seq<Candle>, k: nat)
    requires Usable(p) && k + 1 < |cs|
    ensures (p.fast + 1) as real * Fast(p, cs)[k + 1] ==
      (p.fast - 1) as real * Fast(p, cs)[k] + 2.0 * cs[k + 1].close
    ensures (p.slow + 1) as real * Slow(p, cs)[k + 1] ==
      (p.slow - 1) as real * Slow(p, cs)[k] + 2.0 * cs[k + 1].close
    ensures p.atr as real * Atr(p, cs)[k + 1] == (p.atr - 1) as real * Atr(p, cs)[k] + TrueRange(cs, k + 1)
    ensures Fast(p, cs)[0] == Slow(p, cs)[0] == cs[0].close && Atr(p, cs)[0] == TrueRange(cs, 0)
  {
    hide Ewm, TrueRange;
    EwmShare(2.0, p.fast as real + 1.0, Closes(cs), k);
    EwmShare(2.0, p.slow as real + 1.0, Closes(cs), k);
    EwmShare(1.0, p.atr as real, TrueRanges(cs), k);
    EwmStep(SpanAlpha(p.fast), Closes(cs), k);
    EwmStep(SpanAlpha(p.slow), Closes(cs), k);
    EwmStep(1.0 / p.atr as real, TrueRanges(cs), k);
  }

  /** The mean gain and loss behind RSI, from row to row; the first row that has them is row 1. */
  lemma MeanSteps(period: int, cs: seq<Candle>, k: nat)
    requires period >= 1 && 1 <= k && k + 1 < |cs|
    ensures
      var rise := cs[k + 1].close - cs[k].close;
      && period as real * MeanGain(period, cs, k + 1) ==
         (period - 1) as real * MeanGain(period, cs, k) + (if rise > 0.0 then rise else 0.0)
      && period as real * MeanLoss(period, cs, k + 1) ==
         (period - 1) as real * MeanLoss(period, cs, k) + (if rise < 0.0 then -rise else 0.0)
    ensures
      var rise := cs[1].close - cs[0].close;
      && MeanGain(period, cs, 1) == (if rise > 0.0 then rise else 0.0)
      && MeanLoss(period, cs, 1) == (if rise < 0.0 then -rise else 0.0)
  {
    hide Ewm, Gains, Losses;
    EwmShare(1.0, period as real, Gains(cs), k - 1);
    EwmShare(1.0, period as real, Losses(cs), k - 1);
    EwmStep(1.0 / period as real, Gains(cs), k - 1);
    EwmStep(1.0 / period as real, Losses(cs), k - 1);
    ChangeAt(cs, k);
    ChangeAt(cs, 0);
  }

  /** The true range is the width of the smallest interval that holds the bar and the close before it. */
  lemma TrueRangeIs(cs: seq<Candle>, i: nat)
    requires i < |cs| && cs[i].low <= cs[i].high
    ensures i == 0 ==> TrueRange(cs, i) == cs[i].high - cs[i].low
    ensures i > 0 ==>
      var pc := cs[i - 1].close;
      TrueRange(cs, i) ==
        (if pc > cs[i].high then pc else cs[i].high) - (if pc < cs[i].low then pc else cs[i].low)
  {
  }

  // ---------------------------------------------------------------- one-way closes

  ghost predicate Rising(xs: seq<real>) {
    forall i, j :: 0 <= i < j < |xs| ==> xs[i] < xs[j]
  }

  lemma MixLeads(a: real, b: real, y: real, z: real, x: real)
    requires 0.0 < b < a <= 1.0 && z <= y <= x && z < x
    ensures Mix(b, z, x) < Mix(a, y, x) <= x
  {
    assert Mix(a, y, x) - Mix(b, z, x) == (1.0 - a) * (y - z) + (a - b) * (x - z);
    ProductSign(1.0 - a, y - z);
    assert (a - b) * (x - z) > 0.0;
    assert x - Mix(a, y, x) == (1.0 - a) * (x - y);
    ProductSign(1.0 - a, x - y);
  }

  /** On rising values the quicker mean leads, from the second value on. */
  lemma {:induction false} QuickerLeads(a: real, b: real, xs: seq<real>, k: nat)
    requires 0.0 < b < a <= 1.0 && Rising(xs) && k < |xs|
    ensures Ewm(b, xs)[k] <= Ewm(a, xs)[k] <= xs[k]
    ensures k > 0 ==> Ewm(b, xs)[k] < Ewm(a, xs)[k]
  {
    hide Ewm, Mix;
    if k == 0 {
      FirstMean(a, xs);
      FirstMean(b, xs);
    } else {
      QuickerLeads(a, b, xs, k - 1);
      EwmStep(a, xs, k - 1);
      EwmStep(b, xs, k - 1);
      MixLeads(a, b, Ewm(a, xs)[k - 1], Ewm(b, xs)[k - 1], xs[k]);
      assert xs[k - 1] < xs[k];
    }
  }

  lemma FirstMean(a: real, xs: seq<real>)
    requires xs != []
    ensures Ewm(a, xs)[0] == xs[0]
  {
    EwmPrefix(a, xs, 1);
    assert Ewm(a, xs)[0] == Ewm(a, xs)[..1][0];
  }

  lemma ShorterIsQuicker(p: Periods)
    requires Usable(p) && p.fast < p.slow
    ensures 0.0 < SpanAlpha(p.slow) < SpanAlpha(p.fast) <= 1.0
  {
    AlphaRange(p);
    LargerDivisor(2.0, p.fast as real + 1.0, p.slow as real + 1.0);
  }

  lemma LargerDivisor(n: real, d: real, e: real)
    requires 0.0 < n && 0.0 < d < e
    ensures n / e < n / d
  {
    var x, y := n / d, n / e;
    assert x * d == n && y * e == n && y > 0.0;
    assert y * (e - d) > 0.0;
    assert (x - y) * d == y * (e - d);
  }

  ghost predicate RisingCloses(cs: seq<Candle>) {
    forall i, j :: 0 <= i < j < |cs| ==> cs[i].close < cs[j].close
  }

  ghost predicate FallingCloses(cs: seq<Candle>) {
    forall i, j :: 0 <= i < j < |cs| ==> cs[i].close > cs[j].close
  }

  /** On rising closes the fast average leads and RSI is 50. */
  lemma RisingColumns(p: Periods, cs: seq<Candle>, k: nat)
    requires Usable(p) && p.fast < p.slow && RisingCloses(cs) && k < |cs|
    ensures Slow(p, cs)[k] <= Fast(p, cs)[k] && (k > 0 ==> Slow(p, cs)[k] < Fast(p, cs)[k])
    ensures Rsi(p, cs)[k] == 50.0
  {
    hide Ewm, SpanAlpha, MeanGain, MeanLoss;
    ShorterIsQuicker(p);
    QuickerLeads(SpanAlpha(p.fast), SpanAlpha(p.slow), Closes(cs), k);
    if k > 0 { NoMeanLoss(p.rsi, cs, k); }
  }

  lemma NoMeanLoss(period: int, cs: seq<Candle>, k: nat)
    requires period >= 1 && 1 <= k < |cs| && RisingCloses(cs)
    ensures MeanLoss(period, cs, k) == 0.0
  {
    hide Ewm, Losses;
    UnitShare(period as real, 1.0);
    forall i | 0 <= i < |cs| - 1
      ensures Losses(cs)[i] == 0.0
    {
      ChangeAt(cs, i);
      assert cs[i].close < cs[i + 1].close;
    }
    EwmBetween(1.0 / period as real, Losses(cs), 0.0, 0.0);
  }

  /** On falling closes the slow average leads, and RSI is 0, or 50 on the first row. */
  lemma FallingColumns(p: Periods, cs: seq<Candle>, k: nat)
    requires Usable(p) && p.fast < p.slow && FallingCloses(cs) && k < |cs|
    ensures Fast(p, cs)[k] <= Slow(p, cs)[k] && (k > 0 ==> Fast(p, cs)[k] < Slow(p, cs)[k])
    ensures Rsi(p, cs)[k] == 0.0 || Rsi(p, cs)[k] == 50.0
  {
    hide Fast, Slow, MeanGain, MeanLoss;
    var up := Mirror(0.0, cs);
    RisingColumns(p, up, k);
    ColumnsMirror(p, 0.0, cs, k);
    if k > 0 {
      NoMeanLoss(p.rsi, up, k);
      MeansMirror(p.rsi, 0.0, cs, k);
    }
  }

  // ---------------------------------------------------------------- causality of the columns

  lemma ColumnsPrefix(p: Periods, cs: seq<Candle>, k: nat)
    requires Usable(p) && k <= |cs|
    ensures Fast(p, cs)[..k] == Fast(p, cs[..k]) && Slow(p, cs)[..k] == Slow(p, cs[..k])
    ensures Rsi(p, cs)[..k] == Rsi(p, cs[..k]) && Atr(p, cs)[..k] == Atr(p, cs[..k])
  {
    assert Closes(cs)[..k] == Closes(cs[..k]);
    assert TrueRanges(cs)[..k] == TrueRanges(cs[..k]);
    EwmPrefix(SpanAlpha(p.fast), Closes(cs), k);
    EwmPrefix(SpanAlpha(p.slow), Closes(cs), k);
    EwmPrefix(1.0 / p.atr as real, TrueRanges(cs), k);
    RsiPrefix(p, cs, k);
  }

  lemma RsiPrefix(p: Periods, cs: seq<Candle>, k: nat)
    requires Usable(p) && k <= |cs|
    ensures Rsi(p, cs)[..k] == Rsi(p, cs[..k])
  {
    forall i | 0 <= i < k
      ensures Rsi(p, cs)[i] == Rsi(p, cs[..k])[i]
    {
      if i > 0 { MeansPrefix(p.rsi, cs, k, i); }
    }
  }

  lemma MeansPrefix(period: int, cs: seq<Candle>, k: nat, i: nat)
    requires period >= 1 && 1 <= i < k <= |cs|
    ensures MeanGain(period, cs, i) == MeanGain(period, cs[..k], i)
    ensures MeanLoss(period, cs, i) == MeanLoss(period, cs[..k], i)
  {
    hide Ewm, Gains, Losses;
    var a := 1.0 / period as real;
    GainsPrefix(cs, k);
    EwmPrefix(a, Gains(cs), k - 1);
    EwmPrefix(a, Losses(cs), k - 1);
    assert Ewm(a, Gains(cs))[i - 1] == Ewm(a, Gains(cs))[..k - 1][i - 1];
    assert Ewm(a, Losses(cs))[i - 1] == Ewm(a, Losses(cs))[..k - 1][i - 1];
  }

  lemma ChangeAt(cs: seq<Candle>, i: nat)
    requires i + 1 < |cs|
    ensures Gains(cs)[i] == Max(0.0, cs[i + 1].close - cs[i].close)
    ensures Losses(cs)[i] == -Min(0.0, cs[i + 1].close - cs[i].close)
  {
  }

  lemma GainsPrefix(cs: seq<Candle>, k: nat)
    requires 1 <= k <= |cs|
    ensures Gains(cs)[..k - 1] == Gains(cs[..k]) && Losses(cs)[..k - 1] == Losses(cs[..k])
  {
    hide Min, Max, Gains, Losses;
    forall i | 0 <= i < k - 1
      ensures Gains(cs)[i] == Gains(cs[..k])[i] && Losses(cs)[i] == Losses(cs[..k])[i]
    {
      ChangeAt(cs, i);
      ChangeAt(cs[..k], i);
    }
  }

  // ---------------------------------------------------------------- bounds

  lemma AlphaRange(p: Periods)
    requires Usable(p)
    ensures 0.0 < SpanAlpha(p.fast) <= 1.0 && 0.0 < SpanAlpha(p.slow) <= 1.0
    ensures 0.0 < 1.0 / p.rsi as real <= 1.0 && 0.0 < 1.0 / p.atr as real <= 1.0
  {
    UnitShare(p.fast as real + 1.0, 2.0);
    UnitShare(p.slow as real + 1.0, 2.0);
    UnitShare(p.rsi as real, 1.0);
    UnitShare(p.atr as real, 1.0);
  }

  lemma UnitShare(d: real, n: real)
    requires 0.0 < n <= d
    ensures 0.0 < n / d <= 1.0
  {
  }

  ghost predicate ClosesWithin(cs: seq<Candle>, lo: real, hi: real) {
    forall i :: 0 <= i < |cs| ==> lo <= cs[i].close <= hi
  }

  lemma MeansNonNegative(period: int, cs: seq<Candle>, k: nat)
    requires period >= 1 && 1 <= k < |cs|
    ensures 0.0 <= MeanGain(period, cs, k) && 0.0 <= MeanLoss(period, cs, k)
  {
    UnitShare(period as real, 1.0);
    var a := 1.0 / period as real;
    var g, l := Gains(cs), Losses(cs);
    var hi := UpperBound(g);
    EwmBetween(a, g, 0.0, hi);
    hi := UpperBound(l);
    EwmBetween(a, l, 0.0, hi);
  }

  lemma {:induction false} UpperBound(xs: seq<real>) returns (hi: real)
    ensures forall i :: 0 <= i < |xs| ==> xs[i] <= hi
  {
    hi := 0.0;
    if xs != [] {
      var h := UpperBound(xs[..|xs| - 1]);
      hi := Max(h, xs[|xs| - 1]);
    }
  }

  lemma RsiRange(gain: real, loss: real)
    requires 0.0 <= gain && 0.0 <= loss
    ensures 0.0 <= RsiOf(gain, loss) <= 100.0
    ensures loss > 0.0 ==> RsiOf(gain, loss) == 100.0 * gain / (gain + loss)
  {
    if loss > 0.0 {
      var q := gain / loss;
      assert q * loss == gain;
      assert q >= 0.0;
      assert (1.0 + q) * loss == gain + loss;
      var r := 100.0 / (1.0 + q);
      assert r * (1.0 + q) == 100.0;
      assert r * (gain + loss) == 100.0 * loss by { assert r * ((1.0 + q) * loss) == r * (1.0 + q) * loss; }
      assert (100.0 - r) * (gain + loss) == 100.0 * gain;
      QuotientOf(100.0 * gain, gain + loss, 100.0 - r);
      assert 0.0 < r <= 100.0;
    }
  }

  lemma QuotientOf(n: real, d: real, q: real)
    requires d > 0.0 && q * d == n
    ensures q == n / d
  {
  }

  lemma RsiWithin(p: Periods, cs: seq<Candle>, k: nat)
    requires Usable(p) && k < |cs|
    ensures 0.0 <= Rsi(p, cs)[k] <= 100.0
  {
    hide MeanGain, MeanLoss, RsiOf;
    if k > 0 {
      MeansNonNegative(p.rsi, cs, k);
      RsiRange(MeanGain(p.rsi, cs, k), MeanLoss(p.rsi, cs, k));
    }
  }

  /** The indicator bounds at row k: the averages lie within any bounds of the closes up to row k. */
  lemma IndicatorBounds(p: Periods, cs: seq<Candle>, lo: real, hi: real, k: nat)
    requires Usable(p) && k < |cs| && ClosesWithin(cs[..k + 1], lo, hi)
    ensures lo <= Fast(p, cs)[k] <= hi && lo <= Slow(p, cs)[k] <= hi
    ensures 0.0 <= Rsi(p, cs)[k] <= 100.0
    ensures 0.0 <= Atr(p, cs)[k]
  {
    hide Fast, Slow, Rsi, Atr, ClosesWithin;
    var seen := cs[..k + 1];
    ColumnsPrefix(p, cs, k + 1);
    LastBounds(p, seen, lo, hi, k);
    assert Fast(p, cs)[k] == Fast(p, cs)[..k + 1][k] && Slow(p, cs)[k] == Slow(p, cs)[..k + 1][k];
    assert Rsi(p, cs)[k] == Rsi(p, cs)[..k + 1][k] && Atr(p, cs)[k] == Atr(p, cs)[..k + 1][k];
  }

  lemma LastBounds(p: Periods, cs: seq<Candle>, lo: real, hi: real, k: nat)
    requires Usable(p) && k < |cs| && ClosesWithin(cs, lo, hi)
    ensures lo <= Fast(p, cs)[k] <= hi && lo <= Slow(p, cs)[k] <= hi
    ensures 0.0 <= Rsi(p, cs)[k] <= 100.0
    ensures 0.0 <= Atr(p, cs)[k]
  {
    hide Ewm, Rsi, TrueRanges, SpanAlpha;
    AlphaRange(p);
    EwmBetween(SpanAlpha(p.fast), Closes(cs), lo, hi);
    EwmBetween(SpanAlpha(p.slow), Closes(cs), lo, hi);
    var top := UpperBound(TrueRanges(cs));
    TrueRangesRise(cs);
    EwmBetween(1.0 / p.atr as real, TrueRanges(cs), 0.0, top);
    RsiWithin(p, cs, k);
  }

  lemma TrueRangesRise(cs: seq<Candle>)
    ensures forall i :: 0 <= i < |cs| ==> 0.0 <= TrueRanges(cs)[i]
  {
  }

  // ---------------------------------------------------------------- mirror images

  /** The price axis turned over at c / 2. */
  function MirrorCandle(c: real, x: Candle): Candle {
    Candle(x.time, c - x.open, c - x.low, c - x.high, c - x.close, x.spread)
  }

  function Mirror(c: real, cs: seq<Candle>): (ms: seq<Candle>)
    ensures |ms| == |cs| && forall i :: 0 <= i < |cs| ==> ms[i] == MirrorCandle(c, cs[i])
  {
    seq(|cs|, i requires 0 <= i < |cs| => MirrorCandle(c, cs[i]))
  }

  /** Gain and loss change places. */
  lemma MeansMirror(period: int, c: real, cs: seq<Candle>, k: nat)
    requires period >= 1 && 1 <= k < |cs|
    ensures MeanGain(period, Mirror(c, cs), k) == MeanLoss(period, cs, k)
    ensures MeanLoss(period, Mirror(c, cs), k) == MeanGain(period, cs, k)
  {
    hide Ewm, Gains, Losses;
    forall i | 0 <= i < |cs| - 1
      ensures Gains(Mirror(c, cs))[i] == Losses(cs)[i] && Losses(Mirror(c, cs))[i] == Gains(cs)[i]
    {
      ChangeAt(cs, i);
      ChangeAt(Mirror(c, cs), i);
    }
    assert Gains(Mirror(c, cs)) == Losses(cs) && Losses(Mirror(c, cs)) == Gains(cs);
  }

  /** RSI is mirrored about 50 exactly when gain and loss are both zero or both not. */
  lemma RsiMirror(gain: real, loss: real)
    requires 0.0 <= gain && 0.0 <= loss
    ensures RsiOf(loss, gain) == 100.0 - RsiOf(gain, loss) <==> (gain == 0.0 <==> loss == 0.0)
  {
    RsiRange(gain, loss);
    RsiRange(loss, gain);
    if gain > 0.0 && loss > 0.0 {
      var d := gain + loss;
      var q := 100.0 * gain / d;
      assert q * d == 100.0 * gain;
      assert (100.0 - q) * d == 100.0 * loss;
      QuotientOf(100.0 * loss, d, 100.0 - q);
    }
  }

  ghost predicate Balanced(period: int, cs: seq<Candle>, k: nat)
    requires period >= 1 && k < |cs|
  {
    k == 0 || (MeanGain(period, cs, k) == 0.0 <==> MeanLoss(period, cs, k) == 0.0)
  }

  // ---------------------------------------------------------------- when the means vanish

  lemma MixZero(alpha: real, x: real, y: real)
    requires 0.0 < alpha < 1.0 && 0.0 <= x && 0.0 <= y
    ensures Mix(alpha, x, y) == 0.0 <==> x == 0.0 && y == 0.0
  {
    ProductSign(1.0 - alpha, x);
    ProductSign(alpha, y);
    if x > 0.0 { assert (1.0 - alpha) * x > 0.0; }
    if y > 0.0 { assert alpha * y > 0.0; }
  }

  ghost predicate NonNegative(xs: seq<real>) {
    forall i :: 0 <= i < |xs| ==> 0.0 <= xs[i]
  }

  ghost predicate AllZero(xs: seq<real>, n: nat)
    requires n <= |xs|
  {
    forall i :: 0 <= i < n ==> xs[i] == 0.0
  }

  /** A proper exponential mean of non-negative values vanishes exactly when all of them do. */
  lemma {:induction false} EwmZero(alpha: real, xs: seq<real>, k: nat)
    requires 0.0 < alpha < 1.0 && k < |xs| && NonNegative(xs)
    ensures 0.0 <= Ewm(alpha, xs)[k]
    ensures Ewm(alpha, xs)[k] == 0.0 <==> AllZero(xs, k + 1)
    decreases |xs|
  {
    hide Mix;
    var n := |xs| - 1;
    if k < n {
      EwmZero(alpha, xs[..n], k);
      EwmPrefix(alpha, xs, n);
      assert Ewm(alpha, xs)[k] == Ewm(alpha, xs)[..n][k];
      assert forall i :: 0 <= i <= k ==> xs[..n][i] == xs[i];
    } else if n > 0 {
      var y := Ewm(alpha, xs[..n])[n - 1];
      EwmZero(alpha, xs[..n], n - 1);
      assert forall i :: 0 <= i < n ==> xs[..n][i] == xs[i];
      MixZero(alpha, y, xs[n]);
      MixBetween(alpha, y, xs[n], 0.0, Max(y, xs[n]));
      assert Ewm(alpha, xs)[n] == Mix(alpha, y, xs[n]);
    }
  }

  ghost predicate Rose(cs: seq<Candle>, k: nat)
    requires k < |cs|
  {
    exists i, j :: 0 <= i && j == i + 1 && j <= k && cs[i].close < cs[j].close
  }

  ghost predicate Fell(cs: seq<Candle>, k: nat)
    requires k < |cs|
  {
    exists i, j :: 0 <= i && j == i + 1 && j <= k && cs[i].close > cs[j].close
  }

  lemma ProperShare(period: int)
    requires period >= 2
    ensures 0.0 < 1.0 / period as real < 1.0
  {
  }

  lemma NeverNegative(cs: seq<Candle>)
    ensures NonNegative(Gains(cs)) && NonNegative(Losses(cs))
  {
    hide Gains, Losses;
    forall i | 0 <= i < |cs| - 1
      ensures 0.0 <= Gains(cs)[i] && 0.0 <= Losses(cs)[i]
    {
      ChangeAt(cs, i);
    }
    NoChange();
  }

  lemma NoChange()
    ensures Gains([]) == [] && Losses([]) == []
  {
  }

  /** A gain is a rise, a loss is a fall. */
  lemma Moves(cs: seq<Candle>, i: nat)
    requires i + 1 < |cs|
    ensures Gains(cs)[i] != 0.0 <==> cs[i].close < cs[i + 1].close
    ensures Losses(cs)[i] != 0.0 <==> cs[i].close > cs[i + 1].close
  {
    hide Gains, Losses;
    ChangeAt(cs, i);
  }

  lemma SomeNonZero(xs: seq<real>, n: nat) returns (i: nat)
    requires n <= |xs| && !AllZero(xs, n)
    ensures i < n && xs[i] != 0.0
  {
    i :| 0 <= i < n && xs[i] != 0.0;
  }

  lemma OneNonZero(xs: seq<real>, n: nat, i: nat)
    requires i < n <= |xs| && xs[i] != 0.0
    ensures !AllZero(xs, n)
  {
  }

  lemma Steps(cs: seq<Candle>, k: nat, i: nat)
    requires i < k < |cs|
    ensures cs[i].close < cs[i + 1].close ==> Rose(cs, k)
    ensures cs[i].close > cs[i + 1].close ==> Fell(cs, k)
  {
  }

  lemma RoseSeen(cs: seq<Candle>, k: nat)
    requires 1 <= k < |cs|
    ensures Rose(cs, k) <==> !AllZero(Gains(cs), k)
  {
    hide Gains, AllZero, Rose;
    if Rose(cs, k) {
      var i := RoseSomewhere(cs, k);
      Moves(cs, i);
      OneNonZero(Gains(cs), k, i);
    }
    if !AllZero(Gains(cs), k) {
      var i := SomeNonZero(Gains(cs), k);
      Moves(cs, i);
      Steps(cs, k, i);
    }
  }

  lemma RoseSomewhere(cs: seq<Candle>, k: nat) returns (i: nat)
    requires k < |cs| && Rose(cs, k)
    ensures i < k && cs[i].close < cs[i + 1].close
  {
    var m, n :| 0 <= m && n == m + 1 && n <= k && cs[m].close < cs[n].close;
    i := m;
  }

  lemma FellSeen(cs: seq<Candle>, k: nat)
    requires 1 <= k < |cs|
    ensures Fell(cs, k) <==> !AllZero(Losses(cs), k)
  {
    hide Losses, AllZero, Fell;
    if Fell(cs, k) {
      var i := FellSomewhere(cs, k);
      Moves(cs, i);
      OneNonZero(Losses(cs), k, i);
    }
    if !AllZero(Losses(cs), k) {
      var i := SomeNonZero(Losses(cs), k);
      Moves(cs, i);
      Steps(cs, k, i);
    }
  }

  lemma FellSomewhere(cs: seq<Candle>, k: nat) returns (i: nat)
    requires k < |cs| && Fell(cs, k)
    ensures i < k && cs[i].close > cs[i + 1].close
  {
    var m, n :| 0 <= m && n == m + 1 && n <= k && cs[m].close > cs[n].close;
    i := m;
  }

  /** The smoothed gain of row k vanishes exactly when the close never rose, the loss when it never fell. */
  lemma MeansVanish(period: int, cs: seq<Candle>, k: nat)
    requires period >= 2 && 1 <= k < |cs|
    ensures MeanGain(period, cs, k) == 0.0 <==> !Rose(cs, k)
    ensures MeanLoss(period, cs, k) == 0.0 <==> !Fell(cs, k)
  {
    hide Ewm, Gains, Losses, Rose, Fell, NonNegative, AllZero;
    ProperShare(period);
    NeverNegative(cs);
    RoseSeen(cs, k);
    FellSeen(cs, k);
    EwmZero(1.0 / period as real, Gains(cs), k - 1);
    EwmZero(1.0 / period as real, Losses(cs), k - 1);
  }

  lemma FirstRow(cs: seq<Candle>)
    requires cs != []
    ensures !Rose(cs, 0) && !Fell(cs, 0)
  {
  }

  /** The balance condition, on the closes: up to row k they both rose and fell, or did neither.  With a
      period of one only the last change counts, and it must be none. */
  lemma BalancedIff(period: int, cs: seq<Candle>, k: nat)
    requires period >= 1 && k < |cs|
    ensures period >= 2 ==> (Balanced(period, cs, k) <==> (Rose(cs, k) <==> Fell(cs, k)))
    ensures period == 1 ==> (Balanced(period, cs, k) <==> k == 0 || cs[k].close == cs[k - 1].close)
  {
    hide Rose, Fell, Gains, Losses, Ewm;
    if k == 0 {
      FirstRow(cs);
    } else if period >= 2 {
      hide MeanGain, MeanLoss;
      MeansVanish(period, cs, k);
    } else {
      EwmOfOne(Gains(cs));
      EwmOfOne(Losses(cs));
      ChangeAt(cs, k - 1);
    }
  }

  lemma {:induction false} EwmOfOne(xs: seq<real>)
    ensures Ewm(1.0, xs) == xs
    decreases |xs|
  {
    if |xs| > 1 { EwmOfOne(xs[..|xs| - 1]); }
  }

  /** What unbalances a series: one that only ever rose has RSI 50 and its mirror image RSI 0, and one
      that only ever fell has RSI 0 and its mirror image 50. */
  lemma OneWayRsi(p: Periods, c: real, cs: seq<Candle>, k: nat)
    requires Usable(p) && p.rsi >= 2 && k < |cs|
    ensures Rose(cs, k) && !Fell(cs, k) ==> Rsi(p, cs)[k] == 50.0 && Rsi(p, Mirror(c, cs))[k] == 0.0
    ensures !Rose(cs, k) && Fell(cs, k) ==> Rsi(p, cs)[k] == 0.0 && Rsi(p, Mirror(c, cs))[k] == 50.0
  {
    hide Rose, Fell, MeanGain, MeanLoss;
    if k == 0 {
      FirstRow(cs);
    } else {
      MeansVanish(p.rsi, cs, k);
      MeansMirror(p.rsi, c, cs, k);
      MeansNonNegative(p.rsi, cs, k);
      OneSided(MeanGain(p.rsi, cs, k), MeanLoss(p.rsi, cs, k));
    }
  }

  lemma OneSided(gain: real, loss: real)
    requires 0.0 <= gain && 0.0 <= loss
    ensures gain > 0.0 && loss == 0.0 ==> RsiOf(gain, loss) == 50.0 && RsiOf(loss, gain) == 0.0
    ensures gain == 0.0 && loss > 0.0 ==> RsiOf(gain, loss) == 0.0 && RsiOf(loss, gain) == 50.0
  {
  }

  lemma ColumnsMirror(p: Periods, c: real, cs: seq<Candle>, k: nat)
    requires Usable(p) && k < |cs|
    ensures Fast(p, Mirror(c, cs))[k] == c - Fast(p, cs)[k]
    ensures Slow(p, Mirror(c, cs))[k] == c - Slow(p, cs)[k]
    ensures Atr(p, Mirror(c, cs))[k] == Atr(p, cs)[k]
    ensures Balanced(p.rsi, cs, k) <==> Rsi(p, Mirror(c, cs))[k] == 100.0 - Rsi(p, cs)[k]
  {
    EwmMirror(SpanAlpha(p.fast), Closes(cs), Closes(Mirror(c, cs)), c);
    EwmMirror(SpanAlpha(p.slow), Closes(cs), Closes(Mirror(c, cs)), c);
    assert TrueRanges(Mirror(c, cs)) == TrueRanges(cs);
    if k > 0 {
      MeansMirror(p.rsi, c, cs, k);
      MeansNonNegative(p.rsi, cs, k);
      RsiMirror(MeanGain(p.rsi, cs, k), MeanLoss(p.rsi, cs, k));
    }
  }
}
