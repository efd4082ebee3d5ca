/** Fifteen-minute candles rolled up from five-minute bars, and their backward join.

    The roll-up and its indicators are computed over the whole series, later bars included; what
    keeps a joined value causal is the shift by one candle, and `JoinCausal` proves that it does.
 */
module RollUp {
  import opened Wrappers
  import opened Indicators

  const QUARTER := 900

  function BinTime(t: int): int {
    t - t % QUARTER
  }

  ghost predicate Increasing(cs: seq<Candle>) {
    forall i, j :: 0 <= i < j < |cs| ==> cs[i].time < cs[j].time
  }

  function Opened(c: Candle): Candle {
    c.(time := BinTime(c.time))
  }

  /** A candle after one more bar of its quarter hour. */
  function Joined(b: Candle, c: Candle): Candle {
    Candle(b.time, b.open, Max(b.high, c.high), Min(b.low, c.low), c.close, c.spread)
  }

  predicate SameBin(bins: seq<Candle>, c: Candle) {
    bins != [] && bins[|bins| - 1].time == BinTime(c.time)
  }

  function AddBar(bins: seq<Candle>, c: Candle): (r: seq<Candle>)
    ensures |r| == |bins| + if SameBin(bins, c) then 0 else 1
  {
    if SameBin(bins, c) then bins[..|bins| - 1] + [Joined(bins[|bins| - 1], c)] else bins + [Opened(c)]
  }

  /** Groups the bars by quarter hour: first open, highest high, lowest low, last close and spread. */
  function Bins(cs: seq<Candle>): (bins: seq<Candle>)
    ensures |bins| <= |cs| && (cs != [] ==> bins != [])
  {
    if cs == [] then [] else AddBar(Bins(cs[..|cs| - 1]), cs[|cs| - 1])
  }

  /** Bin m summarises exactly the bars lo..hi. */
  ghost predicate Summarises(b: Candle, cs: seq<Candle>, lo: int, hi: int) {
    && 0 <= lo < hi <= |cs|
    && (forall i :: 0 <= i < |cs| ==> (lo <= i < hi <==> BinTime(cs[i].time) == b.time))
    && b.open == cs[lo].open && b.close == cs[hi - 1].close && b.spread == cs[hi - 1].spread
    && (forall i :: lo <= i < hi ==> cs[i].high <= b.high && b.low <= cs[i].low)
    && (exists i :: lo <= i < hi && cs[i].high == b.high)
    && (exists i :: lo <= i < hi && cs[i].low == b.low)
  }

  lemma BinTimeMonotone(t: int, u: int)
    requires t <= u
    ensures BinTime(t) <= BinTime(u) && BinTime(t) <= t < BinTime(t) + QUARTER
  {
  }

  ghost predicate Aligned(bins: seq<Candle>) {
    forall m :: 0 <= m < |bins| ==> bins[m].time % QUARTER == 0
  }

  /** The last bin is the quarter hour of the last bar; earlier ones are earlier. */
  lemma {:induction false} BinTimes(cs: seq<Candle>)
    requires Increasing(cs)
    ensures Increasing(Bins(cs)) && Aligned(Bins(cs))
    ensures cs != [] ==> Bins(cs)[|Bins(cs)| - 1].time == BinTime(cs[|cs| - 1].time)
  {
    if cs != [] {
      var init, c := cs[..|cs| - 1], cs[|cs| - 1];
      hide BinTime, AddBar;
      BinTimes(init);
      if init != [] { BinTimeMonotone(init[|init| - 1].time, c.time); }
      AddBarTimes(Bins(init), c);
    }
  }

  lemma AddBarTimes(bins: seq<Candle>, c: Candle)
    requires Increasing(bins) && Aligned(bins)
    requires bins != [] ==> bins[|bins| - 1].time <= BinTime(c.time)
    ensures Increasing(AddBar(bins, c)) && Aligned(AddBar(bins, c))
    ensures AddBar(bins, c) != [] && AddBar(bins, c)[|AddBar(bins, c)| - 1].time == BinTime(c.time)
  {
    assert BinTime(c.time) % QUARTER == 0;
  }

  /** The roll-up is the grouping by quarter hour. */
  lemma BinsSummarise(cs: seq<Candle>, m: nat) returns (lo: int, hi: int)
    requires Increasing(cs) && m < |Bins(cs)|
    ensures Summarises(Bins(cs)[m], cs, lo, hi)
    ensures Bins(cs)[m].time % 900 == 0
    ensures forall i :: 0 <= i < |cs| ==> (lo <= i < hi <==> Bins(cs)[m].time <= cs[i].time < Bins(cs)[m].time + 900)
  {
    hide Bins, BinTime;
    lo, hi := SummaryOf(cs, m);
    BinTimes(cs);
    var t := Bins(cs)[m].time;
    forall i | 0 <= i < |cs|
      ensures BinTime(cs[i].time) == t <==> t <= cs[i].time < t + 900
    {
      QuarterOf(cs[i].time, t);
    }
  }

  /** The quarter hour of an instant. */
  lemma QuarterOf(u: int, t: int)
    requires t % 900 == 0
    ensures BinTime(u) == t <==> t <= u < t + 900
  {
  }

  lemma {:induction false} SummaryOf(cs: seq<Candle>, m: nat) returns (lo: int, hi: int)
    requires Increasing(cs) && m < |Bins(cs)|
    ensures Summarises(Bins(cs)[m], cs, lo, hi)
    decreases |cs|
  {
    var n := |cs| - 1;
    var init, before := cs[..n], Bins(cs[..n]);
    BinTimes(init);
    if m < |before| {
      lo, hi := SummaryOf(init, m);
      if SameBin(before, cs[n]) && m == |before| - 1 {
        LastOfBin(init, lo, hi, m);
        hi := n + 1;
        JoinedSummary(before[m], cs, lo);
      } else {
        EarlierBin(cs, m);
        KeptSummary(before[m], cs, lo, hi);
      }
    } else {
      lo, hi := n, n + 1;
      NewBin(cs);
    }
  }

  lemma EarlierBin(cs: seq<Candle>, m: nat)
    requires Increasing(cs) && cs != [] && m < |Bins(cs[..|cs| - 1])|
    requires SameBin(Bins(cs[..|cs| - 1]), cs[|cs| - 1]) ==> m < |Bins(cs[..|cs| - 1])| - 1
    ensures Bins(cs)[m] == Bins(cs[..|cs| - 1])[m]
    ensures BinTime(cs[|cs| - 1].time) != Bins(cs)[m].time
  {
    BinTimes(cs);
  }

  lemma NewBin(cs: seq<Candle>)
    requires Increasing(cs) && cs != [] && !SameBin(Bins(cs[..|cs| - 1]), cs[|cs| - 1])
    ensures Summarises(Bins(cs)[|Bins(cs)| - 1], cs, |cs| - 1, |cs|)
  {
    hide BinTime, Summarises;
    EarlierQuarters(cs);
    assert Bins(cs)[|Bins(cs)| - 1] == Opened(cs[|cs| - 1]);
    SoloSummary(cs);
  }

  lemma SoloSummary(cs: seq<Candle>)
    requires cs != []
    requires forall i :: 0 <= i < |cs| - 1 ==> BinTime(cs[i].time) != BinTime(cs[|cs| - 1].time)
    ensures Summarises(Opened(cs[|cs| - 1]), cs, |cs| - 1, |cs|)
  {
    hide BinTime;
    var n := |cs| - 1;
    assert cs[n].high == Opened(cs[n]).high && cs[n].low == Opened(cs[n]).low;
  }

  lemma EarlierQuarters(cs: seq<Candle>)
    requires Increasing(cs) && cs != [] && !SameBin(Bins(cs[..|cs| - 1]), cs[|cs| - 1])
    ensures forall i :: 0 <= i < |cs| - 1 ==> BinTime(cs[i].time) != BinTime(cs[|cs| - 1].time)
  {
    hide BinTime, AddBar, Bins;
    var n := |cs| - 1;
    BinTimes(cs[..n]);
    forall i | 0 <= i < n
      ensures BinTime(cs[i].time) != BinTime(cs[n].time)
    {
      assert cs[..n][n - 1] == cs[n - 1];
      BinTimeMonotone(cs[i].time, cs[n - 1].time);
      BinTimeMonotone(cs[n - 1].time, cs[n].time);
    }
  }

  lemma LastOfBin(cs: seq<Candle>, lo: int, hi: int, m: nat)
    requires Increasing(cs) && m == |Bins(cs)| - 1 && Summarises(Bins(cs)[m], cs, lo, hi)
    ensures hi == |cs|
  {
    BinTimes(cs);
    assert lo <= |cs| - 1 < hi;
  }

  lemma JoinedSummary(b: Candle, cs: seq<Candle>, lo: int)
    requires cs != [] && Summarises(b, cs[..|cs| - 1], lo, |cs| - 1)
    requires BinTime(cs[|cs| - 1].time) == b.time
    ensures Summarises(Joined(b, cs[|cs| - 1]), cs, lo, |cs|)
  {
    var n := |cs| - 1;
    var init := cs[..n];
    var j := Joined(b, cs[n]);
    var i :| lo <= i < n && init[i].high == b.high;
    assert cs[if b.high <= cs[n].high then n else i].high == j.high;
    var k :| lo <= k < n && init[k].low == b.low;
    assert cs[if b.low <= cs[n].low then k else n].low == j.low;
  }

  lemma KeptSummary(b: Candle, cs: seq<Candle>, lo: int, hi: int)
    requires cs != [] && Summarises(b, cs[..|cs| - 1], lo, hi)
    requires BinTime(cs[|cs| - 1].time) != b.time
    ensures Summarises(b, cs, lo, hi)
  {
    var init := cs[..|cs| - 1];
    var i :| lo <= i < hi && init[i].high == b.high;
    assert cs[i].high == b.high;
    var k :| lo <= k < hi && init[k].low == b.low;
    assert cs[k].low == b.low;
  }

  /** Bars that begin their own quarter hours are their own bins. */
  lemma {:induction false} QuarterBars(cs: seq<Candle>)
    requires Increasing(cs) && Aligned(cs)
    ensures Bins(cs) == cs
  {
    hide BinTime, Bins, AddBar;
    if cs == [] {
      NoBins();
    } else {
      var init, c := cs[..|cs| - 1], cs[|cs| - 1];
      QuarterBars(init);
      OneMoreBin(cs);
      OwnQuarter(init, c);
      assert init + [c] == cs;
    }
  }

  lemma NoBins()
    ensures Bins([]) == []
  {
  }

  lemma OneMoreBin(cs: seq<Candle>)
    requires cs != []
    ensures Bins(cs) == AddBar(Bins(cs[..|cs| - 1]), cs[|cs| - 1])
  {
  }

  lemma OwnQuarter(bins: seq<Candle>, c: Candle)
    requires c.time % QUARTER == 0 && (bins != [] ==> bins[|bins| - 1].time < c.time)
    ensures AddBar(bins, c) == bins + [c]
  {
  }

  // ---------------------------------------------------------------- later bars touch only the last bin

  lemma {:induction false} BinsGrow(cs: seq<Candle>, k: nat)
    requires 1 <= k <= |cs|
    ensures |Bins(cs[..k])| <= |Bins(cs)|
    ensures Bins(cs)[..|Bins(cs[..k])| - 1] == Bins(cs[..k])[..|Bins(cs[..k])| - 1]
    ensures Bins(cs)[|Bins(cs[..k])| - 1].time == Bins(cs[..k])[|Bins(cs[..k])| - 1].time
    decreases |cs|
  {
    if k < |cs| {
      var init := cs[..|cs| - 1];
      assert init[..k] == cs[..k];
      BinsGrow(init, k);
    } else {
      assert cs[..k] == cs;
    }
  }

  // ---------------------------------------------------------------- shift and backward join

  /** The last row at or before t, as a backward as-of join picks it. */
  function AsOf(rows: seq<Candle>, t: int): (m: int)
    ensures -1 <= m < |rows|
  {
    if rows == [] then -1
    else if rows[|rows| - 1].time <= t then |rows| - 1
    else AsOf(rows[..|rows| - 1], t)
  }

  lemma {:induction false} AsOfIs(rows: seq<Candle>, t: int, m: nat)
    requires Increasing(rows) && m < |rows| && rows[m].time <= t
    requires m + 1 < |rows| ==> t < rows[m + 1].time
    ensures AsOf(rows, t) == m
  {
    if m < |rows| - 1 {
      assert rows[m + 1].time <= rows[|rows| - 1].time by {
        if m + 1 < |rows| - 1 { assert rows[m + 1].time < rows[|rows| - 1].time; }
      }
      AsOfIs(rows[..|rows| - 1], t, m);
    }
  }

  /** The value joined to bar k: the column's entry one candle before the one the join picks;
      None is the NaN that the shift leaves in the first row. */
  function Shifted(column: seq<real>, bins: seq<Candle>, t: int): Option<real>
    requires |column| == |bins|
  {
    var m := AsOf(bins, t);
    if m <= 0 then None else Some(column[m - 1])
  }

  /** The join picks the bar's own quarter hour, so the shifted value comes from the one before. */
  lemma JoinPicksOwnBin(cs: seq<Candle>, k: nat)
    requires Increasing(cs) && k < |cs|
    ensures AsOf(Bins(cs), cs[k].time) == |Bins(cs[..k + 1])| - 1
  {
    var upto := cs[..k + 1];
    BinTimes(cs);
    BinTimes(upto);
    BinsGrow(cs, k + 1);
    var m := |Bins(upto)| - 1;
    BinTimeMonotone(cs[k].time, cs[k].time);
    assert upto[|upto| - 1] == cs[k];
    if m + 1 < |Bins(cs)| {
      NextQuarter(Bins(cs)[m].time, Bins(cs)[m + 1].time);
    }
    AsOfIs(Bins(cs), cs[k].time, m);
  }

  lemma NextQuarter(t: int, u: int)
    requires t < u && t % QUARTER == 0 && u % QUARTER == 0
    ensures t + QUARTER <= u
  {
  }

  /** No look-ahead through the join: the value at bar k is the same over any two series that
      agree up to and including bar k. */
  lemma JoinCausal(a: seq<Candle>, b: seq<Candle>, k: nat, ca: seq<real>, cb: seq<real>)
    requires Increasing(a) && Increasing(b) && k < |a| && k < |b| && a[..k + 1] == b[..k + 1]
    requires |ca| == |Bins(a)| && |cb| == |Bins(b)|
    requires forall m :: 0 <= m < |Bins(a[..k + 1])| - 1 && m < |ca| && m < |cb| ==> ca[m] == cb[m]
    ensures Shifted(ca, Bins(a), a[k].time) == Shifted(cb, Bins(b), b[k].time)
    ensures
      var own := |Bins(a[..k + 1])| - 1;
      own < |Bins(a)| && Shifted(ca, Bins(a), a[k].time) == if own == 0 then None else Some(ca[own - 1])
  {
    hide Bins, AsOf, Increasing;
    assert a[k] == a[..k + 1][k] == b[k];
    JoinPicksOwnBin(a, k);
    JoinPicksOwnBin(b, k);
    BinsGrow(a, k + 1);
    BinsGrow(b, k + 1);
  }

  // ---------------------------------------------------------------- the last finished quarter hour

  /** Bar `lo` is the first one of bar k's own quarter hour. */
  ghost predicate QuarterBegins(cs: seq<Candle>, k: nat, lo: nat)
    requires k < |cs|
  {
    var t := cs[k].time - cs[k].time % 900;
    && lo <= k
    && (forall i :: 0 <= i < lo ==> cs[i].time < t)
    && (forall i :: lo <= i <= k ==> t <= cs[i].time)
  }

  lemma {:induction false} FirstOfQuarter(cs: seq<Candle>, k: nat, n: nat) returns (lo: nat)
    requires Increasing(cs) && n <= k < |cs|
    requires cs[k].time - cs[k].time % 900 <= cs[n].time
    ensures QuarterBegins(cs, k, lo)
    decreases n
  {
    if n > 0 && cs[k].time - cs[k].time % 900 <= cs[n - 1].time {
      lo := FirstOfQuarter(cs, k, n - 1);
    } else {
      lo := n;
    }
  }

  lemma QuarterBar(cs: seq<Candle>, k: nat, lo: nat, j: nat)
    requires Increasing(cs) && k < |cs| && QuarterBegins(cs, k, lo) && j <= k
    ensures if lo <= j then BinTime(cs[j].time) == BinTime(cs[k].time) else BinTime(cs[j].time) < BinTime(cs[k].time)
  {
    assert j == k || cs[j].time < cs[k].time;
  }

  /** The bars of a quarter hour begun make one candle more. */
  lemma {:induction false} OneMoreBegun(cs: seq<Candle>, k: nat, lo: nat, j: nat)
    requires Increasing(cs) && k < |cs| && QuarterBegins(cs, k, lo) && lo <= j <= k
    ensures |Bins(cs[..j + 1])| == |Bins(cs[..lo])| + 1
    ensures j == lo ==> Bins(cs[..j + 1])[..|Bins(cs[..lo])|] == Bins(cs[..lo])
    decreases j
  {
    hide Bins, BinTime;
    QuarterBar(cs, k, lo, j);
    assert cs[..j + 1][..j] == cs[..j];
    OneMoreBin(cs[..j + 1]);
    BinTimes(cs[..j]);
    if j > lo {
      OneMoreBegun(cs, k, lo, j - 1);
      QuarterBar(cs, k, lo, j - 1);
      assert cs[..j][|cs[..j]| - 1] == cs[j - 1];
    } else if j > 0 {
      QuarterBar(cs, k, lo, j - 1);
      assert cs[..j][|cs[..j]| - 1] == cs[j - 1];
    } else {
      NoBins();
    }
  }

  /** What the join of bar k goes by: the candles finished before its own quarter hour. */
  lemma FinishedBins(cs: seq<Candle>, k: nat, lo: nat)
    requires Increasing(cs) && k < |cs| && QuarterBegins(cs, k, lo)
    ensures AsOf(Bins(cs), cs[k].time) == |Bins(cs[..lo])| < |Bins(cs)|
    ensures Bins(cs)[..|Bins(cs[..lo])|] == Bins(cs[..lo])
    ensures Bins(cs[..lo]) == [] <==> lo == 0
  {
    hide AsOf, BinTime, Bins, AddBar;
    JoinPicksOwnBin(cs, k);
    OneMoreBegun(cs, k, lo, k);
    OneMoreBegun(cs, k, lo, lo);
    BinsGrow(cs, lo + 1);
    NoBins();
  }

  /** Main result on the join: the value joined to bar k is missing exactly when no bar precedes its quarter
      hour; otherwise it is the last entry of the column over the candles of those bars alone, the last
      finished quarter hour that has a bar. */
  lemma JoinIsLastFinished(p: Periods, cs: seq<Candle>, k: nat) returns (lo: nat)
    requires Usable(p) && Increasing(cs) && k < |cs|
    ensures lo <= k && QuarterBegins(cs, k, lo)
    ensures
      var bins, done, t := Bins(cs), Bins(cs[..lo]), cs[k].time;
      && (done == [] <==> lo == 0)
      && Shifted(Fast(p, bins), bins, t) == (if lo == 0 then None else Some(Fast(p, done)[|done| - 1]))
      && Shifted(Slow(p, bins), bins, t) == (if lo == 0 then None else Some(Slow(p, done)[|done| - 1]))
      && Shifted(Rsi(p, bins), bins, t) == (if lo == 0 then None else Some(Rsi(p, done)[|done| - 1]))
  {
    hide Fast, Slow, Rsi, Atr, Bins, AsOf;
    lo := FirstOfQuarter(cs, k, k);
    FinishedBins(cs, k, lo);
    var bins, m := Bins(cs), |Bins(cs[..lo])|;
    ColumnsPrefix(p, bins, m);
    if m > 0 {
      assert Fast(p, bins)[..m][m - 1] == Fast(p, bins)[m - 1];
      assert Slow(p, bins)[..m][m - 1] == Slow(p, bins)[m - 1];
      assert Rsi(p, bins)[..m][m - 1] == Rsi(p, bins)[m - 1];
    }
  }

  /** Candles of rising bars close higher and higher. */
  lemma BinClosesRise(cs: seq<Candle>)
    requires Increasing(cs)
    ensures RisingCloses(cs) ==> RisingCloses(Bins(cs))
    ensures FallingCloses(cs) ==> FallingCloses(Bins(cs))
  {
    hide Bins, Summarises;
    forall m, n | 0 <= m < n < |Bins(cs)|
      ensures exists i, j :: 0 <= i < j < |cs| && cs[i].close == Bins(cs)[m].close && cs[j].close == Bins(cs)[n].close
    {
      var i, j := LastBars(cs, m, n);
    }
  }

  lemma LastBars(cs: seq<Candle>, m: nat, n: nat) returns (i: nat, j: nat)
    requires Increasing(cs) && m < n < |Bins(cs)|
    ensures i < j < |cs| && cs[i].close == Bins(cs)[m].close && cs[j].close == Bins(cs)[n].close
  {
    hide Bins;
    var lo, hi := BinsSummarise(cs, m);
    var lo', hi' := BinsSummarise(cs, n);
    BinTimes(cs);
    i, j := hi - 1, hi' - 1;
  }

  // ---------------------------------------------------------------- mirror image

  lemma {:induction false} BinsMirror(c: real, cs: seq<Candle>)
    ensures Bins(Mirror(c, cs)) == Mirror(c, Bins(cs))
  {
    if cs != [] {
      var n := |cs| - 1;
      assert Mirror(c, cs)[..n] == Mirror(c, cs[..n]);
      BinsMirror(c, cs[..n]);
      AddBarMirror(c, Bins(cs[..n]), cs[n]);
    }
  }

  lemma AddBarMirror(c: real, bins: seq<Candle>, x: Candle)
    ensures AddBar(Mirror(c, bins), MirrorCandle(c, x)) == Mirror(c, AddBar(bins, x))
  {
    if SameBin(bins, x) {
      var m := |bins| - 1;
      assert Joined(MirrorCandle(c, bins[m]), MirrorCandle(c, x)) == MirrorCandle(c, Joined(bins[m], x));
      assert Mirror(c, bins)[..m] == Mirror(c, bins[..m]);
    }
  }

  lemma {:induction false} AsOfMirror(c: real, rows: seq<Candle>, t: int)
    ensures AsOf(Mirror(c, rows), t) == AsOf(rows, t)
  {
    if rows != [] {
      assert Mirror(c, rows)[..|rows| - 1] == Mirror(c, rows[..|rows| - 1]);
      AsOfMirror(c, rows[..|rows| - 1], t);
    }
  }

  /** Rolled-up closes stay within the bounds of the bars' closes. */
  lemma BinClosesWithin(cs: seq<Candle>, lo: real, hi: real)
    requires Increasing(cs) && ClosesWithin(cs, lo, hi)
    ensures ClosesWithin(Bins(cs), lo, hi)
  {
    forall m | 0 <= m < |Bins(cs)|
      ensures lo <= Bins(cs)[m].close <= hi
    {
      var i, j := BinsSummarise(cs, m);
    }
  }
}
