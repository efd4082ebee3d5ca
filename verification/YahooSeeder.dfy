/** The Yahoo fallback of a blocked back-fill: below a hundred cached lines it downloads sixty days of
    bars and, when they pass its checks, replaces the whole cache file with them.
 */
module YahooSeeder {
  import opened Wrappers
  import opened IsoTime
  import opened BarLog
  import opened PriceServer

  const MIN_BARS := 100

  type Frame = rows: seq<Row> | Datable(rows) witness []

  /** What the world decides about one seed: whether the epic has a Yahoo symbol, the resampled frame
      the download gives (None for an empty or failed one), and whether the call comes back in time.
      A late download still writes its file. */
  datatype Seed = Seed(mapped: bool, frame: Option<Frame>, reported: bool)

  /** An epic without a Yahoo symbol. */
  const NO_YAHOO := Seed(false, None, false)

  function Retagged(bars: seq<Bar>): (r: seq<Bar>)
    ensures |r| == |bars|
  {
    seq(|bars|, i requires 0 <= i < |bars| => bars[i].(source := Yahoo))
  }

  /** The bars of a frame: rows with a missing price dropped, sorted by key, marked as Yahoo's. */
  function SeedBars(rows: Frame): seq<Bar> {
    SortByKey(Retagged(ParseRows(rows)))
  }

  predicate Sane(b: Body) {
    !(b.h < b.l || b.h < b.o || b.h < b.c || b.l > b.o || b.l > b.c)
  }

  /** A file worth writing: enough bars, sane prices, keys strictly increasing. */
  predicate Acceptable(bars: seq<Bar>) {
    |bars| >= MIN_BARS && Ordered(bars) && forall i :: 0 <= i < |bars| ==> Sane(bars[i].body)
  }

  /** Yahoo has a file for this epic. */
  predicate Delivers(seed: Seed) {
    seed.mapped && seed.frame.Some? && Acceptable(SeedBars(seed.frame.value))
  }

  /** The seeder's guard: exactly these seeds replace the file. */
  predicate Overwrites(seed: Seed, lines: nat) {
    lines < MIN_BARS && Delivers(seed)
  }

  /** When the caller is told that there is something to work with. */
  predicate Reports(seed: Seed, lines: nat) {
    seed.mapped && (lines >= MIN_BARS || (Overwrites(seed, lines) && seed.reported))
  }

  /** A cache file that begins with Yahoo bars. */
  predicate Seeded(log: seq<Bar>) {
    |log| >= MIN_BARS && log[0].source == Yahoo
  }

  // ---------------------------------------------------------------- the bars of a frame

  lemma {:induction false} InsertMembers(x: Bar, s: seq<Bar>, b: Bar)
    requires b in Insert(x, s)
    ensures b == x || b in s
  {
    if s != [] && Less(s[0].t, x.t) && b != s[0] { InsertMembers(x, s[1..], b); }
  }

  lemma {:induction false} SortMembers(bars: seq<Bar>, b: Bar)
    requires b in SortByKey(bars)
    ensures b in bars
  {
    if bars != [] {
      InsertMembers(bars[0], SortByKey(bars[1..]), b);
      if b != bars[0] { SortMembers(bars[1..], b); }
    }
  }

  /** Every seeded bar is marked and has a key. */
  lemma SeedBarsMarked(rows: Frame)
    ensures forall b :: b in SeedBars(rows) ==> b.source == Yahoo && b.t != ""
  {
    hide ParseRows, SortByKey, Key;
    forall b | b in SeedBars(rows)
      ensures b.source == Yahoo && b.t != ""
    {
      SortMembers(Retagged(ParseRows(rows)), b);
      var i :| 0 <= i < |ParseRows(rows)| && b == ParseRows(rows)[i].(source := Yahoo);
      ParsedBar(rows, ParseRows(rows)[i]);
    }
  }

  lemma {:induction false} InsertKeeps(x: Bar, s: seq<Bar>, b: Bar)
    requires b == x || b in s
    ensures b in Insert(x, s)
  {
    if s != [] && Less(s[0].t, x.t) && b != s[0] { InsertKeeps(x, s[1..], b); }
  }

  lemma {:induction false} SortKeeps(bars: seq<Bar>, b: Bar)
    requires b in bars
    ensures b in SortByKey(bars)
  {
    if b != bars[0] { SortKeeps(bars[1..], b); }
    InsertKeeps(bars[0], SortByKey(bars[1..]), b);
  }

  /** A seeded file holds exactly the rows of the frame that have their prices, under their own times and
      marked as Yahoo's, in the order of their keys. */
  lemma SeedBarsAre(rows: Frame, b: Bar)
    ensures Ascending(SeedBars(rows))
    ensures b in SeedBars(rows) <==>
      exists i :: 0 <= i < |rows| && rows[i].body.Some? && b == Bar(Key(rows[i].at), rows[i].body.value, Yahoo)
  {
    hide ParseRows, SortByKey, Key, Ascending, Insert;
    var parsed := ParseRows(rows);
    SortFacts(Retagged(parsed));
    if b in SeedBars(rows) {
      SortMembers(Retagged(parsed), b);
      var i :| 0 <= i < |parsed| && b == parsed[i].(source := Yahoo);
      ParsedBar(rows, parsed[i]);
      var j :| 0 <= j < |rows| && ParsedFrom(parsed[i], rows[j]);
    }
    if i :| 0 <= i < |rows| && rows[i].body.Some? && b == Bar(Key(rows[i].at), rows[i].body.value, Yahoo) {
      ParsedBar(rows, b.(source := IG));
      assert ParsedFrom(b.(source := IG), rows[i]);
      var k :| 0 <= k < |parsed| && parsed[k] == b.(source := IG);
      assert Retagged(parsed)[k] == b;
      SortKeeps(Retagged(parsed), b);
    }
  }

  /** Sane prices: open and close between low and high. */
  lemma SaneIs(b: Body)
    ensures Sane(b) <==> b.l <= b.o <= b.h && b.l <= b.c <= b.h
  {
  }

  lemma OverwriteSeeds(seed: Seed, lines: nat)
    requires Overwrites(seed, lines)
    ensures lines < MIN_BARS && Seeded(SeedBars(seed.frame.value)) && Ordered(SeedBars(seed.frame.value))
  {
    hide SeedBars, Ordered;
    SeedBarsMarked(seed.frame.value);
  }

  lemma {:induction false} SortedStays(bars: seq<Bar>)
    requires Ordered(bars)
    ensures SortByKey(bars) == bars
  {
    hide Less;
    if bars != [] {
      SortedStays(bars[1..]);
      if |bars| > 1 { NotBoth(bars[0].t, bars[1].t); }
      assert bars == [bars[0]] + bars[1..];
    }
  }

  lemma {:induction false} AllParsed(rows: seq<Row>)
    requires Datable(rows) && forall i :: 0 <= i < |rows| ==> rows[i].body.Some?
    ensures |ParseRows(rows)| == |rows|
    ensures forall i :: 0 <= i < |rows| ==> ParseRows(rows)[i].body == rows[i].body.value
  {
    hide Key;
    if rows != [] { AllParsed(rows[..|rows| - 1]); }
  }

  /** A hundred sane rows on the grid are accepted, whatever their prices and times. */
  lemma GridFrameAccepted(rows: Frame)
    requires Series(rows) && |rows| >= MIN_BARS
    requires forall i :: 0 <= i < |rows| ==> rows[i].body.Some? && Sane(rows[i].body.value)
    ensures Acceptable(SeedBars(rows)) && |SeedBars(rows)| == |rows|
  {
    hide ParseRows, Less, Sane, InRange, OnGrid, SortByKey;
    AllParsed(rows);
    ParsedOrdered(rows);
    SortedStays(Retagged(ParseRows(rows)));
  }

  // ---------------------------------------------------------------- the checks

  /** Each key is above the one before it, as far as that one is a key at all. */
  ghost predicate StepsUp(bars: seq<Bar>) {
    forall i, j :: 0 <= i && j == i + 1 && j < |bars| && bars[i].t != "" ==> Less(bars[i].t, bars[j].t)
  }

  lemma {:induction false} StepsOrder(bars: seq<Bar>, i: nat, j: nat)
    requires StepsUp(bars) && i < j < |bars| && forall k :: 0 <= k < |bars| ==> bars[k].t != ""
    ensures Less(bars[i].t, bars[j].t)
    decreases j
  {
    hide Less;
    assert Less(bars[j - 1].t, bars[j].t);
    if i < j - 1 {
      StepsOrder(bars, i, j - 1);
      LessTransitive(bars[i].t, bars[j - 1].t, bars[j].t);
    }
  }

  lemma OrderSteps(bars: seq<Bar>)
    ensures Ordered(bars) ==> StepsUp(bars)
  {
    hide Less;
  }

  /** The validation loop accepts exactly the acceptable files. */
  method Validate(bars: seq<Bar>) returns (ok: bool)
    ensures ok <==>
      && |bars| >= 100 && StepsUp(bars)
      && forall i :: 0 <= i < |bars| ==> var b := bars[i].body; b.l <= b.o <= b.h && b.l <= b.c <= b.h
    ensures (forall b :: b in bars ==> b.t != "") ==> (ok <==> Acceptable(bars))
  {
    hide Less, Sane;
    OrderSteps(bars);
    ok := false;
    if |bars| < MIN_BARS { return; }
    var prev := "";
    var i := 0;
    while i < |bars|
      invariant 0 <= i <= |bars|
      invariant prev == if i == 0 then "" else bars[i - 1].t
      invariant StepsUp(bars[..i]) && forall k :: 0 <= k < i ==> Sane(bars[k].body)
      invariant forall k :: 0 <= k < i ==> var b := bars[k].body; b.l <= b.o <= b.h && b.l <= b.c <= b.h
    {
      var t := bars[i].t;
      LessTotal(t, prev);
      NotBoth(prev, t);
      assert i > 0 ==> bars[..i + 1][i - 1] == bars[i - 1];
      assert bars[..i + 1][i] == bars[i];
      SaneIs(bars[i].body);
      if !Sane(bars[i].body) { return; }
      if prev != "" && (Less(t, prev) || t == prev) {
        assert !StepsUp(bars) by { assert bars[i - 1].t == prev; }
        return;
      }
      prev := t;
      i := i + 1;
    }
    assert bars[..|bars|] == bars;
    ok := true;
    if forall b :: b in bars ==> b.t != "" {
      forall i, j | 0 <= i < j < |bars|
        ensures Less(bars[i].t, bars[j].t)
      {
        StepsOrder(bars, i, j);
      }
    }
  }

  // ---------------------------------------------------------------- the seed

  /** Seeds the cache of one epic. */
  method SeedEpic(cache: BarCache, seed: Seed) returns (ok: bool)
    requires cache.Valid()
    modifies cache
    ensures cache.Valid()
    ensures if Overwrites(seed, old(cache.Lines()))
      then cache.log == SeedBars(seed.frame.value) && cache.Lines() == |cache.log|
      else cache.log == old(cache.log) && cache.Lines() == old(cache.Lines())
    ensures ok == Reports(seed, old(cache.Lines()))
  {
    hide SeedBars, Ordered, Acceptable;
    if !seed.mapped {
      return false;
    }
    if cache.Lines() >= MIN_BARS {
      return true;
    }
    if seed.frame.None? {
      return false;
    }
    var bars := SeedBars(seed.frame.value);
    SeedBarsMarked(seed.frame.value);
    var valid := Validate(bars);
    if !valid {
      return false;
    }
    OverwriteSeeds(seed, cache.Lines());
    cache.Overwrite(bars);
    return seed.reported;
  }
}
