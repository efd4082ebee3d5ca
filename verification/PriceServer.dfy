/** The price server as the fetcher sees it: one fixed series of rows on the five-minute grid,
    served by closed time range, in time order, PAGE_SIZE rows a page. */
module PriceServer {
  import opened Wrappers
  import opened IsoTime
  import opened BarLog

  const PAGE_SIZE := 1000
  const STEP := 300

  /** A server row; `body` is None when the candle parser rejects its prices. */
  datatype Row = Row(at: int, body: Option<Body>)

  predicate OnGrid(t: int) {
    t % STEP == 0
  }

  ghost predicate Series(rows: seq<Row>) {
    && (forall i :: 0 <= i < |rows| ==> InRange(rows[i].at) && OnGrid(rows[i].at))
    && (forall i, j :: 0 <= i < j < |rows| ==> rows[i].at < rows[j].at)
  }

  /** The number of rows before instant t. */
  function RowsBefore(rows: seq<Row>, t: int): (k: nat)
    ensures k <= |rows|
    ensures Series(rows) ==> forall i :: 0 <= i < k ==> rows[i].at < t
    ensures Series(rows) ==> forall i :: k <= i < |rows| ==> t <= rows[i].at
  {
    if rows == [] || rows[|rows| - 1].at < t then |rows|
    else RowsBefore(rows[..|rows| - 1], t)
  }

  lemma RowsBeforeMonotone(rows: seq<Row>, t: int, u: int)
    requires Series(rows) && t <= u
    ensures RowsBefore(rows, t) <= RowsBefore(rows, u)
  {
  }

  lemma RowsBeforeRow(rows: seq<Row>, i: nat)
    requires Series(rows) && i < |rows|
    ensures RowsBefore(rows, rows[i].at) == i
  {
    var k := RowsBefore(rows, rows[i].at);
    if k < |rows| { var r := rows[k]; }
  }

  /** Rows with from <= at < until. */
  function RowsIn(rows: seq<Row>, from: int, until: int): seq<Row> {
    var i, j := RowsBefore(rows, from), RowsBefore(rows, until);
    if i <= j then rows[i..j] else []
  }

  function TotalPages(rows: seq<Row>, from: int, to: int): nat {
    (|RowsIn(rows, from, to + 1)| + PAGE_SIZE - 1) / PAGE_SIZE
  }

  function Min(a: int, b: int): int { if a < b then a else b }

  function Max(a: int, b: int): int { if a < b then b else a }

  function PageRows(rows: seq<Row>, from: int, to: int, page: nat): seq<Row>
    requires page >= 1
  {
    var w := RowsIn(rows, from, to + 1);
    w[Min((page - 1) * PAGE_SIZE, |w|)..Min(page * PAGE_SIZE, |w|)]
  }

  // ---------------------------------------------------------------- parsed bars

  predicate Datable(rows: seq<Row>) {
    forall i :: 0 <= i < |rows| ==> InRange(rows[i].at)
  }

  /** The candle parser: a bar under the row's own key, or nothing. */
  function ParseRow(r: Row): seq<Bar>
    requires InRange(r.at)
  {
    if r.body.Some? then [Bar(Key(r.at), r.body.value, IG)] else []
  }

  function ParseRows(rows: seq<Row>): seq<Bar>
    requires Datable(rows)
  {
    if rows == [] then [] else ParseRows(rows[..|rows| - 1]) + ParseRow(rows[|rows| - 1])
  }

  /** The parseable server bars with from <= time < until. */
  function BarsIn(rows: seq<Row>, from: int, until: int): seq<Bar>
    requires Datable(rows)
  {
    ParseRows(RowsIn(rows, from, until))
  }

  lemma {:induction false} ParseConcat(a: seq<Row>, b: seq<Row>)
    requires Datable(a) && Datable(b)
    ensures ParseRows(a + b) == ParseRows(a) + ParseRows(b)
  {
    hide ParseRow, InRange;
    if b == [] {
      assert a + b == a;
    } else {
      assert (a + b)[..|a + b| - 1] == a + b[..|b| - 1];
      ParseConcat(a, b[..|b| - 1]);
    }
  }

  ghost predicate ParsedFrom(b: Bar, r: Row) {
    InRange(r.at) && b in ParseRow(r)
  }

  /** Parsing keeps exactly the parseable rows. */
  lemma {:induction false} ParsedBar(rows: seq<Row>, b: Bar)
    requires Datable(rows)
    ensures b in ParseRows(rows) <==> exists i :: 0 <= i < |rows| && ParsedFrom(b, rows[i])
  {
    hide ParseRow, InRange, ParseRows, ParsedFrom;
    if rows == [] {
      NoneParsed();
    } else {
      var n := |rows| - 1;
      UnfoldParse(rows);
      LastParsed(rows[n], b);
      ParsedBar(rows[..n], b);
      if b in ParseRows(rows[..n]) {
        var i :| 0 <= i < n && ParsedFrom(b, rows[..n][i]);
        assert ParsedFrom(b, rows[i]);
      }
      if i :| 0 <= i < n && ParsedFrom(b, rows[i]) {
        assert rows[..n][i] == rows[i];
      }
    }
  }

  lemma NoneParsed()
    ensures ParseRows([]) == []
  {
  }

  lemma LastParsed(r: Row, b: Bar)
    requires InRange(r.at)
    ensures b in ParseRow(r) <==> ParsedFrom(b, r)
  {
  }

  /** A window is the slice of the rows whose instants it covers. */
  lemma WindowSlice(rows: seq<Row>, from: int, until: int) returns (k: nat, m: nat)
    requires Series(rows)
    ensures k <= m <= |rows| && RowsIn(rows, from, until) == rows[k..m]
    ensures forall i :: 0 <= i < |rows| ==> (k <= i < m <==> from <= rows[i].at < until)
  {
    hide InRange, OnGrid;
    k, m := RowsBefore(rows, from), Max(RowsBefore(rows, from), RowsBefore(rows, until));
  }

  /** A bar is in a window when some parseable row of the series inside that window gives it. */
  lemma BarTime(rows: seq<Row>, from: int, until: int, b: Bar)
    requires Series(rows)
    ensures b in BarsIn(rows, from, until) <==>
      exists i :: 0 <= i < |rows| && from <= rows[i].at < until && ParsedFrom(b, rows[i])
  {
    hide ParsedFrom, InRange, OnGrid, RowsIn, RowsBefore, ParseRows;
    var w := RowsIn(rows, from, until);
    var k, m := WindowSlice(rows, from, until);
    ParsedBar(w, b);
    if b in ParseRows(w) {
      var i :| 0 <= i < |w| && ParsedFrom(b, w[i]);
      assert rows[k + i] == w[i];
    }
    if i :| 0 <= i < |rows| && from <= rows[i].at < until && ParsedFrom(b, rows[i]) {
      assert w[i - k] == rows[i];
    }
  }

  lemma {:induction false} ParsedOrdered(rows: seq<Row>)
    requires Series(rows)
    ensures Ordered(ParseRows(rows))
  {
    hide Key, Less, Ordered, ParseRows;
    if rows == [] {
      EmptyParse();
    } else {
      var n := |rows| - 1;
      var rest := ParseRows(rows[..n]);
      ParsedOrdered(rows[..n]);
      UnfoldParse(rows);
      if rows[n].body.Some? {
        LastBelow(rows);
        OrderedSnoc(rest, Bar(Key(rows[n].at), rows[n].body.value, IG));
      } else {
        assert rest + [] == rest;
      }
    }
  }

  lemma EmptyParse()
    ensures Ordered(ParseRows([]))
  {
  }

  lemma UnfoldParse(rows: seq<Row>)
    requires Datable(rows) && rows != []
    ensures ParseRows(rows) == ParseRows(rows[..|rows| - 1]) + ParseRow(rows[|rows| - 1])
  {
  }

  lemma LastBelow(rows: seq<Row>)
    requires Series(rows) && rows != []
    ensures Less(LastKey(ParseRows(rows[..|rows| - 1])), Key(rows[|rows| - 1].at))
  {
    hide Key, Less, ParseRows;
    var n := |rows| - 1;
    var rest := ParseRows(rows[..n]);
    if rest == [] {
      EmptyIsBottom(Key(rows[n].at));
    } else {
      ParsedBar(rows[..n], rest[|rest| - 1]);
      var i :| 0 <= i < n && ParsedFrom(rest[|rest| - 1], rows[..n][i]);
      assert rows[..n][i] == rows[i];
      KeyOrder(rows[i].at, rows[n].at);
    }
  }

  lemma WindowIsSeries(rows: seq<Row>, from: int, until: int)
    requires Series(rows)
    ensures Series(RowsIn(rows, from, until))
  {
    hide InRange, OnGrid, RowsBefore, RowsIn;
    var k, m := WindowSlice(rows, from, until);
  }

  lemma BarsOrdered(rows: seq<Row>, from: int, until: int)
    requires Series(rows)
    ensures Ordered(BarsIn(rows, from, until))
  {
    hide Ordered, ParseRows, InRange, OnGrid;
    WindowIsSeries(rows, from, until);
    ParsedOrdered(RowsIn(rows, from, until));
  }

  /** Every key of a window is the key of one of its instants. */
  lemma KeyTime(rows: seq<Row>, from: int, until: int, k: string) returns (t: int)
    requires Series(rows) && k in Keys(BarsIn(rows, from, until))
    ensures from <= t < until && InRange(t) && OnGrid(t) && k == Key(t)
  {
    hide Key, InRange, BarsIn;
    var bars := BarsIn(rows, from, until);
    var i :| 0 <= i < |bars| && bars[i].t == k;
    BarTime(rows, from, until, bars[i]);
    var j :| 0 <= j < |rows| && from <= rows[j].at < until && ParsedFrom(bars[i], rows[j]);
    t := rows[j].at;
  }

  lemma SliceJoin<T>(s: seq<T>, i: nat, j: nat, k: nat)
    requires i <= j <= k <= |s|
    ensures s[i..k] == s[i..j] + s[j..k]
  {
  }

  lemma WindowSplit(rows: seq<Row>, a: int, b: int, c: int)
    requires Series(rows) && a <= b <= c
    ensures BarsIn(rows, a, c) == BarsIn(rows, a, b) + BarsIn(rows, b, c)
  {
    RowsBeforeMonotone(rows, a, b);
    RowsBeforeMonotone(rows, b, c);
    hide ParseRows, InRange, OnGrid, RowsBefore;
    SliceJoin(rows, RowsBefore(rows, a), RowsBefore(rows, b), RowsBefore(rows, c));
    ParseConcat(RowsIn(rows, a, b), RowsIn(rows, b, c));
  }

  /** Between grid instants there is nothing to fetch. */
  lemma NothingBetween(rows: seq<Row>, a: int, b: int)
    requires Series(rows) && a <= b
    requires forall t :: a <= t < b ==> !OnGrid(t)
    ensures BarsIn(rows, a, b) == []
  {
    RowsBeforeMonotone(rows, a, b);
    var i := RowsBefore(rows, a);
    if i < |rows| { var r := rows[i]; }
  }

  lemma WindowKeyBelow(rows: seq<Row>, a: int, b: int, k: string, t: int)
    requires Series(rows) && k in Keys(BarsIn(rows, a, b)) && InRange(t) && b <= t
    ensures Less(k, Key(t))
  {
    var u := KeyTime(rows, a, b, k);
    KeyOrder(u, t);
  }

  // ---------------------------------------------------------------- appending windows

  /** Appending two overlapping or adjacent windows in turn is appending their union. */
  lemma ChainWindows(rows: seq<Row>, l0: seq<Bar>, l1: seq<Bar>, l2: seq<Bar>, a: int, r: int, c: int, e: int)
    requires Series(rows) && a <= c <= r && c <= e
    requires Extends(l0, BarsIn(rows, a, r), l1) && Extends(l1, BarsIn(rows, c, e), l2)
    ensures Extends(l0, BarsIn(rows, a, Max(r, e)), l2)
  {
    var x, y, u := BarsIn(rows, a, r), BarsIn(rows, c, e), BarsIn(rows, a, Max(r, e));
    forall k | k in Keys(y) && k !in Keys(x) && Less(LastKey(l0), k)
      ensures Less(LastKey(l1), k)
    {
      NotLate(rows, l0, l1, a, r, c, e, k);
    }
    AppendConcat(l0, x, l1, y, l2);
    UnionSameKeys(rows, a, r, c, e);
    ExtendsResort(l0, u, x + y, l2);
  }

  lemma NotLate(rows: seq<Row>, l0: seq<Bar>, l1: seq<Bar>, a: int, r: int, c: int, e: int, k: string)
    requires Series(rows) && a <= c <= r && c <= e && Extends(l0, BarsIn(rows, a, r), l1)
    requires k in Keys(BarsIn(rows, c, e)) && k !in Keys(BarsIn(rows, a, r)) && Less(LastKey(l0), k)
    ensures Less(LastKey(l1), k)
  {
    hide Extends, Key, Less, BarsIn, InRange;
    var t := KeyTime(rows, c, e, k);
    if t < r {
      KeyInPart(rows, c, e, a, r, k, t);
    }
    TopOrigin(l0, BarsIn(rows, a, r), l1);
    if LastKey(l1) != LastKey(l0) {
      WindowKeyBelow(rows, a, r, LastKey(l1), t);
    }
  }

  /** The last key of an extended log is its old one or comes from the batch. */
  lemma TopOrigin(log: seq<Bar>, bars: seq<Bar>, log': seq<Bar>)
    requires Extends(log, bars, log')
    ensures LastKey(log') == LastKey(log) || LastKey(log') in Keys(bars)
  {
    if |log'| > |log| { assert Brings(bars, LastKey(log), log'[|log'| - 1]); }
  }

  /** A key whose instant lies in a part of a window is a key of that part. */
  lemma KeyInPart(rows: seq<Row>, a: int, b: int, c: int, d: int, k: string, t: int)
    requires Series(rows) && k in Keys(BarsIn(rows, a, b)) && InRange(t) && k == Key(t) && c <= t < d
    ensures k in Keys(BarsIn(rows, c, d))
  {
    hide Key, InRange, BarsIn;
    var bars := BarsIn(rows, a, b);
    var i :| 0 <= i < |bars| && bars[i].t == k;
    BarTime(rows, a, b, bars[i]);
    var j :| 0 <= j < |rows| && a <= rows[j].at < b && ParsedFrom(bars[i], rows[j]);
    KeyOrder(rows[j].at, t);
    BarTime(rows, c, d, bars[i]);
  }

  /** A batch made of two overlapping windows has the keys and bars of their union. */
  lemma UnionSameKeys(rows: seq<Row>, a: int, r: int, c: int, e: int)
    requires Series(rows) && a <= c <= r && c <= e
    ensures
      var z, u := BarsIn(rows, a, r) + BarsIn(rows, c, e), BarsIn(rows, a, Max(r, e));
      Keys(z) == Keys(u) && forall k :: k in Keys(u) ==> FirstWith(z, k) == FirstWith(u, k)
  {
    var x, y, u := BarsIn(rows, a, r), BarsIn(rows, c, e), BarsIn(rows, a, Max(r, e));
    KeysConcat(x, y);
    forall b
      ensures b in x + y <==> b in u
    {
      BarTime(rows, a, r, b);
      BarTime(rows, c, e, b);
      BarTime(rows, a, Max(r, e), b);
    }
    SameBarsSameFirst(x + y, u) by { BarsOrdered(rows, a, Max(r, e)); }
  }

  lemma SameBarsSameFirst(z: seq<Bar>, u: seq<Bar>)
    requires Ordered(u) && forall b :: b in z <==> b in u
    ensures Keys(z) == Keys(u)
    ensures forall k :: k in Keys(u) ==> FirstWith(z, k) == FirstWith(u, k)
  {
    forall k | k in Keys(z)
      ensures k in Keys(u)
    {
      assert FirstWith(z, k) in u;
    }
    forall k | k in Keys(u)
      ensures k in Keys(z) && FirstWith(z, k) == FirstWith(u, k)
    {
      assert FirstWith(u, k) in z;
      var i :| 0 <= i < |u| && u[i] == FirstWith(z, k);
      FirstOfOrdered(u, i);
    }
  }

  /** Appending a window that starts inside what is cached moves the cache's end and nothing else. */
  lemma AppendToPrefix(rows: seq<Row>, origin: int, f: int, a: int, e: int)
    requires Series(rows) && origin <= a <= f && a <= e
    ensures Extends(BarsIn(rows, origin, f), BarsIn(rows, a, e), BarsIn(rows, origin, Max(f, e)))
  {
    hide BarsIn, Ordered, Brings, InRange, OnGrid, Keys, LastKey;
    var log, bars, log' := BarsIn(rows, origin, f), BarsIn(rows, a, e), BarsIn(rows, origin, Max(f, e));
    BarsOrdered(rows, origin, Max(f, e));
    WindowSplit(rows, origin, f, Max(f, e));
    forall i | |log| <= i < |log'|
      ensures Brings(bars, LastKey(log), log'[i])
    {
      if f < e { NewBarBrought(rows, origin, f, a, e, i); }
    }
    forall k | Offers(bars, LastKey(log), k)
      ensures k in Keys(log')
    {
      OfferedIsThere(rows, origin, f, a, e, k);
    }
  }

  lemma NewBarBrought(rows: seq<Row>, origin: int, f: int, a: int, e: int, i: nat)
    requires Series(rows) && origin <= a <= f < e
    requires |BarsIn(rows, origin, f)| <= i < |BarsIn(rows, origin, e)|
    ensures Brings(BarsIn(rows, a, e), LastKey(BarsIn(rows, origin, f)), BarsIn(rows, origin, e)[i])
  {
    hide BarsIn, InRange, OnGrid, Less, ParsedFrom, FirstWith;
    var log, bars, log' := BarsIn(rows, origin, f), BarsIn(rows, a, e), BarsIn(rows, origin, e);
    BarsOrdered(rows, a, e);
    BarsOrdered(rows, origin, e);
    WindowSplit(rows, origin, f, e);
    assert log'[i] == BarsIn(rows, f, e)[i - |log|];
    InPart(rows, f, e, a, e, log'[i]);
    var j :| 0 <= j < |bars| && bars[j] == log'[i];
    FirstOfOrdered(bars, j);
    EmptyIsBottom(log'[i].t);
    assert log != [] ==> log[|log| - 1] == log'[|log| - 1];
  }

  lemma OfferedIsThere(rows: seq<Row>, origin: int, f: int, a: int, e: int, k: string)
    requires Series(rows) && origin <= a <= f && a <= e && k in Keys(BarsIn(rows, a, e))
    ensures k in Keys(BarsIn(rows, origin, Max(f, e)))
  {
    hide BarsIn, InRange, OnGrid, ParsedFrom;
    InPart(rows, a, e, origin, Max(f, e), FirstWith(BarsIn(rows, a, e), k));
  }

  /** The bars of a window are bars of every window around it. */
  lemma InPart(rows: seq<Row>, a: int, b: int, c: int, d: int, x: Bar)
    requires Series(rows) && c <= a && b <= d && x in BarsIn(rows, a, b)
    ensures x in BarsIn(rows, c, d)
  {
    hide BarsIn, InRange, OnGrid, ParsedFrom;
    BarTime(rows, a, b, x);
    BarTime(rows, c, d, x);
  }

  // ---------------------------------------------------------------- pages

  /** The instant up to which the first p pages of a range reach. */
  function PageEdge(rows: seq<Row>, from: int, to: int, p: nat): int {
    var w := RowsIn(rows, from, to + 1);
    if p == 0 then from else if p * PAGE_SIZE < |w| then w[p * PAGE_SIZE].at else to + 1
  }

  /** Page p is the window between two consecutive edges; the last page ends at `to`. */
  lemma PageIsWindow(rows: seq<Row>, from: int, to: int, p: nat)
    requires Series(rows) && from <= to + 1 && p >= 1
    ensures from <= PageEdge(rows, from, to, p - 1) <= PageEdge(rows, from, to, p) <= to + 1
    ensures PageRows(rows, from, to, p) == RowsIn(rows, PageEdge(rows, from, to, p - 1), PageEdge(rows, from, to, p))
    ensures p >= TotalPages(rows, from, to) ==> PageEdge(rows, from, to, p) == to + 1
  {
    hide InRange, OnGrid, RowsBefore, PageEdge;
    var w := RowsIn(rows, from, to + 1);
    EdgeRow(rows, from, to, p - 1);
    EdgeRow(rows, from, to, p);
    EdgesAscend(rows, from, to, p);
    RowsBeforeMonotone(rows, from, to + 1);
    var i := RowsBefore(rows, from);
    SliceOfSlice(rows, i, i + |w|, Min((p - 1) * PAGE_SIZE, |w|), Min(p * PAGE_SIZE, |w|));
  }

  /** Every page but the last has a thousand rows, and the last has some, when the range has any. */
  lemma PageSizes(rows: seq<Row>, from: int, to: int, p: nat)
    requires Series(rows) && p >= 1
    ensures p < TotalPages(rows, from, to) ==> |PageRows(rows, from, to, p)| == 1000
    ensures p == TotalPages(rows, from, to) ==> 1 <= |PageRows(rows, from, to, p)| <= 1000
    ensures p > TotalPages(rows, from, to) ==> PageRows(rows, from, to, p) == []
    ensures TotalPages(rows, from, to) == 0 <==> RowsIn(rows, from, to + 1) == []
  {
    hide RowsIn;
  }

  lemma EdgesAscend(rows: seq<Row>, from: int, to: int, p: nat)
    requires Series(rows) && from <= to + 1 && p >= 1
    ensures PageEdge(rows, from, to, p - 1) <= PageEdge(rows, from, to, p)
    ensures p >= TotalPages(rows, from, to) ==> PageEdge(rows, from, to, p) == to + 1
  {
    hide InRange, OnGrid, RowsBefore, RowsIn;
    EdgeRow(rows, from, to, p);
    EdgeRow(rows, from, to, p - 1);
    WindowIsSeries(rows, from, to + 1);
  }

  lemma SliceOfSlice<T>(s: seq<T>, i: nat, j: nat, lo: nat, hi: nat)
    requires i <= j <= |s| && lo <= hi <= j - i
    ensures s[i..j][lo..hi] == s[i + lo..i + hi]
  {
    var w := s[i..j];
    forall k | 0 <= k < hi - lo
      ensures w[lo..hi][k] == s[i + lo..i + hi][k]
    {
      assert w[lo + k] == s[i + lo + k];
    }
  }

  lemma EdgeRow(rows: seq<Row>, from: int, to: int, p: nat)
    requires Series(rows) && from <= to + 1
    ensures from <= PageEdge(rows, from, to, p) <= to + 1
    ensures RowsBefore(rows, PageEdge(rows, from, to, p)) ==
      RowsBefore(rows, from) + Min(p * PAGE_SIZE, |RowsIn(rows, from, to + 1)|)
  {
    var w := RowsIn(rows, from, to + 1);
    RowsBeforeMonotone(rows, from, to + 1);
    if p != 0 && p * PAGE_SIZE < |w| {
      var i := RowsBefore(rows, from) + p * PAGE_SIZE;
      assert rows[i] == w[p * PAGE_SIZE];
      RowsBeforeRow(rows, i);
    }
  }
}
