/** The append-only bar cache and its batch append.

    `Extends` is what an append promises: the old lines stay, the keys above the old last key
    that the batch offers are added, each once and with the first body the batch gives for it,
    in key order.  It fixes the new file completely (`ExtendsUnique`).
 */
module BarLog {
  import opened Wrappers
  import opened IsoTime

  datatype Body = Body(o: real, h: real, l: real, c: real, v: real, spread: real)

  /** Who delivered a bar; the Yahoo seeder marks its own. */
  datatype Source = IG | Yahoo

  datatype Bar = Bar(t: string, body: Body, source: Source)

  function Keys(bars: seq<Bar>): set<string> {
    set i | 0 <= i < |bars| :: bars[i].t
  }

  function LastKey(log: seq<Bar>): string {
    if log == [] then "" else log[|log| - 1].t
  }

  /** Keys are strictly increasing, and none is empty. */
  predicate Ordered(log: seq<Bar>) {
    && (forall i :: 0 <= i < |log| ==> log[i].t != "")
    && (forall i, j :: 0 <= i < j < |log| ==> Less(log[i].t, log[j].t))
  }

  lemma NoKeys(bars: seq<Bar>)
    ensures Keys(bars) == {} <==> bars == []
  {
    if bars != [] { assert bars[0].t in Keys(bars); }
  }

  /** The first bar of a batch under a key. */
  function FirstWith(bars: seq<Bar>, k: string): (b: Bar)
    requires k in Keys(bars)
    ensures b in bars && b.t == k
  {
    if bars[0].t == k then bars[0]
    else
      assert forall i :: 1 <= i < |bars| ==> bars[i] == bars[1..][i - 1];
      FirstWith(bars[1..], k)
  }

  /** What a batch contributes to a log whose last key is `last`. */
  ghost predicate Offers(bars: seq<Bar>, last: string, k: string) {
    k in Keys(bars) && Less(last, k)
  }

  ghost predicate Extends(log: seq<Bar>, bars: seq<Bar>, log': seq<Bar>) {
    && log <= log'
    && Ordered(log')
    && (forall i :: |log| <= i < |log'| ==> Brings(bars, LastKey(log), log'[i]))
    && (forall k :: Offers(bars, LastKey(log), k) ==> k in Keys(log'))
  }

  ghost predicate Brings(bars: seq<Bar>, last: string, b: Bar) {
    Offers(bars, last, b.t) && b == FirstWith(bars, b.t)
  }

  // ---------------------------------------------------------------- facts about ordered logs

  lemma KeysConcat(a: seq<Bar>, b: seq<Bar>)
    ensures Keys(a + b) == Keys(a) + Keys(b)
  {
    forall k | k in Keys(a) + Keys(b)
      ensures k in Keys(a + b)
    {
      if k in Keys(a) {
        var i :| 0 <= i < |a| && a[i].t == k;
        assert (a + b)[i].t == k;
      } else {
        var i :| 0 <= i < |b| && b[i].t == k;
        assert (a + b)[|a| + i].t == k;
      }
    }
  }

  lemma KeysSnoc(a: seq<Bar>, b: Bar)
    ensures Keys(a + [b]) == Keys(a) + {b.t}
  {
    KeysConcat(a, [b]);
    assert [b][0].t == b.t;
    assert Keys([b]) == {b.t};
  }

  lemma FirstWithConcat(a: seq<Bar>, b: seq<Bar>, k: string)
    requires k in Keys(a + b)
    ensures k in Keys(a) ==> FirstWith(a + b, k) == FirstWith(a, k)
    ensures k !in Keys(a) ==> k in Keys(b) && FirstWith(a + b, k) == FirstWith(b, k)
  {
    KeysConcat(a, b);
    if a == [] {
      assert a + b == b;
    } else if a[0].t != k {
      assert (a + b)[1..] == a[1..] + b && a == [a[0]] + a[1..];
      KeysConcat([a[0]], a[1..]);
      KeysConcat(a[1..], b);
      FirstWithConcat(a[1..], b, k);
    }
  }

  /** In an ordered log every key has one bar. */
  lemma FirstOfOrdered(log: seq<Bar>, i: nat)
    requires Ordered(log) && i < |log|
    ensures log[i].t in Keys(log) && FirstWith(log, log[i].t) == log[i]
  {
    var b := FirstWith(log, log[i].t);
    var j :| 0 <= j < |log| && log[j] == b;
    if j < i { LessIrreflexive(b.t); }
    if i < j { LessIrreflexive(b.t); }
  }

  lemma LastKeyIsTop(log: seq<Bar>, k: string)
    requires Ordered(log) && k in Keys(log)
    ensures !Less(LastKey(log), k)
  {
    var i :| 0 <= i < |log| && log[i].t == k;
    if Less(LastKey(log), k) {
      LessIrreflexive(k);
      LessTransitive(k, LastKey(log), k);
    }
  }

  lemma NotBoth(a: string, b: string)
    ensures !(Less(b, a) && (Less(a, b) || a == b))
  {
    LessIrreflexive(a);
    if Less(b, a) && Less(a, b) { LessTransitive(a, b, a); }
  }

  lemma EmptyIsBottom(k: string)
    ensures Less("", k) <==> k != ""
  {
  }

  /** Adding one key above the last keeps the order. */
  lemma OrderedSnoc(log: seq<Bar>, b: Bar)
    requires Ordered(log) && Less(LastKey(log), b.t)
    ensures Ordered(log + [b]) && LastKey(log + [b]) == b.t
  {
    forall i | 0 <= i < |log|
      ensures Less(log[i].t, b.t)
    {
      if i < |log| - 1 { LessTransitive(log[i].t, LastKey(log), b.t); }
    }
  }

  // ---------------------------------------------------------------- laws of appending

  lemma {:induction false} OrderedByKeys(a: seq<Bar>, b: seq<Bar>)
    requires Ordered(a) && Ordered(b) && Keys(a) == Keys(b)
    requires forall i, j :: 0 <= i < |a| && 0 <= j < |b| && a[i].t == b[j].t ==> a[i] == b[j]
    ensures a == b
    decreases |a|
  {
    if a != [] && b != [] {
      var x, y := a[|a| - 1].t, b[|b| - 1].t;
      assert x in Keys(b) && y in Keys(a);
      LastKeyIsTop(b, x);
      LastKeyIsTop(a, y);
      LessTotal(x, y);
      var a', b' := a[..|a| - 1], b[..|b| - 1];
      assert a == a' + [a[|a| - 1]] && b == b' + [b[|b| - 1]];
      KeysConcat(a', [a[|a| - 1]]);
      KeysConcat(b', [b[|b| - 1]]);
      LessIrreflexive(x);
      assert x !in Keys(a') && x !in Keys(b');
      OrderedByKeys(a', b');
    } else {
      NoKeys(a);
      NoKeys(b);
    }
  }

  /** The promise fixes the new file. */
  lemma ExtendsUnique(log: seq<Bar>, bars: seq<Bar>, x: seq<Bar>, y: seq<Bar>)
    requires Extends(log, bars, x) && Extends(log, bars, y)
    ensures x == y
  {
    SameKeys(log, bars, x, y);
    SameKeys(log, bars, y, x);
    forall i, j | 0 <= i < |x| && 0 <= j < |y| && x[i].t == y[j].t
      ensures x[i] == y[j]
    {
      if i < |log| { OldKeyOldBar(log, bars, x, y, i, j); }
      else if j < |log| { OldKeyOldBar(log, bars, y, x, j, i); }
    }
    OrderedByKeys(x, y);
  }

  lemma SameKeys(log: seq<Bar>, bars: seq<Bar>, x: seq<Bar>, y: seq<Bar>)
    requires Extends(log, bars, x) && Extends(log, bars, y)
    ensures Keys(x) <= Keys(y)
  {
    forall k | k in Keys(x)
      ensures k in Keys(y)
    {
      var i :| 0 <= i < |x| && x[i].t == k;
      if i < |log| { assert y[i].t == k; } else { assert Brings(bars, LastKey(log), x[i]); }
    }
  }

  lemma OldKeyOldBar(log: seq<Bar>, bars: seq<Bar>, x: seq<Bar>, y: seq<Bar>, i: nat, j: nat)
    requires Extends(log, bars, x) && Extends(log, bars, y)
    requires i < |log| && j < |y| && x[i].t == y[j].t
    ensures x[i] == y[j]
  {
    assert y[i] == x[i];
    FirstOfOrdered(y, i);
    FirstOfOrdered(y, j);
  }

  /** A repeated batch adds nothing. */
  lemma RepeatAddsNothing(log: seq<Bar>, bars: seq<Bar>, once: seq<Bar>, twice: seq<Bar>)
    requires Extends(log, bars, once) && Extends(once, bars, twice)
    ensures twice == once
  {
    if |twice| > |once| {
      var k := twice[|once|].t;
      assert Brings(bars, LastKey(once), twice[|once|]);
      ExtendsLifts(log, bars, once, k);
      LastKeyIsTop(once, k);
    }
  }

  lemma ExtendsLifts(log: seq<Bar>, bars: seq<Bar>, log': seq<Bar>, k: string)
    requires Extends(log, bars, log')
    ensures Less(LastKey(log'), k) ==> Less(LastKey(log), k)
  {
    if |log'| > |log| && Less(LastKey(log'), k) {
      assert Brings(bars, LastKey(log), log'[|log'| - 1]);
      LessTransitive(LastKey(log), LastKey(log'), k);
    }
  }

  /** The second batch brings no new key at or below what the first left behind. */
  ghost predicate NoneLate(log: seq<Bar>, a: seq<Bar>, mid: seq<Bar>, b: seq<Bar>) {
    forall k :: k in Keys(b) && k !in Keys(a) && Less(LastKey(log), k) ==> Less(LastKey(mid), k)
  }

  /** Appending two batches equals appending their concatenation exactly when none is late. */
  lemma AppendConcat(log: seq<Bar>, a: seq<Bar>, mid: seq<Bar>, b: seq<Bar>, end: seq<Bar>)
    requires Extends(log, a, mid) && Extends(mid, b, end)
    ensures Extends(log, a + b, end) <==> NoneLate(log, a, mid, b)
  {
    KeysConcat(a, b);
    if NoneLate(log, a, mid, b) {
      ConcatBrings(log, a, mid, b, end);
      forall k | Offers(a + b, LastKey(log), k)
        ensures k in Keys(end)
      {
        if k in Keys(a) {
          assert Offers(a, LastKey(log), k);
          var j :| 0 <= j < |mid| && mid[j].t == k;
          assert end[j].t == k;
        } else {
          assert Offers(b, LastKey(mid), k);
        }
      }
    } else {
      var k :| k in Keys(b) && k !in Keys(a) && Less(LastKey(log), k) && !Less(LastKey(mid), k);
      assert Offers(a + b, LastKey(log), k);
      if k in Keys(end) { LateIsLost(log, a, mid, b, end, k); }
    }
  }

  lemma ConcatBrings(log: seq<Bar>, a: seq<Bar>, mid: seq<Bar>, b: seq<Bar>, end: seq<Bar>)
    requires Extends(log, a, mid) && Extends(mid, b, end)
    ensures forall i :: |log| <= i < |end| ==> Brings(a + b, LastKey(log), end[i])
  {
    KeysConcat(a, b);
    forall i | |log| <= i < |end|
      ensures Brings(a + b, LastKey(log), end[i])
    {
      var k := end[i].t;
      FirstWithConcat(a, b, k) by {
        if i < |mid| { assert end[i] == mid[i] && Brings(a, LastKey(log), mid[i]); }
        else { assert Brings(b, LastKey(mid), end[i]); }
      }
      if i < |mid| {
        assert end[i] == mid[i] && Brings(a, LastKey(log), mid[i]);
      } else {
        assert Brings(b, LastKey(mid), end[i]);
        ExtendsLifts(log, a, mid, k);
        assert k !in Keys(a) by {
          if k in Keys(mid) { LastKeyIsTop(mid, k); }
          assert Offers(a, LastKey(log), k) ==> k in Keys(mid);
        }
      }
    }
  }

  lemma LateIsLost(log: seq<Bar>, a: seq<Bar>, mid: seq<Bar>, b: seq<Bar>, end: seq<Bar>, k: string)
    requires Extends(log, a, mid) && Extends(mid, b, end)
    requires k in Keys(end) && k !in Keys(a) && Less(LastKey(log), k)
    ensures Less(LastKey(mid), k)
  {
    var i :| 0 <= i < |end| && end[i].t == k;
    assert i < |mid| ==> end[i] == mid[i];
    if i < |log| {
      LastKeyIsTop(log, k);
    } else if i >= |mid| {
      assert Brings(b, LastKey(mid), end[i]);
    }
  }

  // ---------------------------------------------------------------- Python's stable sort by key

  function Insert(x: Bar, s: seq<Bar>): seq<Bar> {
    if s == [] then [x]
    else if Less(s[0].t, x.t) then [s[0]] + Insert(x, s[1..])
    else [x] + s
  }

  function SortByKey(bars: seq<Bar>): seq<Bar> {
    if bars == [] then [] else Insert(bars[0], SortByKey(bars[1..]))
  }

  ghost predicate Ascending(s: seq<Bar>) {
    forall i, j :: 0 <= i < j < |s| ==> !Less(s[j].t, s[i].t)
  }

  lemma {:induction false} InsertKeys(x: Bar, s: seq<Bar>)
    ensures Keys(Insert(x, s)) == {x.t} + Keys(s)
  {
    if s != [] && Less(s[0].t, x.t) {
      assert s == [s[0]] + s[1..];
      KeysConcat([s[0]], s[1..]);
      KeysConcat([s[0]], Insert(x, s[1..]));
      InsertKeys(x, s[1..]);
      assert Keys([s[0]]) == {s[0].t};
    } else {
      KeysConcat([x], s);
      KeysSnoc([], x);
      assert [] + [x] == [x] && Insert(x, s) == [x] + s;
    }
  }

  lemma {:induction false} InsertAscending(x: Bar, s: seq<Bar>)
    requires Ascending(s)
    ensures Ascending(Insert(x, s))
  {
    if s == [] {
    } else if Less(s[0].t, x.t) {
      InsertAscending(x, s[1..]);
      var r := Insert(x, s[1..]);
      forall j | 0 <= j < |r|
        ensures !Less(r[j].t, s[0].t)
      {
        InsertKeys(x, s[1..]);
        assert r[j].t in Keys(r);
        if r[j].t == x.t {
          LessIrreflexive(x.t);
          if Less(x.t, s[0].t) { LessTransitive(x.t, s[0].t, x.t); }
        } else {
          var m :| 0 <= m < |s[1..]| && s[1..][m].t == r[j].t;
          assert s[m + 1].t == r[j].t;
        }
      }
      assert forall i, j :: 0 <= i < j < |r| ==> !Less(r[j].t, r[i].t);
    } else {
      forall j | 0 <= j < |s|
        ensures !Less(s[j].t, x.t)
      {
        if Less(s[j].t, x.t) {
          LessTotal(s[0].t, s[j].t);
          if Less(s[0].t, s[j].t) { LessTransitive(s[0].t, s[j].t, x.t); }
          assert false;
        }
      }
    }
  }

  /** Stability: an inserted bar goes before the bars that share its key. */
  lemma {:induction false} InsertFirst(x: Bar, s: seq<Bar>, k: string)
    requires k == x.t || k in Keys(s)
    ensures k in Keys(Insert(x, s))
    ensures FirstWith(Insert(x, s), k) == if k == x.t then x else FirstWith(s, k)
  {
    InsertKeys(x, s);
    LessIrreflexive(x.t);
    if s != [] && Less(s[0].t, x.t) {
      assert s == [s[0]] + s[1..];
      KeysConcat([s[0]], s[1..]);
      var r := Insert(x, s[1..]);
      assert ([s[0]] + r)[1..] == r;
      if s[0].t != k { InsertFirst(x, s[1..], k); }
    } else {
      assert ([x] + s)[1..] == s;
    }
  }

  /** Sorting keeps the keys, orders them, and keeps the first bar of each key first. */
  lemma {:induction false} SortFacts(bars: seq<Bar>)
    ensures Ascending(SortByKey(bars)) && Keys(SortByKey(bars)) == Keys(bars)
    ensures forall k :: k in Keys(bars) ==> FirstWith(SortByKey(bars), k) == FirstWith(bars, k)
  {
    if bars != [] {
      var rest := bars[1..];
      SortFacts(rest);
      assert bars == [bars[0]] + rest;
      KeysConcat([bars[0]], rest);
      InsertKeys(bars[0], SortByKey(rest));
      InsertAscending(bars[0], SortByKey(rest));
      forall k | k in Keys(bars)
        ensures FirstWith(SortByKey(bars), k) == FirstWith(bars, k)
      {
        InsertFirst(bars[0], SortByKey(rest), k);
      }
    }
  }

  /** The promise depends on a batch only through its keys and first bars. */
  lemma ExtendsResort(log: seq<Bar>, bars: seq<Bar>, sorted: seq<Bar>, log': seq<Bar>)
    requires Extends(log, sorted, log') && Keys(sorted) == Keys(bars)
    requires forall k :: k in Keys(bars) ==> FirstWith(sorted, k) == FirstWith(bars, k)
    ensures Extends(log, bars, log')
  {
    forall i | |log| <= i < |log'|
      ensures Brings(bars, LastKey(log), log'[i])
    {
      assert Brings(sorted, LastKey(log), log'[i]);
    }
    forall k | Offers(bars, LastKey(log), k)
      ensures k in Keys(log')
    {
      assert Offers(sorted, LastKey(log), k);
    }
  }

  // ---------------------------------------------------------------- one step of the append loop

  /** `b` may come after `batch` in an ascending list. */
  ghost predicate Follows(batch: seq<Bar>, b: Bar) {
    forall k :: k in Keys(batch) ==> !Less(b.t, k)
  }

  lemma AscendingFollows(s: seq<Bar>, i: nat)
    requires Ascending(s) && i < |s|
    ensures Follows(s[..i], s[i]) && s[..i + 1] == s[..i] + [s[i]]
  {
  }

  lemma ExtendsNothing(log: seq<Bar>)
    requires Ordered(log)
    ensures Extends(log, [], log)
  {
  }

  lemma GrowBrings(log: seq<Bar>, batch: seq<Bar>, b: Bar, x: Bar)
    requires Brings(batch, LastKey(log), x)
    ensures Brings(batch + [b], LastKey(log), x)
  {
    KeysSnoc(batch, b);
    FirstWithConcat(batch, [b], x.t);
  }

  /** A bar that is already known, unkeyed or not above the last key changes nothing. */
  lemma SkipStep(log: seq<Bar>, batch: seq<Bar>, b: Bar, cur: seq<Bar>)
    requires Extends(log, batch, cur) && Follows(batch, b)
    requires b.t == "" || b.t in Keys(cur) || !Less(LastKey(cur), b.t)
    ensures Extends(log, batch + [b], cur)
  {
    KeysSnoc(batch, b);
    forall i | |log| <= i < |cur|
      ensures Brings(batch + [b], LastKey(log), cur[i])
    {
      GrowBrings(log, batch, b, cur[i]);
    }
    SkippedIsKnown(log, batch, b, cur);
    forall k | Offers(batch + [b], LastKey(log), k)
      ensures k in Keys(cur)
    {
      assert k != b.t ==> Offers(batch, LastKey(log), k);
    }
  }

  lemma SkippedIsKnown(log: seq<Bar>, batch: seq<Bar>, b: Bar, cur: seq<Bar>)
    requires Extends(log, batch, cur) && Follows(batch, b)
    requires b.t == "" || b.t in Keys(cur) || !Less(LastKey(cur), b.t)
    ensures Less(LastKey(log), b.t) ==> b.t in Keys(cur)
  {
    if Less(LastKey(log), b.t) && b.t !in Keys(cur) {
      assert |cur| > |log|;
      var top := cur[|cur| - 1];
      assert Brings(batch, LastKey(log), top);
      assert top.t in Keys(cur);
      LessTotal(top.t, b.t);
    }
  }

  /** A fresh bar above the last key is appended. */
  lemma AddStep(log: seq<Bar>, batch: seq<Bar>, b: Bar, cur: seq<Bar>)
    requires Extends(log, batch, cur) && b.t !in Keys(cur) && Less(LastKey(cur), b.t)
    ensures Extends(log, batch + [b], cur + [b])
  {
    OrderedSnoc(cur, b);
    KeysSnoc(cur, b);
    KeysSnoc(batch, b);
    ExtendsLifts(log, batch, cur, b.t);
    assert Offers(batch, LastKey(log), b.t) ==> b.t in Keys(cur);
    forall i | |log| <= i < |cur| + 1
      ensures Brings(batch + [b], LastKey(log), (cur + [b])[i])
    {
      if i < |cur| {
        assert Brings(batch, LastKey(log), cur[i]);
        GrowBrings(log, batch, b, cur[i]);
      } else {
        FirstWithConcat(batch, [b], b.t);
      }
    }
    forall k | Offers(batch + [b], LastKey(log), k)
      ensures k in Keys(cur + [b])
    {
      assert k != b.t ==> Offers(batch, LastKey(log), k);
    }
  }

  predicate Fresh(cur: seq<Bar>, b: Bar) {
    b.t !in Keys(cur) && Less(LastKey(cur), b.t)
  }

  /** The bars of a batch whose keys were not seen before. */
  function Unseen(bars: seq<Bar>, seen: set<string>): seq<Bar> {
    if bars == [] then []
    else
      var last := bars[|bars| - 1];
      Unseen(bars[..|bars| - 1], seen) + (if last.t in seen then [] else [last])
  }

  /** Some file that ends at a key; what it holds besides does not matter. */
  function Stub(last: string): seq<Bar> {
    if last == "" then [] else [Bar(last, Body(0.0, 0.0, 0.0, 0.0, 0.0, 0.0), IG)]
  }

  /** What an append adds when all that is known of the file is a set of keys and a last key: what its
      unseen bars add to a file that ends there. */
  ghost predicate Adds(seen: set<string>, last: string, bars: seq<Bar>, added: seq<Bar>) {
    Extends(Stub(last), Unseen(bars, seen), Stub(last) + added)
  }

  lemma StubIs(last: string)
    ensures Ordered(Stub(last)) && LastKey(Stub(last)) == last
    ensures Keys(Stub(last)) == if last == "" then {} else {last}
  {
    hide Less;
    if last != "" { assert Stub(last)[0].t in Keys(Stub(last)); }
  }

  lemma NothingAdded(seen: set<string>, last: string)
    ensures Adds(seen, last, [], []) && Extends(Stub(last), Unseen([], seen), Stub(last))
  {
    StubIs(last);
    hide Stub, Ordered;
    ExtendsNothing(Stub(last));
    assert Stub(last) + [] == Stub(last);
  }

  lemma UnseenSnoc(bars: seq<Bar>, seen: set<string>, b: Bar)
    ensures Unseen(bars + [b], seen) == Unseen(bars, seen) + (if b.t in seen then [] else [b])
  {
    assert (bars + [b])[..|bars|] == bars;
  }

  lemma {:induction false} UnseenFacts(bars: seq<Bar>, seen: set<string>)
    ensures Keys(Unseen(bars, seen)) == Keys(bars) - seen
    ensures forall k :: k in Keys(bars) - seen ==> FirstWith(Unseen(bars, seen), k) == FirstWith(bars, k)
  {
    hide Unseen, Keys, FirstWith;
    if bars == [] {
      UnseenNone(seen);
      NoKeys([]);
    } else {
      var init, b := bars[..|bars| - 1], bars[|bars| - 1];
      assert bars == init + [b];
      UnseenFacts(init, seen);
      UnseenSnoc(init, seen, b);
      KeysSnoc(init, b);
      if b.t in seen {
        assert Unseen(init, seen) + [] == Unseen(init, seen);
      } else {
        KeysSnoc(Unseen(init, seen), b);
      }
      forall k | k in Keys(bars) - seen
        ensures FirstWith(Unseen(bars, seen), k) == FirstWith(bars, k)
      {
        FirstWithConcat(init, [b], k);
        if b.t !in seen { FirstWithConcat(Unseen(init, seen), [b], k); }
      }
    }
  }

  lemma UnseenNone(seen: set<string>)
    ensures Unseen([], seen) == []
  {
  }

  /** Sorting the batch changes nothing of what it adds. */
  lemma Resorted(log: seq<Bar>, seen: set<string>, bars: seq<Bar>, sorted: seq<Bar>, log': seq<Bar>)
    requires Extends(log, Unseen(sorted, seen), log') && Keys(sorted) == Keys(bars)
    requires forall k :: k in Keys(bars) ==> FirstWith(sorted, k) == FirstWith(bars, k)
    ensures Extends(log, Unseen(bars, seen), log')
  {
    hide Extends, Unseen, Keys;
    UnseenFacts(bars, seen);
    UnseenFacts(sorted, seen);
    ExtendsResort(log, Unseen(bars, seen), Unseen(sorted, seen), log');
  }

  /** One turn of the loop over the sorted batch. */
  lemma LoopStep(stub: seq<Bar>, seen: set<string>, sorted: seq<Bar>, i: nat, pending: seq<Bar>)
    requires Ascending(sorted) && i < |sorted| && Extends(stub, Unseen(sorted[..i], seen), stub + pending)
    ensures
      var b, cur := sorted[i], stub + pending;
      && LastKey(cur + [b]) == b.t
      && (b.t in seen || b.t in Keys(pending) || !Less(LastKey(cur), b.t) ==>
           Extends(stub, Unseen(sorted[..i + 1], seen), cur))
      && (b.t !in seen && Less(LastKey(cur), b.t) ==> Extends(stub, Unseen(sorted[..i + 1], seen), cur + [b]))
  {
    hide Extends, Unseen, Ascending, Less;
    var b, cur := sorted[i], stub + pending;
    var batch := Unseen(sorted[..i], seen);
    AscendingFollows(sorted, i);
    UnseenSnoc(sorted[..i], seen, b);
    KeysConcat(stub, pending);
    if b.t in seen {
      assert batch + [] == batch;
    } else {
      UnseenFollows(sorted[..i], seen, b);
      if Less(LastKey(cur), b.t) { NotYetIn(stub, batch, cur, b.t); }
      if Fresh(cur, b) {
        AddStep(stub, batch, b, cur);
      } else {
        SkipStep(stub, batch, b, cur);
      }
    }
  }

  lemma NotYetIn(log: seq<Bar>, batch: seq<Bar>, cur: seq<Bar>, k: string)
    requires Extends(log, batch, cur) && Less(LastKey(cur), k)
    ensures k !in Keys(cur)
  {
    hide Less;
    if k in Keys(cur) { LastKeyIsTop(cur, k); }
  }

  lemma UnseenFollows(bars: seq<Bar>, seen: set<string>, b: Bar)
    requires Follows(bars, b)
    ensures Follows(Unseen(bars, seen), b)
  {
    hide Less, Keys;
    UnseenFacts(bars, seen);
  }

  /** Onto a file in good order the added bars are those that extend it. */
  lemma AddsToValid(log: seq<Bar>, bars: seq<Bar>, added: seq<Bar>)
    requires Ordered(log) && Adds(Keys(log), LastKey(log), bars, added)
    ensures Extends(log, bars, log + added) && Ordered(log + added)
  {
    hide Less, Stub, Unseen, Keys, FirstWith, Ordered;
    var last, stub := LastKey(log), Stub(LastKey(log));
    var batch := Unseen(bars, Keys(log));
    StubIs(last);
    UnseenFacts(bars, Keys(log));
    KeysConcat(stub, added);
    KeysConcat(log, added);
    forall i | |log| <= i < |log + added|
      ensures Brings(bars, last, (log + added)[i])
    {
      assert (log + added)[i] == (stub + added)[|stub| + i - |log|];
      assert Brings(batch, last, (stub + added)[|stub| + i - |log|]);
    }
    forall k | Offers(bars, last, k)
      ensures k in Keys(log + added)
    {
      if k !in Keys(log) { OfferedIsAdded(batch, last, stub + added, k); }
    }
    ReplaceStub(log, added);
  }

  /** The key set and the last key go on as well. */
  lemma GoodAfter(log: seq<Bar>, added: seq<Bar>)
    ensures Keys(log + added) == Keys(log) + Keys(added)
    ensures LastKey(log + added) == LastKey(Stub(LastKey(log)) + added)
  {
    KeysConcat(log, added);
    StubIs(LastKey(log));
    var stub := Stub(LastKey(log));
    if added == [] {
      assert log + added == log && stub + added == stub;
    } else {
      assert (log + added)[|log + added| - 1] == added[|added| - 1];
      assert (stub + added)[|stub + added| - 1] == added[|added| - 1];
    }
  }

  lemma OfferedIsAdded(batch: seq<Bar>, last: string, log': seq<Bar>, k: string)
    requires Extends(Stub(last), batch, log') && k in Keys(batch) && Less(last, k)
    ensures k in Keys(log') && k != last
  {
    hide Less, Keys, Stub;
    StubIs(last);
    LessIrreflexive(last);
    assert Offers(batch, last, k);
  }

  /** Only the last key of a file decides whether what comes after it is in order. */
  lemma ReplaceStub(log: seq<Bar>, added: seq<Bar>)
    requires Ordered(log) && Ordered(Stub(LastKey(log)) + added)
    ensures Ordered(log + added)
  {
    hide Less;
    var stub := Stub(LastKey(log));
    forall i, j | 0 <= i < j < |log + added|
      ensures Less((log + added)[i].t, (log + added)[j].t)
    {
      if i < |log| <= j {
        var b := added[j - |log|];
        assert (stub + added)[|stub| + j - |log|] == b;
        assert (stub + added)[0] == stub[0];
        if i < |log| - 1 { LessTransitive(log[i].t, LastKey(log), b.t); }
      } else if i >= |log| {
        assert (stub + added)[|stub| + i - |log|] == added[i - |log|];
        assert (stub + added)[|stub| + j - |log|] == added[j - |log|];
      }
    }
    forall i | 0 <= i < |log + added|
      ensures (log + added)[i].t != ""
    {
      if i >= |log| { assert (stub + added)[|stub| + i - |log|] == added[i - |log|]; }
    }
  }

  /** The two text tests of the loop say whether a key is above the last one. */
  lemma AboveLast(k: string, last: string)
    ensures Less(last, k) <==> k != "" && !(last != "" && (Less(k, last) || k == last))
  {
    EmptyIsBottom(k);
    LessTotal(k, last);
    NotBoth(k, last);
  }

  // ---------------------------------------------------------------- the cache file

  /** The bars of a file, line by line; a line may be unreadable. */
  function Readable(lines: seq<Option<Bar>>): (bars: seq<Bar>)
    ensures |bars| <= |lines|
  {
    if lines == [] then []
    else
      var last := lines[|lines| - 1];
      Readable(lines[..|lines| - 1]) + (if last.Some? then [last.value] else [])
  }

  function LastLineKey(lines: seq<Option<Bar>>): string {
    if lines == [] || lines[|lines| - 1].None? then "" else lines[|lines| - 1].value.t
  }

  function AsLines(bars: seq<Bar>): seq<Option<Bar>> {
    seq(|bars|, i requires 0 <= i < |bars| => Some(bars[i]))
  }

  /** What is written reads back. */
  lemma {:induction false} WrittenReads(bars: seq<Bar>)
    ensures Readable(AsLines(bars)) == bars && LastLineKey(AsLines(bars)) == LastKey(bars)
  {
    if bars != [] {
      var n := |bars| - 1;
      WrittenReads(bars[..n]);
      assert AsLines(bars)[..n] == AsLines(bars[..n]);
      assert bars == bars[..n] + [bars[n]];
    }
  }

  lemma NoEmptyKey(log: seq<Bar>)
    requires Ordered(log)
    ensures "" !in Keys(log)
  {
    hide Less;
  }

  lemma LastLine(lines: seq<Option<Bar>>)
    requires lines != [] ==> lines[|lines| - 1].Some?
    ensures LastLineKey(lines) == LastKey(Readable(lines))
  {
  }

  /** A file in which every bar has a key and whose last line is readable opens as it should. */
  lemma OpensWell(lines: seq<Option<Bar>>)
    requires Ordered(Readable(lines)) && (lines != [] ==> lines[|lines| - 1].Some?)
    ensures Keys(Readable(lines)) - {""} == Keys(Readable(lines))
    ensures LastLineKey(lines) == LastKey(Readable(lines))
  {
    hide Ordered, Readable, LastLineKey, LastKey, Keys;
    NoEmptyKey(Readable(lines));
    LastLine(lines);
  }

  /** The cache file together with the two variables the fetcher keeps about it; `unread` counts the
      lines of the file that hold no bar. */
  class BarCache {
    var log: seq<Bar>
    var unread: nat
    var seen: set<string>
    var lastWritten: string

    ghost predicate Valid()
      reads this
    {
      Ordered(log) && seen == Keys(log) && lastWritten == LastKey(log)
    }

    function Lines(): nat
      reads this
    {
      |log| + unread
    }

    /** Opens a file, whatever is in it. */
    constructor (lines: seq<Option<Bar>>)
      ensures log == Readable(lines) && Lines() == |lines|
      ensures seen == Keys(Readable(lines)) - {""} && lastWritten == LastLineKey(lines)
      ensures Ordered(Readable(lines)) && (lines != [] ==> lines[|lines| - 1].Some?) ==> Valid()
    {
      log, unread, seen, lastWritten := [], 0, {}, "";
      new;
      Open(lines);
    }

    /** `seen` is collected line by line, `lastWritten` is the key of the last line, if that is readable. */
    method Open(lines: seq<Option<Bar>>)
      modifies this
      ensures log == Readable(lines) && Lines() == |lines|
      ensures seen == Keys(Readable(lines)) - {""} && lastWritten == LastLineKey(lines)
      ensures Ordered(Readable(lines)) && (lines != [] ==> lines[|lines| - 1].Some?) ==> Valid()
    {
      hide Ordered;
      log, unread, seen := [], 0, {};
      var i := 0;
      while i < |lines|
        invariant 0 <= i <= |lines|
        invariant log == Readable(lines[..i]) && Lines() == i && seen == Keys(log) - {""}
      {
        assert lines[..i + 1][..i] == lines[..i];
        match lines[i] {
          case None => unread := unread + 1;
          case Some(bar) =>
            KeysSnoc(log, bar);
            log := log + [bar];
            if bar.t != "" { seen := seen + {bar.t}; }
        }
        i := i + 1;
      }
      assert lines[..|lines|] == lines;
      lastWritten := LastLineKey(lines);
      if Ordered(Readable(lines)) && (lines != [] ==> lines[|lines| - 1].Some?) { OpensWell(lines); }
    }

    /** Replaces the whole file. */
    method Overwrite(bars: seq<Bar>)
      requires Ordered(bars)
      modifies this
      ensures Valid() && log == bars && Lines() == |bars|
    {
      WrittenReads(bars);
      Open(AsLines(bars));
    }

    /** The batch append, onto any file: from the key sets and last key the fetcher holds it follows what is
        added, and a file in good order stays so. */
    method AppendBars(bars: seq<Bar>) returns (added: nat)
      modifies this`log, this`seen, this`lastWritten
      ensures old(log) <= log && added == |log| - |old(log)|
      ensures Adds(old(seen), old(lastWritten), bars, log[|old(log)|..])
      ensures seen == old(seen) + Keys(log[|old(log)|..])
      ensures lastWritten == LastKey(Stub(old(lastWritten)) + log[|old(log)|..])
      ensures old(Valid()) ==> Valid() && Extends(old(log), bars, log)
    {
      hide Extends, Ascending, Stub, Less, Ordered, Unseen, LastKey;
      StubIs(lastWritten);
      if bars == [] {
        NothingAdded(seen, lastWritten);
        assert log[|log|..] == [] && Stub(lastWritten) + [] == Stub(lastWritten);
        if Valid() { ExtendsNothing(log); }
        return 0;
      }
      var first := log;
      ghost var held, last, stub, good := seen, lastWritten, Stub(lastWritten), Valid();
      var known, maxWritten := seen, lastWritten;
      var ordered := SortByKey(bars);
      SortFacts(bars);
      var pending: seq<Bar> := [];
      var batchSeen: set<string> := {};
      added := 0;
      NothingAdded(held, lastWritten);
      assert ordered[..0] == [] && stub + pending == stub;
      var i := 0;
      while i < |ordered|
        invariant 0 <= i <= |ordered| && added == |pending|
        invariant batchSeen <= known == held + Keys(pending)
        invariant maxWritten == LastKey(stub + pending)
        invariant Extends(stub, Unseen(ordered[..i], held), stub + pending)
      {
        var bar := ordered[i];
        var key := bar.t;
        LoopStep(stub, held, ordered, i, pending);
        AboveLast(key, maxWritten);
        if key == "" || key in known || key in batchSeen {
        } else if maxWritten != "" && (Less(key, maxWritten) || key == maxWritten) {
        } else {
          KeysSnoc(pending, bar);
          assert stub + pending + [bar] == stub + (pending + [bar]);
          known := known + {key};
          batchSeen := batchSeen + {key};
          pending := pending + [bar];
          if maxWritten == "" || Less(maxWritten, key) {
            maxWritten := key;
          }
          added := added + 1;
        }
        i := i + 1;
      }
      assert ordered[..|ordered|] == ordered;
      Resorted(stub, held, bars, ordered, stub + pending);
      if good {
        AddsToValid(first, bars, pending);
        GoodAfter(first, pending);
      }
      log, seen, lastWritten := first + pending, known, maxWritten;
      assert log[|first|..] == pending;
    }
  }

  /** The failing input of the order: a file whose last line is unreadable.  The last key is lost, and an
      earlier bar is appended after a later one. */
  method UnreadableTail(early: Bar, late: Bar) returns (cache: BarCache)
    requires early.t != "" && Less(early.t, late.t)
    ensures cache.log == [late, early] && !Ordered(cache.log)
  {
    cache := new BarCache([Some(late), None]);
    UnreadableLines(late);
    LessIrreflexive(early.t);
    NotBoth(late.t, early.t);
    var added := cache.AppendBars([early]);
    OneAdded({late.t}, early, cache.log[1..]);
    assert cache.log == cache.log[..1] + cache.log[1..];
  }

  lemma UnreadableLines(late: Bar)
    requires late.t != ""
    ensures Readable([Some(late), None]) == [late] && LastLineKey([Some(late), None]) == ""
    ensures Keys([late]) - {""} == {late.t}
  {
    var lines: seq<Option<Bar>> := [Some(late), None];
    assert lines[..1] == [Some(late)] && lines[..1][..0] == [];
    assert [late][0].t in Keys([late]);
  }

  lemma OneAdded(seen: set<string>, b: Bar, added: seq<Bar>)
    requires b.t != "" && b.t !in seen && Adds(seen, "", [b], added)
    ensures added == [b]
  {
    hide Less;
    EmptyIsBottom(b.t);
    assert [b][..0] == [] && Unseen([b], seen) == [b];
    assert [] + added == added;
    ExtendsNothing([]);
    AddStep([], [], b, []);
    assert [] + [b] == [b];
    ExtendsUnique([], [b], added, [b]);
  }
}
