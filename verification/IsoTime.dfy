/** Calendar instants and their fixed-width ISO keys.

    The back-fill stores every bar under a key such as "2026-05-28T08:05:00", compares
    keys as text when it appends, and computes with them as dates when it walks or
    resumes.  Mixing the two is sound only because text order and time order agree;
    `KeyOrder` proves that they do, through the Gregorian calendar and the zero-padded
    rendering.

    An instant counts the seconds since 0001-01-01T00:00:00 on the London wall clock.
 */
module IsoTime {
  import opened Wrappers

  datatype Stamp = Stamp(year: int, month: int, day: int, hour: int, minute: int, second: int)

  const DAY := 86400
  const FIRST_YEAR := 1000
  const LAST_YEAR := 9999

  // ---------------------------------------------------------------- calendar

  predicate Leap(y: int) {
    y % 4 == 0 && (y % 100 != 0 || y % 400 == 0)
  }

  function DaysIn(y: int, m: int): int
    requires 1 <= m <= 12
  {
    if m == 2 then (if Leap(y) then 29 else 28)
    else if m == 4 || m == 6 || m == 9 || m == 11 then 30
    else 31
  }

  function DaysBeforeYear(y: int): int {
    var p := y - 1;
    p * 365 + p / 4 - p / 100 + p / 400
  }

  function DaysBeforeMonth(y: int, m: int): int
    requires 1 <= m <= 13
    decreases m
  {
    if m == 1 then 0 else DaysBeforeMonth(y, m - 1) + DaysIn(y, m - 1)
  }

  predicate Valid(s: Stamp) {
    && FIRST_YEAR <= s.year <= LAST_YEAR
    && 1 <= s.month <= 12
    && 1 <= s.day <= DaysIn(s.year, s.month)
    && 0 <= s.hour < 24 && 0 <= s.minute < 60 && 0 <= s.second < 60
  }

  function Ordinal(s: Stamp): int
    requires Valid(s)
  {
    DaysBeforeYear(s.year) + DaysBeforeMonth(s.year, s.month) + s.day
  }

  function SecondOfDay(s: Stamp): int {
    s.hour * 3600 + s.minute * 60 + s.second
  }

  function Instant(s: Stamp): int
    requires Valid(s)
  {
    (Ordinal(s) - 1) * DAY + SecondOfDay(s)
  }

  lemma QuotientStep(p: int, d: int)
    requires d == 4 || d == 100 || d == 400
    ensures (p + 1) / d == p / d + (if (p + 1) % d == 0 then 1 else 0)
  {
  }

  lemma YearLength(y: int)
    ensures DaysBeforeYear(y + 1) == DaysBeforeYear(y) + 365 + (if Leap(y) then 1 else 0)
  {
    QuotientStep(y - 1, 4);
    QuotientStep(y - 1, 100);
    QuotientStep(y - 1, 400);
    LeapNesting(y);
  }

  lemma LeapNesting(y: int)
    ensures y % 400 == 0 ==> y % 100 == 0
    ensures y % 100 == 0 ==> y % 4 == 0
  {
    if y % 100 == 0 { assert y == 4 * (25 * (y / 100)); }
    if y % 400 == 0 { assert y == 100 * (4 * (y / 400)); }
  }

  lemma MonthsFillYear(y: int)
    ensures DaysBeforeMonth(y, 13) == 365 + (if Leap(y) then 1 else 0)
  {
    assert DaysBeforeMonth(y, 4) == DaysIn(y, 1) + DaysIn(y, 2) + DaysIn(y, 3);
    assert DaysBeforeMonth(y, 7) == DaysBeforeMonth(y, 4) + DaysIn(y, 4) + DaysIn(y, 5) + DaysIn(y, 6);
    assert DaysBeforeMonth(y, 10) == DaysBeforeMonth(y, 7) + DaysIn(y, 7) + DaysIn(y, 8) + DaysIn(y, 9);
    assert DaysBeforeMonth(y, 13) == DaysBeforeMonth(y, 10) + DaysIn(y, 10) + DaysIn(y, 11) + DaysIn(y, 12);
  }

  lemma {:induction false} MonthsMonotone(y: int, m: int, n: int)
    requires 1 <= m <= n <= 13
    ensures DaysBeforeMonth(y, m) <= DaysBeforeMonth(y, n)
    decreases n
  {
    if m < n { MonthsMonotone(y, m, n - 1); }
  }

  lemma {:induction false} YearsMonotone(y: int, z: int)
    requires y <= z
    ensures DaysBeforeYear(y) <= DaysBeforeYear(z)
    decreases z - y
  {
    if y < z {
      YearLength(z - 1);
      YearsMonotone(y, z - 1);
    }
  }

  /** The day number of a date lies inside its year. */
  lemma DayInYear(s: Stamp)
    requires Valid(s)
    ensures DaysBeforeYear(s.year) < Ordinal(s) <= DaysBeforeYear(s.year + 1)
  {
    MonthsMonotone(s.year, 1, s.month);
    MonthsMonotone(s.year, s.month + 1, 13);
    MonthsFillYear(s.year);
    YearLength(s.year);
  }

  /** Field-by-field order of two stamps, the order in which Python compares datetimes. */
  predicate Earlier(a: Stamp, b: Stamp) {
    || a.year < b.year
    || (a.year == b.year && (
        || a.month < b.month
        || (a.month == b.month && (
            || a.day < b.day
            || (a.day == b.day && SecondOfDay(a) < SecondOfDay(b))))))
  }

  lemma EarlierCounts(a: Stamp, b: Stamp)
    requires Valid(a) && Valid(b) && Earlier(a, b)
    ensures Instant(a) < Instant(b)
  {
    hide Ordinal;
    if a.year == b.year && a.month == b.month && a.day == b.day {
      SameDay(a, b);
    } else {
      EarlierDay(a, b);
      LaterDay(a, b);
    }
  }

  lemma SameDay(a: Stamp, b: Stamp)
    requires Valid(a) && Valid(b) && a.year == b.year && a.month == b.month && a.day == b.day
    ensures Ordinal(a) == Ordinal(b)
  {
  }

  lemma EarlierDay(a: Stamp, b: Stamp)
    requires Valid(a) && Valid(b) && Earlier(a, b)
    requires !(a.year == b.year && a.month == b.month && a.day == b.day)
    ensures Ordinal(a) < Ordinal(b)
  {
    hide DaysBeforeMonth, DaysBeforeYear, DaysIn;
    if a.year < b.year {
      DayInYear(a);
      DayInYear(b);
      YearsMonotone(a.year + 1, b.year);
    } else if a.month < b.month {
      MonthLength(a.year, a.month);
      MonthsMonotone(a.year, a.month + 1, b.month);
    }
  }

  lemma MonthLength(y: int, m: int)
    requires 1 <= m <= 12
    ensures DaysBeforeMonth(y, m + 1) == DaysBeforeMonth(y, m) + DaysIn(y, m)
  {
  }

  lemma LaterDay(a: Stamp, b: Stamp)
    requires Valid(a) && Valid(b) && Ordinal(a) < Ordinal(b)
    ensures Instant(a) < Instant(b)
  {
    var d, e := Ordinal(a), Ordinal(b);
    assert (d - 1) * DAY + DAY <= (e - 1) * DAY;
  }

  lemma SameClock(a: Stamp, b: Stamp)
    requires Valid(a) && Valid(b) && SecondOfDay(a) == SecondOfDay(b)
    ensures a.hour == b.hour && a.minute == b.minute && a.second == b.second
  {
  }

  /** Counting seconds neither reorders nor merges stamps. */
  lemma InstantOrder(a: Stamp, b: Stamp)
    requires Valid(a) && Valid(b)
    ensures Earlier(a, b) <==> Instant(a) < Instant(b)
    ensures a == b <==> Instant(a) == Instant(b)
  {
    if Earlier(a, b) {
      EarlierCounts(a, b);
    } else if Earlier(b, a) {
      EarlierCounts(b, a);
    } else {
      SameClock(a, b);
    }
  }

  // ---------------------------------------------------------------- instants back to stamps

  const FIRST_INSTANT := DaysBeforeYear(FIRST_YEAR) * DAY
  const END_INSTANT := DaysBeforeYear(LAST_YEAR + 1) * DAY

  predicate InRange(t: int) {
    FIRST_INSTANT <= t < END_INSTANT
  }

  function YearOf(day: int, y: int): (r: int)
    requires y <= LAST_YEAR && DaysBeforeYear(y) < day <= DaysBeforeYear(LAST_YEAR + 1)
    ensures y <= r <= LAST_YEAR && DaysBeforeYear(r) < day <= DaysBeforeYear(r + 1)
    decreases LAST_YEAR - y
  {
    if day <= DaysBeforeYear(y + 1) then y else YearOf(day, y + 1)
  }

  function MonthOf(y: int, dayOfYear: int, m: int): (r: int)
    requires 1 <= m <= 12 && DaysBeforeMonth(y, m) < dayOfYear <= DaysBeforeMonth(y, 13)
    ensures m <= r <= 12 && DaysBeforeMonth(y, r) < dayOfYear <= DaysBeforeMonth(y, r + 1)
    decreases 12 - m
  {
    if dayOfYear <= DaysBeforeMonth(y, m + 1) then m else MonthOf(y, dayOfYear, m + 1)
  }

  /** The stamp of an instant; its contract says that it is a right inverse of `Instant`. */
  function StampOf(t: int): (s: Stamp)
    requires InRange(t)
    ensures Valid(s) && Instant(s) == t
  {
    var day := t / DAY + 1;
    var sec := t % DAY;
    var y := YearOf(day, FIRST_YEAR);
    YearLength(y);
    MonthsFillYear(y);
    var m := MonthOf(y, day - DaysBeforeYear(y), 1);
    ClockFields(sec);
    Stamp(y, m, day - DaysBeforeYear(y) - DaysBeforeMonth(y, m), sec / 3600, sec / 60 % 60, sec % 60)
  }

  lemma ClockFields(sec: int)
    requires 0 <= sec < DAY
    ensures 0 <= sec / 3600 < 24 && 0 <= sec / 60 % 60 < 60 && 0 <= sec % 60 < 60
    ensures sec / 3600 * 3600 + sec / 60 % 60 * 60 + sec % 60 == sec
  {
    assert sec / 60 / 60 == sec / 3600;
  }

  // ---------------------------------------------------------------- text

  function Pow10(w: nat): int
    ensures Pow10(w) > 0
  {
    if w == 0 then 1 else 10 * Pow10(w - 1)
  }

  function Digit(d: int): char
    requires 0 <= d < 10
  {
    (48 + d) as char
  }

  /** The w-digit zero-padded decimal of n. */
  function Padded(n: int, w: nat): (s: string)
    requires 0 <= n
    ensures |s| == w
    decreases w
  {
    if w == 0 then "" else Padded(n / 10, w - 1) + [Digit(n % 10)]
  }

  /** Six fields and the five separators of a key. */
  function Assembled(year: string, month: string, day: string, hour: string, minute: string, second: string): string {
    year + ("-" + (month + ("-" + (day + ("T" + (hour + (":" + (minute + (":" + second)))))))))
  }

  function Render(s: Stamp): (r: string)
    requires Valid(s)
    ensures |r| == 19
  {
    Assembled(Padded(s.year, 4), Padded(s.month, 2), Padded(s.day, 2),
              Padded(s.hour, 2), Padded(s.minute, 2), Padded(s.second, 2))
  }

  /** Python's `<` on strings. */
  predicate Less(a: string, b: string) {
    b != [] && (a == [] || a[0] < b[0] || (a[0] == b[0] && Less(a[1..], b[1..])))
  }

  lemma {:induction false} LessTotal(a: string, b: string)
    ensures Less(a, b) || a == b || Less(b, a)
  {
    if a != [] && b != [] && a[0] == b[0] {
      LessTotal(a[1..], b[1..]);
      assert a == [a[0]] + a[1..] && b == [b[0]] + b[1..];
    }
  }

  lemma {:induction false} LessIrreflexive(a: string)
    ensures !Less(a, a)
  {
    if a != [] { LessIrreflexive(a[1..]); }
  }

  lemma {:induction false} LessTransitive(a: string, b: string, c: string)
    requires Less(a, b) && Less(b, c)
    ensures Less(a, c)
  {
    if a != [] && a[0] == b[0] && b[0] == c[0] { LessTransitive(a[1..], b[1..], c[1..]); }
  }

  /** Text of equal width compares block by block. */
  lemma {:induction false} LessBlocks(a: string, b: string, c: string, d: string)
    requires |a| == |b|
    ensures Less(a + c, b + d) <==> Less(a, b) || (a == b && Less(c, d))
  {
    if a == [] {
      assert a + c == c && b + d == d;
    } else {
      assert (a + c)[1..] == a[1..] + c && (b + d)[1..] == b[1..] + d;
      assert a == [a[0]] + a[1..] && b == [b[0]] + b[1..];
      LessBlocks(a[1..], b[1..], c, d);
    }
  }

  /** Zero padding makes text order numeric. */
  lemma {:induction false} PaddedOrder(n: int, m: int, w: nat)
    requires 0 <= n < Pow10(w) && 0 <= m < Pow10(w)
    ensures Less(Padded(n, w), Padded(m, w)) <==> n < m
    ensures Padded(n, w) == Padded(m, w) <==> n == m
  {
    if w != 0 {
      PaddedOrder(n / 10, m / 10, w - 1);
      var a, b := Padded(n / 10, w - 1), Padded(m / 10, w - 1);
      var c, d := [Digit(n % 10)], [Digit(m % 10)];
      LessBlocks(a, b, c, d);
      assert Less(c, d) <==> n % 10 < m % 10;
      assert c == d <==> c[0] == d[0];
      assert a + c == b + d ==> (a + c)[..w - 1] == (b + d)[..w - 1] && (a + c)[w - 1] == (b + d)[w - 1];
    }
  }

  /** One rendered field followed by the rest of the key. */
  lemma FieldOrder(n: int, m: int, w: nat, c: string, d: string)
    requires 0 <= n < Pow10(w) && 0 <= m < Pow10(w)
    ensures Less(Padded(n, w) + c, Padded(m, w) + d) <==> n < m || (n == m && Less(c, d))
  {
    PaddedOrder(n, m, w);
    LessBlocks(Padded(n, w), Padded(m, w), c, d);
  }

  lemma SeparatorOrder(x: char, c: string, d: string)
    ensures Less([x] + c, [x] + d) <==> Less(c, d)
  {
    LessBlocks([x], [x], c, d);
    LessIrreflexive([x]);
  }

  function ClockText(s: Stamp): string
    requires Valid(s)
  {
    Padded(s.hour, 2) + (":" + (Padded(s.minute, 2) + (":" + Padded(s.second, 2))))
  }

  lemma ClockOrder(a: Stamp, b: Stamp)
    requires Valid(a) && Valid(b)
    ensures Less(ClockText(a), ClockText(b)) <==> SecondOfDay(a) < SecondOfDay(b)
  {
    hide Padded, Less, DaysIn;
    assert Pow10(2) == 100;
    var a6, b6 := Padded(a.second, 2), Padded(b.second, 2);
    var a5, b5 := Padded(a.minute, 2) + (":" + a6), Padded(b.minute, 2) + (":" + b6);
    PaddedOrder(a.second, b.second, 2);
    FieldOrder(a.minute, b.minute, 2, ":" + a6, ":" + b6);
    SeparatorOrder(':', a6, b6);
    FieldOrder(a.hour, b.hour, 2, ":" + a5, ":" + b5);
    SeparatorOrder(':', a5, b5);
  }

  lemma RenderOrder(a: Stamp, b: Stamp)
    requires Valid(a) && Valid(b)
    ensures Less(Render(a), Render(b)) <==> Earlier(a, b)
  {
    hide Padded, Less, SecondOfDay;
    assert Pow10(2) == 100 && Pow10(4) == 10000;
    var a4, b4 := ClockText(a), ClockText(b);
    var a3, b3 := Padded(a.day, 2) + ("T" + a4), Padded(b.day, 2) + ("T" + b4);
    var a2, b2 := Padded(a.month, 2) + ("-" + a3), Padded(b.month, 2) + ("-" + b3);
    ClockOrder(a, b);
    FieldOrder(a.day, b.day, 2, "T" + a4, "T" + b4);
    SeparatorOrder('T', a4, b4);
    FieldOrder(a.month, b.month, 2, "-" + a3, "-" + b3);
    SeparatorOrder('-', a3, b3);
    FieldOrder(a.year, b.year, 4, "-" + a2, "-" + b2);
    SeparatorOrder('-', a2, b2);
  }

  /** The cache key of an instant. */
  function Key(t: int): (k: string)
    requires InRange(t)
    ensures k != ""
  {
    Render(StampOf(t))
  }

  /** Main result: comparing keys as text is comparing instants. */
  lemma KeyOrder(t: int, u: int)
    requires InRange(t) && InRange(u)
    ensures Less(Key(t), Key(u)) <==> t < u
    ensures Key(t) == Key(u) <==> t == u
  {
    RenderOrder(StampOf(t), StampOf(u));
    RenderOrder(StampOf(u), StampOf(t));
    InstantOrder(StampOf(t), StampOf(u));
    InstantOrder(StampOf(u), StampOf(t));
    LessIrreflexive(Key(t));
  }

  // ---------------------------------------------------------------- reading a key back

  predicate IsDigit(c: char) {
    '0' <= c <= '9'
  }

  predicate AllDigits(s: string) {
    forall i :: 0 <= i < |s| ==> IsDigit(s[i])
  }

  function Number(s: string): (n: int)
    requires AllDigits(s)
    ensures 0 <= n < Pow10(|s|)
  {
    if s == "" then 0 else 10 * Number(s[..|s| - 1]) + (s[|s| - 1] as int - 48)
  }

  lemma {:induction false} NumberOfPadded(n: int, w: nat)
    requires 0 <= n < Pow10(w)
    ensures AllDigits(Padded(n, w)) && Number(Padded(n, w)) == n
  {
    if w != 0 {
      NumberOfPadded(n / 10, w - 1);
      assert Padded(n, w)[..w - 1] == Padded(n / 10, w - 1);
    }
  }

  lemma {:induction false} PaddedOfNumber(s: string)
    requires AllDigits(s)
    ensures Padded(Number(s), |s|) == s
  {
    if s != "" {
      PaddedOfNumber(s[..|s| - 1]);
      assert s == s[..|s| - 1] + [s[|s| - 1]];
      assert Number(s) / 10 == Number(s[..|s| - 1]);
    }
  }

  predicate Shaped(k: string) {
    && |k| == 19 && k[4] == '-' && k[7] == '-' && k[10] == 'T' && k[13] == ':' && k[16] == ':'
    && AllDigits(k[0..4]) && AllDigits(k[5..7]) && AllDigits(k[8..10])
    && AllDigits(k[11..13]) && AllDigits(k[14..16]) && AllDigits(k[17..19])
  }

  function Fields(k: string): Stamp
    requires Shaped(k)
  {
    Stamp(Number(k[0..4]), Number(k[5..7]), Number(k[8..10]),
          Number(k[11..13]), Number(k[14..16]), Number(k[17..19]))
  }

  /** Reads a key; anything but a well-formed key of a real date is None, as a ValueError is. */
  function ParseKey(k: string): (r: Option<int>)
  {
    if Shaped(k) && Valid(Fields(k)) then Some(Instant(Fields(k))) else None
  }

  lemma PeelField(k: string, at: nat, field: string, sep: char, rest: string)
    requires at <= |k| && k[at..] == field + ([sep] + rest)
    ensures at + |field| < |k| && k[at..at + |field|] == field && k[at + |field|] == sep
    ensures k[at + |field| + 1..] == rest
  {
    var n := |field|;
    assert |k| == at + n + 1 + |rest|;
    assert k[at..at + n] == k[at..][..n];
    assert k[at + n] == k[at..][n];
    assert k[at + n + 1..] == k[at..][n + 1..];
  }

  /** The fields of a key can be cut out of it again. */
  lemma Disassembled(year: string, month: string, day: string, hour: string, minute: string, second: string)
    requires |year| == 4 && |month| == |day| == |hour| == |minute| == |second| == 2
    ensures
      var k := Assembled(year, month, day, hour, minute, second);
      && |k| == 19 && k[4] == '-' && k[7] == '-' && k[10] == 'T' && k[13] == ':' && k[16] == ':'
      && k[0..4] == year && k[5..7] == month && k[8..10] == day
      && k[11..13] == hour && k[14..16] == minute && k[17..19] == second
  {
    var k := Assembled(year, month, day, hour, minute, second);
    var k5 := minute + (":" + second);
    var k4 := hour + (":" + k5);
    var k3 := day + ("T" + k4);
    var k2 := month + ("-" + k3);
    assert k[0..] == k;
    PeelField(k, 0, year, '-', k2);
    PeelField(k, 5, month, '-', k3);
    PeelField(k, 8, day, 'T', k4);
    PeelField(k, 11, hour, ':', k5);
    PeelField(k, 14, minute, ':', second);
    assert k[17..19] == k[17..];
  }

  lemma JoinAt(k: string, at: nat, w: nat, sep: string)
    requires at + w < |k| && sep == [k[at + w]]
    ensures k[at..at + w] + (sep + k[at + w + 1..]) == k[at..]
  {
  }

  lemma Reassembled(k: string)
    requires |k| == 19 && k[4] == '-' && k[7] == '-' && k[10] == 'T' && k[13] == ':' && k[16] == ':'
    ensures Assembled(k[0..4], k[5..7], k[8..10], k[11..13], k[14..16], k[17..19]) == k
  {
    JoinAt(k, 0, 4, "-");
    JoinAt(k, 5, 2, "-");
    JoinAt(k, 8, 2, "T");
    JoinAt(k, 11, 2, ":");
    JoinAt(k, 14, 2, ":");
    assert k[17..19] == k[17..] && k[0..] == k;
  }

  lemma ShapedRender(s: Stamp)
    requires Valid(s)
    ensures Shaped(Render(s)) && Fields(Render(s)) == s
  {
    hide Padded, Number, Assembled, AllDigits;
    assert Pow10(2) == 100 && Pow10(4) == 10000;
    Disassembled(Padded(s.year, 4), Padded(s.month, 2), Padded(s.day, 2),
                 Padded(s.hour, 2), Padded(s.minute, 2), Padded(s.second, 2));
    NumberOfPadded(s.year, 4);
    NumberOfPadded(s.month, 2);
    NumberOfPadded(s.day, 2);
    NumberOfPadded(s.hour, 2);
    NumberOfPadded(s.minute, 2);
    NumberOfPadded(s.second, 2);
  }

  lemma RenderFields(k: string)
    requires Shaped(k) && Valid(Fields(k))
    ensures Render(Fields(k)) == k
  {
    hide Padded, Number, Assembled, AllDigits, Valid;
    PaddedOfNumber(k[0..4]);
    PaddedOfNumber(k[5..7]);
    PaddedOfNumber(k[8..10]);
    PaddedOfNumber(k[11..13]);
    PaddedOfNumber(k[14..16]);
    PaddedOfNumber(k[17..19]);
    Reassembled(k);
  }

  // ---------------------------------------------------------------- the calendar is the Gregorian one

  /** The date after a date, clock time kept. */
  function NextDay(s: Stamp): Stamp
    requires Valid(s)
  {
    if s.day < DaysIn(s.year, s.month) then s.(day := s.day + 1)
    else if s.month < 12 then s.(month := s.month + 1, day := 1)
    else s.(year := s.year + 1, month := 1, day := 1)
  }

  /** Walking the calendar day by day counts 86400 seconds a day ... */
  lemma DayByDay(s: Stamp)
    requires Valid(s) && Valid(NextDay(s))
    ensures Instant(NextDay(s)) == Instant(s) + 86400
  {
    hide DaysBeforeMonth, DaysBeforeYear;
    var t := NextDay(s);
    MonthLength(s.year, s.month);
    if s.month == 12 {
      MonthsFillYear(s.year);
      YearLength(s.year);
      NoMonthBefore(s.year + 1);
    }
    assert Ordinal(t) == Ordinal(s) + 1;
  }

  lemma NoMonthBefore(y: int)
    ensures DaysBeforeMonth(y, 1) == 0
  {
  }

  /** ... from the anchor 1970-01-01 ... */
  lemma Anchor(s: Stamp)
    requires s.year == 1970 && s.month == 1 && s.day == 1 && s.hour == s.minute == s.second == 0 && Valid(s)
    ensures Instant(s) == 719162 * 86400
  {
    hide DaysBeforeYear, DaysBeforeMonth, Valid, SecondOfDay;
    Midnight(s);
    NoMonthBefore(1970);
    DaysBefore1970();
  }

  lemma Midnight(s: Stamp)
    requires s.hour == s.minute == s.second == 0
    ensures SecondOfDay(s) == 0
  {
  }

  lemma DaysBefore1970()
    ensures DaysBeforeYear(1970) == 719162
  {
  }

  /** ... over months of the usual lengths ... */
  lemma MonthLengths(y: int, m: int)
    requires 1 <= m <= 12
    ensures m != 2 ==> DaysIn(y, m) == [31, 28, 31, 30, 31, 30, 31, 31, 30, 31, 30, 31][m - 1]
    ensures m == 2 ==> DaysIn(y, m) == if Leap(y) then 29 else 28
  {
  }

  lemma CycleOf(p: int, d: int)
    requires d == 4 || d == 100 || d == 400
    ensures (p + 400) / d == p / d + 400 / d && (p + 400) % d == p % d
  {
  }

  /** ... and leap years that repeat every 400 years, which are 146097 days. */
  lemma LeapYears(y: int)
    ensures Leap(y + 400) <==> Leap(y)
    ensures DaysBeforeYear(y + 400) == DaysBeforeYear(y) + 146097
    ensures Leap(2024) && Leap(2000) && !Leap(1900) && !Leap(2023)
  {
    hide Leap;
    SameLeap(y);
    CycleOf(y - 1, 4);
    CycleOf(y - 1, 100);
    CycleOf(y - 1, 400);
    SomeLeapYears();
  }

  lemma SameLeap(y: int)
    ensures Leap(y + 400) <==> Leap(y)
  {
    CycleOf(y, 4);
    CycleOf(y, 100);
    CycleOf(y, 400);
  }

  lemma SomeLeapYears()
    ensures Leap(2024) && Leap(2000) && !Leap(1900) && !Leap(2023)
  {
  }

  /** The text of a key: its fields at fixed places, zero-padded, as in 2024-01-01T00:05:00. */
  lemma KeyText(t: int)
    requires InRange(t)
    ensures
      var k, s := Key(t), StampOf(t);
      && |k| == 19 && k[4] == '-' && k[7] == '-' && k[10] == 'T' && k[13] == ':' && k[16] == ':'
      && k[0..4] == Padded(s.year, 4) && k[5..7] == Padded(s.month, 2) && k[8..10] == Padded(s.day, 2)
      && k[11..13] == Padded(s.hour, 2) && k[14..16] == Padded(s.minute, 2) && k[17..19] == Padded(s.second, 2)
  {
    hide Padded, Assembled;
    var s := StampOf(t);
    Disassembled(Padded(s.year, 4), Padded(s.month, 2), Padded(s.day, 2),
                 Padded(s.hour, 2), Padded(s.minute, 2), Padded(s.second, 2));
  }

  lemma InstantInRange(s: Stamp)
    requires Valid(s)
    ensures InRange(Instant(s))
  {
    DayInYear(s);
    YearsMonotone(FIRST_YEAR, s.year);
    YearsMonotone(s.year + 1, LAST_YEAR + 1);
  }

  /** Round trip, both ways: a key parses to its instant, and only to it. */
  lemma KeyRoundTrip(t: int, k: string)
    requires InRange(t)
    ensures ParseKey(Key(t)) == Some(t)
    ensures ParseKey(k) == Some(t) <==> k == Key(t)
  {
    ShapedRender(StampOf(t));
    if ParseKey(k) == Some(t) {
      RenderFields(k);
      InstantOrder(Fields(k), StampOf(t));
    }
  }

  /** Parsing succeeds only on keys of instants the calendar can hold. */
  lemma ParsedInRange(k: string)
    requires ParseKey(k).Some?
    ensures InRange(ParseKey(k).value) && Key(ParseKey(k).value) == k
  {
    InstantInRange(Fields(k));
    KeyRoundTrip(ParseKey(k).value, k);
  }
}
