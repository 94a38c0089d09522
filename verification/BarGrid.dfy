/** The session-anchored bar grid, in seconds of Indian wall clock since 1970-01-01. */
module BarGrid {
  import opened Paisa

  const DAY := 86400
  const WEEK := 604800
  /** 09:15, the session open. */
  const OPEN := 33300
  /** 1970-01-01 was a Thursday; Monday is day zero of a week. */
  const EPOCH_WEEKDAY := 3

  /** Start of the bar that holds `wall`. */
  function Bucket(wall: int, seconds: int): int
    requires seconds > 0
  {
    if seconds == DAY then wall - wall % DAY
    else if seconds == WEEK then
      var midnight := wall - wall % DAY;
      midnight - (midnight / DAY + EPOCH_WEEKDAY) % 7 * DAY
    else OPEN + (wall - OPEN) / seconds * seconds
  }

  predicate IsIntraday(seconds: int) {
    seconds > 0 && seconds != DAY && seconds != WEEK
  }

  /** Where the grid of a width starts: the open, midnight, or Monday midnight. */
  function Anchor(seconds: int): int {
    if seconds == DAY then 0 else if seconds == WEEK then -EPOCH_WEEKDAY * DAY else OPEN
  }

  // ---- division by a positive width -------------------------------------------

  lemma FloorIsUnique(x: int, s: int, q: int)
    requires s > 0 && q * s <= x < q * s + s
    ensures x / s == q
  {
    var d := x / s;
    DivisionBounds(x, s);
    if d < q {
      Scales(d + 1, q, s);
    } else if d > q {
      Scales(q + 1, d, s);
    }
  }

  lemma Scales(a: int, b: int, s: int)
    requires s > 0 && a <= b
    ensures a * s <= b * s
  {
  }

  lemma FloorIsMonotone(x: int, y: int, s: int)
    requires s > 0 && x <= y
    ensures x / s * s <= y / s * s
  {
    DivisionBounds(x, s);
    DivisionBounds(y, s);
    if x / s > y / s {
      Scales(y / s + 1, x / s, s);
    }
    Scales(x / s, y / s, s);
  }

  /** The largest multiple of `s` that is no more than `x`. */
  function Multiple(x: int, s: int): int
    requires s > 0
  {
    x / s * s
  }

  lemma MultipleIsFloor(x: int, y: int, s: int)
    requires s > 0 && x <= y
    ensures Multiple(x, s) <= x < Multiple(x, s) + s
    ensures Multiple(x, s) <= Multiple(y, s) && Multiple(Multiple(x, s), s) == Multiple(x, s)
  {
    DivisionBounds(x, s);
    FloorIsMonotone(x, y, s);
    FloorIsUnique(Multiple(x, s), s, x / s);
  }

  // ---- one rule for all three grids ------------------------------------------

  /** Every grid is its anchor plus a whole number of widths. */
  lemma BucketIsAnchoredFloor(wall: int, seconds: int)
    requires seconds > 0
    ensures Bucket(wall, seconds) == Anchor(seconds) + (wall - Anchor(seconds)) / seconds * seconds
  {
    if seconds == WEEK {
      var d, r := wall / DAY, wall % DAY;
      var e := d + EPOCH_WEEKDAY;
      assert wall - r == d * DAY;
      assert (wall - r) / DAY == d;
      assert wall - Anchor(WEEK) == e * DAY + r;
      FloorIsUnique(e * DAY + r, WEEK, e / 7);
    }
  }

  /** A bar holds its stamps: it starts at or before them and ends after them, later
      stamps never fall in earlier bars, and a bar's start is in the bar. */
  lemma BucketIsFloor(wall: int, later: int, seconds: int)
    requires seconds > 0 && wall <= later
    ensures Bucket(wall, seconds) <= wall < Bucket(wall, seconds) + seconds
    ensures Bucket(wall, seconds) <= Bucket(later, seconds)
    ensures Bucket(Bucket(wall, seconds), seconds) == Bucket(wall, seconds)
  {
    var a := Anchor(seconds);
    var start, next, again := Bucket(wall, seconds), Bucket(later, seconds), Bucket(Bucket(wall, seconds), seconds);
    assert start == a + Multiple(wall - a, seconds) by { BucketIsAnchoredFloor(wall, seconds); }
    assert next == a + Multiple(later - a, seconds) by { BucketIsAnchoredFloor(later, seconds); }
    assert again == a + Multiple(start - a, seconds) by { BucketIsAnchoredFloor(start, seconds); }
    MultipleIsFloor(wall - a, later - a, seconds);
  }

  /** A boundary of each grid, in seconds: midnight, Monday 1970-01-05, or 09:15. */
  function Boundary(seconds: int): int {
    if seconds == 86_400 then 0 else if seconds == 604_800 then 345_600 else 33_300
  }

  /** The bar of a stamp starts a whole number of widths from that boundary, at or before the
      stamp and less than a width before it, and nothing else does. */
  lemma BucketInNumbers(wall: int, seconds: int, b: int)
    requires seconds > 0
    ensures b == Bucket(wall, seconds) <==>
      b <= wall < b + seconds && (b - Boundary(seconds)) % seconds == 0
  {
    var a, start := Anchor(seconds), Bucket(wall, seconds);
    BucketIsFloor(wall, wall, seconds);
    assert start - a == Multiple(wall - a, seconds) by { BucketIsAnchoredFloor(wall, seconds); }
    SameGrid(b, seconds);
    SameGrid(start, seconds);
    WholeMultiple((wall - a) / seconds, seconds);
    if b <= wall < b + seconds && (b - Boundary(seconds)) % seconds == 0 {
      OneMultiple(b - a, start - a, seconds);
    }
  }

  lemma SameGrid(b: int, seconds: int)
    requires seconds > 0
    ensures (b - Boundary(seconds)) % seconds == (b - Anchor(seconds)) % seconds
  {
  }

  lemma WholeMultiple(q: int, s: int)
    requires s > 0
    ensures q * s % s == 0
  {
    FloorIsUnique(q * s, s, q);
  }

  lemma OneMultiple(x: int, y: int, s: int)
    requires s > 0 && x % s == 0 && y % s == 0 && -s < x - y < s
    ensures x == y
  {
    MultiplesAreApart(x / s, y / s, s);
    MultiplesAreApart(y / s, x / s, s);
  }

  /** Weekly bars start on a Monday at midnight: whole weeks from 1970-01-05. */
  lemma WeeksStartOnMonday(wall: int)
    ensures (Bucket(wall, 604_800) - 345_600) % 604_800 == 0
  {
    BucketInNumbers(wall, 604_800, Bucket(wall, 604_800));
  }

  /** The open of every day is a bar boundary of every width that divides the day. */
  lemma OpenIsABoundary(day: int, seconds: int)
    requires IsIntraday(seconds) && 86_400 % seconds == 0
    ensures Bucket(day * 86_400 + 33_300, seconds) == day * 86_400 + 33_300
  {
    var n := DAY / seconds;
    Regroup(day, n, seconds);
    FloorIsUnique(day * DAY, seconds, day * n);
  }

  lemma Regroup(a: int, b: int, c: int)
    ensures a * b * c == a * (b * c)
  {
  }

  // ---- nesting ------------------------------------------------------------------

  /** The coarse bar of a stamp is the coarse bar of its fine bar's start. */
  predicate Nests(wall: int, fine: int, coarse: int)
    requires fine > 0 && coarse > 0
  {
    Bucket(Bucket(wall, fine), coarse) == Bucket(wall, coarse)
  }

  lemma FloorsNest(x: int, fine: int, n: int)
    requires fine > 0 && n > 0 && n * fine > 0
    ensures x / fine * fine / (n * fine) == x / (n * fine)
  {
    var coarse := n * fine;
    var q := x / coarse;
    DivisionBounds(x, coarse);
    DivisionBounds(x, fine);
    Regroup(q, n, fine);
    FloorIsUnique(q * coarse, fine, q * n);
    FloorIsMonotone(q * coarse, x, fine);
    FloorIsUnique(x / fine * fine, coarse, q);
  }

  lemma DivisorFloorsNest(x: int, fine: int, coarse: int)
    requires fine > 0 && coarse > 0 && coarse % fine == 0
    ensures x / fine * fine / coarse == x / coarse
  {
    var n := coarse / fine;
    assert coarse == n * fine;
    FloorsNest(x, fine, n);
  }

  /** Grids with one anchor nest when one width divides the other. */
  lemma MultiplesNest(wall: int, fine: int, coarse: int)
    requires fine > 0 && coarse > 0 && coarse % fine == 0
    requires Anchor(fine) == Anchor(coarse)
    ensures Nests(wall, fine, coarse)
  {
    var a := Anchor(fine);
    var b := Bucket(wall, fine);
    BucketIsAnchoredFloor(wall, fine);
    BucketIsAnchoredFloor(wall, coarse);
    BucketIsAnchoredFloor(b, coarse);
    assert (b - a) / coarse == (wall - a) / coarse by {
      DivisorFloorsNest(wall - a, fine, coarse);
    }
  }

  lemma DaysNestInWeeks(wall: int)
    ensures Nests(wall, DAY, WEEK)
  {
    var d := wall / DAY;
    assert wall - wall % DAY == d * DAY;
    assert Bucket(wall, DAY) == d * DAY;
    assert d * DAY % DAY == 0;
  }

  /** Where the bar of a stamp starts, relative to the stamp's own midnight. */
  lemma BucketWithinDay(wall: int, seconds: int)
    requires IsIntraday(seconds) && DAY % seconds == 0
    ensures var r, o := wall % DAY, OPEN % seconds;
      Bucket(wall, seconds) == wall - r + o + (r - o) / seconds * seconds
  {
    var d, r := wall / DAY, wall % DAY;
    var o, m, n := OPEN % seconds, OPEN / seconds, DAY / seconds;
    var q := (r - o) / seconds;
    DivisionBounds(r - o, seconds);
    Regroup(d, n, seconds);
    Gather(d * n, m, q, seconds);
    FloorIsUnique(wall - OPEN, seconds, d * n - m + q);
  }

  lemma Gather(a: int, b: int, c: int, s: int)
    ensures (a - b + c) * s == a * s - b * s + c * s
  {
  }

  /** An intraday bar lies in its stamp's own day exactly when the stamp is not before
      the day's first bar boundary: always for 1m, 5m and 15m bars, and from 00:15
      on for 30m and 1h bars. */
  lemma IntradayNestsInDays(wall: int, seconds: int)
    requires IsIntraday(seconds) && DAY % seconds == 0
    ensures Nests(wall, seconds, DAY) <==> wall % DAY >= OPEN % seconds
  {
    var d, r, o := wall / DAY, wall % DAY, OPEN % seconds;
    var b := Bucket(wall, seconds);
    BucketWithinDay(wall, seconds);
    DivisionBounds(r - o, seconds);
    if r >= o {
      FloorIsUnique(b, DAY, d);
    } else {
      FloorIsUnique(r - o, seconds, -1);
      assert b == d * DAY + o - seconds < d * DAY;
    }
  }

  /** Every stamp of the session nests, whatever the width. */
  lemma SessionNests(wall: int, seconds: int)
    requires IsIntraday(seconds) && DAY % seconds == 0 && wall % DAY >= OPEN
    ensures Nests(wall, seconds, DAY) && Nests(wall, seconds, WEEK)
  {
    IntradayNestsInDays(wall, seconds);
    DaysNestInWeeks(wall);
    DaysNestInWeeks(Bucket(wall, seconds));
  }
}
