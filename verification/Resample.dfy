/** Bars of one width rebuilt from narrower ones. */
module Resample {
  import opened Domain
  import opened Paisa
  import opened BarGrid

  /** Prices in paisa; `time` in seconds of wall clock. */
  datatype Candle = Candle(time: int, open: int, high: int, low: int, close: int, volume: int)

  function Volume(cs: seq<Candle>): int {
    if cs == [] then 0 else Volume(cs[..|cs| - 1]) + cs[|cs| - 1].volume
  }

  /** A bar and the candle that follows it. */
  function Merge(bar: Candle, c: Candle): Candle {
    Candle(bar.time, bar.open, Max(bar.high, c.high), Min(bar.low, c.low), c.close, bar.volume + c.volume)
  }

  /** A run of candles as one, stamped with its last. */
  function Aggregate(cs: seq<Candle>): Candle
    requires |cs| > 0
  {
    if |cs| == 1 then cs[0]
    else Merge(Aggregate(cs[..|cs| - 1]), cs[|cs| - 1]).(time := cs[|cs| - 1].time)
  }

  /** `aggregate_candles` refuses an empty run. */
  function AggregateCandles(cs: seq<Candle>): Option<Candle> {
    if |cs| == 0 then None else Some(Aggregate(cs))
  }

  /** First open, last close, the extreme prices and the total volume. */
  lemma {:induction false} AggregateMeans(cs: seq<Candle>)
    requires |cs| > 0
    ensures AggregateCandles(cs).Some?
    ensures var r := AggregateCandles(cs).value;
      && r.open == cs[0].open && r.close == cs[|cs| - 1].close && r.time == cs[|cs| - 1].time
      && (forall c :: c in cs ==> r.low <= c.low && c.high <= r.high)
      && (exists c :: c in cs && c.high == r.high) && (exists c :: c in cs && c.low == r.low)
      && r.volume == Volume(cs)
  {
    var init, c := cs[..|cs| - 1], cs[|cs| - 1];
    assert cs == init + [c];
    if |cs| > 1 {
      AggregateMeans(init);
    }
  }

  // ---- grouping by bar -------------------------------------------------------

  /** Candles by bar, in the order the bars were first seen. */
  datatype Groups = Groups(order: seq<int>, chunks: map<int, seq<Candle>>)

  function Add(g: Groups, k: int, c: Candle): Groups {
    if k in g.chunks then g.(chunks := g.chunks[k := g.chunks[k] + [c]])
    else Groups(g.order + [k], g.chunks[k := [c]])
  }

  ghost predicate Formed(g: Groups) {
    && (forall i :: 0 <= i < |g.order| ==> g.order[i] in g.chunks && |g.chunks[g.order[i]]| > 0)
    && (forall k :: k in g.chunks ==> k in g.order && |g.chunks[k]| > 0)
  }

  function GroupRun(cs: seq<Candle>, b: int -> int): (g: Groups)
    ensures Formed(g)
  {
    if cs == [] then Groups([], map[])
    else Add(GroupRun(cs[..|cs| - 1], b), b(cs[|cs| - 1].time), cs[|cs| - 1])
  }

  /** The bar of one group, stamped with its start. */
  function Bar(g: Groups, i: int): Candle
    requires Formed(g) && 0 <= i < |g.order|
  {
    Aggregate(g.chunks[g.order[i]]).(time := g.order[i])
  }

  function Bars(g: Groups): seq<Candle>
    requires Formed(g)
  {
    seq(|g.order|, i requires 0 <= i < |g.order| => Bar(g, i))
  }

  /** The series in bars whose starts `b` gives. */
  function Resampled(cs: seq<Candle>, b: int -> int): seq<Candle> {
    Bars(GroupRun(cs, b))
  }

  method Bucketize(cs: seq<Candle>, b: int -> int) returns (bars: seq<Candle>)
    ensures bars == Resampled(cs, b)
  {
    var order: seq<int>, chunks: map<int, seq<Candle>> := [], map[];
    for i := 0 to |cs|
      invariant Groups(order, chunks) == GroupRun(cs[..i], b)
    {
      assert cs[..i + 1][..i] == cs[..i];
      var k := b(cs[i].time);
      if k in chunks {
        chunks := chunks[k := chunks[k] + [cs[i]]];
      } else {
        order, chunks := order + [k], chunks[k := [cs[i]]];
      }
    }
    assert cs[..|cs|] == cs;
    bars := [];
    for i := 0 to |order|
      invariant |bars| == i && forall j :: 0 <= j < i ==> bars[j] == Resampled(cs, b)[j]
    {
      bars := bars + [Bar(Groups(order, chunks), i)];
    }
  }

  // ---- one pass over sorted candles ------------------------------------------

  ghost predicate Sorted(cs: seq<Candle>) {
    forall i, j :: 0 <= i < j < |cs| ==> cs[i].time <= cs[j].time
  }

  ghost predicate Monotone(b: int -> int) {
    forall x, y :: x <= y ==> b(x) <= b(y)
  }

  function Step(bars: seq<Candle>, c: Candle, b: int -> int): seq<Candle> {
    if bars != [] && bars[|bars| - 1].time == b(c.time) then bars[..|bars| - 1] + [Merge(bars[|bars| - 1], c)]
    else bars + [c.(time := b(c.time))]
  }

  /** What a live aggregator does: extend the open bar or start the next. */
  function Roll(cs: seq<Candle>, b: int -> int): seq<Candle> {
    if cs == [] then [] else Step(Roll(cs[..|cs| - 1], b), cs[|cs| - 1], b)
  }

  lemma SteppingIsSorted(bars: seq<Candle>, c: Candle, b: int -> int)
    requires Sorted(bars) && (forall i :: 0 <= i < |bars| - 1 ==> bars[i].time < bars[|bars| - 1].time)
    requires bars != [] ==> bars[|bars| - 1].time <= b(c.time)
    ensures var next := Step(bars, c, b);
      && Sorted(next) && next != [] && next[|next| - 1].time == b(c.time)
      && (forall i :: 0 <= i < |next| - 1 ==> next[i].time < next[|next| - 1].time)
  {
  }

  /** Bars come out in increasing order, the last holding the last candle. */
  lemma {:induction false} RollIsSorted(cs: seq<Candle>, b: int -> int)
    requires Monotone(b) && Sorted(cs)
    ensures var bars := Roll(cs, b);
      && Sorted(bars)
      && (cs != [] ==> bars != [] && bars[|bars| - 1].time == b(cs[|cs| - 1].time))
      && (forall i :: 0 <= i < |bars| - 1 ==> bars[i].time < bars[|bars| - 1].time)
  {
    if cs != [] {
      var init, c := cs[..|cs| - 1], cs[|cs| - 1];
      RollIsSorted(init, b);
      assert init != [] ==> b(init[|init| - 1].time) <= b(c.time);
      SteppingIsSorted(Roll(init, b), c, b);
    }
  }

  lemma AggregateAppends(chunk: seq<Candle>, c: Candle, k: int)
    requires |chunk| > 0
    ensures Aggregate(chunk + [c]).(time := k) == Merge(Aggregate(chunk).(time := k), c)
  {
    assert (chunk + [c])[..|chunk|] == chunk;
  }

  /** Grouping sorted candles in a table is the one-pass aggregation. */
  lemma {:induction false} GroupingIsRolling(cs: seq<Candle>, b: int -> int)
    requires Monotone(b) && Sorted(cs)
    ensures Resampled(cs, b) == Roll(cs, b)
  {
    if cs != [] {
      var init, c := cs[..|cs| - 1], cs[|cs| - 1];
      GroupingIsRolling(init, b);
      RollIsSorted(init, b);
      assert init != [] ==> b(init[|init| - 1].time) <= b(c.time);
      AddingIsStepping(GroupRun(init, b), c, b);
    }
  }

  lemma AddingIsStepping(g: Groups, c: Candle, b: int -> int)
    requires Formed(g) && Formed(Add(g, b(c.time), c))
    requires var bars := Bars(g);
      && (bars != [] ==> bars[|bars| - 1].time <= b(c.time))
      && (forall i :: 0 <= i < |bars| - 1 ==> bars[i].time < bars[|bars| - 1].time)
    ensures Bars(Add(g, b(c.time), c)) == Step(Bars(g), c, b)
  {
    var n := |g.order|;
    assert forall i :: 0 <= i < n ==> g.order[i] == Bars(g)[i].time;
    AddingAtEnd(g, b(c.time), c);
  }

  lemma AddingAtEnd(g: Groups, k: int, c: Candle)
    requires Formed(g)
    requires g.order != [] ==> g.order[|g.order| - 1] <= k
    requires forall i :: 0 <= i < |g.order| - 1 ==> g.order[i] < k
    ensures var h := Add(g, k, c);
      && Formed(h)
      && (forall i :: 0 <= i < |g.order| && g.order[i] != k ==> Bar(h, i) == Bar(g, i))
      && (k in g.chunks ==>
            && h.order == g.order && g.order[|g.order| - 1] == k
            && Bar(h, |g.order| - 1) == Merge(Bar(g, |g.order| - 1), c))
      && (k !in g.chunks ==> h.order == g.order + [k] && Bar(h, |g.order|) == c.(time := k))
  {
    if k in g.chunks {
      AggregateAppends(g.chunks[k], c, k);
    }
  }

  // ---- what resampling keeps ---------------------------------------------------

  lemma VolumeAppends(bars: seq<Candle>, c: Candle)
    ensures Volume(bars + [c]) == Volume(bars) + c.volume
  {
    assert (bars + [c])[..|bars|] == bars;
  }

  lemma {:induction false} RollKeepsVolume(cs: seq<Candle>, b: int -> int)
    ensures Volume(Roll(cs, b)) == Volume(cs)
  {
    if cs != [] {
      var init, c := cs[..|cs| - 1], cs[|cs| - 1];
      var bars := Roll(init, b);
      RollKeepsVolume(init, b);
      VolumeAppends(bars, c.(time := b(c.time)));
      if bars != [] {
        VolumeAppends(bars[..|bars| - 1], Merge(bars[|bars| - 1], c));
      }
    }
  }

  /** A candle merged into a bar first, or after the bar was taken up: the same. */
  lemma MergingIsAssociative(bars: seq<Candle>, bar: Candle, c: Candle, coarse: int -> int)
    requires coarse(bar.time) == coarse(c.time)
    ensures Step(Step(bars, bar, coarse), c, coarse) == Step(bars, Merge(bar, c), coarse)
  {
  }

  /** Every fine bar starts in the coarse bar of the candles it holds. */
  ghost predicate AllNest(cs: seq<Candle>, fine: int -> int, coarse: int -> int) {
    forall i :: 0 <= i < |cs| ==> coarse(fine(cs[i].time)) == coarse(cs[i].time)
  }

  lemma {:induction false} RollingComposes(cs: seq<Candle>, fine: int -> int, coarse: int -> int)
    requires AllNest(cs, fine, coarse)
    ensures Roll(Roll(cs, fine), coarse) == Roll(cs, coarse)
  {
    if cs != [] {
      var init, c := cs[..|cs| - 1], cs[|cs| - 1];
      var bars := Roll(init, fine);
      RollingComposes(init, fine, coarse);
      assert AllNest(cs, fine, coarse) && c == cs[|cs| - 1];
      if bars != [] && bars[|bars| - 1].time == fine(c.time) {
        var rest, bar := bars[..|bars| - 1], bars[|bars| - 1];
        assert (rest + [Merge(bar, c)])[..|rest|] == rest;
        MergingIsAssociative(Roll(rest, coarse), bar, c, coarse);
      } else {
        assert (bars + [c.(time := fine(c.time))])[..|bars|] == bars;
      }
    }
  }

  function Grid(seconds: int): int -> int
    requires seconds > 0
  {
    w => Bucket(w, seconds)
  }

  lemma GridIsMonotone(seconds: int)
    requires seconds > 0
    ensures Monotone(Grid(seconds))
  {
    forall x, y | x <= y ensures Grid(seconds)(x) <= Grid(seconds)(y) {
      BucketIsFloor(x, y, seconds);
    }
  }

  /** Sorted candles keep their volume in any resampling, and resampling to a nested
      wider grid may go through the narrower one. */
  lemma ResamplingComposes(cs: seq<Candle>, fine: int, coarse: int)
    requires fine > 0 && coarse > 0 && Sorted(cs)
    requires forall i :: 0 <= i < |cs| ==> Nests(cs[i].time, fine, coarse)
    ensures Resampled(Resampled(cs, Grid(fine)), Grid(coarse)) == Resampled(cs, Grid(coarse))
    ensures Volume(Resampled(cs, Grid(coarse))) == Volume(cs)
  {
    GridIsMonotone(fine);
    GridIsMonotone(coarse);
    GroupingIsRolling(cs, Grid(fine));
    RollIsSorted(cs, Grid(fine));
    GroupingIsRolling(cs, Grid(coarse));
    GroupingIsRolling(Roll(cs, Grid(fine)), Grid(coarse));
    RollingComposes(cs, Grid(fine), Grid(coarse));
    RollKeepsVolume(cs, Grid(coarse));
  }

  /** Minute bars of a session may reach the week through any intraday width and the day. */
  lemma SessionResamplesThroughDays(cs: seq<Candle>, seconds: int)
    requires IsIntraday(seconds) && DAY % seconds == 0 && Sorted(cs)
    requires forall i :: 0 <= i < |cs| ==> cs[i].time % DAY >= OPEN
    ensures Resampled(Resampled(cs, Grid(seconds)), Grid(DAY)) == Resampled(cs, Grid(DAY))
    ensures Resampled(Resampled(cs, Grid(DAY)), Grid(WEEK)) == Resampled(cs, Grid(WEEK))
  {
    forall i | 0 <= i < |cs| ensures Nests(cs[i].time, seconds, DAY) && Nests(cs[i].time, DAY, WEEK) {
      SessionNests(cs[i].time, seconds);
      DaysNestInWeeks(cs[i].time);
    }
    ResamplingComposes(cs, seconds, DAY);
    ResamplingComposes(cs, DAY, WEEK);
  }
}
