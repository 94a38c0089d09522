/** Lifecycle pairing: one trip per entry-to-zero sequence of an instrument,
    scale-ins averaged into the entry and partial exits folded into the trip. */
module Lifecycle {
  import opened Domain
  import opened Paisa
  import opened PositionMath
  import opened TimeOrder
  import FL = FifoLots

  /** An open position and the trip it is accumulating. */
  datatype OpenLot = OpenLot(
    qty: int,
    avg: int,
    since: int,
    closedQty: int,
    closedNotional: int,
    realized: int)

  /** `_closed_trip`: the row of a lifecycle that has just completed. */
  function ClosedTrip(f: Fill, long: bool, lot: OpenLot): FL.Trade
    requires lot.closedQty > 0
  {
    FL.Trade(f.instrument, long, lot.closedQty, lot.since, lot.avg, f.time,
             Q2(lot.closedNotional, lot.closedQty), lot.realized, 0, lot.realized)
  }

  // ---- specification: one fill against the open lot -----------------------

  datatype Progress = Progress(lot: Option<OpenLot>, trips: seq<FL.Trade>)

  ghost predicate WellFormed(lot: Option<OpenLot>) {
    lot.Some? ==> lot.value.qty != 0 && lot.value.closedQty >= 0
  }

  /** Averaging a fill into an open lot on the same side. */
  function Grow(lot: OpenLot, f: Fill): OpenLot
    requires f.qty > 0
  {
    var total := Abs(lot.qty) + f.qty;
    lot.(qty := lot.qty + Signed(f),
         avg := Q2(lot.avg * Abs(lot.qty) + f.price * f.qty, total))
  }

  /** Closing as much of the lot as the fill covers. */
  function Reduce(lot: OpenLot, f: Fill): OpenLot {
    var matched := Min(Abs(lot.qty), f.qty);
    var long := lot.qty > 0;
    lot.(qty := if long then lot.qty - matched else lot.qty + matched,
         closedQty := lot.closedQty + matched,
         closedNotional := lot.closedNotional + f.price * matched,
         realized := lot.realized
           + (if long then f.price - lot.avg else lot.avg - f.price) * matched)
  }

  function Advance(lot: Option<OpenLot>, f: Fill): (r: Progress)
    requires WellFormed(lot) && Executed(f)
    ensures WellFormed(r.lot)
  {
    if lot.None? then
      Progress(Some(OpenLot(Signed(f), f.price, f.time, 0, 0, 0)), [])
    else if (lot.value.qty > 0) == (Signed(f) > 0) then
      Progress(Some(Grow(lot.value, f)), [])
    else
      var long := lot.value.qty > 0;
      var closed := Reduce(lot.value, f);
      var remainder := f.qty - Min(Abs(lot.value.qty), f.qty);
      if remainder > 0 then
        var flipped := OpenLot(if f.side.Buy? then remainder else -remainder, f.price, f.time, 0, 0, 0);
        Progress(Some(flipped), [ClosedTrip(f, long, closed)])
      else if closed.qty == 0 then
        Progress(None, [ClosedTrip(f, long, closed)])
      else
        Progress(Some(closed), [])
  }

  ghost predicate AllExecuted(fs: seq<Fill>) {
    forall i :: 0 <= i < |fs| ==> Executed(fs[i])
  }

  function TripRun(fs: seq<Fill>): (r: Progress)
    requires AllExecuted(fs)
    ensures WellFormed(r.lot)
  {
    if fs == [] then Progress(None, []) else
      var before := TripRun(fs[..|fs| - 1]);
      var step := Advance(before.lot, fs[|fs| - 1]);
      Progress(step.lot, before.trips + step.trips)
  }

  // ---- the same fills through the position model --------------------------

  function PositionRun(fs: seq<Fill>): Option<Position> {
    if fs == [] then None
    else Some(ApplyFill(PositionRun(fs[..|fs| - 1]), fs[|fs| - 1]))
  }

  /** The open lot is the position, and its books close at zero exactly when the
      position is flat. */
  ghost predicate Mirrors(lot: Option<OpenLot>, p: Option<Position>) {
    match lot
    case None => Held(p) == 0
    case Some(l) => p.Some? && p.value.qty == l.qty != 0 && p.value.avg == l.avg
  }

  function LotRealized(lot: Option<OpenLot>): int {
    if lot.Some? then lot.value.realized else 0
  }

  lemma OpeningMirrors(p: Option<Position>, f: Fill)
    requires Held(p) == 0 && Executed(f)
    ensures ApplyFill(p, f).avg == f.price
    ensures ApplyFill(p, f).realized == Realized(p)
  {
    ExactRounds(f.price, f.qty);
  }

  lemma GrowingMirrors(lot: OpenLot, p: Position, f: Fill)
    requires p.qty == lot.qty != 0 && p.avg == lot.avg && Executed(f)
    requires (lot.qty > 0) == (Signed(f) > 0)
    ensures var r := ApplyFill(Some(p), f);
      r.qty == Grow(lot, f).qty && r.avg == Grow(lot, f).avg && r.realized == p.realized
  {
  }

  lemma ReducingMirrors(lot: OpenLot, p: Position, f: Fill)
    requires p.qty == lot.qty != 0 && p.avg == lot.avg && Executed(f)
    requires (lot.qty > 0) != (Signed(f) > 0)
    ensures ApplyFill(Some(p), f).realized - p.realized == Reduce(lot, f).realized - lot.realized
    ensures ApplyFill(Some(p), f).avg == if f.qty <= Abs(lot.qty) then lot.avg else f.price
  {
    if f.qty <= Abs(lot.qty) {
      ReducedPosition(p, f);
    } else {
      FlippedPosition(p, f);
    }
    NegatedProduct(f.price - lot.avg, Min(Abs(lot.qty), f.qty));
    NegatedProduct(p.qty, f.price - lot.avg);
  }

  lemma AdvanceMirrors(lot: Option<OpenLot>, p: Option<Position>, f: Fill)
    requires WellFormed(lot) && Executed(f) && Mirrors(lot, p)
    ensures var step := Advance(lot, f);
      && Mirrors(step.lot, Some(ApplyFill(p, f)))
      && FL.Gross(step.trips) + LotRealized(step.lot) - LotRealized(lot)
         == ApplyFill(p, f).realized - Realized(p)
  {
    var step := Advance(lot, f);
    if |step.trips| == 1 {
      assert step.trips[1..] == [];
    }
    match lot
    case None => OpeningMirrors(p, f);
    case Some(l) =>
      if (l.qty > 0) == (Signed(f) > 0) {
        GrowingMirrors(l, p.value, f);
      } else {
        ReducingMirrors(l, p.value, f);
      }
  }

  /** After any executed fills the open lot has the position's quantity and
      average, and the trips' P&L plus what the open lot has realized is the
      position's realized P&L to the paisa. */
  lemma {:induction false} LifecycleSimulatesPosition(fs: seq<Fill>)
    requires AllExecuted(fs)
    ensures Mirrors(TripRun(fs).lot, PositionRun(fs))
    ensures FL.Gross(TripRun(fs).trips) + LotRealized(TripRun(fs).lot) == Realized(PositionRun(fs))
  {
    if fs != [] {
      var init, f := fs[..|fs| - 1], fs[|fs| - 1];
      var before := TripRun(init);
      LifecycleSimulatesPosition(init);
      AdvanceMirrors(before.lot, PositionRun(init), f);
      FL.SumsAppendTrades(before.trips, Advance(before.lot, f).trips);
    }
  }

  // ---- all instruments together, as the loop runs them ---------------------

  /** A fill record as an engine wrote it: a rejected order never reached the book. */
  datatype Record = Record(rejected: bool, fill: Fill)

  predicate Counts(r: Record) {
    !r.rejected && r.fill.qty != 0 && r.fill.price > 0
  }

  ghost predicate NoNegativeSizes(rs: seq<Record>) {
    forall i :: 0 <= i < |rs| ==> rs[i].fill.qty >= 0
  }

  /** The executed fills of one instrument, in stream order. */
  function ExecutedOf(rs: seq<Record>, instrument: string): (fs: seq<Fill>)
    ensures NoNegativeSizes(rs) ==> AllExecuted(fs)
    ensures forall i :: 0 <= i < |fs| ==> fs[i].instrument == instrument
  {
    if rs == [] then []
    else ExecutedOf(rs[..|rs| - 1], instrument)
         + (if Counts(rs[|rs| - 1]) && rs[|rs| - 1].fill.instrument == instrument
            then [rs[|rs| - 1].fill] else [])
  }

  function RecordTime(r: Record): int {
    r.fill.time
  }

  /** The running state of `round_trips_from_fills`. */
  datatype Desk = Desk(lots: map<string, OpenLot>, trips: seq<FL.Trade>)

  function LotOf(lots: map<string, OpenLot>, instrument: string): Option<OpenLot> {
    if instrument in lots then Some(lots[instrument]) else None
  }

  ghost predicate Sound(lots: map<string, OpenLot>) {
    forall k :: k in lots ==> WellFormed(Some(lots[k]))
  }

  function Put(lots: map<string, OpenLot>, instrument: string, lot: Option<OpenLot>): (r: map<string, OpenLot>)
    ensures forall k :: LotOf(r, k) == if k == instrument then lot else LotOf(lots, k)
  {
    if lot.Some? then lots[instrument := lot.value] else lots - {instrument}
  }

  function AdvanceDesk(d: Desk, r: Record): (d': Desk)
    requires Sound(d.lots) && r.fill.qty >= 0
    ensures Sound(d'.lots)
  {
    if !Counts(r) then d else
      var step := Advance(LotOf(d.lots, r.fill.instrument), r.fill);
      Desk(Put(d.lots, r.fill.instrument, step.lot), d.trips + step.trips)
  }

  function DeskRun(rs: seq<Record>): (d: Desk)
    requires NoNegativeSizes(rs)
    ensures Sound(d.lots)
  {
    if rs == [] then Desk(map[], []) else AdvanceDesk(DeskRun(rs[..|rs| - 1]), rs[|rs| - 1])
  }

  /** A record counts for its instrument exactly when its order was not rejected and it has a
      size and a price. */
  lemma WhenARecordCounts(rs: seq<Record>, r: Record, k: string)
    ensures ExecutedOf(rs + [r], k) == ExecutedOf(rs, k)
      + if r.fill.instrument == k && !r.rejected && r.fill.qty != 0 && r.fill.price > 0 then [r.fill] else []
  {
    assert (rs + [r])[..|rs|] == rs;
  }

  lemma OwnTrip(ts: seq<FL.Trade>, f: Fill, k: string)
    requires |ts| <= 1 && (ts == [] || ts[0].symbol == f.instrument)
    ensures FL.TradesOf(ts, k) == if k == f.instrument then ts else []
  {
    if ts != [] {
      assert ts[1..] == [];
    }
  }

  ghost function View(d: Desk, k: string): Progress {
    Progress(LotOf(d.lots, k), FL.TradesOf(d.trips, k))
  }

  lemma TripRunAppends(fs: seq<Fill>, f: Fill)
    requires AllExecuted(fs) && Executed(f)
    ensures var before, step := TripRun(fs), Advance(TripRun(fs).lot, f);
      TripRun(fs + [f]) == Progress(step.lot, before.trips + step.trips)
  {
    assert (fs + [f])[..|fs|] == fs;
  }

  lemma AdvanceDeskView(d: Desk, r: Record, k: string)
    requires Sound(d.lots) && r.fill.qty >= 0 && Counts(r)
    ensures var step := Advance(LotOf(d.lots, r.fill.instrument), r.fill);
      View(AdvanceDesk(d, r), k) ==
        if k == r.fill.instrument then Progress(step.lot, View(d, k).trips + step.trips) else View(d, k)
  {
    var step := Advance(LotOf(d.lots, r.fill.instrument), r.fill);
    FL.TradesOfAppends(d.trips, step.trips, k);
    OwnTrip(step.trips, r.fill, k);
  }

  /** Instruments do not see each other: each one's open lot and trips are what
      its own executed fills give alone. */
  lemma {:induction false} InstrumentsAreIndependent(rs: seq<Record>, k: string)
    requires NoNegativeSizes(rs)
    ensures View(DeskRun(rs), k) == TripRun(ExecutedOf(rs, k))
  {
    if rs != [] {
      var init, r := rs[..|rs| - 1], rs[|rs| - 1];
      var own := ExecutedOf(init, k);
      InstrumentsAreIndependent(init, k);
      if Counts(r) {
        AdvanceDeskView(DeskRun(init), r, k);
        TripRunAppends(own, r.fill);
      }
      assert own + [] == own;
    }
  }

  ghost predicate InExitOrder(ts: seq<FL.Trade>, until: int) {
    && (forall i, j :: 0 <= i < j < |ts| ==> ts[i].exitTime <= ts[j].exitTime)
    && (forall i :: 0 <= i < |ts| ==> ts[i].exitTime <= until)
  }

  /** Trips of time-ordered records come out in exit order. */
  lemma {:induction false} TripsInExitOrder(rs: seq<Record>, until: int)
    requires NoNegativeSizes(rs) && InTimeOrder(RecordTime, rs)
    requires forall i :: 0 <= i < |rs| ==> RecordTime(rs[i]) <= until
    ensures InExitOrder(DeskRun(rs).trips, until)
  {
    if rs != [] {
      TripsInExitOrder(rs[..|rs| - 1], RecordTime(rs[|rs| - 1]));
    }
  }

  /** One pass of the loop body: the instrument's own lot advances, no other moves. */
  method PairFill(open: map<string, OpenLot>, f: Fill)
    returns (lots: map<string, OpenLot>, closing: seq<FL.Trade>)
    requires WellFormed(LotOf(open, f.instrument)) && Executed(f)
    ensures var step := Advance(LotOf(open, f.instrument), f);
      lots == Put(open, f.instrument, step.lot) && closing == step.trips
  {
    lots, closing := open, [];
    if f.instrument !in lots {
      lots := lots[f.instrument := OpenLot(Signed(f), f.price, f.time, 0, 0, 0)];
    } else if (lots[f.instrument].qty > 0) == (Signed(f) > 0) {
      lots := lots[f.instrument := Grow(lots[f.instrument], f)];
    } else {
      var lot := lots[f.instrument];
      var closed := Reduce(lot, f);
      var remainder := f.qty - Min(Abs(lot.qty), f.qty);
      if remainder > 0 {
        closing := [ClosedTrip(f, lot.qty > 0, closed)];
        lots := lots[f.instrument :=
          OpenLot(if f.side.Buy? then remainder else -remainder, f.price, f.time, 0, 0, 0)];
      } else if closed.qty == 0 {
        closing := [ClosedTrip(f, lot.qty > 0, closed)];
        lots := lots - {f.instrument};
      } else {
        lots := lots[f.instrument := closed];
      }
    }
  }

  lemma SortedSizes(records: seq<Record>)
    requires NoNegativeSizes(records)
    ensures NoNegativeSizes(SortByTime(RecordTime, records))
  {
    var sorted := SortByTime(RecordTime, records);
    forall i | 0 <= i < |sorted|
      ensures sorted[i].fill.qty >= 0
    {
      assert sorted[i] in multiset(records);
    }
  }

  /** `round_trips_from_fills`. */
  method RoundTripsFromFills(records: seq<Record>) returns (trips: seq<FL.Trade>)
    requires NoNegativeSizes(records)
    ensures NoNegativeSizes(SortByTime(RecordTime, records))
    ensures trips == DeskRun(SortByTime(RecordTime, records)).trips
  {
    SortedSizes(records);
    var sorted := SortByTime(RecordTime, records);
    var lots: map<string, OpenLot> := map[];
    trips := [];
    for i := 0 to |sorted|
      invariant Desk(lots, trips) == DeskRun(sorted[..i])
    {
      var r := sorted[i];
      assert sorted[..i + 1][..i] == sorted[..i];
      if Counts(r) {
        var step: seq<FL.Trade>;
        lots, step := PairFill(lots, r.fill);
        trips := trips + step;
      }
    }
    assert sorted[..|sorted|] == sorted;
  }
}
