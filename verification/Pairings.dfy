/** Three accountings of one instrument's fills: weighted average, FIFO lots and
    position lifecycle. Where they must agree, and by how much they may differ. */
module Pairings {
  import opened Domain
  import opened Paisa
  import opened PositionMath
  import FL = FifoLots
  import LC = Lifecycle
  import opened TimeOrder

  // ---- one running quantity ----------------------------------------------

  lemma {:induction false} QuantitiesAgree(fs: seq<Fill>, costs: map<string, int>)
    requires LC.AllExecuted(fs)
    ensures Held(LC.PositionRun(fs)) == FL.NetSize(fs) == FL.LotQty(FL.PairRun(fs, costs).lots)
  {
    FL.PairingConserves(fs, costs);
    if fs != [] {
      QuantitiesAgree(fs[..|fs| - 1], costs);
    }
  }

  // ---- FIFO against weighted average -------------------------------------

  /** Twice the rounding room the averages of a run had. */
  function AveragingRoom(fs: seq<Fill>): nat {
    if fs == [] then 0
    else AveragingRoom(fs[..|fs| - 1]) + RoundingRoom(LC.PositionRun(fs[..|fs| - 1]), fs[|fs| - 1])
  }

  lemma {:induction false} AverageCostDrift(fs: seq<Fill>)
    requires LC.AllExecuted(fs)
    ensures 2 * Abs(NetCostOf(LC.PositionRun(fs)) + FL.NetFlow(fs)) <= AveragingRoom(fs)
  {
    if fs != [] {
      AverageCostDrift(fs[..|fs| - 1]);
      FillDrift(LC.PositionRun(fs[..|fs| - 1]), fs[|fs| - 1]);
      assert CashFlow(fs[|fs| - 1]) == -(FL.Size(fs[|fs| - 1]) * fs[|fs| - 1].price) by {
        NegatedProduct(FL.Size(fs[|fs| - 1]), fs[|fs| - 1].price);
      }
    }
  }

  function FifoRealized(fs: seq<Fill>, costs: map<string, int>): int {
    FL.Gross(FL.PairRun(fs, costs).trades)
  }

  function FifoOpenCost(fs: seq<Fill>, costs: map<string, int>): int {
    FL.LotCost(FL.PairRun(fs, costs).lots)
  }

  /** The position a weighted average leaves: what it realized, and its cost less that. */
  function AverageRealized(fs: seq<Fill>): int {
    Realized(LC.PositionRun(fs))
  }

  function AverageNetCost(fs: seq<Fill>): int {
    NetCostOf(LC.PositionRun(fs))
  }

  function TripsRealized(fs: seq<Fill>): int
    requires LC.AllExecuted(fs)
  {
    FL.Gross(LC.TripRun(fs).trips)
  }

  predicate Flat(fs: seq<Fill>) {
    Held(LC.PositionRun(fs)) == 0
  }

  function Flow(fs: seq<Fill>): int {
    FL.NetFlow(fs)
  }

  function Room(fs: seq<Fill>): nat {
    AveragingRoom(fs)
  }

  lemma FifoBalances(fs: seq<Fill>, costs: map<string, int>)
    ensures Flow(fs) + FifoOpenCost(fs, costs) == FifoRealized(fs, costs)
  {
    FL.PairingConserves(fs, costs);
  }

  lemma AverageBalances(fs: seq<Fill>)
    requires LC.AllExecuted(fs)
    ensures 2 * Abs(AverageNetCost(fs) + Flow(fs)) <= Room(fs)
  {
    AverageCostDrift(fs);
  }

  /** Realized P&L less open cost is the same number under FIFO and under
      weighted average, up to the rounding of the averages. */
  lemma FifoMatchesAverage(fs: seq<Fill>, costs: map<string, int>)
    requires LC.AllExecuted(fs)
    ensures 2 * Abs((FifoRealized(fs, costs) - FifoOpenCost(fs, costs)) + AverageNetCost(fs)) <= Room(fs)
  {
    FifoBalances(fs, costs);
    AverageBalances(fs);
  }

  /** An instrument is flat exactly when FIFO has closed every lot. */
  lemma FlatHasNoLots(fs: seq<Fill>, costs: map<string, int>)
    requires LC.AllExecuted(fs)
    ensures Held(LC.PositionRun(fs)) == 0 <==> FL.PairRun(fs, costs).lots == []
  {
    QuantitiesAgree(fs, costs);
    FL.LotsStayOneSided(fs, costs);
    FL.OneSidedSum(FL.PairRun(fs, costs).lots);
  }

  lemma FlatCostsNothing(fs: seq<Fill>, costs: map<string, int>)
    requires LC.AllExecuted(fs) && Flat(fs)
    ensures FifoOpenCost(fs, costs) == 0 && AverageNetCost(fs) == -AverageRealized(fs)
  {
    FlatHasNoLots(fs, costs);
  }

  /** When the instrument is flat the two realized figures themselves agree within
      that room. */
  lemma FifoMatchesAverageWhenFlat(fs: seq<Fill>, costs: map<string, int>)
    requires LC.AllExecuted(fs) && Flat(fs)
    ensures 2 * Abs(FifoRealized(fs, costs) - AverageRealized(fs)) <= Room(fs)
  {
    FlatCostsNothing(fs, costs);
    FifoMatchesAverage(fs, costs);
  }

  /** A flat instrument's last trip has been emitted, so its trips hold all it realized. */
  lemma FlatTripsHoldAll(fs: seq<Fill>)
    requires LC.AllExecuted(fs) && Flat(fs)
    ensures TripsRealized(fs) == AverageRealized(fs)
  {
    LC.LifecycleSimulatesPosition(fs);
  }

  /** Without a scale-in there is no rounding at all, and FIFO, weighted average
      and lifecycle report the same P&L at every flat point. */
  lemma AllThreeAgreeWithoutScaleIns(fs: seq<Fill>, costs: map<string, int>)
    requires LC.AllExecuted(fs) && Flat(fs) && Room(fs) == 0
    ensures FifoRealized(fs, costs) == AverageRealized(fs) == TripsRealized(fs)
  {
    FifoMatchesAverageWhenFlat(fs, costs);
    FlatTripsHoldAll(fs);
  }

  // ---- how many round trips ----------------------------------------------

  /** The fill takes a position to zero or through it. */
  predicate Completes(held: int, signed: int) {
    held != 0 && (held + signed == 0 || (held + signed > 0) != (held > 0))
  }

  function Completions(fs: seq<Fill>): nat {
    if fs == [] then 0 else
      Completions(fs[..|fs| - 1])
      + (if Completes(FL.NetSize(fs[..|fs| - 1]), FL.Size(fs[|fs| - 1])) then 1 else 0)
  }

  /** One trip for each time the running quantity reaches or crosses zero. */
  lemma {:induction false} TripsAreCompletions(fs: seq<Fill>)
    requires LC.AllExecuted(fs)
    ensures |LC.TripRun(fs).trips| == Completions(fs)
  {
    if fs != [] {
      var init := fs[..|fs| - 1];
      TripsAreCompletions(init);
      QuantitiesAgree(init, map[]);
      LC.LifecycleSimulatesPosition(init);
    }
  }

  /** A completing fill closes every open FIFO lot, so at least one portion. */
  lemma {:induction false} CompletionClosesEveryLot(lots: seq<FL.Lot>, left: int, f: Fill, unit: int)
    requires FL.OneSided(lots) && lots != []
    requires Completes(FL.LotQty(lots), left)
    ensures |FL.Match(lots, left, f, unit).trades| == |lots|
  {
    FL.OneSidedSum(lots);
    FL.OneSidedSum(lots[1..]);
    if |lots| > 1 {
      CompletionClosesEveryLot(lots[1..], left + lots[0].qty, f, unit);
    }
  }

  lemma {:induction false} TripsNeverOutnumberPortions(fs: seq<Fill>, costs: map<string, int>)
    requires LC.AllExecuted(fs)
    ensures |LC.TripRun(fs).trips| <= |FL.PairRun(fs, costs).trades|
  {
    if fs != [] {
      var init, f := fs[..|fs| - 1], fs[|fs| - 1];
      var s := FL.PairRun(init, costs);
      TripsNeverOutnumberPortions(init, costs);
      TripsAreCompletions(init);
      TripsAreCompletions(fs);
      QuantitiesAgree(init, costs);
      FL.LotsStayOneSided(init, costs);
      if Completes(FL.NetSize(init), FL.Size(f)) {
        CompletionClosesEveryLot(s.lots, FL.Size(f), f, FL.UnitCost(f, costs));
      }
    }
  }

  // ---- all instruments together --------------------------------------------------

  /** The trades of every other instrument. */
  ghost function Others(ts: seq<FL.Trade>, k: string): seq<FL.Trade> {
    if ts == [] then [] else (if ts[0].symbol == k then [] else [ts[0]]) + Others(ts[1..], k)
  }

  lemma {:induction false} Partition(ts: seq<FL.Trade>, k: string, j: string)
    ensures |ts| == |FL.TradesOf(ts, k)| + |Others(ts, k)|
    ensures FL.TradesOf(Others(ts, k), j) == if j == k then [] else FL.TradesOf(ts, j)
  {
    if ts != [] {
      Partition(ts[1..], k, j);
      if ts[0].symbol != k {
        assert ([ts[0]] + Others(ts[1..], k))[1..] == Others(ts[1..], k);
      } else {
        assert [] + Others(ts[1..], k) == Others(ts[1..], k);
      }
    }
  }

  /** Fewer of every instrument are fewer altogether. */
  lemma {:induction false} FewerOfEach(ts: seq<FL.Trade>, us: seq<FL.Trade>)
    requires forall k :: |FL.TradesOf(ts, k)| <= |FL.TradesOf(us, k)|
    ensures |ts| <= |us|
    decreases |ts|
  {
    if ts != [] {
      var k := ts[0].symbol;
      Partition(ts, k, k);
      Partition(us, k, k);
      forall j ensures |FL.TradesOf(Others(ts, k), j)| <= |FL.TradesOf(Others(us, k), j)| {
        Partition(ts, k, j);
        Partition(us, k, j);
      }
      FewerOfEach(Others(ts, k), Others(us, k));
    }
  }

  /** The records of fills that all reached the book. */
  function Records(fs: seq<Fill>): seq<LC.Record> {
    if fs == [] then [] else Records(fs[..|fs| - 1]) + [LC.Record(false, fs[|fs| - 1])]
  }

  lemma {:induction false} RecordsAreFills(fs: seq<Fill>, k: string)
    requires LC.AllExecuted(fs)
    ensures |Records(fs)| == |fs| && LC.NoNegativeSizes(Records(fs))
    ensures forall i :: 0 <= i < |fs| ==> Records(fs)[i] == LC.Record(false, fs[i])
    ensures LC.ExecutedOf(Records(fs), k) == FL.FillsOf(fs, k)
  {
    if fs != [] {
      RecordsAreFills(fs[..|fs| - 1], k);
      assert Records(fs)[..|fs| - 1] == Records(fs[..|fs| - 1]);
    }
  }

  lemma {:induction false} RecordsAppend(fs: seq<Fill>, f: Fill)
    ensures Records(fs + [f]) == Records(fs) + [LC.Record(false, f)]
  {
    assert (fs + [f])[..|fs|] == fs;
  }

  lemma {:induction false} InsertingRecords(fs: seq<Fill>, f: Fill)
    ensures Records(Insert(FL.FillTime, fs, f)) == Insert(LC.RecordTime, Records(fs), LC.Record(false, f))
  {
    if fs == [] {
      RecordsAppend(fs, f);
    } else {
      var init, last := fs[..|fs| - 1], fs[|fs| - 1];
      assert fs == init + [last];
      if FL.FillTime(last) <= FL.FillTime(f) {
        RecordsAppend(fs, f);
      } else {
        InsertingRecords(init, f);
        InsertBefore(FL.FillTime, init, last, f);
        InsertBefore(LC.RecordTime, Records(init), LC.Record(false, last), LC.Record(false, f));
        RecordsAppend(init, last);
        RecordsAppend(Insert(FL.FillTime, init, f), last);
      }
    }
  }

  /** The two loops sort the stream the same way. */
  lemma {:induction false} SortingRecords(fs: seq<Fill>)
    ensures Records(SortByTime(FL.FillTime, fs)) == SortByTime(LC.RecordTime, Records(fs))
  {
    if fs != [] {
      var init := fs[..|fs| - 1];
      SortingRecords(init);
      InsertingRecords(SortByTime(FL.FillTime, init), fs[|fs| - 1]);
      assert Records(fs)[..|Records(fs)| - 1] == Records(init);
    }
  }

  lemma SortingKeepsExecuted(fs: seq<Fill>)
    requires LC.AllExecuted(fs)
    ensures LC.AllExecuted(SortByTime(FL.FillTime, fs))
  {
    var sorted := SortByTime(FL.FillTime, fs);
    forall i | 0 <= i < |sorted| ensures Executed(sorted[i]) {
      assert sorted[i] in multiset(fs);
    }
  }

  /** Over any common stream of executed fills of any instruments, `round_trips_from_fills`
      never returns more rows than `round_trip_trades`. */
  lemma PromotionCountIsNotFlattered(fs: seq<Fill>, costs: map<string, int>)
    requires LC.AllExecuted(fs)
    ensures LC.NoNegativeSizes(SortByTime(LC.RecordTime, Records(fs)))
    ensures |LC.DeskRun(SortByTime(LC.RecordTime, Records(fs))).trips|
         <= |FL.DeskRun(SortByTime(FL.FillTime, fs), costs).trades|
  {
    SortingRecords(fs);
    SortingKeepsExecuted(fs);
    CountIsNotFlattered(SortByTime(FL.FillTime, fs), costs);
  }

  /** The same once the stream is in time order. */
  lemma CountIsNotFlattered(fs: seq<Fill>, costs: map<string, int>)
    requires LC.AllExecuted(fs)
    ensures LC.NoNegativeSizes(Records(fs))
    ensures |LC.DeskRun(Records(fs)).trips| <= |FL.DeskRun(fs, costs).trades|
  {
    RecordsAreFills(fs, "");
    forall k
      ensures |FL.TradesOf(LC.DeskRun(Records(fs)).trips, k)| <= |FL.TradesOf(FL.DeskRun(fs, costs).trades, k)|
    {
      RecordsAreFills(fs, k);
      LC.InstrumentsAreIndependent(Records(fs), k);
      FL.InstrumentsAreIndependent(fs, costs, k);
      TripsNeverOutnumberPortions(FL.FillsOf(fs, k), costs);
    }
    FewerOfEach(LC.DeskRun(Records(fs)).trips, FL.DeskRun(fs, costs).trades);
  }

  // ---- what a trip row reports -------------------------------------------

  /** The fill with index `|fs| - 1` opened the position that is now held. */
  predicate JustOpened(fs: seq<Fill>)
    requires fs != []
  {
    FL.NetSize(fs[..|fs| - 1]) == 0 || Completes(FL.NetSize(fs[..|fs| - 1]), FL.Size(fs[|fs| - 1]))
  }

  /** When the position that is now held was opened. */
  function OpenedAt(fs: seq<Fill>): int
    requires FL.NetSize(fs) != 0
  {
    if JustOpened(fs) then fs[|fs| - 1].time else OpenedAt(fs[..|fs| - 1])
  }

  predicate Exits(fs: seq<Fill>)
    requires fs != []
  {
    (FL.Size(fs[|fs| - 1]) > 0) != (FL.NetSize(fs) > 0)
  }

  /** Shares that went into the position now held, and what came out of it so far. */
  function Entered(fs: seq<Fill>): int
    requires FL.NetSize(fs) != 0
  {
    if JustOpened(fs) then Abs(FL.NetSize(fs))
    else Entered(fs[..|fs| - 1]) + (if Exits(fs) then 0 else fs[|fs| - 1].qty)
  }

  function Exited(fs: seq<Fill>): int
    requires FL.NetSize(fs) != 0
  {
    if JustOpened(fs) then 0
    else Exited(fs[..|fs| - 1]) + (if Exits(fs) then fs[|fs| - 1].qty else 0)
  }

  function ExitNotional(fs: seq<Fill>): int
    requires FL.NetSize(fs) != 0
  {
    if JustOpened(fs) then 0
    else ExitNotional(fs[..|fs| - 1])
         + (if Exits(fs) then fs[|fs| - 1].price * fs[|fs| - 1].qty else 0)
  }

  lemma {:induction false} OpenLotTellsTheEpisode(fs: seq<Fill>)
    requires LC.AllExecuted(fs) && FL.NetSize(fs) != 0
    ensures var lot := LC.TripRun(fs).lot;
      && lot.Some?
      && lot.value.qty == FL.NetSize(fs)
      && lot.value.since == OpenedAt(fs)
      && lot.value.closedQty == Exited(fs)
      && lot.value.closedNotional == ExitNotional(fs)
    ensures Entered(fs) == Exited(fs) + Abs(FL.NetSize(fs))
  {
    var init, f := fs[..|fs| - 1], fs[|fs| - 1];
    QuantitiesAgree(fs, map[]);
    QuantitiesAgree(init, map[]);
    LC.LifecycleSimulatesPosition(fs);
    LC.LifecycleSimulatesPosition(init);
    if !JustOpened(fs) {
      OpenLotTellsTheEpisode(init);
    }
  }

  lemma CompletingAdvance(lot: LC.OpenLot, f: Fill)
    requires LC.WellFormed(Some(lot)) && Executed(f) && Completes(lot.qty, FL.Size(f))
    ensures var closed := LC.Reduce(lot, f);
      && closed.closedQty == lot.closedQty + Abs(lot.qty)
      && closed.closedNotional == lot.closedNotional + f.price * Abs(lot.qty)
      && closed.since == lot.since && closed.avg == lot.avg
      && LC.Advance(Some(lot), f).trips == [LC.ClosedTrip(f, lot.qty > 0, closed)]
  {
  }

  /** The row a completing fill makes of the open lot and the position it mirrors. */
  lemma CompletingRow(lot: LC.OpenLot, p: Option<Position>, f: Fill) returns (row: FL.Trade)
    requires LC.WellFormed(Some(lot)) && Executed(f) && Completes(lot.qty, FL.Size(f))
    requires LC.Mirrors(Some(lot), p) && p.Some?
    ensures LC.Advance(Some(lot), f).trips == [row]
    ensures row.long == (lot.qty > 0) && row.qty == lot.closedQty + Abs(lot.qty)
    ensures row.entryTime == lot.since && row.exitTime == f.time && row.entryPrice == p.value.avg
    ensures row.symbol == f.instrument && row.costs == 0 && row.net == row.gross
    ensures row.qty > 0 ==> row.exitPrice == Q2(lot.closedNotional + f.price * Abs(lot.qty), row.qty)
    ensures row.gross == LC.LotRealized(Some(lot)) + ApplyFill(p, f).realized - Realized(p)
  {
    CompletingAdvance(lot, f);
    row := LC.ClosedTrip(f, lot.qty > 0, LC.Reduce(lot, f));
    LC.ReducingMirrors(lot, p.value, f);
  }

  /** The lot open after these fills, the position, and the episode the lot stands for. */
  ghost predicate Episode(fs: seq<Fill>, lot: LC.OpenLot, p: Option<Position>)
    requires LC.AllExecuted(fs)
  {
    && LC.TripRun(fs).lot == Some(lot) && LC.PositionRun(fs) == p && LC.Mirrors(Some(lot), p)
    && FL.NetSize(fs) == lot.qty != 0 && lot.since == OpenedAt(fs)
    && lot.closedQty >= 0 && lot.closedQty + Abs(lot.qty) == Entered(fs) && lot.closedNotional == ExitNotional(fs)
  }

  lemma OpenEpisode(fs: seq<Fill>) returns (lot: LC.OpenLot, p: Option<Position>)
    requires LC.AllExecuted(fs) && FL.NetSize(fs) != 0
    ensures Episode(fs, lot, p)
  {
    OpenLotTellsTheEpisode(fs);
    LC.LifecycleSimulatesPosition(fs);
    lot, p := LC.TripRun(fs).lot.value, LC.PositionRun(fs);
  }

  /** A completing fill emits one row: every share that went in comes out, stamped
      from the opening fill to this one, at the share-weighted exit price, and for
      the P&L the position model books over the episode. */
  lemma CompletedTripRow(fs: seq<Fill>, f: Fill) returns (lot: LC.OpenLot, p: Option<Position>, row: FL.Trade)
    requires LC.AllExecuted(fs) && Executed(f) && Completes(FL.NetSize(fs), FL.Size(f))
    ensures LC.TripRun(fs + [f]).trips == LC.TripRun(fs).trips + [row]
    ensures Episode(fs, lot, p) && p.Some? && row.entryPrice == p.value.avg
    ensures row.long == (FL.NetSize(fs) > 0)
    ensures row.qty == Entered(fs) > 0
    ensures row.entryTime == OpenedAt(fs) && row.exitTime == f.time
    ensures row.symbol == f.instrument && row.costs == 0 && row.net == row.gross
    ensures row.exitPrice == Q2(ExitNotional(fs) + f.price * Abs(FL.NetSize(fs)), row.qty)
    ensures row.gross == lot.realized + ApplyFill(p, f).realized - p.value.realized
  {
    lot, p := OpenEpisode(fs);
    LC.TripRunAppends(fs, f);
    row := CompletingRow(lot, p, f);
  }
}
