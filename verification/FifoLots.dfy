/** FIFO pairing: an opposing fill closes the oldest open lots first, one trade
    per matched portion, and what is left of it opens a lot of its own. */
module FifoLots {
  import opened Domain
  import opened Paisa
  import opened TimeOrder

  /** An open entry; `qty` is positive for a long lot and negative for a short one. */
  datatype Lot = Lot(qty: int, price: int, time: int, unitCost: int)

  datatype Trade = Trade(
    symbol: string,
    long: bool,
    qty: int,
    entryTime: int,
    entryPrice: int,
    exitTime: int,
    exitPrice: int,
    gross: int,
    costs: int,
    net: int)

  /** The size of a fill is its magnitude; the side gives the sign. */
  function Size(f: Fill): int {
    var size: int := Abs(f.qty);
    if f.side.Buy? then size else -size
  }

  /** The order's booked cost spread over this fill's shares, rounded per share. */
  function UnitCost(f: Fill, costs: map<string, int>): int {
    if f.qty == 0 then 0
    else Q2(if f.orderId in costs then costs[f.orderId] else 0, Abs(f.qty))
  }

  // ---- specification: one fill against the open lots ----------------------

  function Close(lot: Lot, matched: int, f: Fill, unit: int): Trade {
    var gross := (if lot.qty > 0 then f.price - lot.price else lot.price - f.price) * matched;
    var cost := (lot.unitCost + unit) * matched;
    Trade(f.instrument, lot.qty > 0, matched, lot.time, lot.price, f.time, f.price,
          gross, cost, gross - cost)
  }

  /** `n` moved towards zero by `matched`. */
  function Shrink(n: int, matched: int): int {
    if n > 0 then n - matched else n + matched
  }

  datatype Matching = Matching(lots: seq<Lot>, trades: seq<Trade>, left: int)

  /** Close lots from the front while they oppose what is left of the fill. */
  function Match(lots: seq<Lot>, left: int, f: Fill, unit: int): Matching {
    if left == 0 || lots == [] || (lots[0].qty > 0) == (left > 0) then
      Matching(lots, [], left)
    else
      var matched := Min(Abs(left), Abs(lots[0].qty));
      var trade := Close(lots[0], matched, f, unit);
      var lot := lots[0].(qty := Shrink(lots[0].qty, matched));
      if lot.qty == 0 then
        var rest := Match(lots[1..], Shrink(left, matched), f, unit);
        Matching(rest.lots, [trade] + rest.trades, rest.left)
      else
        Matching([lot] + lots[1..], [trade], Shrink(left, matched))
  }

  /** The open lots and closed trades of one instrument. */
  datatype Ledger = Ledger(lots: seq<Lot>, trades: seq<Trade>)

  function OpenLots(m: Matching, f: Fill, unit: int): seq<Lot> {
    m.lots + (if m.left != 0 then [Lot(m.left, f.price, f.time, unit)] else [])
  }

  function Pair(s: Ledger, f: Fill, costs: map<string, int>): Ledger {
    var unit := UnitCost(f, costs);
    var m := Match(s.lots, Size(f), f, unit);
    Ledger(OpenLots(m, f, unit), s.trades + m.trades)
  }

  function PairRun(fs: seq<Fill>, costs: map<string, int>): Ledger {
    if fs == [] then Ledger([], []) else Pair(PairRun(fs[..|fs| - 1], costs), fs[|fs| - 1], costs)
  }

  // ---- what matching conserves -------------------------------------------

  function LotQty(lots: seq<Lot>): int {
    if lots == [] then 0 else lots[0].qty + LotQty(lots[1..])
  }

  /** What the open lots were bought for, less what short lots were sold for. */
  function LotCost(lots: seq<Lot>): int {
    if lots == [] then 0 else lots[0].qty * lots[0].price + LotCost(lots[1..])
  }

  /** Booked cost still waiting on open lots. */
  function LotCharges(lots: seq<Lot>): int {
    if lots == [] then 0 else Abs(lots[0].qty) * lots[0].unitCost + LotCharges(lots[1..])
  }

  function Gross(ts: seq<Trade>): int {
    if ts == [] then 0 else ts[0].gross + Gross(ts[1..])
  }

  function Charged(ts: seq<Trade>): int {
    if ts == [] then 0 else ts[0].costs + Charged(ts[1..])
  }

  lemma {:induction false} SumsAppendLot(lots: seq<Lot>, lot: Lot)
    ensures LotQty(lots + [lot]) == LotQty(lots) + lot.qty
    ensures LotCost(lots + [lot]) == LotCost(lots) + lot.qty * lot.price
    ensures LotCharges(lots + [lot]) == LotCharges(lots) + Abs(lot.qty) * lot.unitCost
  {
    if lots != [] {
      SumsAppendLot(lots[1..], lot);
      assert (lots + [lot])[1..] == lots[1..] + [lot];
    } else {
      assert [lot][1..] == [];
      assert lots + [lot] == [lot];
    }
  }

  lemma {:induction false} SumsAppendTrades(ts: seq<Trade>, us: seq<Trade>)
    ensures Gross(ts + us) == Gross(ts) + Gross(us)
    ensures Charged(ts + us) == Charged(ts) + Charged(us)
  {
    if ts != [] {
      SumsAppendTrades(ts[1..], us);
      assert (ts + us)[1..] == ts[1..] + us;
    } else {
      assert ts + us == us;
    }
  }

  /** One close moves exactly its own gross between lot cost and fill notional,
      and exactly its own cost from the two sides onto the trade. */
  lemma CloseConserves(lot: Lot, left: int, f: Fill, unit: int)
    requires left != 0 && (lot.qty > 0) != (left > 0)
    ensures var m := Min(Abs(left), Abs(lot.qty));
      var t := Close(lot, m, f, unit);
      && Shrink(lot.qty, m) + Shrink(left, m) == lot.qty + left
      && Shrink(lot.qty, m) * lot.price + Shrink(left, m) * f.price
         == lot.qty * lot.price + left * f.price + t.gross
      && Abs(Shrink(lot.qty, m)) * lot.unitCost + Abs(Shrink(left, m)) * unit + t.costs
         == Abs(lot.qty) * lot.unitCost + Abs(left) * unit
  {
    var m := Min(Abs(left), Abs(lot.qty));
    Distributes(lot.qty, m, lot.price);
    Distributes(left, m, f.price);
    Distributes(f.price, lot.price, m);
    Distributes(lot.price, f.price, m);
    Distributes(Abs(lot.qty), m, lot.unitCost);
    Distributes(Abs(left), m, unit);
    Distributes(lot.unitCost, unit, m);
  }

  lemma SumsPrependLot(lot: Lot, lots: seq<Lot>)
    ensures LotQty([lot] + lots) == lot.qty + LotQty(lots)
    ensures LotCost([lot] + lots) == lot.qty * lot.price + LotCost(lots)
    ensures LotCharges([lot] + lots) == Abs(lot.qty) * lot.unitCost + LotCharges(lots)
  {
    assert ([lot] + lots)[1..] == lots;
  }

  lemma SumsPrependTrade(t: Trade, ts: seq<Trade>)
    ensures Gross([t] + ts) == t.gross + Gross(ts)
    ensures Charged([t] + ts) == t.costs + Charged(ts)
  {
    assert ([t] + ts)[1..] == ts;
  }

  ghost predicate Conserved(lots: seq<Lot>, left: int, price: int, unit: int, m: Matching) {
    && LotQty(m.lots) + m.left == LotQty(lots) + left
    && LotCost(m.lots) + m.left * price == LotCost(lots) + left * price + Gross(m.trades)
    && LotCharges(m.lots) + Abs(m.left) * unit + Charged(m.trades)
       == LotCharges(lots) + Abs(left) * unit
  }

  /** The front lot is used up, and the rest of the fill meets the lots behind it. */
  lemma WholeLotConserves(lots: seq<Lot>, left: int, f: Fill, unit: int, rest: Matching)
    requires left != 0 && lots != [] && (lots[0].qty > 0) != (left > 0)
    requires var matched := Min(Abs(left), Abs(lots[0].qty));
      Shrink(lots[0].qty, matched) == 0 && Conserved(lots[1..], Shrink(left, matched), f.price, unit, rest)
    ensures var trade := Close(lots[0], Min(Abs(left), Abs(lots[0].qty)), f, unit);
      Conserved(lots, left, f.price, unit, Matching(rest.lots, [trade] + rest.trades, rest.left))
  {
    CloseConserves(lots[0], left, f, unit);
    SumsPrependTrade(Close(lots[0], Min(Abs(left), Abs(lots[0].qty)), f, unit), rest.trades);
  }

  /** The fill is used up inside the front lot. */
  lemma PartLotConserves(lots: seq<Lot>, left: int, f: Fill, unit: int)
    requires left != 0 && lots != [] && (lots[0].qty > 0) != (left > 0)
    ensures var matched := Min(Abs(left), Abs(lots[0].qty));
      var lot := lots[0].(qty := Shrink(lots[0].qty, matched));
      Conserved(lots, left, f.price, unit,
                Matching([lot] + lots[1..], [Close(lots[0], matched, f, unit)], Shrink(left, matched)))
  {
    var matched := Min(Abs(left), Abs(lots[0].qty));
    CloseConserves(lots[0], left, f, unit);
    SumsPrependTrade(Close(lots[0], matched, f, unit), []);
    SumsPrependLot(lots[0].(qty := Shrink(lots[0].qty, matched)), lots[1..]);
  }

  lemma {:induction false} MatchConserves(lots: seq<Lot>, left: int, f: Fill, unit: int)
    ensures Conserved(lots, left, f.price, unit, Match(lots, left, f, unit))
  {
    if left != 0 && lots != [] && (lots[0].qty > 0) != (left > 0) {
      var matched := Min(Abs(left), Abs(lots[0].qty));
      if Shrink(lots[0].qty, matched) == 0 {
        MatchConserves(lots[1..], Shrink(left, matched), f, unit);
        WholeLotConserves(lots, left, f, unit, Match(lots[1..], Shrink(left, matched), f, unit));
      } else {
        PartLotConserves(lots, left, f, unit);
      }
    }
  }

  function NetFlow(fs: seq<Fill>): int {
    if fs == [] then 0 else NetFlow(fs[..|fs| - 1]) - Size(fs[|fs| - 1]) * fs[|fs| - 1].price
  }

  function NetSize(fs: seq<Fill>): int {
    if fs == [] then 0 else NetSize(fs[..|fs| - 1]) + Size(fs[|fs| - 1])
  }

  /** Cost booked on the fills, share by share. */
  function Booked(fs: seq<Fill>, costs: map<string, int>): int {
    if fs == [] then 0
    else Booked(fs[..|fs| - 1], costs) + Abs(fs[|fs| - 1].qty) * UnitCost(fs[|fs| - 1], costs)
  }

  lemma PairConserves(s: Ledger, f: Fill, costs: map<string, int>)
    ensures var t := Pair(s, f, costs);
      && LotQty(t.lots) == LotQty(s.lots) + Size(f)
      && LotCost(t.lots) - Gross(t.trades) == LotCost(s.lots) - Gross(s.trades) + Size(f) * f.price
      && LotCharges(t.lots) + Charged(t.trades)
         == LotCharges(s.lots) + Charged(s.trades) + Abs(f.qty) * UnitCost(f, costs)
  {
    var unit := UnitCost(f, costs);
    var m := Match(s.lots, Size(f), f, unit);
    MatchConserves(s.lots, Size(f), f, unit);
    SumsAppendTrades(s.trades, m.trades);
    OpenLotsSums(m, f, unit);
    assert Abs(Size(f)) == Abs(f.qty);
  }

  lemma OpenLotsSums(m: Matching, f: Fill, unit: int)
    ensures var lots := OpenLots(m, f, unit);
      && LotQty(lots) == LotQty(m.lots) + m.left
      && LotCost(lots) == LotCost(m.lots) + m.left * f.price
      && LotCharges(lots) == LotCharges(m.lots) + Abs(m.left) * unit
  {
    if m.left != 0 {
      SumsAppendLot(m.lots, Lot(m.left, f.price, f.time, unit));
    } else {
      assert m.lots + [] == m.lots;
    }
  }

  /** Over any fills: the open lots hold the net size, net cash flow plus open-lot
      cost is the gross P&L of the closed portions, and every paisa of per-share
      cost sits on exactly one trade or one open lot. */
  lemma {:induction false} PairingConserves(fs: seq<Fill>, costs: map<string, int>)
    ensures var s := PairRun(fs, costs);
      && LotQty(s.lots) == NetSize(fs)
      && NetFlow(fs) + LotCost(s.lots) == Gross(s.trades)
      && Charged(s.trades) + LotCharges(s.lots) == Booked(fs, costs)
  {
    if fs != [] {
      PairingConserves(fs[..|fs| - 1], costs);
      PairConserves(PairRun(fs[..|fs| - 1], costs), fs[|fs| - 1], costs);
    }
  }

  // ---- costs are booked per order but spread per fill --------------------

  function OrderCost(f: Fill, costs: map<string, int>): int {
    if f.orderId in costs then costs[f.orderId] else 0
  }

  /** An earlier fill of `fs` that has a size belongs to the order `id`. */
  predicate Appears(fs: seq<Fill>, id: string) {
    exists i :: 0 <= i < |fs| && fs[i].qty != 0 && fs[i].orderId == id
  }

  /** What the pairing aims to attribute: each fill's whole order cost. */
  function PerFill(fs: seq<Fill>, costs: map<string, int>): int {
    if fs == [] then 0 else
      var f := fs[|fs| - 1];
      PerFill(fs[..|fs| - 1], costs) + (if f.qty != 0 then OrderCost(f, costs) else 0)
  }

  /** What was booked: each order's cost once, on its first fill. */
  function PerOrder(fs: seq<Fill>, costs: map<string, int>): int {
    if fs == [] then 0 else
      var f := fs[|fs| - 1];
      PerOrder(fs[..|fs| - 1], costs)
      + (if f.qty != 0 && !Appears(fs[..|fs| - 1], f.orderId) then OrderCost(f, costs) else 0)
  }

  function Shares(fs: seq<Fill>): nat {
    if fs == [] then 0 else Shares(fs[..|fs| - 1]) + Abs(fs[|fs| - 1].qty)
  }

  /** No order that carries a cost was filled in more than one piece. */
  ghost predicate CostlyOrdersFillOnce(fs: seq<Fill>, costs: map<string, int>) {
    forall i :: 0 <= i < |fs| && fs[i].qty != 0 && Appears(fs[..i], fs[i].orderId)
                ==> OrderCost(fs[i], costs) == 0
  }

  /** Per-share rounding moves the attributed cost by at most half a paisa a share. */
  lemma {:induction false} AttributionRounding(fs: seq<Fill>, costs: map<string, int>)
    ensures 2 * Abs(Booked(fs, costs) - PerFill(fs, costs)) <= Shares(fs)
  {
    if fs != [] {
      var f := fs[|fs| - 1];
      AttributionRounding(fs[..|fs| - 1], costs);
      assert f.qty != 0 ==> IsRounded(OrderCost(f, costs), Abs(f.qty), UnitCost(f, costs));
    }
  }

  lemma {:induction false} PerFillIsAtLeastPerOrder(fs: seq<Fill>, costs: map<string, int>)
    requires forall id :: id in costs ==> costs[id] >= 0
    ensures PerOrder(fs, costs) <= PerFill(fs, costs)
    ensures PerOrder(fs, costs) == PerFill(fs, costs) <==> CostlyOrdersFillOnce(fs, costs)
  {
    if fs != [] {
      var init := fs[..|fs| - 1];
      PerFillIsAtLeastPerOrder(init, costs);
      assert forall i :: 0 <= i < |init| ==> init[i] == fs[i] && init[..i] == fs[..i];
    }
  }

  /** An order filled in two pieces is charged its whole cost on each. */
  lemma SplitOrderIsChargedTwice(f: Fill, g: Fill, costs: map<string, int>)
    requires f.qty != 0 && g.qty != 0 && f.orderId == g.orderId
    ensures PerFill([f, g], costs) == 2 * OrderCost(f, costs)
    ensures PerOrder([f, g], costs) == OrderCost(f, costs)
  {
    var fs := [f, g];
    assert fs[..1] == [f] && fs[1] == g && [f][..0] == [];
    assert !Appears([], f.orderId) && PerFill([], costs) == 0 && PerOrder([], costs) == 0;
    assert PerFill([f], costs) == OrderCost(f, costs) && PerOrder([f], costs) == OrderCost(f, costs);
    assert [f][0].qty != 0 && Appears([f], g.orderId);
  }

  // ---- lots never face each other ----------------------------------------

  /** No lot is empty and all lots are on one side of the market. */
  ghost predicate OneSided(lots: seq<Lot>) {
    forall i :: 0 <= i < |lots| ==> lots[i].qty != 0 && (lots[i].qty > 0) == (lots[0].qty > 0)
  }

  lemma {:induction false} MatchStaysOneSided(lots: seq<Lot>, left: int, f: Fill, unit: int)
    requires OneSided(lots)
    ensures var m := Match(lots, left, f, unit);
      && OneSided(m.lots)
      && (m.left == 0 || m.lots == [] || (m.lots[0].qty > 0) == (m.left > 0))
      && (m.left == 0 || (m.left > 0) == (left > 0))
  {
    if left != 0 && lots != [] && (lots[0].qty > 0) != (left > 0) {
      var matched := Min(Abs(left), Abs(lots[0].qty));
      if Shrink(lots[0].qty, matched) == 0 {
        MatchStaysOneSided(lots[1..], Shrink(left, matched), f, unit);
      }
    }
  }

  lemma PairStaysOneSided(s: Ledger, f: Fill, costs: map<string, int>)
    requires OneSided(s.lots)
    ensures OneSided(Pair(s, f, costs).lots)
  {
    MatchStaysOneSided(s.lots, Size(f), f, UnitCost(f, costs));
  }

  lemma {:induction false} LotsStayOneSided(fs: seq<Fill>, costs: map<string, int>)
    ensures OneSided(PairRun(fs, costs).lots)
  {
    if fs != [] {
      var f := fs[|fs| - 1];
      LotsStayOneSided(fs[..|fs| - 1], costs);
      var s := PairRun(fs[..|fs| - 1], costs);
      PairStaysOneSided(s, f, costs);
    }
  }

  /** One-sided lots sum to a quantity on their own side, at least one share each. */
  lemma {:induction false} OneSidedSum(lots: seq<Lot>)
    requires OneSided(lots)
    ensures Abs(LotQty(lots)) >= |lots|
    ensures lots != [] ==> (LotQty(lots) > 0) == (lots[0].qty > 0)
  {
    if |lots| > 1 {
      OneSidedSum(lots[1..]);
    } else if lots != [] {
      assert lots[1..] == [];
    }
  }

  // ---- first in, first out -------------------------------------------------

  /** Everything closed was opened no later than everything still open, and both
      queues are in opening order. */
  ghost predicate Queued(ts: seq<Trade>, lots: seq<Lot>, until: int) {
    && (forall i, j :: 0 <= i < j < |ts| ==> ts[i].entryTime <= ts[j].entryTime)
    && (forall i, j :: 0 <= i < |ts| && 0 <= j < |lots| ==> ts[i].entryTime <= lots[j].time)
    && (forall i, j :: 0 <= i < j < |lots| ==> lots[i].time <= lots[j].time)
    && (forall i :: 0 <= i < |ts| ==> ts[i].entryTime <= until)
    && (forall i :: 0 <= i < |lots| ==> lots[i].time <= until)
  }

  /** The front lot closes into a trade, and what is left of it stays in front. */
  lemma QueuedAfterClose(ts: seq<Trade>, t: Trade, lots: seq<Lot>, lot: Lot, until: int)
    requires lots != [] && Queued(ts, lots, until) && t.entryTime == lot.time == lots[0].time
    ensures Queued(ts + [t], lots[1..], until)
    ensures Queued(ts + [t], [lot] + lots[1..], until)
  {
  }

  lemma {:induction false} MatchStaysQueued(
    ts: seq<Trade>, lots: seq<Lot>, left: int, f: Fill, unit: int, until: int)
    requires Queued(ts, lots, until)
    ensures var m := Match(lots, left, f, unit);
      Queued(ts + m.trades, m.lots, until)
    decreases |lots|
  {
    if left == 0 || lots == [] || (lots[0].qty > 0) == (left > 0) {
      assert ts + [] == ts;
    } else {
      var matched := Min(Abs(left), Abs(lots[0].qty));
      var t := Close(lots[0], matched, f, unit);
      var lot := lots[0].(qty := Shrink(lots[0].qty, matched));
      QueuedAfterClose(ts, t, lots, lot, until);
      if lot.qty == 0 {
        MatchStaysQueued(ts + [t], lots[1..], Shrink(left, matched), f, unit, until);
        var rest := Match(lots[1..], Shrink(left, matched), f, unit).trades;
        assert ts + [t] + rest == ts + ([t] + rest);
      }
    }
  }

  function FillTime(f: Fill): int {
    f.time
  }

  lemma PairStaysQueued(s: Ledger, f: Fill, costs: map<string, int>, until: int)
    requires Queued(s.trades, s.lots, FillTime(f)) && FillTime(f) <= until
    ensures Queued(Pair(s, f, costs).trades, Pair(s, f, costs).lots, until)
  {
    var m := Match(s.lots, Size(f), f, UnitCost(f, costs));
    MatchStaysQueued(s.trades, s.lots, Size(f), f, UnitCost(f, costs), FillTime(f));
    QueueGrows(s.trades + m.trades, m.lots, Lot(m.left, f.price, f.time, UnitCost(f, costs)), until);
    assert m.lots + [] == m.lots;
  }

  lemma QueueGrows(ts: seq<Trade>, lots: seq<Lot>, lot: Lot, until: int)
    requires Queued(ts, lots, lot.time) && lot.time <= until
    ensures Queued(ts, lots + [lot], until) && Queued(ts, lots, until)
  {
  }

  /** Over time-ordered fills, entries are closed strictly in the order they were opened. */
  lemma {:induction false} FirstInFirstOut(fs: seq<Fill>, costs: map<string, int>, until: int)
    requires InTimeOrder(FillTime, fs)
    requires forall i :: 0 <= i < |fs| ==> FillTime(fs[i]) <= until
    ensures Queued(PairRun(fs, costs).trades, PairRun(fs, costs).lots, until)
  {
    if fs != [] {
      var init, f := fs[..|fs| - 1], fs[|fs| - 1];
      var s := PairRun(init, costs);
      FirstInFirstOut(init, costs, FillTime(f));
      PairStaysQueued(s, f, costs, until);
    }
  }

  // ---- all instruments together ------------------------------------------

  /** The running state of `round_trip_trades`. */
  datatype Desk = Desk(open: map<string, seq<Lot>>, trades: seq<Trade>)

  function LotsOf(open: map<string, seq<Lot>>, symbol: string): seq<Lot> {
    if symbol in open then open[symbol] else []
  }

  function PairDesk(d: Desk, f: Fill, costs: map<string, int>): Desk {
    if f.qty == 0 then d else
      var s := Pair(Ledger(LotsOf(d.open, f.instrument), []), f, costs);
      Desk(d.open[f.instrument := s.lots], d.trades + s.trades)
  }

  function DeskRun(fs: seq<Fill>, costs: map<string, int>): Desk {
    if fs == [] then Desk(map[], []) else PairDesk(DeskRun(fs[..|fs| - 1], costs), fs[|fs| - 1], costs)
  }

  function FillsOf(fs: seq<Fill>, symbol: string): seq<Fill> {
    if fs == [] then []
    else FillsOf(fs[..|fs| - 1], symbol)
         + (if fs[|fs| - 1].instrument == symbol then [fs[|fs| - 1]] else [])
  }

  function TradesOf(ts: seq<Trade>, symbol: string): seq<Trade> {
    if ts == [] then []
    else (if ts[0].symbol == symbol then [ts[0]] else []) + TradesOf(ts[1..], symbol)
  }

  lemma {:induction false} TradesOfAppends(ts: seq<Trade>, us: seq<Trade>, symbol: string)
    ensures TradesOf(ts + us, symbol) == TradesOf(ts, symbol) + TradesOf(us, symbol)
  {
    if ts != [] {
      TradesOfAppends(ts[1..], us, symbol);
      assert (ts + us)[1..] == ts[1..] + us;
    } else {
      assert ts + us == us;
    }
  }

  lemma {:induction false} MatchTradesAreOwn(lots: seq<Lot>, left: int, f: Fill, unit: int, symbol: string)
    ensures var ts := Match(lots, left, f, unit).trades;
      TradesOf(ts, symbol) == if symbol == f.instrument then ts else []
  {
    if left != 0 && lots != [] && (lots[0].qty > 0) != (left > 0) {
      var matched := Min(Abs(left), Abs(lots[0].qty));
      var t := Close(lots[0], matched, f, unit);
      if Shrink(lots[0].qty, matched) == 0 {
        var rest := Match(lots[1..], Shrink(left, matched), f, unit).trades;
        MatchTradesAreOwn(lots[1..], Shrink(left, matched), f, unit, symbol);
        assert ([t] + rest)[1..] == rest;
      } else {
        assert [t][1..] == [];
      }
    }
  }

  lemma EmptyFillPairsNothing(s: Ledger, f: Fill, costs: map<string, int>)
    requires f.qty == 0
    ensures Pair(s, f, costs) == s
  {
    assert s.lots + [] == s.lots && s.trades + [] == s.trades;
  }

  /** Instruments do not see each other: each one's lots and trades are what it
      would have had alone. */
  lemma {:induction false} InstrumentsAreIndependent(fs: seq<Fill>, costs: map<string, int>, symbol: string)
    ensures var d := DeskRun(fs, costs);
      Ledger(LotsOf(d.open, symbol), TradesOf(d.trades, symbol)) == PairRun(FillsOf(fs, symbol), costs)
  {
    if fs != [] {
      var init, f := fs[..|fs| - 1], fs[|fs| - 1];
      var d := DeskRun(init, costs);
      var own := FillsOf(init, symbol);
      InstrumentsAreIndependent(init, costs, symbol);
      assert (own + [f])[..|own|] == own && own + [] == own;
      if f.qty == 0 {
        EmptyFillPairsNothing(PairRun(own, costs), f, costs);
      } else {
        var unit := UnitCost(f, costs);
        var m := Match(LotsOf(d.open, f.instrument), Size(f), f, unit);
        MatchTradesAreOwn(LotsOf(d.open, f.instrument), Size(f), f, unit, symbol);
        TradesOfAppends(d.trades, m.trades, symbol);
        assert [] + m.trades == m.trades;
      }
    }
  }

  // ---- what a row reports --------------------------------------------------

  /** The order's cost per share of this fill, to the nearest paisa. */
  ghost predicate Spread(f: Fill, costs: map<string, int>, unit: int) {
    f.qty != 0 && IsRounded(if f.orderId in costs then costs[f.orderId] else 0, Abs(f.qty), unit)
  }

  /** What is left of this fill as an open lot: long if it bought, short if it sold. */
  ghost predicate OpenedBy(lot: Lot, f: Fill, k: string, costs: map<string, int>) {
    && f.instrument == k && Spread(f, costs, lot.unitCost)
    && lot.time == f.time && lot.price == f.price
    && 0 < Abs(lot.qty) <= Abs(f.qty) && (lot.qty > 0) == f.side.Buy?
  }

  /** The row of a share count that one fill opened and another, on the other side, closed. */
  ghost predicate RowOf(t: Trade, entry: Fill, exit: Fill, costs: map<string, int>) {
    && entry.instrument == exit.instrument == t.symbol
    && t.long == entry.side.Buy? && t.long == exit.side.Sell?
    && t.entryTime == entry.time && t.entryPrice == entry.price
    && t.exitTime == exit.time && t.exitPrice == exit.price
    && 0 < t.qty <= Abs(entry.qty) && t.qty <= Abs(exit.qty)
    && t.gross == (if t.long then exit.price - entry.price else entry.price - exit.price) * t.qty
    && (exists paid, due :: Spread(entry, costs, paid) && Spread(exit, costs, due) && t.costs == (paid + due) * t.qty)
    && t.net == t.gross - t.costs
  }

  ghost predicate Opened(fs: seq<Fill>, lot: Lot, k: string, costs: map<string, int>) {
    exists i :: 0 <= i < |fs| && OpenedBy(lot, fs[i], k, costs)
  }

  /** The row closes an earlier fill with a later one. */
  ghost predicate Reported(fs: seq<Fill>, t: Trade, costs: map<string, int>) {
    exists i, j :: 0 <= i < j < |fs| && RowOf(t, fs[i], fs[j], costs)
  }

  ghost predicate AllOpened(fs: seq<Fill>, lots: seq<Lot>, k: string, costs: map<string, int>) {
    forall n :: 0 <= n < |lots| ==> Opened(fs, lots[n], k, costs)
  }

  ghost predicate AllReported(fs: seq<Fill>, ts: seq<Trade>, costs: map<string, int>) {
    forall n :: 0 <= n < |ts| ==> Reported(fs, ts[n], costs)
  }

  lemma OpenedLonger(fs: seq<Fill>, f: Fill, lots: seq<Lot>, k: string, costs: map<string, int>)
    requires AllOpened(fs, lots, k, costs)
    ensures AllOpened(fs + [f], lots, k, costs)
  {
    forall n | 0 <= n < |lots| ensures Opened(fs + [f], lots[n], k, costs) {
      var i :| 0 <= i < |fs| && OpenedBy(lots[n], fs[i], k, costs);
      assert (fs + [f])[i] == fs[i];
    }
  }

  lemma ReportedLonger(fs: seq<Fill>, f: Fill, ts: seq<Trade>, costs: map<string, int>)
    requires AllReported(fs, ts, costs)
    ensures AllReported(fs + [f], ts, costs)
  {
    forall n | 0 <= n < |ts| ensures Reported(fs + [f], ts[n], costs) {
      var i, j :| 0 <= i < j < |fs| && RowOf(ts[n], fs[i], fs[j], costs);
      assert (fs + [f])[i] == fs[i] && (fs + [f])[j] == fs[j];
    }
  }

  /** `left` is what is still unmatched of the fill. */
  ghost predicate Remains(left: int, f: Fill) {
    Abs(left) <= Abs(f.qty) && (left != 0 ==> (left > 0) == f.side.Buy?)
  }

  lemma ClosingIsReported(entry: Fill, lot: Lot, left: int, f: Fill, costs: map<string, int>)
    requires OpenedBy(lot, entry, f.instrument, costs) && f.qty != 0 && Remains(left, f)
    requires left != 0 && (lot.qty > 0) != (left > 0)
    ensures var matched := Min(Abs(left), Abs(lot.qty));
      && RowOf(Close(lot, matched, f, UnitCost(f, costs)), entry, f, costs)
      && Remains(Shrink(left, matched), f)
      && (Shrink(lot.qty, matched) != 0 ==>
            OpenedBy(lot.(qty := Shrink(lot.qty, matched)), entry, f.instrument, costs))
  {
    assert Spread(f, costs, UnitCost(f, costs));
  }

  /** Every portion a fill closes is a row of an earlier fill and this one. */
  lemma {:induction false} MatchIsReported(fs: seq<Fill>, lots: seq<Lot>, left: int, f: Fill, costs: map<string, int>)
    requires AllOpened(fs, lots, f.instrument, costs) && f.qty != 0 && Remains(left, f)
    ensures var m := Match(lots, left, f, UnitCost(f, costs));
      && AllOpened(fs, m.lots, f.instrument, costs) && AllReported(fs + [f], m.trades, costs) && Remains(m.left, f)
    decreases |lots|
  {
    if left != 0 && lots != [] && (lots[0].qty > 0) != (left > 0) {
      var i :| 0 <= i < |fs| && OpenedBy(lots[0], fs[i], f.instrument, costs);
      ClosingIsReported(fs[i], lots[0], left, f, costs);
      assert (fs + [f])[i] == fs[i] && (fs + [f])[|fs|] == f;
      var matched := Min(Abs(left), Abs(lots[0].qty));
      if Shrink(lots[0].qty, matched) == 0 {
        MatchIsReported(fs, lots[1..], Shrink(left, matched), f, costs);
      }
    }
  }

  ghost predicate DeskReports(fs: seq<Fill>, d: Desk, costs: map<string, int>) {
    (forall k :: AllOpened(fs, LotsOf(d.open, k), k, costs)) && AllReported(fs, d.trades, costs)
  }

  lemma PairDeskReports(fs: seq<Fill>, d: Desk, f: Fill, costs: map<string, int>)
    requires DeskReports(fs, d, costs)
    ensures DeskReports(fs + [f], PairDesk(d, f, costs), costs)
  {
    ReportedLonger(fs, f, d.trades, costs);
    forall k ensures AllOpened(fs + [f], LotsOf(d.open, k), k, costs) {
      OpenedLonger(fs, f, LotsOf(d.open, k), k, costs);
    }
    if f.qty != 0 {
      FillReports(fs, LotsOf(d.open, f.instrument), f, costs);
      var closed := Pair(Ledger(LotsOf(d.open, f.instrument), []), f, costs).trades;
      ReportedTogether(fs + [f], d.trades, closed, costs);
    }
    forall k ensures AllOpened(fs + [f], LotsOf(PairDesk(d, f, costs).open, k), k, costs) {
      assert k != f.instrument ==> LotsOf(PairDesk(d, f, costs).open, k) == LotsOf(d.open, k);
    }
  }

  lemma ReportedTogether(fs: seq<Fill>, ts: seq<Trade>, us: seq<Trade>, costs: map<string, int>)
    requires AllReported(fs, ts, costs) && AllReported(fs, us, costs)
    ensures AllReported(fs, ts + us, costs)
  {
  }

  lemma FillReports(fs: seq<Fill>, lots: seq<Lot>, f: Fill, costs: map<string, int>)
    requires AllOpened(fs, lots, f.instrument, costs) && f.qty != 0
    ensures var s := Pair(Ledger(lots, []), f, costs);
      AllOpened(fs + [f], s.lots, f.instrument, costs) && AllReported(fs + [f], s.trades, costs)
  {
    var unit := UnitCost(f, costs);
    var m := Match(lots, Size(f), f, unit);
    MatchIsReported(fs, lots, Size(f), f, costs);
    OpenedLonger(fs, f, m.lots, f.instrument, costs);
    if m.left != 0 {
      assert OpenedBy(Lot(m.left, f.price, f.time, unit), f, f.instrument, costs);
      assert (fs + [f])[|fs|] == f;
    }
  }

  /** Every row closes an earlier fill with a later one of the same instrument on the other
      side: their times and prices, no more shares than either had, the price difference in
      the direction of the entry, both fills' cost per share, and the difference as net. */
  lemma {:induction false} EveryRowIsReported(fs: seq<Fill>, costs: map<string, int>)
    ensures DeskReports(fs, DeskRun(fs, costs), costs)
  {
    if fs != [] {
      var init, f := fs[..|fs| - 1], fs[|fs| - 1];
      EveryRowIsReported(init, costs);
      PairDeskReports(init, DeskRun(init, costs), f, costs);
      assert init + [f] == fs;
    }
  }

  // ---- the loop ----------------------------------------------------------

  lemma DeskRunAppends(fs: seq<Fill>, f: Fill, costs: map<string, int>)
    ensures DeskRun(fs + [f], costs) == PairDesk(DeskRun(fs, costs), f, costs)
  {
    assert (fs + [f])[..|fs|] == fs;
  }

  method RoundTripTrades(fills: seq<Fill>, costs: map<string, int>) returns (trades: seq<Trade>)
    ensures trades == DeskRun(SortByTime(FillTime, fills), costs).trades
  {
    var sorted := SortByTime(FillTime, fills);
    var open: map<string, seq<Lot>> := map[];
    trades := [];
    for i := 0 to |sorted|
      invariant Desk(open, trades) == DeskRun(sorted[..i], costs)
    {
      assert sorted[..i + 1] == sorted[..i] + [sorted[i]];
      DeskRunAppends(sorted[..i], sorted[i], costs);
      open, trades := PairFill(open, trades, sorted[i], costs);
    }
    assert sorted[..|sorted|] == sorted;
  }

  /** The body of the loop: one fill against its own instrument's lots. */
  method PairFill(before: map<string, seq<Lot>>, closed: seq<Trade>, f: Fill, costs: map<string, int>)
    returns (open: map<string, seq<Lot>>, trades: seq<Trade>)
    ensures Desk(open, trades) == PairDesk(Desk(before, closed), f, costs)
  {
    if f.qty == 0 {
      return before, closed;
    }
    var unit := UnitCost(f, costs);
    var lots, matched, left := MatchLots(LotsOf(before, f.instrument), f, unit);
    assert [] + matched == matched;
    if left != 0 {
      lots := lots + [Lot(left, f.price, f.time, unit)];
    } else {
      assert lots + [] == lots;
    }
    return before[f.instrument := lots], closed + matched;
  }

  method MatchLots(queue: seq<Lot>, f: Fill, unit: int)
    returns (lots: seq<Lot>, closed: seq<Trade>, left: int)
    ensures Matching(lots, closed, left) == Match(queue, Size(f), f, unit)
  {
    lots, closed, left := queue, [], Size(f);
    while left != 0 && lots != [] && (lots[0].qty > 0) != (left > 0)
      invariant var m := Match(lots, left, f, unit);
        Match(queue, Size(f), f, unit) == Matching(m.lots, closed + m.trades, m.left)
      decreases |lots| + Abs(left)
    {
      var lot := lots[0];
      var matched := Min(Abs(left), Abs(lot.qty));
      var trade := Close(lot, matched, f, unit);
      ghost var rest := Match(lots, left, f, unit).trades;
      assert closed + rest == closed + [trade] + rest[1..];
      closed := closed + [trade];
      left := Shrink(left, matched);
      lot := lot.(qty := Shrink(lot.qty, matched));
      lots := if lot.qty == 0 then lots[1..] else [lot] + lots[1..];
    }
  }
}
