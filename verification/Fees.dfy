/** Product-aware fees. Rates are parts of ten million of turnover, amounts are
    paisa, and each component is rounded on its own. */
module Fees {
  import opened Domain
  import opened Paisa

  const RATE_UNIT: int := 10_000_000

  datatype FeeError = NonPositiveFill | UnsupportedProduct(product: Product)

  datatype Result<+T> = Ok(value: T) | Err(error: FeeError)

  datatype Schedule = Schedule(
    sttBuy: nat,
    sttSell: nat,
    brokerageRate: nat,
    brokerageCap: nat,
    exchangeRate: nat,
    sebiRate: nat,
    stampRate: nat,
    gstPercent: nat)

  const INTRADAY := Schedule(0, 2500, 3000, 2000, 345, 20, 300, 18)
  const DELIVERY := Schedule(10_000, 10_000, 3000, 2000, 345, 20, 300, 18)

  datatype Breakdown = Breakdown(
    brokerage: int, exchange: int, stt: int, gst: int, sebi: int, stamp: int)
  {
    function Total(): int {
      stt + brokerage + exchange + gst + sebi + stamp
    }
  }

  function ScheduleFor(p: Product): Result<Schedule> {
    match p
    case Intraday => Ok(INTRADAY)
    case Delivery => Ok(DELIVERY)
    case _ => Err(UnsupportedProduct(p))
  }

  /** The pre-submit gate: an unlabelled product is priced as intraday, one without
      a rate table is refused. */
  function RequireFeeSchedule(p: Option<Product>): Result<Product> {
    if p.None? then Ok(Intraday)
    else match ScheduleFor(p.value)
      case Ok(_) => Ok(p.value)
      case Err(e) => Err(e)
  }

  function Portion(turnover: int, rate: int): int {
    Q2(turnover * rate, RATE_UNIT)
  }

  function Brokerage(s: Schedule, turnover: int): int {
    Q2(Min(turnover * s.brokerageRate, s.brokerageCap * RATE_UNIT), RATE_UNIT)
  }

  function Gst(s: Schedule, brokerage: int, exchange: int, sebi: int): int {
    Q2((brokerage + exchange + sebi) * s.gstPercent, 100)
  }

  function BreakdownFor(s: Schedule, side: Side, price: int, qty: int): Result<Breakdown> {
    if price <= 0 || qty <= 0 then Err(NonPositiveFill) else
      var turnover := price * qty;
      var brokerage := Brokerage(s, turnover);
      var exchange := Portion(turnover, s.exchangeRate);
      var sebi := Portion(turnover, s.sebiRate);
      Ok(Breakdown(
           brokerage,
           exchange,
           Portion(turnover, if side.Buy? then s.sttBuy else s.sttSell),
           Gst(s, brokerage, exchange, sebi),
           sebi,
           Portion(turnover, s.stampRate)))
  }

  datatype CappedFee = CappedFee(fee: int, accrued: int)

  /** The fee of one fill when `accrued` brokerage was already charged on its order. */
  function CalculateCapped(f: Fill, accrued: int): Result<CappedFee> {
    if f.price <= 0 || f.qty <= 0 then Err(NonPositiveFill)
    else match ScheduleFor(if f.product.Some? then f.product.value else Intraday)
      case Err(e) => Err(e)
      case Ok(s) => Cap(s, f, accrued)
  }

  function Cap(s: Schedule, f: Fill, accrued: int): Result<CappedFee> {
    match BreakdownFor(s, f.side, f.price, f.qty)
    case Err(e) => Err(e)
    case Ok(b) =>
      var capped := Min(b.brokerage, Max(s.brokerageCap - accrued, 0));
      var fee :=
        if capped < b.brokerage then
          capped + b.exchange + b.stt + b.sebi + b.stamp + Gst(s, capped, b.exchange, b.sebi)
        else
          b.Total();
      Ok(CappedFee(fee, accrued + capped))
  }

  // ---- one fill -----------------------------------------------------------

  lemma PortionIsNonNegative(turnover: int, rate: nat)
    requires turnover >= 0
    ensures Portion(turnover, rate) >= 0
  {
    ProductIsNonNegative(turnover, rate);
    RoundedIsNonNegative(turnover * rate, RATE_UNIT, Portion(turnover, rate));
  }

  lemma RoundedIsNonNegative(num: int, den: int, r: int)
    requires den > 0 && num >= 0 && IsRounded(num, den, r)
    ensures r >= 0
  {
    WholeIsRounded(0, den);
    RoundedIsMonotone(0, num, den, 0, r);
  }

  /** Brokerage is the capped exact charge to the nearest paisa, between nothing and the cap. */
  lemma BrokerageBounds(s: Schedule, turnover: int)
    requires turnover >= 0
    ensures IsRounded(Min(turnover * s.brokerageRate, s.brokerageCap * RATE_UNIT), RATE_UNIT,
                      Brokerage(s, turnover))
    ensures 0 <= Brokerage(s, turnover) <= s.brokerageCap
  {
    ProductIsNonNegative(turnover, s.brokerageRate);
    var exact := Min(turnover * s.brokerageRate, s.brokerageCap * RATE_UNIT);
    RoundedStaysWithin(exact, RATE_UNIT, Brokerage(s, turnover), 0, s.brokerageCap);
  }

  lemma GstIsNonNegative(s: Schedule, brokerage: int, exchange: int, sebi: int)
    requires brokerage >= 0 && exchange >= 0 && sebi >= 0
    ensures Gst(s, brokerage, exchange, sebi) >= 0
  {
    ProductIsNonNegative(brokerage + exchange + sebi, s.gstPercent);
    RoundedIsNonNegative((brokerage + exchange + sebi) * s.gstPercent, 100,
                         Gst(s, brokerage, exchange, sebi));
  }

  /** A fill is charged the brokerage its order still has room for, GST is levied
      on exactly that brokerage, and nothing in the fee is negative. */
  lemma CappedFeeIsConsistent(s: Schedule, f: Fill, accrued: int)
    requires f.price > 0 && f.qty > 0 && 0 <= accrued <= s.brokerageCap
    ensures var turnover := f.price * f.qty;
      var charged := Min(Brokerage(s, turnover), s.brokerageCap - accrued);
      var exchange := Portion(turnover, s.exchangeRate);
      var sebi := Portion(turnover, s.sebiRate);
      var r := Cap(s, f, accrued);
      && r.Ok?
      && r.value.accrued == accrued + charged <= s.brokerageCap
      && r.value.fee == charged + exchange + sebi
           + Portion(turnover, if f.side.Buy? then s.sttBuy else s.sttSell)
           + Portion(turnover, s.stampRate)
           + Gst(s, charged, exchange, sebi)
      && 0 <= charged <= r.value.fee
  {
    ProductIsNonNegative(f.price, f.qty);
    var turnover := f.price * f.qty;
    BrokerageBounds(s, turnover);
    PortionIsNonNegative(turnover, s.exchangeRate);
    PortionIsNonNegative(turnover, s.sebiRate);
    PortionIsNonNegative(turnover, s.stampRate);
    PortionIsNonNegative(turnover, if f.side.Buy? then s.sttBuy else s.sttSell);
    GstIsNonNegative(s, Min(Brokerage(s, turnover), s.brokerageCap - accrued),
                     Portion(turnover, s.exchangeRate), Portion(turnover, s.sebiRate));
  }

  /** The gate and the pricing door agree: a fill with a size and a price is
      refused a fee exactly when its product is refused at submit, and otherwise the
      product the gate names prices it alike. */
  lemma GateMeansPriceable(f: Fill, accrued: int)
    requires f.price > 0 && f.qty > 0
    ensures RequireFeeSchedule(f.product).Ok? <==> CalculateCapped(f, accrued).Ok?
    ensures RequireFeeSchedule(f.product).Ok? ==>
      CalculateCapped(f.(product := Some(RequireFeeSchedule(f.product).value)), accrued) == CalculateCapped(f, accrued)
    ensures RequireFeeSchedule(f.product).Err? ==>
      RequireFeeSchedule(f.product) == Err(UnsupportedProduct(f.product.value))
      && f.product.value in {Margin, Mtf, CoverOrder}
  {
  }

  // ---- a whole order ------------------------------------------------------

  /** Brokerage charged so far on an order filled with these turnovers. */
  function Accrual(s: Schedule, turnovers: seq<int>): int {
    if turnovers == [] then 0 else
      var before := Accrual(s, turnovers[..|turnovers| - 1]);
      before + Min(Brokerage(s, turnovers[|turnovers| - 1]), Max(s.brokerageCap - before, 0))
  }

  function Uncapped(s: Schedule, turnovers: seq<int>): int {
    if turnovers == [] then 0
    else Uncapped(s, turnovers[..|turnovers| - 1]) + Brokerage(s, turnovers[|turnovers| - 1])
  }

  function Turnover(turnovers: seq<int>): int {
    if turnovers == [] then 0
    else Turnover(turnovers[..|turnovers| - 1]) + turnovers[|turnovers| - 1]
  }

  ghost predicate NonNegative(turnovers: seq<int>) {
    forall i :: 0 <= i < |turnovers| ==> turnovers[i] >= 0
  }

  /** However an order is filled, its brokerage is the cap or the sum of its
      partials' brokerage, whichever is less. */
  lemma {:induction false} AccrualIsCappedSum(s: Schedule, turnovers: seq<int>)
    requires NonNegative(turnovers)
    ensures Accrual(s, turnovers) == Min(s.brokerageCap, Uncapped(s, turnovers))
    ensures 0 <= Accrual(s, turnovers) <= s.brokerageCap
  {
    if turnovers != [] {
      AccrualIsCappedSum(s, turnovers[..|turnovers| - 1]);
      BrokerageBounds(s, turnovers[|turnovers| - 1]);
    }
  }

  /** The exact charge of the whole order, in parts of a paisa, capped. */
  function ExactCharge(s: Schedule, turnover: int): int {
    Min(turnover * s.brokerageRate, s.brokerageCap * RATE_UNIT)
  }

  lemma {:induction false} UncappedNearExact(s: Schedule, turnovers: seq<int>)
    requires NonNegative(turnovers)
    ensures Turnover(turnovers) >= 0
    ensures var cap := s.brokerageCap * RATE_UNIT;
      2 * Abs(Min(cap, RATE_UNIT * Uncapped(s, turnovers)) - ExactCharge(s, Turnover(turnovers)))
      <= |turnovers| * RATE_UNIT
  {
    if turnovers != [] {
      var init, t := turnovers[..|turnovers| - 1], turnovers[|turnovers| - 1];
      UncappedNearExact(s, init);
      BrokerageBounds(s, t);
      Distributes(Turnover(init), t, s.brokerageRate);
      ProductIsNonNegative(t, s.brokerageRate);
      ProductIsNonNegative(Turnover(init), s.brokerageRate);
    }
  }

  /** Splitting an order into n partials moves its total brokerage by at most
      (n + 1) / 2 paisa from what the unsplit order would have paid. */
  lemma SplittingMovesBrokerageLittle(s: Schedule, turnovers: seq<int>)
    requires NonNegative(turnovers)
    ensures 2 * Abs(Accrual(s, turnovers) - Brokerage(s, Turnover(turnovers))) <= |turnovers| + 1
  {
    AccrualIsCappedSum(s, turnovers);
    UncappedNearExact(s, turnovers);
    BrokerageBounds(s, Turnover(turnovers));
  }
}
