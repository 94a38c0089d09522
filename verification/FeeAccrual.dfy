/** Per-fill fees with the brokerage cap accrued per order. */
module FeeAccrual {
  import opened Domain
  import opened Paisa
  import opened Fees

  function AccruedOn(accrued: map<string, int>, orderId: string): int {
    if orderId in accrued then accrued[orderId] else 0
  }

  /** The accrual table after pricing one fill; a refused fill leaves it alone. */
  function Accrue(accrued: map<string, int>, f: Fill): map<string, int> {
    match CalculateCapped(f, AccruedOn(accrued, f.orderId))
    case Ok(c) => accrued[f.orderId := c.accrued]
    case Err(_) => accrued
  }

  function AccrueRun(fs: seq<Fill>): map<string, int> {
    if fs == [] then map[] else Accrue(AccrueRun(fs[..|fs| - 1]), fs[|fs| - 1])
  }

  predicate Priced(f: Fill) {
    f.price > 0 && f.qty > 0 && RequireFeeSchedule(f.product).Ok?
  }

  /** Turnovers of the fills of one order that could be priced, in order. */
  function Turnovers(fs: seq<Fill>, orderId: string): seq<int> {
    if fs == [] then []
    else Turnovers(fs[..|fs| - 1], orderId)
         + (if Priced(fs[|fs| - 1]) && fs[|fs| - 1].orderId == orderId
            then [fs[|fs| - 1].price * fs[|fs| - 1].qty] else [])
  }

  lemma {:induction false} TurnoversAreNonNegative(fs: seq<Fill>, orderId: string)
    ensures NonNegative(Turnovers(fs, orderId))
  {
    if fs != [] {
      TurnoversAreNonNegative(fs[..|fs| - 1], orderId);
      if Priced(fs[|fs| - 1]) {
        ProductIsNonNegative(fs[|fs| - 1].price, fs[|fs| - 1].qty);
      }
    }
  }

  lemma PricedFillAccrues(f: Fill, accrued: int)
    requires 0 <= accrued <= INTRADAY.brokerageCap
    ensures CalculateCapped(f, accrued).Ok? <==> Priced(f)
    ensures Priced(f) ==>
      (var room := Max(INTRADAY.brokerageCap - accrued, 0);
       CalculateCapped(f, accrued).value.accrued
       == accrued + Min(Brokerage(INTRADAY, f.price * f.qty), room))
    ensures Priced(f) ==> CalculateCapped(f, accrued).value.fee >= 0
  {
    if f.price > 0 && f.qty > 0 {
      GateMeansPriceable(f, accrued);
      var p := if f.product.Some? then f.product.value else Intraday;
      if ScheduleFor(p).Ok? {
        CappedFeeIsConsistent(ScheduleFor(p).value, f, accrued);
      }
    }
  }

  /** Pricing a fill moves its own order's accrual, by what the cap leaves room for. */
  lemma AccrueMoves(accrued: map<string, int>, f: Fill, orderId: string)
    requires 0 <= AccruedOn(accrued, f.orderId) <= INTRADAY.brokerageCap
    ensures AccruedOn(Accrue(accrued, f), orderId)
      == if Priced(f) && f.orderId == orderId then
           AccruedOn(accrued, orderId)
           + Min(Brokerage(INTRADAY, f.price * f.qty), Max(INTRADAY.brokerageCap - AccruedOn(accrued, orderId), 0))
         else AccruedOn(accrued, orderId)
  {
    PricedFillAccrues(f, AccruedOn(accrued, f.orderId));
  }

  lemma AccrualAppends(turnovers: seq<int>, turnover: int)
    ensures Accrual(INTRADAY, turnovers + [turnover])
      == Accrual(INTRADAY, turnovers)
         + Min(Brokerage(INTRADAY, turnover), Max(INTRADAY.brokerageCap - Accrual(INTRADAY, turnovers), 0))
  {
    assert (turnovers + [turnover])[..|turnovers|] == turnovers;
  }

  /** Interleaved fills of many orders, of either priced product: each order's
      accrual is its own capped brokerage, whatever the others did. */
  lemma {:induction false} AccrualIsPerOrder(fs: seq<Fill>, orderId: string)
    ensures AccruedOn(AccrueRun(fs), orderId) == Accrual(INTRADAY, Turnovers(fs, orderId))
    ensures 0 <= AccruedOn(AccrueRun(fs), orderId) <= INTRADAY.brokerageCap
  {
    TurnoversAreNonNegative(fs, orderId);
    AccrualIsCappedSum(INTRADAY, Turnovers(fs, orderId));
    if fs != [] {
      var init, f := fs[..|fs| - 1], fs[|fs| - 1];
      AccrualIsPerOrder(init, orderId);
      AccrualIsPerOrder(init, f.orderId);
      AccrueMoves(AccrueRun(init), f, orderId);
      AccrualAppends(Turnovers(init, orderId), f.price * f.qty);
      assert Turnovers(init, orderId) + [] == Turnovers(init, orderId);
    }
  }

  /** What a fill costs given the accrual table; nothing without a calculator. */
  function Quote(hasCalculator: bool, accrued: map<string, int>, f: Fill): Result<int> {
    if !hasCalculator then Ok(0)
    else match CalculateCapped(f, AccruedOn(accrued, f.orderId))
      case Ok(c) => Ok(c.fee)
      case Err(e) => Err(e)
  }

  /** No order has accrued more than its cap. */
  ghost predicate WithinCap(accrued: map<string, int>) {
    forall id :: id in accrued ==> 0 <= accrued[id] <= INTRADAY.brokerageCap
  }

  /** Pricing never takes an order past its cap, is refused exactly for a fill no
      schedule covers, and never quotes a negative fee. */
  lemma AccrualStaysWithinCap(accrued: map<string, int>, f: Fill)
    requires WithinCap(accrued)
    ensures WithinCap(Accrue(accrued, f))
    ensures Quote(true, accrued, f).Ok? <==> Priced(f)
    ensures Priced(f) ==> Quote(true, accrued, f).value >= 0
  {
    var so := AccruedOn(accrued, f.orderId);
    PricedFillAccrues(f, so);
    if Priced(f) {
      ProductIsNonNegative(f.price, f.qty);
      BrokerageBounds(INTRADAY, f.price * f.qty);
    }
  }

  // ---- the tariff, in numbers ----------------------------------------------------------

  /** Securities transaction tax, in parts of ten million of turnover: nothing on an intraday
      buy, 0.025% on an intraday sale, 0.1% on either side of a delivery. */
  function TaxRate(product: Option<Product>, side: Side): int {
    if product == Some(Delivery) then 10_000 else if side == Sell then 2_500 else 0
  }

  /** What one fill is charged: brokerage of 0.03% up to Rs 20, as far as the order has room;
      exchange charges of 0.00345%, the regulator's 0.0002% and stamp duty of 0.003%; tax; and
      GST of 18% on brokerage, exchange and regulator. Each is rounded on its own. */
  datatype Bill = Bill(brokerage: int, charged: int, exchange: int, sebi: int, stamp: int, tax: int, gst: int)

  ghost predicate Billed(b: Bill, turnover: int, taxRate: int, accrued: int) {
    && IsRounded(Min(turnover * 3_000, 2_000 * 10_000_000), 10_000_000, b.brokerage)
    && b.charged == Min(b.brokerage, Max(2_000 - accrued, 0))
    && IsRounded(turnover * 345, 10_000_000, b.exchange)
    && IsRounded(turnover * 20, 10_000_000, b.sebi)
    && IsRounded(turnover * 300, 10_000_000, b.stamp)
    && IsRounded(turnover * taxRate, 10_000_000, b.tax)
    && IsRounded((b.charged + b.exchange + b.sebi) * 18, 100, b.gst)
  }

  /** No two bills qualify for one fill. */
  lemma BillIsUnique(b: Bill, c: Bill, turnover: int, taxRate: int, accrued: int)
    requires Billed(b, turnover, taxRate, accrued) && Billed(c, turnover, taxRate, accrued)
    ensures b == c
  {
    RoundedIsUnique(Min(turnover * 3_000, 2_000 * 10_000_000), 10_000_000, b.brokerage, c.brokerage);
    RoundedIsUnique(turnover * 345, 10_000_000, b.exchange, c.exchange);
    RoundedIsUnique(turnover * 20, 10_000_000, b.sebi, c.sebi);
    RoundedIsUnique(turnover * 300, 10_000_000, b.stamp, c.stamp);
    RoundedIsUnique(turnover * taxRate, 10_000_000, b.tax, c.tax);
    RoundedIsUnique((b.charged + b.exchange + b.sebi) * 18, 100, b.gst, c.gst);
  }

  function BillFor(s: Schedule, side: Side, turnover: int, accrued: int): Bill {
    var brokerage := Brokerage(s, turnover);
    var charged := Min(brokerage, Max(s.brokerageCap - accrued, 0));
    var exchange, sebi := Portion(turnover, s.exchangeRate), Portion(turnover, s.sebiRate);
    Bill(brokerage, charged, exchange, sebi, Portion(turnover, s.stampRate),
         Portion(turnover, if side.Buy? then s.sttBuy else s.sttSell), Gst(s, charged, exchange, sebi))
  }

  lemma BillForIsBilled(delivery: bool, side: Side, turnover: int, accrued: int)
    ensures Billed(BillFor(if delivery then DELIVERY else INTRADAY, side, turnover, accrued), turnover,
                   TaxRate(if delivery then Some(Delivery) else None, side), accrued)
  {
  }

  lemma CapSumsTheBill(s: Schedule, f: Fill, accrued: int)
    requires f.price > 0 && f.qty > 0
    ensures var b := BillFor(s, f.side, f.price * f.qty, accrued);
      Cap(s, f, accrued)
      == Ok(CappedFee(b.charged + b.exchange + b.sebi + b.stamp + b.tax + b.gst, accrued + b.charged))
  {
  }

  /** No tariff covers these. */
  predicate Untariffed(product: Option<Product>) {
    product in {Some(Margin), Some(Mtf), Some(CoverOrder)}
  }

  lemma CapIsTheBill(f: Fill, accrued: int) returns (b: Bill)
    requires f.price > 0 && f.qty > 0
    ensures Billed(b, f.price * f.qty, TaxRate(f.product, f.side), accrued)
    ensures Cap(if f.product == Some(Delivery) then DELIVERY else INTRADAY, f, accrued)
      == Ok(CappedFee(b.charged + b.exchange + b.sebi + b.stamp + b.tax + b.gst, accrued + b.charged))
  {
    var delivery := f.product == Some(Delivery);
    var s := if delivery then DELIVERY else INTRADAY;
    b := BillFor(s, f.side, f.price * f.qty, accrued);
    BillForIsBilled(delivery, f.side, f.price * f.qty, accrued);
    CapSumsTheBill(s, f, accrued);
  }

  /** A fill is refused a fee exactly when it has no size, no price, or a product without a
      tariff, and then nothing accrues. */
  lemma WhenFeesAreRefused(accrued: map<string, int>, f: Fill)
    ensures Quote(true, accrued, f).Err? <==> f.price <= 0 || f.qty <= 0 || Untariffed(f.product)
    ensures Quote(true, accrued, f).Err? ==>
      && Accrue(accrued, f) == accrued
      && Quote(true, accrued, f).error ==
           if f.price <= 0 || f.qty <= 0 then NonPositiveFill else UnsupportedProduct(f.product.value)
  {
  }

  /** Otherwise the fee is the sum of the bill, and the accrual grows by the brokerage charged. */
  lemma FeeIsTheBill(f: Fill, accrued: int) returns (b: Bill)
    requires f.price > 0 && f.qty > 0 && !Untariffed(f.product)
    ensures Billed(b, f.price * f.qty, TaxRate(f.product, f.side), accrued)
    ensures CalculateCapped(f, accrued)
      == Ok(CappedFee(b.charged + b.exchange + b.sebi + b.stamp + b.tax + b.gst, accrued + b.charged))
  {
    b := CapIsTheBill(f, accrued);
  }

  /** A quote is the fee on top of what its own order has accrued, and leaves every other
      order's accrual alone. */
  lemma QuoteIsTheFee(accrued: map<string, int>, f: Fill, c: CappedFee)
    requires CalculateCapped(f, if f.orderId in accrued then accrued[f.orderId] else 0) == Ok(c)
    ensures Quote(true, accrued, f) == Ok(c.fee) && Accrue(accrued, f) == accrued[f.orderId := c.accrued]
    ensures Quote(false, accrued, f) == Ok(0)
  {
  }

  /** 100 delivery shares bought at Rs 1000 cost Rs 130.91, and at intraday rates Rs 30.91. */
  lemma DeliveryPaysTax(f: Fill)
    requires f.side == Buy && f.qty == 100 && f.price == 100_000
    ensures f.product == Some(Delivery) ==> Quote(true, map[], f) == Ok(13_091)
    ensures f.product == Some(Intraday) ==> Quote(true, map[], f) == Ok(3_091)
  {
    if f.product in {Some(Delivery), Some(Intraday)} {
      var b := FeeIsTheBill(f, 0);
      var tax := TaxRate(f.product, Buy);
      var bill := Bill(2_000, 2_000, 345, 20, 300, tax, 426);
      assert Billed(bill, 10_000_000, tax, 0);
      BillIsUnique(b, bill, 10_000_000, tax, 0);
      QuoteIsTheFee(map[], f, CappedFee(3_091 + tax, 2_000));
    }
  }

  class FeeProcessor {
    const hasCalculator: bool
    var accrued: map<string, int>
    /** Fills priced as intraday because nothing labelled them. */
    var missingProducts: nat

    constructor (hasCalculator: bool)
      ensures this.hasCalculator == hasCalculator && accrued == map[] && missingProducts == 0
    {
      this.hasCalculator := hasCalculator;
      accrued := map[];
      missingProducts := 0;
    }

    method ComputeFee(f: Fill) returns (r: Result<int>)
      modifies this
      ensures r == Quote(hasCalculator, old(accrued), f)
      ensures accrued == if hasCalculator then Accrue(old(accrued), f) else old(accrued)
      ensures missingProducts == old(missingProducts)
        + (if hasCalculator && f.price > 0 && f.qty > 0 && f.product.None? then 1 else 0)
    {
      if !hasCalculator {
        return Ok(0);
      }
      if f.price > 0 && f.qty > 0 && f.product.None? {
        missingProducts := missingProducts + 1;
      }
      match CalculateCapped(f, AccruedOn(accrued, f.orderId)) {
        case Ok(c) =>
          accrued := accrued[f.orderId := c.accrued];
          r := Ok(c.fee);
        case Err(e) =>
          r := Err(e);
      }
    }
  }
}
