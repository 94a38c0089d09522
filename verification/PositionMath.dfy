/** The one weighted-average and realized-P&L model every execution mode books
    through, and how far its rounding can drift. */
module PositionMath {
  import opened Domain
  import opened Paisa

  /** `qty` is signed; `avg` and `realized` are paisa. */
  datatype Position = Position(qty: int, avg: int, realized: int, strategy: Option<string>)

  function Held(p: Option<Position>): int {
    if p.Some? then p.value.qty else 0
  }

  function Realized(p: Option<Position>): int {
    if p.Some? then p.value.realized else 0
  }

  /** The fill grows the position it meets, or opens one on a flat record. */
  predicate Adds(held: int, signed: int) {
    (held >= 0 && signed > 0) || (held <= 0 && signed < 0)
  }

  function ApplyFill(p: Option<Position>, f: Fill): (r: Position)
    ensures r.qty == Held(p) + Signed(f)
    ensures r.strategy == if p.Some? then p.value.strategy else f.strategy
  {
    match p
    case None => Position(Signed(f), f.price, 0, f.strategy)
    case Some(prev) =>
      var signed := Signed(f);
      var qty := prev.qty + signed;
      if Adds(prev.qty, signed) then
        var cost := prev.avg * Abs(prev.qty) + f.price * Abs(signed);
        Position(qty, if qty != 0 then Q2(cost, Abs(qty)) else f.price, prev.realized, prev.strategy)
      else
        var avg := if qty * prev.qty >= 0 then prev.avg else f.price;
        var closed := Min(Abs(signed), Abs(prev.qty));
        var diff := (f.price - prev.avg) * closed;
        Position(qty, avg, prev.realized + (if prev.qty < 0 then -diff else diff), prev.strategy)
  }

  /** `PositionAccountant.on_fee`: the fee comes off realized P&L. The record is
      rebuilt without its strategy, so a charged position loses its attribution. */
  function DeductFee(p: Position, fee: int): (r: Position) {
    p.(realized := p.realized - fee, strategy := None)
  }

  lemma ProductsOrder(a: int, b: int, n: int)
    requires a <= b && n >= 0
    ensures a * n <= b * n
  {
    ProductIsNonNegative(b - a, n);
    Distributes(b, a, n);
  }

  // ---- drift of one fill --------------------------------------------------

  /** What the account would get back by closing at the average, less what it
      has already been credited with. Cash plus this is conserved up to rounding. */
  function NetCost(p: Position): int {
    p.qty * p.avg - p.realized
  }

  function NetCostOf(p: Option<Position>): int {
    if p.Some? then NetCost(p.value) else 0
  }

  /** Twice the rounding, in paisa, that this fill can introduce: only averaging
      into a position that is already open rounds at all. */
  function RoundingRoom(p: Option<Position>, f: Fill): nat {
    if Held(p) != 0 && Adds(Held(p), Signed(f)) then Abs(Held(p) + Signed(f)) else 0
  }

  ghost function Drift(p: Option<Position>, f: Fill): int {
    NetCost(ApplyFill(p, f)) - NetCostOf(p) + CashFlow(f)
  }

  lemma NegatedProduct(a: int, b: int)
    ensures (-a) * b == -(a * b)
  {
  }

  lemma AddedPosition(p: Position, f: Fill) returns (avg: int)
    requires p.qty != 0 && Adds(p.qty, Signed(f))
    ensures ApplyFill(Some(p), f) == Position(p.qty + Signed(f), avg, p.realized, p.strategy)
    ensures IsRounded(p.avg * Abs(p.qty) + f.price * Abs(Signed(f)), Abs(p.qty + Signed(f)), avg)
  {
    avg := Q2(p.avg * Abs(p.qty) + f.price * Abs(Signed(f)), Abs(p.qty + Signed(f)));
  }

  lemma WeightedSumStaysBetween(avg: int, price: int, m: nat, n: nat, lo: int, hi: int)
    requires lo <= avg <= hi && lo <= price <= hi
    ensures lo * (m + n) <= avg * m + price * n <= hi * (m + n)
  {
    ProductsOrder(lo, avg, m);
    ProductsOrder(lo, price, n);
    ProductsOrder(avg, hi, m);
    ProductsOrder(price, hi, n);
    Distributes(m, n, lo);
    Distributes(m, n, hi);
  }

  /** Scaling in never moves the average outside the old average and the fill price. */
  lemma AverageStaysBetween(p: Position, f: Fill)
    requires Adds(p.qty, Signed(f)) && p.qty != 0
    ensures Min(p.avg, f.price) <= ApplyFill(Some(p), f).avg <= Max(p.avg, f.price)
  {
    var avg := AddedPosition(p, f);
    var m, n := Abs(p.qty), Abs(Signed(f));
    var lo, hi := Min(p.avg, f.price), Max(p.avg, f.price);
    WeightedSumStaysBetween(p.avg, f.price, m, n, lo, hi);
    RoundedStaysWithin(p.avg * m + f.price * n, m + n, avg, lo, hi);
  }

  lemma AddingDrift(p: Position, f: Fill)
    requires p.qty != 0 && Adds(p.qty, Signed(f))
    ensures 2 * Abs(Drift(Some(p), f)) <= Abs(p.qty + Signed(f))
  {
    var avg := AddedPosition(p, f);
    AveragedDrift(p, Position(p.qty + Signed(f), avg, p.realized, p.strategy), f);
  }

  lemma AveragedDrift(p: Position, r: Position, f: Fill)
    requires p.qty != 0 && Adds(p.qty, Signed(f))
    requires r.qty == p.qty + Signed(f) && r.realized == p.realized
    requires IsRounded(p.avg * Abs(p.qty) + f.price * Abs(Signed(f)), Abs(r.qty), r.avg)
    ensures 2 * Abs(NetCost(r) - NetCost(p) + CashFlow(f)) <= Abs(r.qty)
  {
    RoundedDrift(p.qty, Signed(f), p.avg, f.price, r.avg);
    NegatedProduct(Signed(f), f.price);
  }

  lemma RoundedDrift(held: int, signed: int, avg: int, price: int, rounded: int)
    requires held != 0 && Adds(held, signed)
    requires IsRounded(avg * Abs(held) + price * Abs(signed), Abs(held + signed), rounded)
    ensures 2 * Abs((held + signed) * rounded - held * avg - signed * price) <= Abs(held + signed)
  {
    SignedProduct(held, avg);
    SignedProduct(signed, price);
    SignedProduct(held + signed, rounded);
  }

  lemma SignedProduct(n: int, x: int)
    ensures n * x == if n < 0 then -(x * Abs(n)) else x * Abs(n)
  {
    NegatedProduct(-n, x);
  }

  lemma OpeningDrift(p: Position, f: Fill)
    requires p.qty == 0
    ensures Drift(Some(p), f) == 0
  {
    var signed := Signed(f);
    if signed != 0 {
      ExactRounds(f.price, Abs(signed));
      assert ApplyFill(Some(p), f) == Position(signed, f.price, p.realized, p.strategy);
    }
    Distributes(0, signed, f.price);
  }

  lemma SameSideProduct(a: int, b: int)
    requires (a >= 0 && b > 0) || (a <= 0 && b < 0)
    ensures a * b >= 0
  {
    SignedProduct(a, b);
    SignedProduct(b, Abs(a));
    ProductIsNonNegative(Abs(a), Abs(b));
  }

  lemma OppositeSideProduct(a: int, b: int)
    requires (a > 0 && b < 0) || (a < 0 && b > 0)
    ensures a * b < 0
  {
    SignedProduct(a, b);
    SignedProduct(b, Abs(a));
    MultiplesAreApart(0, Abs(a), Abs(b));
  }

  /** A partial or full exit keeps the average and books the shares it closed. */
  lemma ReducedPosition(p: Position, f: Fill)
    requires p.qty != 0 && !Adds(p.qty, Signed(f)) && Abs(Signed(f)) <= Abs(p.qty)
    ensures ApplyFill(Some(p), f)
         == Position(p.qty + Signed(f), p.avg, p.realized + (f.price - p.avg) * -Signed(f), p.strategy)
  {
    SameSideProduct(p.qty + Signed(f), p.qty);
    NegatedProduct(Signed(f), f.price - p.avg);
  }

  /** A flip closes everything and opens the remainder at the fill price. */
  lemma FlippedPosition(p: Position, f: Fill)
    requires p.qty != 0 && !Adds(p.qty, Signed(f)) && Abs(Signed(f)) > Abs(p.qty)
    ensures ApplyFill(Some(p), f)
         == Position(p.qty + Signed(f), f.price, p.realized + (f.price - p.avg) * p.qty, p.strategy)
  {
    OppositeSideProduct(p.qty + Signed(f), p.qty);
    NegatedProduct(p.qty, f.price - p.avg);
  }

  lemma ReducedIdentity(qty: int, signed: int, avg: int, price: int)
    ensures (qty + signed) * avg - (price - avg) * -signed - qty * avg + -signed * price == 0
  {
    Distributes(qty, signed, avg);
    Distributes(price, avg, -signed);
    NegatedProduct(signed, price);
    NegatedProduct(signed, avg);
  }

  lemma FlippedIdentity(qty: int, signed: int, avg: int, price: int)
    ensures (qty + signed) * price - (price - avg) * qty - qty * avg + -signed * price == 0
  {
    Distributes(qty, signed, price);
    Distributes(price, avg, qty);
    NegatedProduct(signed, price);
  }

  lemma ReducingDrift(p: Position, f: Fill)
    requires p.qty != 0 && !Adds(p.qty, Signed(f)) && Abs(Signed(f)) <= Abs(p.qty)
    ensures Drift(Some(p), f) == 0
  {
    ReducedPosition(p, f);
    ReducedIdentity(p.qty, Signed(f), p.avg, f.price);
  }

  lemma FlippingDrift(p: Position, f: Fill)
    requires p.qty != 0 && !Adds(p.qty, Signed(f)) && Abs(Signed(f)) > Abs(p.qty)
    ensures Drift(Some(p), f) == 0
  {
    FlippedPosition(p, f);
    FlippedIdentity(p.qty, Signed(f), p.avg, f.price);
  }

  /** One fill moves cash plus net cost by at most half a paisa per share of the
      position it averages into, and by nothing when it opens, closes or flips. */
  lemma FillDrift(p: Option<Position>, f: Fill)
    ensures 2 * Abs(Drift(p, f)) <= RoundingRoom(p, f)
  {
    match p
    case None =>
      Distributes(0, Signed(f), f.price);
    case Some(prev) =>
      if prev.qty == 0 {
        OpeningDrift(prev, f);
      } else if Adds(prev.qty, Signed(f)) {
        AddingDrift(prev, f);
      } else if Abs(Signed(f)) <= Abs(prev.qty) {
        ReducingDrift(prev, f);
      } else {
        FlippingDrift(prev, f);
      }
  }

  /** The bound is reached: averaging 1 paisa and 2 paisa rounds up by a whole
      paisa over two shares. */
  lemma DriftIsAttained(p: Position, f: Fill)
    requires p.qty == 1 && p.avg == 1
    requires f.side.Buy? && f.qty == 1 && f.price == 2
    ensures 2 * Abs(Drift(Some(p), f)) == RoundingRoom(Some(p), f) == 2
  {
    var avg := AddedPosition(p, f);
    RoundedIsUnique(3, 2, avg, 2);
  }
}
