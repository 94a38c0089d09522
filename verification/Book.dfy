/** The account as one value: cash, fees paid and positions by instrument. A
    charged fill moves all three, and a run of them is conserved up to the
    rounding of averages. */
module Book {
  import opened Domain
  import opened Paisa
  import opened PositionMath

  datatype Book = Book(cash: int, fees: int, positions: map<string, Position>)

  /** A fill and the fee recorded with it. */
  datatype Charge = Charge(fill: Fill, fee: int)

  function PositionIn(ps: map<string, Position>, instrument: string): Option<Position> {
    if instrument in ps then Some(ps[instrument]) else None
  }

  /** `ExecutionEngine._book_position`: the fill, then its fee when there is one. */
  function BookPosition(ps: map<string, Position>, c: Charge): map<string, Position> {
    var filled := ApplyFill(PositionIn(ps, c.fill.instrument), c.fill);
    ps[c.fill.instrument := if c.fee > 0 then DeductFee(filled, c.fee) else filled]
  }

  /** What a charged fill leaves of its position: the fee comes off realized P&L, and a fee that
      was charged also costs the position its strategy. No other position moves. */
  lemma ChargedPosition(ps: map<string, Position>, c: Charge, k: string)
    requires c.fee >= 0
    ensures var filled := ApplyFill(PositionIn(ps, c.fill.instrument), c.fill);
      PositionIn(BookPosition(ps, c), k) ==
        if k != c.fill.instrument then PositionIn(ps, k)
        else
          Some(Position(filled.qty, filled.avg, filled.realized - c.fee, if c.fee == 0 then filled.strategy else None))
  {
  }

  /** Position, notional and fee of one charged fill. */
  function BookFill(b: Book, c: Charge): Book {
    Book(b.cash + CashFlow(c.fill) - c.fee, b.fees + c.fee, BookPosition(b.positions, c))
  }

  function BookRun(b: Book, cs: seq<Charge>): Book {
    if cs == [] then b else BookFill(BookRun(b, cs[..|cs| - 1]), cs[|cs| - 1])
  }

  lemma BookRunAppends(b: Book, cs: seq<Charge>, c: Charge)
    ensures BookRun(b, cs + [c]) == BookFill(BookRun(b, cs), c)
  {
    assert (cs + [c])[..|cs|] == cs;
  }

  // ---- sums over the position map -----------------------------------------

  /** Sum of `g` over every position on the book. */
  ghost function SumOver(ps: map<string, Position>, g: Position -> int): int {
    SumKeys(ps.Keys, ps, g)
  }

  ghost function SumKeys(keys: set<string>, ps: map<string, Position>, g: Position -> int): int
    requires keys <= ps.Keys
  {
    if keys == {} then 0 else var k :| k in keys; g(ps[k]) + SumKeys(keys - {k}, ps, g)
  }

  lemma {:induction false} SumTaking(keys: set<string>, ps: map<string, Position>, g: Position -> int, k: string)
    requires k in keys && keys <= ps.Keys
    ensures SumKeys(keys, ps, g) == g(ps[k]) + SumKeys(keys - {k}, ps, g)
  {
    var j :| j in keys && SumKeys(keys, ps, g) == g(ps[j]) + SumKeys(keys - {j}, ps, g);
    if j != k {
      SumTaking(keys - {j}, ps, g, k);
      SumTaking(keys - {k}, ps, g, j);
      assert keys - {j} - {k} == keys - {k} - {j};
    }
  }

  lemma {:induction false} SumDependsOnKeys(
    keys: set<string>, ps: map<string, Position>, qs: map<string, Position>, g: Position -> int)
    requires keys <= ps.Keys && keys <= qs.Keys
    requires forall k :: k in keys ==> ps[k] == qs[k]
    ensures SumKeys(keys, ps, g) == SumKeys(keys, qs, g)
  {
    if keys != {} {
      var k :| k in keys;
      SumTaking(keys, ps, g, k);
      SumTaking(keys, qs, g, k);
      SumDependsOnKeys(keys - {k}, ps, qs, g);
    }
  }

  lemma SumUpdated(ps: map<string, Position>, g: Position -> int, k: string, p: Position)
    ensures SumOver(ps[k := p], g) == SumOver(ps, g) - (if k in ps then g(ps[k]) else 0) + g(p)
  {
    var updated := ps[k := p];
    SumTaking(updated.Keys, updated, g, k);
    SumDependsOnKeys(updated.Keys - {k}, updated, ps, g);
    if k in ps {
      SumTaking(ps.Keys, ps, g, k);
      assert updated.Keys - {k} == ps.Keys - {k};
    } else {
      assert updated.Keys - {k} == ps.Keys;
    }
  }

  ghost function CarryingValue(b: Book): int {
    SumOver(b.positions, (p: Position) => p.qty * p.avg)
  }

  /** Realized P&L before the fees that were deducted from it. */
  ghost function GrossRealized(b: Book): int {
    SumOver(b.positions, (p: Position) => p.realized) + b.fees
  }

  /** What the account is worth at its averages, beyond what it has realized. */
  ghost function Basis(b: Book): int {
    b.cash + b.fees + CarryingValue(b) - GrossRealized(b)
  }

  // ---- the accounting identity --------------------------------------------

  /** Twice the rounding room of a run, in paisa. */
  function RunRoom(b: Book, cs: seq<Charge>): nat {
    if cs == [] then 0 else
      var before := BookRun(b, cs[..|cs| - 1]);
      var c := cs[|cs| - 1];
      RunRoom(b, cs[..|cs| - 1]) + RoundingRoom(PositionIn(before.positions, c.fill.instrument), c.fill)
  }

  ghost predicate FeesNonNegative(cs: seq<Charge>) {
    forall i :: 0 <= i < |cs| ==> cs[i].fee >= 0
  }

  lemma BasisDrift(b: Book, c: Charge)
    requires c.fee >= 0
    ensures Basis(BookFill(b, c)) - Basis(b)
         == Drift(PositionIn(b.positions, c.fill.instrument), c.fill)
  {
    var k := c.fill.instrument;
    var p := BookFill(b, c).positions[k];
    SumUpdated(b.positions, (p: Position) => p.qty * p.avg, k, p);
    SumUpdated(b.positions, (p: Position) => p.realized, k, p);
  }

  /** Cash, fees paid and positions at their averages equal opening cash plus
      gross realized P&L, to within half a paisa per share averaged into, through
      any run of scale-ins, partial exits, flips and shorts over any instruments. */
  lemma {:induction false} AccountingIdentity(b: Book, cs: seq<Charge>)
    requires FeesNonNegative(cs)
    ensures 2 * Abs(Basis(BookRun(b, cs)) - Basis(b)) <= RunRoom(b, cs)
  {
    if cs != [] {
      var before := BookRun(b, cs[..|cs| - 1]);
      var c := cs[|cs| - 1];
      AccountingIdentity(b, cs[..|cs| - 1]);
      BasisDrift(before, c);
      FillDrift(PositionIn(before.positions, c.fill.instrument), c.fill);
    }
  }
}
