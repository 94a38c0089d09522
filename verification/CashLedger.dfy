/** The cash ledger and the position booker it drives: one fill moves money and
    shares together, or is refused whole. */
module CashLedger {
  import opened Domain
  import opened Paisa
  import opened PositionMath
  import opened Book

  /** How `CashLedger.apply_fill` can end. `HalfApplied` is a debit refused after
      the position was already booked. */
  datatype Outcome = Applied | Refused | HalfApplied

  function Notional(f: Fill): int {
    f.qty * f.price
  }

  function Required(c: Charge): int {
    Owed(c.fill.side.Buy?, Notional(c.fill), c.fee)
  }

  /** The floor is on, and the cash does not reach the notional of a buy and its fee, or the
      fee of a sale. */
  predicate Short(floor: bool, cash: int, c: Charge) {
    floor && cash < (match c.fill.side case Buy => c.fill.qty * c.fill.price + c.fee case Sell => c.fee)
  }

  /** The proof asks for exactly that much. */
  lemma WhenShort(floor: bool, cash: int, c: Charge)
    ensures Affords(floor, cash, Required(c)) <==> !Short(floor, cash, c)
  {
  }

  /** Whether the two debits that follow the booking both pass the floor. */
  predicate DebitsHold(floor: bool, cash: int, c: Charge) {
    if c.fill.side.Buy? then
      Affords(floor, cash, Notional(c.fill)) && Affords(floor, cash - Notional(c.fill), c.fee)
    else
      Affords(floor, cash + Notional(c.fill), c.fee)
  }

  /** A charge the engine can produce: nothing in it is negative. */
  ghost predicate Payable(c: Charge) {
    c.fee >= 0 && Notional(c.fill) >= 0
  }

  lemma NotionalIsCashFlow(f: Fill)
    ensures CashFlow(f) == if f.side.Buy? then -Notional(f) else Notional(f)
  {
    NegatedProduct(f.qty, f.price);
  }

  /** The proof covers the debits whatever the balance exactly when a buy's fee,
      or a sale's proceeds, are not negative. */
  lemma ProofCoversDebits(c: Charge)
    ensures (forall cash :: Affords(true, cash, Required(c)) ==> DebitsHold(true, cash, c))
      <==> if c.fill.side.Buy? then c.fee >= 0 else Notional(c.fill) >= 0
  {
    var tight := Required(c);
    assert Affords(true, tight, Required(c));
    assert DebitsHold(true, tight, c) <==>
      if c.fill.side.Buy? then c.fee >= 0 else Notional(c.fill) >= 0;
  }

  class PositionAccountant {
    var positions: map<string, Position>

    constructor ()
      ensures positions == map[]
    {
      positions := map[];
    }

    /** The fill, then its fee when there is one. */
    method Book(c: Charge)
      modifies this
      ensures positions == BookPosition(old(positions), c)
    {
      var k := c.fill.instrument;
      positions := positions[k := ApplyFill(PositionIn(positions, k), c.fill)];
      if c.fee > 0 {
        positions := positions[k := DeductFee(positions[k], c.fee)];
      }
    }
  }

  class CashLedger {
    const floor: bool
    var cash: int
    var fees: int

    constructor (initial: int, floor: bool)
      ensures cash == initial && fees == 0 && this.floor == floor
    {
      cash, fees := initial, 0;
      this.floor := floor;
    }

    /** Proves that `amount` can be debited, without moving anything. */
    method RequireDebit(amount: int) returns (ok: bool)
      ensures ok == Affords(floor, cash, amount)
    {
      ok := !(floor && cash - amount < 0);
    }

    method Debit(amount: int) returns (ok: bool)
      modifies this`cash
      ensures ok == Affords(floor, old(cash), amount)
      ensures cash == if ok then old(cash) - amount else old(cash)
    {
      if floor && cash - amount < 0 {
        return false;
      }
      cash := cash - amount;
      ok := true;
    }

    /** The only way a fill moves money. A refused fill changes nothing; an applied
        one moves position, notional and fee together; a fill is left half applied
        exactly when its proof passed and a debit it should have covered did not. */
    method ApplyFill(c: Charge, book: PositionAccountant) returns (outcome: Outcome)
      modifies this`cash, this`fees, book
      ensures outcome.Refused? <==> Short(floor, old(cash), c)
      ensures outcome.Refused? <==> !Affords(floor, old(cash), Required(c))
      ensures outcome.HalfApplied? <==>
        Affords(floor, old(cash), Required(c)) && !DebitsHold(floor, old(cash), c)
      ensures Payable(c) ==> !outcome.HalfApplied?
      ensures outcome.Refused? ==>
        cash == old(cash) && fees == old(fees) && book.positions == old(book.positions)
      ensures outcome.Applied? ==>
        Book(cash, fees, book.positions) == BookFill(old(Book(cash, fees, book.positions)), c)
      ensures outcome.HalfApplied? ==>
        book.positions == BookPosition(old(book.positions), c) && fees == old(fees)
      ensures outcome.Applied? && floor && old(cash) >= 0 && Payable(c) ==> cash >= 0
    {
      NotionalIsCashFlow(c.fill);
      var proved := RequireDebit(Required(c));
      if !proved {
        return Refused;
      }
      book.Book(c);
      if c.fill.side.Buy? {
        var debited := Debit(Notional(c.fill));
        if !debited {
          return HalfApplied;
        }
      } else {
        cash := cash + Notional(c.fill);
      }
      var charged := Debit(c.fee);
      if !charged {
        return HalfApplied;
      }
      fees := fees + c.fee;
      outcome := Applied;
    }
  }
}
