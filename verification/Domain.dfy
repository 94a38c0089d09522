/** Values shared by the whole money path. */
module Domain {

  datatype Option<+T> = None | Some(value: T)

  datatype Side = Buy | Sell

  datatype Product = Intraday | Delivery | Margin | Mtf | CoverOrder

  /** One execution reported by a venue: whole shares at a whole number of paisa.
      `product` and `fillId` are absent when the venue did not supply them. */
  datatype Fill = Fill(
    orderId: string,
    instrument: string,
    side: Side,
    qty: int,
    price: int,
    time: int,
    fillId: Option<string>,
    product: Option<Product>,
    strategy: Option<string>)

  /** Shares bought are positive, shares sold negative. */
  function Signed(f: Fill): int {
    if f.side.Buy? then f.qty else -f.qty
  }

  /** What the fill moves into the account before any fee. */
  function CashFlow(f: Fill): int {
    -Signed(f) * f.price
  }

  /** A fill that reached the book: a size and a price, both positive. */
  ghost predicate Executed(f: Fill) {
    f.qty > 0 && f.price > 0
  }

  /** The buying-power floor lets `amount` go. */
  predicate Affords(floor: bool, cash: int, amount: int) {
    floor ==> cash - amount >= 0
  }

  /** What the affordability proof asks for: the notional of a buy, plus the fee. */
  function Owed(buy: bool, notional: int, fee: int): int {
    (if buy then notional else 0) + fee
  }
}
