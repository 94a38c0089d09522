/** The order record, its status machine, and the order manager that applies
    fills to it. */
module Orders {
  import opened Domain
  import opened Paisa

  datatype Status =
    | New | Pending | Submitted | Ack | PartiallyFilled | Filled | Cancelled | Rejected | Unknown

  datatype Request = Request(
    cid: Option<string>,
    instrument: string,
    side: Side,
    quantity: int,
    price: Option<int>,
    product: Option<Product>,
    bracket: bool)

  /** `bracket` stands for the protective legs being present. */
  datatype Order = Order(
    id: string,
    instrument: string,
    side: Side,
    quantity: int,
    filled: int,
    status: Status,
    price: Option<int>,
    bracket: bool)

  function MakeOrder(id: string, r: Request, status: Status): Order {
    Order(id, r.instrument, r.side, r.quantity, 0, status, r.price, r.bracket)
  }

  // ---- the status machine -------------------------------------------------

  function Legal(s: Status): set<Status> {
    match s
    case New => {Pending, PartiallyFilled, Cancelled, Rejected, Unknown}
    case Pending => {Ack, Cancelled, Rejected, Unknown}
    case Ack => {PartiallyFilled, Filled, Cancelled, Rejected}
    case PartiallyFilled => {Filled, Cancelled, Rejected}
    case Filled => {}
    case Cancelled => {Filled, PartiallyFilled}
    case Rejected => {}
    case Submitted => {PartiallyFilled, Filled, Cancelled}
    case Unknown => {PartiallyFilled, Filled, Cancelled, Rejected}
  }

  const TERMINAL: set<Status> := {Filled, Cancelled, Rejected}

  datatype FsmError = IllegalTransition(from: Status, to: Status) | BadFilledQuantity(filled: int)

  datatype Transition = Moved(order: Order) | Illegal(error: FsmError)

  function TransitionTo(o: Order, status: Status, filled: int): Transition {
    if status !in Legal(o.status) then Illegal(IllegalTransition(o.status, status))
    else if filled < 0 || filled > o.quantity then Illegal(BadFilledQuantity(filled))
    else Moved(o.(status := status, filled := filled))
  }

  /** `OrderManager.on_order_filled`: an overfill is clamped to what the order has
      left, and a fill that does not change the status bypasses the machine. */
  function OnFilled(o: Order, qty: int): Transition {
    var filled := o.filled + Min(qty, o.quantity - o.filled);
    var status := if filled >= o.quantity then Filled else PartiallyFilled;
    if status == o.status then Moved(o.(filled := filled))
    else TransitionTo(o, status, filled)
  }

  function OnCancelled(o: Order): Transition {
    TransitionTo(o, Cancelled, o.filled)
  }

  /** What `ExecutionEngine.modify` may project onto a working order. */
  predicate Modifiable(o: Order, r: Request) {
    && o.status !in TERMINAL
    && r.quantity > o.filled
    && (o.bracket ==> r.bracket)
  }

  function Modified(o: Order, r: Request): Order {
    o.(quantity := r.quantity, price := r.price, bracket := r.bracket)
  }

  /** The request's quantity, price and legs; everything else as it was. */
  predicate NewTerms(before: Order, after: Order, r: Request) {
    && after.quantity == r.quantity && after.price == r.price && after.bracket == r.bracket
    && after.id == before.id && after.instrument == before.instrument && after.side == before.side
    && after.filled == before.filled && after.status == before.status
  }

  // ---- what every operation keeps ------------------------------------------

  ghost predicate Sound(o: Order) {
    && 0 <= o.filled <= o.quantity
    && 0 < o.quantity
    && (o.status == Filled <==> o.filled == o.quantity)
  }

  datatype Op = Fill(qty: nat) | Cancel | Reject | Acknowledge | Modify(request: Request)

  /** One attempt on an order; `None` when the manager refuses it. */
  function Attempt(o: Order, op: Op): Option<Order> {
    var t := match op
      case Fill(qty) => OnFilled(o, qty)
      case Cancel => OnCancelled(o)
      case Reject => TransitionTo(o, Rejected, o.filled)
      case Acknowledge => TransitionTo(o, Ack, o.filled)
      case Modify(r) =>
        if Modifiable(o, r) then Moved(Modified(o, r)) else Illegal(IllegalTransition(o.status, o.status));
    if t.Moved? then Some(t.order) else None
  }

  function Next(o: Order, op: Op): Order {
    var r := Attempt(o, op);
    if r.Some? then r.value else o
  }

  function OmsRun(o: Order, ops: seq<Op>): Order {
    if ops == [] then o else Next(OmsRun(o, ops[..|ops| - 1]), ops[|ops| - 1])
  }

  /** Quantity of the fills the manager accepted. */
  function Accepted(o: Order, ops: seq<Op>): nat {
    if ops == [] then 0 else
      var before, op := OmsRun(o, ops[..|ops| - 1]), ops[|ops| - 1];
      Accepted(o, ops[..|ops| - 1]) + (if op.Fill? && Attempt(before, op).Some? then op.qty else 0)
  }

  /** Over every run of fills, cancels, rejects, acknowledgements and modifies: the
      filled quantity stays within the order and never falls, the order is FILLED
      exactly when it is filled, FILLED and REJECTED are final, a bracket stays one, and
      instrument and side never change. */
  lemma {:induction false} OmsInvariant(o: Order, ops: seq<Op>)
    requires Sound(o)
    ensures Sound(OmsRun(o, ops))
    ensures o.filled <= OmsRun(o, ops).filled
    ensures o.status in {Filled, Rejected} ==> OmsRun(o, ops) == o
    ensures o.bracket ==> OmsRun(o, ops).bracket
    ensures OmsRun(o, ops).id == o.id && OmsRun(o, ops).instrument == o.instrument && OmsRun(o, ops).side == o.side
  {
    if ops != [] {
      OmsInvariant(o, ops[..|ops| - 1]);
    }
  }

  /** An order that was never modified has filled what its accepted fills brought,
      up to its quantity, and no further. */
  lemma {:induction false} FilledIsCappedSum(o: Order, ops: seq<Op>)
    requires Sound(o) && o.filled == 0
    requires forall i :: 0 <= i < |ops| ==> !ops[i].Modify?
    ensures OmsRun(o, ops).quantity == o.quantity
    ensures OmsRun(o, ops).filled == Min(o.quantity, Accepted(o, ops))
  {
    if ops != [] {
      FilledIsCappedSum(o, ops[..|ops| - 1]);
      OmsInvariant(o, ops[..|ops| - 1]);
    }
  }

  /** A sound order refuses a fill exactly when the machine has no edge for it:
      REJECTED and PENDING take none, and NEW takes only a partial one. */
  lemma WhenFillsAreRefused(o: Order, qty: nat)
    requires Sound(o)
    ensures OnFilled(o, qty).Illegal? <==>
      o.status in {Rejected, Pending} || (o.status == New && o.filled + qty >= o.quantity)
  {
  }

  /** The machine read backwards: from where each status can be reached. */
  function Sources(to: Status): set<Status> {
    match to
    case New => {}
    case Pending => {New}
    case Submitted => {}
    case Ack => {Pending}
    case PartiallyFilled => {New, Submitted, Ack, Cancelled, Unknown}
    case Filled => {Submitted, Ack, PartiallyFilled, Cancelled, Unknown}
    case Cancelled => {New, Pending, Submitted, Ack, PartiallyFilled, Unknown}
    case Rejected => {New, Pending, Ack, PartiallyFilled, Unknown}
    case Unknown => {New, Pending}
  }

  /** A sound order moves exactly along these edges, and keeps everything but its status. */
  lemma WhenOrdersMove(o: Order, to: Status)
    requires Sound(o)
    ensures TransitionTo(o, to, o.filled).Moved? <==> o.status in Sources(to)
    ensures TransitionTo(o, to, o.filled).Moved? ==> TransitionTo(o, to, o.filled).order == o.(status := to)
  {
  }

  /** An order as a request describes it, with nothing filled. */
  predicate Describes(o: Order, id: string, r: Request, status: Status) {
    && o.id == id && o.instrument == r.instrument && o.side == r.side && o.quantity == r.quantity
    && o.price == r.price && o.bracket == r.bracket && o.filled == 0 && o.status == status
  }

  /** The orders the kill switch must reach are exactly those that can be cancelled. */
  lemma OpenMeansCancellable(o: Order)
    requires Sound(o)
    ensures o.status !in TERMINAL <==> OnCancelled(o).Moved?
    ensures OnCancelled(o).Moved? ==> OnCancelled(o).order == o.(status := Cancelled)
  {
  }

  // ---- the order manager ----------------------------------------------------

  /** Orders are cached under their own id. */
  ghost predicate Keyed(orders: map<string, Order>) {
    forall id :: id in orders ==> orders[id].id == id
  }

  /** Statuses the machine has no edge out of. */
  const FINAL: set<Status> := {Filled, Rejected}

  /** Every cached order is sound, and those that were final are as they were. */
  ghost predicate Upheld(before: map<string, Order>, after: map<string, Order>) {
    && (forall id :: id in after ==> Sound(after[id]))
    && (forall id :: id in before && before[id].status in FINAL ==> id in after && after[id] == before[id])
  }

  /** A sound order that takes no final one's place. */
  ghost predicate MayEnter(before: map<string, Order>, o: Order) {
    Sound(o) && (o.id in before ==> before[o.id].status !in FINAL)
  }

  lemma EnteringUpholds(before: map<string, Order>, orders: map<string, Order>, o: Order)
    requires Upheld(before, orders) && MayEnter(before, o)
    ensures Upheld(before, orders[o.id := o])
  {
  }

  /** So does a fill of such an order, or of a cached one. */
  lemma FilledUpholds(before: map<string, Order>, orders: map<string, Order>, o: Order, qty: int)
    requires Upheld(before, orders) && qty > 0 && OnFilled(o, qty).Moved?
    requires MayEnter(before, o) || (o.id in orders && orders[o.id] == o)
    ensures Upheld(before, orders[o.id := OnFilled(o, qty).order])
  {
  }

  lemma UpheldTransitive(a: map<string, Order>, b: map<string, Order>, c: map<string, Order>)
    requires Upheld(a, b) && Upheld(b, c)
    ensures Upheld(a, c)
  {
  }

  class OrderManager {
    var orders: map<string, Order>

    constructor ()
      ensures orders == map[]
    {
      orders := map[];
    }

    method Update(o: Order)
      modifies this
      ensures orders == old(orders)[o.id := o]
    {
      orders := orders[o.id := o];
    }

    /** Computes the order after a fill and caches it, or refuses and caches nothing. */
    method OnOrderFilled(o: Order, qty: int) returns (t: Transition)
      modifies this
      ensures t == OnFilled(o, qty)
      ensures orders == if t.Moved? then old(orders)[o.id := t.order] else old(orders)
    {
      var remaining := o.quantity - o.filled;
      var delta := if qty < remaining then qty else remaining;
      var filled := o.filled + delta;
      var status := if filled >= o.quantity then Filled else PartiallyFilled;
      if status == o.status {
        t := Moved(o.(filled := filled));
      } else {
        t := TransitionTo(o, status, filled);
        if t.Illegal? {
          return;
        }
      }
      Update(t.order);
    }

    method OnOrderCancelled(o: Order) returns (t: Transition)
      modifies this
      ensures t == OnCancelled(o)
      ensures orders == if t.Moved? then old(orders)[o.id := t.order] else old(orders)
    {
      t := TransitionTo(o, Cancelled, o.filled);
      if t.Moved? {
        Update(t.order);
      }
    }
  }
}
