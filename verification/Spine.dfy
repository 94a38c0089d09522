/** What the execution engine remembers, as one value, and the relations its
    operations are described by. */
module Spine {
  import opened Domain
  import opened Orders
  import opened PositionMath
  import opened Book

  // ---- idempotency keys ----------------------------------------------------

  /** The operation-scoped fingerprint bound to a key: a submit key can never be
      replayed as a cancel or a modify. */
  datatype Hash = SubmitHash(request: Request) | CancelHash(id: string) | ModifyHash(id: string, request: Request)

  datatype Receipt = Receipt(id: string, status: Status, message: string)

  datatype KeyResult = Placed(receipt: Receipt) | Amended(order: Order)

  /** A key completed after its reservation was taken away carries no hash. */
  datatype Key = Reserved(hash: Hash) | Completed(bound: Option<Hash>, result: KeyResult)

  type Guard = map<string, Key>

  datatype Lookup = Free | Replay(result: KeyResult) | Inflight | Mismatch

  function CheckKey(g: Guard, cid: string, hash: Hash): Lookup {
    if cid !in g then Free
    else match g[cid]
      case Reserved(h) => if h != hash then Mismatch else Inflight
      case Completed(h, result) => if h.Some? && h.value != hash then Mismatch else Replay(result)
  }

  /** `release` is a no-op unless the key is reserved. */
  function Release(g: Guard, cid: Option<string>): Guard {
    if cid.Some? && cid.value in g && g[cid.value].Reserved? then g - {cid.value} else g
  }

  function Record(g: Guard, cid: Option<string>, result: KeyResult): Guard {
    if cid.None? then g
    else
      var bound := if cid.value !in g then None
        else match g[cid.value] case Reserved(h) => Some(h) case Completed(h, _) => h;
      g[cid.value := Completed(bound, result)]
  }

  // ---- the durable log -----------------------------------------------------

  datatype Event =
    | RiskDecision(request: Request, approved: bool)
    | OrderRejected(order: Order)
    | BrokerOrderRequested(request: Request)
    | UnknownSubmission(request: Request)
    | OrderPlaced(order: Order)
    | BrokerOrderAcknowledged(order: Order)
    | OrderFilled(charge: Charge)
    | CancelRequested(id: string)
    | OrderCancelled(order: Order)
    | OrderModified(order: Order)

  /** An event that carries an order snapshot. */
  function Carried(e: Event): Option<Order> {
    match e
    case OrderRejected(o) => Some(o)
    case OrderPlaced(o) => Some(o)
    case BrokerOrderAcknowledged(o) => Some(o)
    case OrderCancelled(o) => Some(o)
    case OrderModified(o) => Some(o)
    case _ => None
  }

  /** The charged fills in a log, in log order. */
  function FillsIn(log: seq<Event>): seq<Charge> {
    if log == [] then []
    else FillsIn(log[..|log| - 1])
         + (if log[|log| - 1].OrderFilled? then [log[|log| - 1].charge] else [])
  }

  lemma FillsAppend(log: seq<Event>, e: Event)
    ensures FillsIn(log + [e]) == FillsIn(log) + (if e.OrderFilled? then [e.charge] else [])
  {
    assert (log + [e])[..|log|] == log;
  }

  // ---- applied-fill fingerprints -------------------------------------------

  /** A venue trade id identifies an execution; without one, the order and the terms do. */
  datatype Fingerprint = ById(id: string) | ByTerms(orderId: string, side: Side, qty: int, price: int)

  function FingerprintOf(f: Fill): Fingerprint {
    if f.fillId.Some? then ById(f.fillId.value) else ByTerms(f.orderId, f.side, f.qty, f.price)
  }

  /** Two fills are taken for one when they carry the same trade id, or when neither carries
      one and order, side, size and price are the same. */
  lemma WhenFillsAreOne(f: Fill, g: Fill)
    ensures FingerprintOf(f) == FingerprintOf(g) <==>
      if f.fillId.Some? || g.fillId.Some? then f.fillId == g.fillId
      else f.orderId == g.orderId && f.side == g.side && f.qty == g.qty && f.price == g.price
  {
  }

  /** Least recently used first. */
  type Lru = seq<Fingerprint>

  function Without(lru: Lru, fp: Fingerprint): (r: Lru)
    ensures fp !in r && |r| <= |lru|
    ensures forall x :: x in r <==> x in lru && x != fp
  {
    if lru == [] then []
    else if lru[0] == fp then Without(lru[1..], fp)
    else [lru[0]] + Without(lru[1..], fp)
  }

  /** `seen` refreshes a fingerprint it finds. */
  function Touch(lru: Lru, fp: Fingerprint): (r: Lru)
    ensures forall x :: x in r <==> x in lru
  {
    if fp in lru then Without(lru, fp) + [fp] else lru
  }

  function Remember(lru: Lru, fp: Fingerprint, max: nat): Lru {
    if fp in lru then Touch(lru, fp)
    else if |lru| < max then lru + [fp]
    else (lru + [fp])[1..]
  }

  /** How many fingerprints were used since this one. */
  function Age(lru: Lru, fp: Fingerprint): nat
    requires fp in lru
  {
    if lru[|lru| - 1] == fp then 0 else 1 + Age(lru[..|lru| - 1], fp)
  }

  lemma {:induction false} WithoutAges(lru: Lru, x: Fingerprint, fp: Fingerprint)
    requires fp in lru && x != fp
    ensures Age(Without(lru, x), fp) <= Age(lru, fp) < |lru|
  {
    var init, last := lru[..|lru| - 1], lru[|lru| - 1];
    assert lru == init + [last];
    WithoutAppends(init, last, x);
    if last != fp {
      WithoutAges(init, x, fp);
      var rest := Without(init, x);
      assert (rest + [last])[..|rest|] == rest;
      assert last == x ==> Without(lru, x) == rest;
    }
  }

  lemma {:induction false} WithoutAppends(lru: Lru, y: Fingerprint, x: Fingerprint)
    ensures Without(lru + [y], x) == Without(lru, x) + (if y == x then [] else [y])
  {
    if lru == [] {
      assert lru + [y] == [y] && [y][1..] == [];
    } else {
      assert (lru + [y])[1..] == lru[1..] + [y];
      WithoutAppends(lru[1..], y, x);
    }
  }

  function RememberAll(lru: Lru, fps: seq<Fingerprint>, max: nat): Lru {
    if fps == [] then lru else Remember(RememberAll(lru, fps[..|fps| - 1], max), fps[|fps| - 1], max)
  }

  lemma RememberAges(lru: Lru, x: Fingerprint, fp: Fingerprint, max: nat)
    requires fp in lru && |lru| <= max && Age(lru, fp) + 1 < max
    ensures fp in Remember(lru, x, max) && |Remember(lru, x, max)| <= max
    ensures Age(Remember(lru, x, max), fp) <= Age(lru, fp) + 1
  {
    var next := Remember(lru, x, max);
    if x == fp {
      WithoutShrinks(lru, fp);
    } else if x in lru {
      WithoutShrinks(lru, x);
      WithoutAges(lru, x, fp);
      var rest := Without(lru, x);
      assert (rest + [x])[..|rest|] == rest;
    } else {
      assert (lru + [x])[..|lru|] == lru;
      if |lru| == max {
        DroppingAges(lru, fp);
        assert next[..|next| - 1] == lru[1..];
      }
    }
  }

  /** Dropping the oldest spares every other. */
  lemma {:induction false} DroppingAges(lru: Lru, fp: Fingerprint)
    requires fp in lru && Age(lru, fp) + 1 < |lru|
    ensures fp in lru[1..] && Age(lru[1..], fp) == Age(lru, fp)
  {
    if lru[|lru| - 1] != fp {
      DroppingAges(lru[..|lru| - 1], fp);
      assert lru[1..][..|lru| - 2] == lru[..|lru| - 1][1..];
    }
  }

  /** A fingerprint just used outlasts any others but as many as the table has room for. */
  lemma {:induction false} RecentlyUsedSurvive(lru: Lru, fp: Fingerprint, fps: seq<Fingerprint>, max: nat)
    requires fp in lru && |lru| <= max && |fps| < max
    ensures var r := RememberAll(Touch(lru, fp), fps, max);
      fp in r && |r| <= max && Age(r, fp) <= |fps|
  {
    if fps == [] {
      var rest := Without(lru, fp);
      WithoutShrinks(lru, fp);
      assert (rest + [fp])[|rest|] == fp;
    } else {
      RecentlyUsedSurvive(lru, fp, fps[..|fps| - 1], max);
      RememberAges(RememberAll(Touch(lru, fp), fps[..|fps| - 1], max), fps[|fps| - 1], fp, max);
    }
  }

  lemma {:induction false} WithoutShrinks(lru: Lru, fp: Fingerprint)
    requires fp in lru
    ensures |Without(lru, fp)| < |lru|
  {
    if lru[0] != fp {
      WithoutShrinks(lru[1..], fp);
    }
  }

  // ---- the whole state -------------------------------------------------------

  /** `refused` counts the writes the store refused, `declined` the cancels and modifies the
      venue refused. */
  datatype Spine = Spine(
    killed: bool,
    guard: Guard,
    side: map<string, string>,
    orders: map<string, Order>,
    log: seq<Event>,
    applied: Lru,
    book: Book,
    accrued: map<string, int>,
    refused: nat,
    declined: nat)

  /** Cancelled where it was open, untouched everywhere else. */
  ghost predicate OrdersCancelled(before: map<string, Order>, after: map<string, Order>) {
    && after.Keys == before.Keys
    && forall id :: id in before ==>
         after[id] == before[id]
         || (before[id].status !in TERMINAL && after[id] == before[id].(status := Cancelled))
  }

  /** A cancelled order was stamped with this key. */
  ghost predicate StampLifted(s: Spine, t: Spine, key: string) {
    exists o :: o in s.side && o !in t.side && s.side[o] == key
  }

  /** A key disappears only by release, and only because an order stamped with it was
      cancelled; and a cancelled order leaves its key no longer reserved. */
  ghost predicate KeysHandedBack(s: Spine, t: Spine) {
    && (forall c :: c in t.guard ==> c in s.guard && t.guard[c] == s.guard[c])
    && (forall c :: c in s.guard && c !in t.guard ==> s.guard[c].Reserved? && StampLifted(s, t, c))
    && (forall o :: o in t.side ==> o in s.side && t.side[o] == s.side[o])
    && (forall o :: o in s.side && o !in t.side ==>
          && o in t.orders && t.orders[o].status == Cancelled
          && (s.side[o] in t.guard ==> !t.guard[s.side[o]].Reserved?))
  }

  /** All that a halt, or any cancel, may do: no fill, position, cash, fee or
      fingerprint moves, and the log only grows, by no fill. */
  ghost predicate OnlyCancels(s: Spine, t: Spine) {
    && t.book == s.book && t.applied == s.applied && t.accrued == s.accrued
    && OrdersCancelled(s.orders, t.orders)
    && KeysHandedBack(s, t)
    && s.log <= t.log && FillsIn(t.log) == FillsIn(s.log)
    && (s.killed ==> t.killed) && s.refused <= t.refused && s.declined <= t.declined
  }

  lemma OnlyCancelsTransitive(s: Spine, t: Spine, u: Spine)
    requires OnlyCancels(s, t) && OnlyCancels(t, u)
    ensures OnlyCancels(s, u)
  {
    forall c | c in s.guard && c !in u.guard
      ensures s.guard[c].Reserved? && StampLifted(s, u, c)
    {
      if c in t.guard {
        var o :| o in t.side && o !in u.side && t.side[o] == c;
        assert o in s.side && s.side[o] == c;
      } else {
        var o :| o in s.side && o !in t.side && s.side[o] == c;
        assert o !in u.side;
      }
    }
  }

  lemma LoggingOnlyCancels(s: Spine, e: Event)
    requires !e.OrderFilled?
    ensures OnlyCancels(s, s.(log := s.log + [e]))
  {
    FillsAppend(s.log, e);
  }

  lemma RefusingOnlyCancels(s: Spine)
    ensures OnlyCancels(s, s.(refused := s.refused + 1))
  {
  }

  lemma DecliningOnlyCancels(s: Spine, t: Spine)
    requires OnlyCancels(s, t)
    ensures OnlyCancels(s, t.(declined := t.declined + 1))
  {
  }

  /** Writing the cancelled form of an order that was open at `s`, after whatever
      cancels happened since. */
  lemma MarkingOnlyCancels(s: Spine, t: Spine, id: string)
    requires OnlyCancels(s, t) && id in s.orders && s.orders[id].status !in TERMINAL
    ensures OnlyCancels(s, t.(orders := t.orders[id := s.orders[id].(status := Cancelled)]))
  {
    var u := t.(orders := t.orders[id := s.orders[id].(status := Cancelled)]);
    assert OrdersCancelled(s.orders, u.orders);
    assert KeysHandedBack(s, u);
  }

  /** Handing back the key a stamped order owns. */
  function Unstamped(s: Spine, id: string): Spine {
    if id in s.side then s.(side := s.side - {id}, guard := Release(s.guard, Some(s.side[id]))) else s
  }

  lemma UnstampingOnlyCancels(s: Spine, id: string)
    requires id in s.orders && s.orders[id].status == Cancelled
    ensures OnlyCancels(s, Unstamped(s, id))
  {
    var t := Unstamped(s, id);
    if id in s.side && s.side[id] in s.guard && s.side[id] !in t.guard {
      assert id !in t.side && StampLifted(s, t, s.side[id]);
    }
  }

  /** The OMS holds `order`, its key is handed back, and beyond that only cancels happened. */
  ghost predicate Settles(s: Spine, t: Spine, order: Order) {
    && OnlyCancels(s.(orders := s.orders[order.id := order]), t)
    && order.id in t.orders && t.orders[order.id] == order
    && order.id !in t.side
    && (s.killed ==> t.orders == s.orders[order.id := order])
  }

  lemma SettlingHolds(s: Spine, t: Spine, order: Order)
    requires order.status == Cancelled
    requires OnlyCancels(s.(orders := s.orders[order.id := order]), t)
    requires s.killed ==> t.orders == s.orders[order.id := order]
    ensures Settles(s, Unstamped(t, order.id), order)
  {
    UnstampingOnlyCancels(t, order.id);
    OnlyCancelsTransitive(s.(orders := s.orders[order.id := order]), t, Unstamped(t, order.id));
  }

  lemma CancelOnlyCancels(s: Spine, t: Spine, u: Spine, id: string)
    requires OnlyCancels(s, t) && id in s.orders && s.orders[id].status !in TERMINAL
    requires OnlyCancels(t.(orders := t.orders[id := s.orders[id].(status := Cancelled)]), u)
    ensures OnlyCancels(s, u)
  {
    MarkingOnlyCancels(s, t, id);
    OnlyCancelsTransitive(s, t.(orders := t.orders[id := s.orders[id].(status := Cancelled)]), u);
  }

  /** The OMS after a fill: a known order advances, an unknown one is recorded as filled. */
  function Projected(orders: map<string, Order>, f: Fill): Transition {
    if f.orderId in orders then OnFilled(orders[f.orderId], f.qty)
    else Moved(Order(f.orderId, f.instrument, f.side, f.qty, f.qty, Filled, Some(f.price), false))
  }

  // ---- the log and the orders --------------------------------------------------------

  /** What an event says about the orders: a snapshot replaces its order, a fill advances it,
      or records it if it is unknown, and one it cannot take changes nothing. */
  function AfterEvent(orders: map<string, Order>, e: Event): map<string, Order> {
    match e
    case OrderRejected(o) => orders[o.id := o]
    case OrderPlaced(o) => orders[o.id := o]
    case BrokerOrderAcknowledged(o) => orders[o.id := o]
    case OrderCancelled(o) => orders[o.id := o]
    case OrderModified(o) => orders[o.id := o]
    case OrderFilled(c) =>
      (match Projected(orders, c.fill) case Moved(o) => orders[o.id := o] case Illegal(_) => orders)
    case _ => orders
  }

  function LoggedOrders(log: seq<Event>): map<string, Order> {
    if log == [] then map[] else AfterEvent(LoggedOrders(log[..|log| - 1]), log[|log| - 1])
  }

  /** The order manager holds what the log says. */
  ghost predicate Mirrored(s: Spine) {
    s.orders == LoggedOrders(s.log)
  }

  /** If the store took every write in between, orders that were what the log said still are. */
  ghost predicate Echoes(s: Spine, t: Spine) {
    s.refused <= t.refused && (s.refused == t.refused && Mirrored(s) ==> Mirrored(t))
  }

  lemma LoggedAppends(log: seq<Event>, e: Event)
    ensures LoggedOrders(log + [e]) == AfterEvent(LoggedOrders(log), e)
  {
    assert (log + [e])[..|log|] == log;
  }

  lemma EchoesTransitive(s: Spine, t: Spine, u: Spine)
    requires Echoes(s, t) && Echoes(t, u)
    ensures Echoes(s, u)
  {
  }

  /** Keys and stamps are no part of it. */
  lemma KeysEcho(s: Spine, t: Spine, u: Spine)
    requires u.orders == t.orders && u.log == t.log && u.refused == t.refused
    ensures Echoes(s, t) ==> Echoes(s, u)
  {
  }

  /** An event that carries no order and no fill says nothing about the orders. */
  lemma AsideEchoes(s: Spine, t: Spine, e: Event)
    requires Carried(e).None? && !e.OrderFilled? && t.orders == s.orders && t.log == s.log + [e]
    requires t.refused == s.refused
    ensures Echoes(s, t)
  {
    LoggedAppends(s.log, e);
  }

  /** An order cached and its snapshot logged. */
  lemma SnapshotEchoes(s: Spine, t: Spine, e: Event)
    requires Carried(e).Some? && t.log == s.log + [e] && t.refused == s.refused
    requires t.orders == s.orders[Carried(e).value.id := Carried(e).value]
    ensures Echoes(s, t)
  {
    LoggedAppends(s.log, e);
  }

  /** An order cached, placed and acknowledged. */
  lemma AckEchoes(s: Spine, t: Spine, order: Order)
    requires t.log == s.log + [OrderPlaced(order)] + [BrokerOrderAcknowledged(order)] && t.refused == s.refused
    requires t.orders == s.orders[order.id := order]
    ensures Echoes(s, t)
  {
    LoggedAppends(s.log, OrderPlaced(order));
    LoggedAppends(s.log + [OrderPlaced(order)], BrokerOrderAcknowledged(order));
  }

  /** A refusal by risk: the order cached, the verdict and then its snapshot logged. */
  lemma VerdictEchoes(s: Spine, t: Spine, e: Event, f: Event)
    requires Carried(e).None? && !e.OrderFilled? && Carried(f).Some?
    requires t.log == s.log + [e] + [f] && t.refused == s.refused
    requires t.orders == s.orders[Carried(f).value.id := Carried(f).value]
    ensures Echoes(s, t)
  {
    LoggedAppends(s.log, e);
    LoggedAppends(s.log + [e], f);
  }

  /** A fill logged and its order advanced, or left alone because it could not take it. */
  lemma FillEchoes(s: Spine, t: Spine, c: Charge)
    requires t.log == s.log + [OrderFilled(c)] && t.refused == s.refused
    requires t.orders == AfterEvent(s.orders, OrderFilled(c))
    ensures Echoes(s, t)
  {
    LoggedAppends(s.log, OrderFilled(c));
  }

  /** Half way through a halt: `todo` is still to be cancelled, `failures` could not be. */
  ghost predicate Halting(s: Spine, t: Spine, todo: set<string>, failures: set<string>) {
    && OnlyCancels(s, t) && t.killed && failures !! todo
    && (forall id :: id in t.orders && id !in failures && id !in todo ==> t.orders[id].status in TERMINAL)
    && (forall id :: id in failures + todo ==>
          id in s.orders && s.orders[id].status !in TERMINAL && t.orders[id] == s.orders[id])
    && (forall id :: id in failures ==> OnCancelled(s.orders[id]).Illegal? || s.declined < t.declined)
  }

  lemma HaltingStep(s: Spine, t: Spine, u: Spine, todo: set<string>, failures: set<string>, id: string,
                    r: Option<Order>)
    requires Halting(s, t, todo, failures) && id in todo
    requires OnlyCancels(t, u)
    requires u.orders == if r.Some? then t.orders[id := r.value] else t.orders
    requires r.Some? ==> r.value.status == Cancelled
    requires r.None? ==> OnCancelled(t.orders[id]).Illegal? || t.declined < u.declined
    ensures Halting(s, u, todo - {id}, if r.Some? then failures else failures + {id})
  {
    OnlyCancelsTransitive(s, t, u);
  }

  /** No stamped order still owns a reserved key: what an acknowledge-only venue guarantees. */
  ghost predicate SideSettled(s: Spine) {
    forall o :: o in s.side ==> s.side[o] in s.guard && s.guard[s.side[o]].Completed?
  }

  lemma CancelsKeepSettled(s: Spine, t: Spine)
    requires OnlyCancels(s, t) && SideSettled(s)
    ensures SideSettled(t) && t.guard == s.guard
  {
    assert forall c :: c in s.guard ==> c in t.guard;
  }

  /** Cancels take a reserved key away if and only if an order they cancelled was
      stamped with it. */
  lemma WhenCancelsTakeAKey(s: Spine, t: Spine, key: string)
    requires OnlyCancels(s, t) && key in s.guard && s.guard[key].Reserved?
    ensures key !in t.guard <==> StampLifted(s, t, key)
  {
  }
}
