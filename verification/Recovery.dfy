/** Rebuilding orders, positions and cash by replaying the durable log. */
module Recovery {
  import opened Domain
  import opened PositionMath
  import opened Orders
  import opened Book
  import opened Spine
  import opened Booking
  import opened Submission
  import opened Endings
  import opened Sessions

  /** Quantity of each order, from the first snapshot seen. */
  function Totals(log: seq<Event>): map<string, int> {
    if log == [] then map[]
    else
      var before, o := Totals(log[..|log| - 1]), Carried(log[|log| - 1]);
      if o.Some? && o.value.id !in before then before[o.value.id := o.value.quantity] else before
  }

  /** An empty trade id counts as none. */
  function Identity(f: Fill): Fingerprint {
    if f.fillId.Some? && f.fillId.value != "" then ById(f.fillId.value)
    else ByTerms(f.orderId, f.side, f.qty, f.price)
  }

  datatype Rebuilt = Rebuilt(
    orders: map<string, Order>,
    book: Book,
    seen: set<Fingerprint>,
    cumulative: map<string, int>)

  function Running(r: Rebuilt, id: string): int {
    if id in r.cumulative then r.cumulative[id] else 0
  }

  /** A repeated identity is a re-delivery, unless it has no trade id and its order still has room. */
  predicate Redelivered(r: Rebuilt, totals: map<string, int>, f: Fill) {
    && Identity(f) in r.seen
    && (f.fillId.Some? || f.orderId !in totals || Running(r, f.orderId) + f.qty > totals[f.orderId])
  }

  /** The accounting half of a replayed fill: any non-zero fee is deducted. */
  function RebookFill(b: Book, c: Charge): Book {
    var filled := ApplyFill(PositionIn(b.positions, c.fill.instrument), c.fill);
    Book(b.cash + CashFlow(c.fill) - c.fee, b.fees + c.fee,
         b.positions[c.fill.instrument := if c.fee != 0 then DeductFee(filled, c.fee) else filled])
  }

  /** The order half: an unknown order is stubbed, and a cancelled or rejected one is left alone. */
  function Reproject(orders: map<string, Order>, f: Fill): Transition {
    var current := if f.orderId in orders then orders[f.orderId]
      else Order(f.orderId, f.instrument, f.side, f.qty, f.qty, Filled, Some(f.price), false);
    if current.status in {Cancelled, Rejected} then Moved(current) else OnFilled(current, f.qty)
  }

  /** One event; `None` where the order manager raises and the rebuild stops. */
  function ReplayEvent(r: Rebuilt, totals: map<string, int>, e: Event): Option<Rebuilt> {
    if Carried(e).Some? then Some(r.(orders := r.orders[Carried(e).value.id := Carried(e).value]))
    else if !e.OrderFilled? || Redelivered(r, totals, e.charge.fill) then Some(r)
    else
      var f := e.charge.fill;
      match Reproject(r.orders, f)
      case Illegal(_) => None
      case Moved(o) =>
        Some(Rebuilt(r.orders[f.orderId := o], RebookFill(r.book, e.charge), r.seen + {Identity(f)},
                    r.cumulative[f.orderId := Running(r, f.orderId) + f.qty]))
  }

  function ReplayRun(opening: Book, totals: map<string, int>, log: seq<Event>): Option<Rebuilt> {
    if log == [] then Some(Rebuilt(map[], opening, {}, map[]))
    else
      var before := ReplayRun(opening, totals, log[..|log| - 1]);
      if before.None? then None else ReplayEvent(before.value, totals, log[|log| - 1])
  }

  method OrderTotals(log: seq<Event>) returns (totals: map<string, int>)
    ensures totals == Totals(log)
  {
    totals := map[];
    for i := 0 to |log|
      invariant totals == Totals(log[..i])
    {
      assert log[..i + 1][..i] == log[..i];
      var o := Carried(log[i]);
      if o.Some? && o.value.id !in totals {
        totals := totals[o.value.id := o.value.quantity];
      }
    }
    assert log[..|log|] == log;
  }

  /** One ordered pass over the log. */
  method Rebuild(log: seq<Event>, opening: Book) returns (r: Option<Rebuilt>)
    ensures r == ReplayRun(opening, Totals(log), log)
  {
    var totals := OrderTotals(log);
    var state := Rebuilt(map[], opening, {}, map[]);
    for i := 0 to |log|
      invariant ReplayRun(opening, totals, log[..i]) == Some(state)
    {
      assert log[..i + 1][..i] == log[..i];
      var next := ReplayEvent(state, totals, log[i]);
      if next.None? {
        StopsForGood(opening, totals, log, i + 1);
        return None;
      }
      state := next.value;
    }
    assert log[..|log|] == log;
    return Some(state);
  }

  lemma {:induction false} StopsForGood(opening: Book, totals: map<string, int>, log: seq<Event>, n: nat)
    requires n <= |log| && ReplayRun(opening, totals, log[..n]).None?
    ensures ReplayRun(opening, totals, log).None?
  {
    if n == |log| {
      assert log[..n] == log;
    } else {
      assert log[..|log| - 1][..n] == log[..n];
      StopsForGood(opening, totals, log[..|log| - 1], n);
    }
  }

  // ---- the rebuilt book is the live book ---------------------------------------

  /** Nothing about the charge makes the two doors account for it differently. */
  ghost predicate Plain(c: Charge) {
    c.fee >= 0 && c.fill.fillId != Some("")
  }

  lemma PlainRebooks(b: Book, c: Charge)
    requires Plain(c)
    ensures RebookFill(b, c) == BookFill(b, c)
  {
  }

  lemma FreshFillReplays(r: Rebuilt, totals: map<string, int>, c: Charge)
    requires Plain(c) && FingerprintOf(c.fill) !in r.seen && ReplayEvent(r, totals, OrderFilled(c)).Some?
    ensures var t := ReplayEvent(r, totals, OrderFilled(c)).value;
      t.book == BookFill(r.book, c) && t.seen == r.seen + {FingerprintOf(c.fill)}
  {
    PlainRebooks(r.book, c);
  }

  ghost function Prints(cs: seq<Charge>): set<Fingerprint> {
    set c | c in cs :: FingerprintOf(c.fill)
  }

  lemma DistinctSplits(cs: seq<Charge>, c: Charge)
    requires Distinct(cs + [c])
    ensures Distinct(cs) && FingerprintOf(c.fill) !in Prints(cs)
    ensures Prints(cs + [c]) == Prints(cs) + {FingerprintOf(c.fill)}
  {
    var ds := cs + [c];
    assert ds[|cs|] == c;
    forall i, j | 0 <= i < j < |cs|
      ensures FingerprintOf(cs[i].fill) != FingerprintOf(cs[j].fill)
    {
      assert ds[i] == cs[i] && ds[j] == cs[j];
    }
    forall d | d in cs
      ensures FingerprintOf(d.fill) != FingerprintOf(c.fill)
    {
      var i :| 0 <= i < |cs| && cs[i] == d;
      assert ds[i] == d;
    }
  }

  /** Distinct fills, none with a negative fee, are all replayed as they were booked. */
  lemma {:induction false} DistinctFillsReplay(opening: Book, totals: map<string, int>, log: seq<Event>)
    requires Distinct(FillsIn(log)) && (forall c :: c in FillsIn(log) ==> Plain(c))
    requires ReplayRun(opening, totals, log).Some?
    ensures var r := ReplayRun(opening, totals, log).value;
      r.book == BookRun(opening, FillsIn(log)) && r.seen == Prints(FillsIn(log))
  {
    if log != [] {
      var init, e := log[..|log| - 1], log[|log| - 1];
      assert log == init + [e];
      FillsAppend(init, e);
      if e.OrderFilled? {
        DistinctSplits(FillsIn(init), e.charge);
        DistinctFillsReplay(opening, totals, init);
        FreshFillReplays(ReplayRun(opening, totals, init).value, totals, e.charge);
        BookRunAppends(opening, FillsIn(init), e.charge);
      } else {
        assert FillsIn(init) == FillsIn(log);
        DistinctFillsReplay(opening, totals, init);
      }
    }
  }

  /** After any orderly session that has not outgrown its fingerprint table, a
      rebuild that completes returns the live book. */
  lemma RebuiltBookIsLive(cfg: Config, n: Node, opening: Book)
    requires Orderly(cfg, n, opening) && Tracked(cfg, n.state) && !cfg.owned
    requires |FillsIn(n.state.log)| <= cfg.capacity
    requires forall c :: c in FillsIn(n.state.log) ==> Plain(c)
    ensures var r := ReplayRun(opening, Totals(n.state.log), n.state.log);
      r.Some? ==> r.value.book == n.state.book
  {
    if ReplayRun(opening, Totals(n.state.log), n.state.log).Some? {
      DistinctFillsReplay(opening, Totals(n.state.log), n.state.log);
    }
  }

  // ---- when a rebuild completes ------------------------------------------------------

  /** The `n`th event is a fill the rebuilt order refuses. */
  ghost predicate StopsAt(opening: Book, totals: map<string, int>, log: seq<Event>, n: int) {
    && 0 <= n < |log| && log[n].OrderFilled?
    && var r := ReplayRun(opening, totals, log[..n]);
       r.Some? && !Redelivered(r.value, totals, log[n].charge.fill)
       && Reproject(r.value.orders, log[n].charge.fill).Illegal?
  }

  /** A rebuild completes if and only if no fill of the log is refused by its order. */
  lemma {:induction false} WhenRebuildCompletes(opening: Book, totals: map<string, int>, log: seq<Event>)
    ensures ReplayRun(opening, totals, log).None? <==> exists n :: StopsAt(opening, totals, log, n)
  {
    if log != [] {
      var init := log[..|log| - 1];
      WhenRebuildCompletes(opening, totals, init);
      forall n | 0 <= n < |init|
        ensures StopsAt(opening, totals, init, n) <==> StopsAt(opening, totals, log, n)
      {
        assert init[..n] == log[..n];
      }
      assert StopsAt(opening, totals, log, |init|)
        <==> ReplayRun(opening, totals, init).Some? && ReplayRun(opening, totals, log).None?;
    }
  }

  /** Which is to say: a known order that is PENDING, or a NEW one that the fill would complete. */
  lemma WhenReplayRefuses(orders: map<string, Order>, f: Fill)
    requires f.qty >= 0 && (f.orderId in orders ==> Sound(orders[f.orderId]))
    ensures Reproject(orders, f).Illegal? <==>
      && f.orderId in orders
      && (|| orders[f.orderId].status == Pending
          || (orders[f.orderId].status == New && orders[f.orderId].filled + f.qty >= orders[f.orderId].quantity))
  {
    if f.orderId in orders {
      WhenFillsAreRefused(orders[f.orderId], f.qty);
    }
  }

  lemma ReplayAppends(opening: Book, totals: map<string, int>, log: seq<Event>, e: Event)
    ensures var r := ReplayRun(opening, totals, log);
      ReplayRun(opening, totals, log + [e]) == if r.None? then None else ReplayEvent(r.value, totals, e)
  {
    assert (log + [e])[..|log|] == log;
  }

  /** The log of a submit answered with a fill stops the rebuild at that fill, unless it is
      taken for a re-delivery, if and only if its order could not take it and was neither
      CANCELLED nor REJECTED: the ending in which the live engine booked it and freed the key. */
  lemma WhenAnswerStopsRebuild(opening: Book, totals: map<string, int>, s: Spine, order: Order, key: Option<string>,
                               c: Charge)
    requires c.fill.orderId == order.id && ReplayRun(opening, totals, s.log).Some?
    ensures var q := Stamped(s, order, key).log;
      && ReplayRun(opening, totals, q).Some?
      && (!Redelivered(ReplayRun(opening, totals, q).value, totals, c.fill) ==>
            (ReplayRun(opening, totals, q + [OrderFilled(c)]).None? <==>
               OnFilled(order, c.fill.qty).Illegal? && order.status !in {Cancelled, Rejected}))
  {
    var q := Stamped(s, order, key).log;
    ReplayAppends(opening, totals, s.log, OrderPlaced(order));
    ReplayAppends(opening, totals, s.log + [OrderPlaced(order)], BrokerOrderAcknowledged(order));
    ReplayAppends(opening, totals, q, OrderFilled(c));
  }

  /** A delivery that was logged stops a rebuild that agrees with the live engine on its order,
      and does not take it for a re-delivery, if and only if the live order refused it and
      was neither CANCELLED nor REJECTED. */
  lemma WhenDeliveryStopsRebuild(cfg: Config, s: Spine, t: Spine, f: Fill, fee: Option<int>, got: Inbound,
                                 r: Rebuilt, totals: map<string, int>)
    requires Received(cfg, s, t, f, fee, got) && got in {OmsRefused, Applied}
    requires f.orderId in r.orders <==> f.orderId in s.orders
    requires f.orderId in s.orders ==> r.orders[f.orderId] == s.orders[f.orderId]
    requires !Redelivered(r, totals, f) && f.qty >= 0
    ensures t.log == s.log + [OrderFilled(Charge(f, FeeFor(cfg, s, f, fee).value))]
    ensures ReplayEvent(r, totals, t.log[|s.log|]).None? <==>
      && got.OmsRefused?
      && !(f.orderId in s.orders && s.orders[f.orderId].status in {Cancelled, Rejected})
  {
  }

  /** So the log of a NEW order filled whole, which an engine can write, cannot be rebuilt. */
  lemma NewOrderFilledWholeStopsRebuild() returns (t: Spine)
    ensures FillSettles(PLAIN, Opened(100), t, MakeOrder("1", ONE, New), SHARE, Some("k"), SubmitHash(ONE), true,
                        Raised(FillNotProjected))
    ensures ReplayRun(Opened(100).book, Totals(t.log), t.log).None?
  {
    var opening, order, c := Opened(100).book, MakeOrder("1", ONE, New), Charge(SHARE, 0);
    t := NewOrderFilledWhole();
    var totals, m := Totals(t.log), Intended(Opened(100), ONE);
    var q := Stamped(m, order, Some("k")).log;
    ReplayAppends(opening, totals, [], BrokerOrderRequested(ONE));
    assert [] + [BrokerOrderRequested(ONE)] == m.log;
    assert ReplayRun(opening, totals, m.log).value.seen == {};
    ReplayAppends(opening, totals, m.log, OrderPlaced(order));
    ReplayAppends(opening, totals, m.log + [OrderPlaced(order)], BrokerOrderAcknowledged(order));
    assert ReplayRun(opening, totals, q).value.seen == {};
    WhenAnswerStopsRebuild(opening, totals, m, order, Some("k"), c);
    WhenFillsAreRefused(order, 1);
  }

  /** The order a rebuild projects agrees with the one the live door projects, except exactly
      when a fill lands on a cancelled order, or on a rejected one, which the live door
      never projects onto. */
  lemma LateFillsAreForgotten(orders: map<string, Order>, f: Fill)
    requires f.qty > 0 && (f.orderId in orders ==> Sound(orders[f.orderId]))
    ensures Reproject(orders, f) == Projected(orders, f)
      <==> !(f.orderId in orders && orders[f.orderId].status in {Cancelled, Rejected})
  {
  }

  // ---- what a rebuild takes for a re-delivery ---------------------------------------------

  /** An empty trade id counts as none. */
  lemma WhenIdentitiesAreOne(f: Fill, g: Fill)
    ensures var a := if f.fillId == Some("") then None else f.fillId;
      var b := if g.fillId == Some("") then None else g.fillId;
      Identity(f) == Identity(g) <==>
        if a.Some? || b.Some? then a == b
        else f.orderId == g.orderId && f.side == g.side && f.qty == g.qty && f.price == g.price
  {
  }

  /** The `n`th event is a snapshot of this order. */
  ghost predicate SnapshotAt(log: seq<Event>, n: int, o: Order) {
    && 0 <= n < |log|
    && log[n] in {OrderRejected(o), OrderPlaced(o), BrokerOrderAcknowledged(o), OrderCancelled(o), OrderModified(o)}
  }

  /** An order's total is the quantity of its first snapshot. */
  lemma {:induction false} FirstSnapshotCounts(log: seq<Event>, n: int, o: Order)
    requires SnapshotAt(log, n, o) && forall i, p :: SnapshotAt(log, i, p) && p.id == o.id ==> n <= i
    ensures o.id in Totals(log) && Totals(log)[o.id] == o.quantity
  {
    var init := log[..|log| - 1];
    assert forall i, p :: SnapshotAt(init, i, p) ==> SnapshotAt(log, i, p);
    if n < |init| {
      assert SnapshotAt(init, n, o);
      FirstSnapshotCounts(init, n, o);
    } else {
      if o.id in Totals(init) {
        var i, p := TotalHasSnapshot(init, o.id);
        assert false;
      }
    }
  }

  lemma {:induction false} TotalHasSnapshot(log: seq<Event>, id: string) returns (n: int, o: Order)
    requires id in Totals(log)
    ensures SnapshotAt(log, n, o) && o.id == id
  {
    var init := log[..|log| - 1];
    if id in Totals(init) {
      n, o := TotalHasSnapshot(init, id);
    } else {
      n, o := |init|, Carried(log[|log| - 1]).value;
    }
  }

  /** The fills a rebuild applied. */
  function AppliedRun(opening: Book, totals: map<string, int>, log: seq<Event>): seq<Fill> {
    if log == [] then []
    else
      var init, e := log[..|log| - 1], log[|log| - 1];
      var r := ReplayRun(opening, totals, init);
      AppliedRun(opening, totals, init)
      + (if r.Some? && e.OrderFilled? && !Redelivered(r.value, totals, e.charge.fill) then [e.charge.fill] else [])
  }

  function SharesOf(fs: seq<Fill>, id: string): int {
    if fs == [] then 0
    else SharesOf(fs[..|fs| - 1], id) + (if fs[|fs| - 1].orderId == id then fs[|fs| - 1].qty else 0)
  }

  ghost predicate Occurs(x: Fingerprint, fs: seq<Fill>) {
    exists i :: 0 <= i < |fs| && Identity(fs[i]) == x
  }

  ghost predicate Remembers(r: Rebuilt, fs: seq<Fill>, x: Fingerprint, id: string) {
    (x in r.seen <==> Occurs(x, fs)) && Running(r, id) == SharesOf(fs, id)
  }

  lemma RememberOne(r: Rebuilt, fs: seq<Fill>, t: Rebuilt, f: Fill, x: Fingerprint, id: string)
    requires Remembers(r, fs, x, id) && t.seen == r.seen + {Identity(f)}
    requires t.cumulative == r.cumulative[f.orderId := Running(r, f.orderId) + f.qty]
    ensures Remembers(t, fs + [f], x, id)
  {
    var gs := fs + [f];
    assert gs[..|fs|] == fs && gs[|fs|] == f;
    assert forall i :: 0 <= i < |fs| ==> gs[i] == fs[i];
    if i :| 0 <= i < |fs| && Identity(fs[i]) == x {
      assert Identity(gs[i]) == x;
    }
  }

  /** What the rebuild remembers is what it applied. */
  lemma {:induction false} RebuildRemembers(opening: Book, totals: map<string, int>, log: seq<Event>, x: Fingerprint,
                                            id: string)
    requires ReplayRun(opening, totals, log).Some?
    ensures Remembers(ReplayRun(opening, totals, log).value, AppliedRun(opening, totals, log), x, id)
  {
    if log != [] {
      var init, e := log[..|log| - 1], log[|log| - 1];
      var r, fs := ReplayRun(opening, totals, init).value, AppliedRun(opening, totals, init);
      RebuildRemembers(opening, totals, init, x, id);
      if e.OrderFilled? && !Redelivered(r, totals, e.charge.fill) {
        RememberOne(r, fs, ReplayRun(opening, totals, log).value, e.charge.fill, x, id);
      } else {
        assert AppliedRun(opening, totals, log) == fs;
      }
    }
  }

  /** A fill is skipped exactly when one with its identity was applied and, unless a trade id
      says so, its order is unknown or has no room left for it. */
  lemma WhenFillsAreSkipped(opening: Book, totals: map<string, int>, log: seq<Event>, c: Charge)
    requires ReplayRun(opening, totals, log).Some?
    ensures var fs, f := AppliedRun(opening, totals, log), c.fill;
      Redelivered(ReplayRun(opening, totals, log).value, totals, f) <==>
        && Occurs(Identity(f), fs)
        && (f.fillId.Some? || f.orderId !in totals || SharesOf(fs, f.orderId) + f.qty > totals[f.orderId])
  {
    RebuildRemembers(opening, totals, log, Identity(c.fill), c.fill.orderId);
  }

  // ---- the rebuilt orders are the live orders ------------------------------------------

  /** Each of the five events that carry an order installs it, and changes nothing else. */
  lemma CarriersInstall(opening: Book, totals: map<string, int>, log: seq<Event>, e: Event, o: Order)
    requires e in {OrderRejected(o), OrderPlaced(o), BrokerOrderAcknowledged(o), OrderCancelled(o), OrderModified(o)}
    requires ReplayRun(opening, totals, log).Some?
    ensures var r := ReplayRun(opening, totals, log).value;
      ReplayRun(opening, totals, log + [e]) == Some(r.(orders := r.orders[o.id := o]))
  {
    ReplayAppends(opening, totals, log, e);
  }

  /** A fill that is not a re-delivery leaves its order as the order manager would, a cancelled
      or rejected one as it was, and an unknown one recorded as filled; no other order moves. */
  lemma ReplayedFillAdvances(opening: Book, totals: map<string, int>, log: seq<Event>, c: Charge, id: string)
    requires ReplayRun(opening, totals, log).Some? && ReplayRun(opening, totals, log + [OrderFilled(c)]).Some?
    requires !Redelivered(ReplayRun(opening, totals, log).value, totals, c.fill) && c.fill.qty > 0
    ensures var f := c.fill;
      var before, after := ReplayRun(opening, totals, log).value.orders,
                           ReplayRun(opening, totals, log + [OrderFilled(c)]).value.orders;
      && (id != f.orderId ==> (id in after <==> id in before) && (id in before ==> after[id] == before[id]))
      && f.orderId in after
      && (f.orderId !in before ==>
            after[f.orderId] == Order(f.orderId, f.instrument, f.side, f.qty, f.qty, Filled, Some(f.price), false))
      && (f.orderId in before ==>
            if before[f.orderId].status in {Cancelled, Rejected} then after[f.orderId] == before[f.orderId]
            else OnFilled(before[f.orderId], f.qty) == Moved(after[f.orderId]))
  {
    ReplayAppends(opening, totals, log, OrderFilled(c));
  }

  /** The `n`th event is a fill that moves a cancelled order. */
  ghost predicate LateAt(log: seq<Event>, n: int) {
    && 0 <= n < |log| && log[n].OrderFilled?
    && var orders, f := LoggedOrders(log[..n]), log[n].charge.fill;
       f.orderId in orders && orders[f.orderId].status == Cancelled && OnFilled(orders[f.orderId], f.qty).Moved?
  }

  lemma {:induction false} LoggedAreKeyed(log: seq<Event>)
    ensures Keyed(LoggedOrders(log))
  {
    if log != [] {
      LoggedAreKeyed(log[..|log| - 1]);
    }
  }

  /** Where the two agreed before a fill, they agree after it exactly when it is not late. */
  lemma FillAgrees(orders: map<string, Order>, f: Fill, o: Order)
    requires Keyed(orders) && f.qty > 0 && Reproject(orders, f) == Moved(o)
    ensures orders[f.orderId := o] == AfterEvent(orders, OrderFilled(Charge(f, 0))) <==>
      !(f.orderId in orders && orders[f.orderId].status == Cancelled && OnFilled(orders[f.orderId], f.qty).Moved?)
  {
    var after := AfterEvent(orders, OrderFilled(Charge(f, 0)));
    if f.orderId in orders && orders[f.orderId].status == Cancelled && OnFilled(orders[f.orderId], f.qty).Moved? {
      assert after[f.orderId].status != Cancelled;
    } else if f.orderId in orders {
      assert orders[f.orderId := orders[f.orderId]] == orders;
    }
  }

  /** The rebuild up to the `n`th event has the orders the log tells. */
  ghost predicate AgreesAt(opening: Book, totals: map<string, int>, log: seq<Event>, n: int) {
    0 <= n <= |log| && ReplayRun(opening, totals, log[..n]).Some?
    && ReplayRun(opening, totals, log[..n]).value.orders == LoggedOrders(log[..n])
  }

  /** Fills that are sized, all different, and fit to be replayed. */
  ghost predicate Replayable(log: seq<Event>) {
    Distinct(FillsIn(log)) && forall c :: c in FillsIn(log) ==> Plain(c) && c.fill.qty > 0
  }

  lemma ReplayablePrefix(log: seq<Event>, e: Event)
    requires Replayable(log + [e])
    ensures Replayable(log)
    ensures e.OrderFilled? ==>
      Plain(e.charge) && e.charge.fill.qty > 0 && FingerprintOf(e.charge.fill) !in Prints(FillsIn(log))
  {
    FillsAppend(log, e);
    if e.OrderFilled? {
      DistinctSplits(FillsIn(log), e.charge);
      assert e.charge in FillsIn(log + [e]);
    } else {
      assert FillsIn(log + [e]) == FillsIn(log);
    }
  }

  lemma StepAgrees(opening: Book, totals: map<string, int>, log: seq<Event>, e: Event)
    requires Replayable(log + [e]) && ReplayRun(opening, totals, log + [e]).Some?
    requires ReplayRun(opening, totals, log).Some?
    requires ReplayRun(opening, totals, log).value.orders == LoggedOrders(log)
    ensures ReplayRun(opening, totals, log + [e]).value.orders == LoggedOrders(log + [e]) <==>
      !LateAt(log + [e], |log|)
  {
    ReplayAppends(opening, totals, log, e);
    LoggedAppends(log, e);
    ReplayablePrefix(log, e);
    assert (log + [e])[..|log|] == log;
    if e.OrderFilled? {
      DistinctFillsReplay(opening, totals, log);
      LoggedAreKeyed(log);
      FillAgrees(LoggedOrders(log), e.charge.fill, Reproject(LoggedOrders(log), e.charge.fill).order);
    }
  }

  /** A rebuild that completes has the orders the log tells at every point if and only if no
      logged fill moved a cancelled order. */
  lemma {:induction false} OrdersAgreeExactlyWhen(opening: Book, totals: map<string, int>, log: seq<Event>)
    requires Replayable(log) && ReplayRun(opening, totals, log).Some?
    ensures (forall n :: 0 <= n <= |log| ==> AgreesAt(opening, totals, log, n)) <==> (forall n :: !LateAt(log, n))
  {
    if log == [] {
      assert log[..0] == [];
    } else {
      var init, e := log[..|log| - 1], log[|log| - 1];
      assert log == init + [e] && log[..|log|] == log;
      ReplayablePrefix(init, e);
      OrdersAgreeExactlyWhen(opening, totals, init);
      forall n | 0 <= n <= |init|
        ensures AgreesAt(opening, totals, init, n) <==> AgreesAt(opening, totals, log, n)
        ensures n < |init| ==> (LateAt(init, n) <==> LateAt(log, n))
      {
        assert init[..n] == log[..n];
      }
      assert init[..|init|] == init;
      if AgreesAt(opening, totals, init, |init|) {
        StepAgrees(opening, totals, init, e);
        assert AgreesAt(opening, totals, log, |log|) <==> !LateAt(log, |init|);
      }
      assert (forall n :: 0 <= n <= |log| ==> AgreesAt(opening, totals, log, n)) <==>
        (forall n :: 0 <= n <= |init| ==> AgreesAt(opening, totals, init, n)) && AgreesAt(opening, totals, log, |log|);
      assert (forall n :: !LateAt(log, n)) <==> (forall n :: !LateAt(init, n)) && !LateAt(log, |init|) by {
        assert forall n :: LateAt(log, n) ==> n == |init| || LateAt(init, n);
        assert forall n :: LateAt(init, n) ==> LateAt(log, n);
      }
    }
  }

  /** Over any session in which the store took every write, from a new engine, and whose logged
      fills are sized, all different and never late, a rebuild that completes has the live
      orders. */
  lemma RebuiltOrdersAreLive(cfg: Config, nodes: seq<Node>, steps: seq<Step>, opening: Book)
    requires IsRun(cfg, nodes, steps) && nodes[0].state.orders == map[] && nodes[0].state.log == []
    requires forall i :: 0 <= i < |steps| ==>
      Belongs(Asked(steps[i])) && Projects(steps[i]) && nodes[i + 1].state.refused == nodes[i].state.refused
    requires Replayable(nodes[|steps|].state.log) && forall n :: !LateAt(nodes[|steps|].state.log, n)
    ensures var s := nodes[|steps|].state;
      var r := ReplayRun(opening, Totals(s.log), s.log);
      r.Some? ==> r.value.orders == s.orders
  {
    var s := nodes[|steps|].state;
    RunMirrorsOrders(cfg, nodes, steps, |steps|);
    if ReplayRun(opening, Totals(s.log), s.log).Some? {
      OrdersAgreeExactlyWhen(opening, Totals(s.log), s.log);
      assert AgreesAt(opening, Totals(s.log), s.log, |s.log|) && s.log[..|s.log|] == s.log;
    }
  }
}
