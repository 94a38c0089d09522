/** The order spine: admission, idempotency, risk, dispatch, OMS and booking, with
    a store that may refuse any append and a venue that may refuse any cancel. */
module Engine {
  import opened Domain
  import opened Paisa
  import opened PositionMath
  import opened Book
  import opened Orders
  import opened Spine
  import opened Booking
  import opened Submission
  import opened Sessions
  import CL = CashLedger
  import Fees
  import FA = FeeAccrual

  class Engine {
    const cfg: Config
    const ledger: CL.CashLedger
    const accountant: CL.PositionAccountant
    const pricing: FA.FeeProcessor
    const oms: OrderManager

    var killed: bool
    var guard: Guard
    var side: map<string, string>
    var log: seq<Event>
    var applied: Lru
    /** What the venue was sent, and what it answered. */
    var sent: seq<Sent>
    /** The orders when the operation under way began, and whether all it met was proper. */
    ghost var mark: map<string, Order>
    ghost var proper: bool
    /** Writes the store refused, and changes the venue refused. */
    ghost var refused: nat
    ghost var declined: nat

    ghost function View(): Spine
      reads this, ledger, accountant, pricing, oms
    {
      Spine(killed, guard, side, oms.orders, log, applied,
            Book(ledger.cash, ledger.fees, accountant.positions), pricing.accrued, refused, declined)
    }

    constructor (cfg: Config, cash: int)
      requires cfg.capacity > 0
      ensures this.cfg == cfg && Valid()
      ensures fresh(ledger) && fresh(accountant) && fresh(pricing) && fresh(oms)
      ensures sent == []
      ensures View() == Spine(false, map[], map[], map[], [], [], Book(cash, 0, map[]), map[], 0, 0)
    {
      this.cfg := cfg;
      ledger := new CL.CashLedger(cash, cfg.floor);
      accountant := new CL.PositionAccountant();
      pricing := new FA.FeeProcessor(cfg.charges);
      oms := new OrderManager();
      killed, guard, side, log, applied, sent := false, map[], map[], [], [], [];
      mark, proper, refused, declined := map[], false, 0, 0;
    }

    /** Orders are cached under their ids and, where all the operation met is proper,
        sound, with none changed that was final. */
    ghost predicate Kept()
      reads this`mark, this`proper, oms
    {
      Keyed(oms.orders) && (proper ==> Upheld(mark, oms.orders))
    }

    ghost predicate Enters(order: Order)
      reads this`mark, this`proper
    {
      proper ==> MayEnter(mark, order)
    }

    /** All the submit meets is proper, where the operation is. */
    ghost predicate Faces(request: Request, env: Env)
      reads this`mark, this`proper
    {
      proper ==> Proper(mark, request, env)
    }

    ghost predicate Valid()
      reads this, pricing, oms
    {
      && Kept() && cfg.capacity > 0
      && ledger.floor == cfg.floor && pricing.hasCalculator == cfg.charges
      && FA.WithinCap(pricing.accrued)
      && |applied| <= cfg.capacity
    }

    /** A fill that is in the log but not in the book did not reach its order either. */
    predicate Unbooked(out: Outcome) {
      out == Raised(FillUnaffordable) || out == Raised(FillHalfApplied)
    }

    /** The operation under way is this call, begun with these orders: with `Kept`, it has left
        sound orders sound and final ones alone, unless it met something improper. */
    ghost predicate Began(orders: map<string, Order>, call: Call)
      reads this`mark, this`proper
    {
      mark == orders && proper == Clean(orders, call)
    }

    ghost method Begin(call: Call)
      requires Keyed(oms.orders)
      modifies this`mark, this`proper
      ensures Began(oms.orders, call) && Kept()
    {
      mark, proper := oms.orders, Clean(oms.orders, call);
    }

    method Enter(order: Order)
      requires Kept() && Enters(order)
      modifies oms
      ensures Kept() && oms.orders == old(oms.orders)[order.id := order]
    {
      if proper {
        EnteringUpholds(mark, oms.orders, order);
      }
      oms.Update(order);
    }

    // ---- the halt ---------------------------------------------------------

    /** Append to the durable store. A refused write may halt the engine, which
        cancels every open order, and cancelling appends in turn; the recursion
        ends because the switch is set before the first cancel. */
    method Append(e: Event) returns (ok: bool)
      requires Kept()
      modifies this`killed, this`guard, this`side, this`log, this`refused, this`declined, oms
      ensures ok ==> View() == old(View()).(log := old(log) + [e])
      ensures !ok || !e.OrderFilled? ==> OnlyCancels(old(View()), View())
      ensures !ok && (old(killed) || !cfg.durable) ==> View() == old(View()).(refused := old(refused) + 1)
      ensures !ok ==> refused > old(refused)
      ensures !ok && cfg.durable ==> killed
      ensures Carried(e).None? && !e.OrderFilled? ==> Echoes(old(View()), View())
      ensures Kept()
      decreases if killed then 0 else 1, 2
    {
      ok := *;
      if ok {
        if !e.OrderFilled? {
          LoggingOnlyCancels(View(), e);
        }
        log := log + [e];
        if Carried(e).None? && !e.OrderFilled? {
          AsideEchoes(old(View()), View(), e);
        }
      } else {
        Miss();
      }
    }

    /** The store refused a write. */
    method Miss()
      requires Kept()
      modifies this`killed, this`guard, this`side, this`log, this`refused, this`declined, oms
      ensures OnlyCancels(old(View()), View()) && refused > old(refused) && (cfg.durable ==> killed)
      ensures old(killed) || !cfg.durable ==> View() == old(View()).(refused := old(refused) + 1)
      ensures Kept()
      decreases if killed then 0 else 1, 1
    {
      RefusingOnlyCancels(View());
      refused := refused + 1;
      if cfg.durable && !killed {
        ghost var s := View();
        var failures := Trip();
        OnlyCancelsTransitive(old(View()), s, View());
      }
    }

    /** Cache an order, then log its snapshot. */
    method Note(order: Order, e: Event) returns (ok: bool)
      requires Kept() && Enters(order) && Carried(e) == Some(order)
      modifies this`killed, this`guard, this`side, this`log, this`refused, this`declined, oms
      ensures ok ==> View() == old(View()).(orders := old(oms.orders)[order.id := order], log := old(log) + [e])
      ensures OnlyCancels(old(View()).(orders := old(oms.orders)[order.id := order]), View())
      ensures !ok ==> refused > old(refused)
      ensures !ok && old(killed) ==> oms.orders == old(oms.orders)[order.id := order] && guard == old(guard)
      ensures Echoes(old(View()), View()) && Kept()
      decreases if killed then 0 else 1, 3
    {
      Enter(order);
      ok := Append(e);
      if ok {
        SnapshotEchoes(old(View()), View(), e);
      }
    }

    /** Halt: no order stays open unless it is reported as not cancellable, and one is
        reported for each cancel the venue declined. */
    method Trip() returns (failures: set<string>)
      requires Kept()
      modifies this`killed, this`guard, this`side, this`log, this`refused, this`declined, oms
      ensures killed
      ensures OnlyCancels(old(View()), View()) && Echoes(old(View()), View())
      ensures forall id :: id in oms.orders && id !in failures ==> oms.orders[id].status in TERMINAL
      ensures forall id :: id in failures ==>
        id in old(oms.orders) && old(oms.orders)[id].status !in TERMINAL
        && oms.orders[id] == old(oms.orders)[id]
      ensures forall id :: id in failures ==> OnCancelled(old(oms.orders)[id]).Illegal? || declined > old(declined)
      ensures Kept()
      decreases if killed then 0 else 1, if killed then 9 else 0
    {
      killed := true;
      failures := {};
      var todo := set id | id in oms.orders && oms.orders[id].status !in TERMINAL;
      while todo != {}
        invariant Kept() && Halting(old(View()), View(), todo, failures) && Echoes(old(View()), View())
      {
        var id :| id in todo;
        var cancelled := CancelNext(id, old(View()), todo, failures);
        todo := todo - {id};
        if !cancelled {
          failures := failures + {id};
        }
      }
    }

    /** One turn of the halt. */
    method CancelNext(id: string, ghost s: Spine, ghost todo: set<string>, ghost failures: set<string>)
      returns (cancelled: bool)
      requires Kept() && Halting(s, View(), todo, failures) && id in todo && Echoes(s, View())
      modifies this`killed, this`guard, this`side, this`log, this`refused, this`declined, oms
      ensures Kept() && Halting(s, View(), todo - {id}, if cancelled then failures else failures + {id})
      ensures Echoes(s, View())
      decreases if killed then 0 else 1, 8
    {
      var r := CancelOrder(id);
      HaltingStep(s, old(View()), View(), todo, failures, id, r);
      EchoesTransitive(s, old(View()), View());
      return r.Some?;
    }

    /** Cancel one order at the venue, then in the OMS, and hand back the key its
        submit reserved. An unknown or settled order, or a venue refusal, changes
        nothing in the OMS. */
    method CancelOrder(id: string) returns (r: Option<Order>)
      requires Kept()
      modifies this`killed, this`guard, this`side, this`log, this`refused, this`declined, oms
      ensures OnlyCancels(old(View()), View()) && Echoes(old(View()), View())
      ensures r.Some? ==>
        (&& id in old(oms.orders)
         && r.value == old(oms.orders)[id].(status := Cancelled)
         && id in oms.orders && oms.orders[id] == r.value && id !in side)
      ensures old(killed) ==>
        oms.orders == if r.Some? then old(oms.orders)[id := r.value] else old(oms.orders)
      ensures id !in old(oms.orders) || old(oms.orders)[id].status in TERMINAL ==>
        r.None? && View() == old(View())
      ensures NotCancellable(old(oms.orders), id) ==> r.None?
      ensures r.None? ==> NotCancellable(old(oms.orders), id) || declined > old(declined)
      ensures Kept()
      ensures r.Some? && refused == old(refused) ==> log == old(log) + [CancelRequested(id)] + [OrderCancelled(r.value)]
      decreases if killed then 0 else 1, 7
    {
      if id !in oms.orders {
        return None;
      }
      var t := OnCancelled(oms.orders[id]);
      if t.Illegal? {
        return None;
      }
      var took := Pull(id, t.order);
      return if took then Some(t.order) else None;
    }

    /** Log the intent, ask the venue and, if it agrees, settle. */
    method Pull(id: string, order: Order) returns (took: bool)
      requires Kept() && id in oms.orders && OnCancelled(oms.orders[id]) == Moved(order)
      modifies this`killed, this`guard, this`side, this`log, this`refused, this`declined, oms
      ensures OnlyCancels(old(View()), View()) && Echoes(old(View()), View())
      ensures took ==> id in oms.orders && oms.orders[id] == order && id !in side
      ensures !took ==> declined > old(declined)
      ensures old(killed) ==> oms.orders == if took then old(oms.orders)[id := order] else old(oms.orders)
      ensures Kept()
      ensures refused == old(refused) ==>
        log == old(log) + [CancelRequested(id)] + if took then [OrderCancelled(order)] else []
      decreases if killed then 0 else 1, 6
    {
      Announce(id);
      var refuses: bool := *;
      if refuses {
        Decline(old(View()));
        return false;
      }
      Close(id, order, old(View()));
      return true;
    }

    method Announce(id: string)
      requires Kept()
      modifies this`killed, this`guard, this`side, this`log, this`refused, this`declined, oms
      ensures OnlyCancels(old(View()), View()) && Echoes(old(View()), View()) && Kept()
      ensures old(killed) ==> oms.orders == old(oms.orders)
      ensures refused == old(refused) ==> log == old(log) + [CancelRequested(id)]
      decreases if killed then 0 else 1, 5
    {
      var requested := Append(CancelRequested(id));
    }

    /** The venue refused a cancel that began in `s`. */
    ghost method Decline(s: Spine)
      requires OnlyCancels(s, View()) && Echoes(s, View())
      modifies this`declined
      ensures OnlyCancels(s, View()) && Echoes(s, View()) && declined == old(declined) + 1
    {
      ghost var t := View();
      ghost var u := t.(declined := declined + 1);
      DecliningOnlyCancels(s, t);
      KeysEcho(s, t, u);
      declined := declined + 1;
      assert View() == u;
    }

    /** Settle a cancel that began in `s`. */
    method Close(id: string, order: Order, ghost s: Spine)
      requires Kept() && OnlyCancels(s, View()) && Echoes(s, View())
      requires id in s.orders && OnCancelled(s.orders[id]) == Moved(order) && order.id == id && Enters(order)
      modifies this`killed, this`guard, this`side, this`log, this`refused, this`declined, oms
      ensures OnlyCancels(s, View()) && Echoes(s, View())
      ensures id in oms.orders && oms.orders[id] == order && id !in side
      ensures old(killed) ==> oms.orders == old(oms.orders)[id := order]
      ensures Kept()
      ensures refused == old(refused) ==> log == old(log) + [OrderCancelled(order)]
      ensures refused >= old(refused)
      decreases if killed then 0 else 1, 5
    {
      SettleCancel(order);
      CancelOnlyCancels(s, old(View()), View(), id);
    }

    /** The venue took the cancel: flip the order, log it, hand its key back. */
    method SettleCancel(order: Order)
      requires Kept() && order.status.Cancelled? && Enters(order)
      modifies this`killed, this`guard, this`side, this`log, this`refused, this`declined, oms
      ensures Settles(old(View()), View(), order) && Echoes(old(View()), View())
      ensures Kept()
      ensures refused == old(refused) ==> log == old(log) + [OrderCancelled(order)]
      decreases if killed then 0 else 1, 4
    {
      var acked := Note(order, OrderCancelled(order));
      ghost var s := View();
      SettlingHolds(old(View()), s, order);
      Unstamp(order.id);
    }

    method Unstamp(id: string)
      modifies this`guard, this`side
      ensures View() == Unstamped(old(View()), id)
    {
      if id in side {
        guard := Release(guard, Some(side[id]));
        side := side - {id};
      }
    }
  
    // ---- the inbound fill door ----------------------------------------------

    method Price(fill: Fill, recorded: Option<int>) returns (fee: Fees.Result<int>)
      requires Valid()
      modifies pricing
      ensures Valid()
      ensures fee == FeeFor(cfg, old(View()), fill, recorded)
      ensures View() == Quoted(cfg, old(View()), fill, recorded)
      ensures recorded.None? && fee.Ok? ==> fee.value >= 0
    {
      if recorded.Some? {
        return Fees.Ok(recorded.value);
      }
      if cfg.owned {
        return Fees.Ok(0);
      }
      FA.AccrualStaysWithinCap(pricing.accrued, fill);
      fee := pricing.ComputeFee(fill);
    }

    /** Proof, durable write, fingerprint and booking of one fill, in that order. */
    method Land(c: Charge) returns (out: Inbound)
      requires Valid() && FingerprintOf(c.fill) !in applied
      requires proper ==> c.fill.qty > 0
      modifies this`killed, this`guard, this`side, this`log, this`refused, this`declined
      modifies this`applied, ledger, accountant, oms
      ensures Valid()
      ensures out in {Unaffordable, NotDurable, HalfApplied, OmsRefused, Applied}
      ensures out.Unaffordable? <==> !Affordable(cfg, old(View()), c)
      ensures out.Unaffordable? ==> View() == old(View())
      ensures out.NotDurable? ==> OnlyCancels(old(View()), View()) && refused > old(refused)
      ensures out.HalfApplied? ==>
        HalfBooked(cfg, old(View()), View(), c)
        && View() == Landed(cfg, old(View()), c).(book := View().book)
      ensures out.OmsRefused? ==>
        Projected(old(oms.orders), c.fill).Illegal? && View() == Landed(cfg, old(View()), c)
      ensures out.Applied? ==>
        var t := Projected(old(oms.orders), c.fill);
        t.Moved? && View() == Landed(cfg, old(View()), c).(orders := old(oms.orders)[t.order.id := t.order])
    {
      if !cfg.owned {
        var affordable := ledger.RequireDebit(CL.Required(c));
        if !affordable {
          return Unaffordable;
        }
      }
      var stored := Append(OrderFilled(c));
      if !stored {
        return NotDurable;
      }
      out := Absorb(c);
    }

    /** Remember, book and project a fill that is in the log. */
    method Absorb(c: Charge) returns (out: Inbound)
      requires Valid() && Affordable(cfg, View(), c) && (proper ==> c.fill.qty > 0)
      modifies this`applied, ledger, accountant, oms
      ensures Valid() && out in {HalfApplied, OmsRefused, Applied}
      ensures out.HalfApplied? ==>
        HalfBooked(cfg, old(View()), View(), c)
        && View() == Landed(cfg, old(View()), c).(log := old(log), book := View().book)
      ensures out.OmsRefused? ==>
        Projected(old(oms.orders), c.fill).Illegal? && View() == Landed(cfg, old(View()), c).(log := old(log))
      ensures out.Applied? ==>
        var t := Projected(old(oms.orders), c.fill);
        t.Moved? && View() == Landed(cfg, old(View()), c)
          .(log := old(log), orders := old(oms.orders)[t.order.id := t.order])
    {
      JustRemembered(applied, FingerprintOf(c.fill), cfg.capacity);
      applied := Remember(applied, FingerprintOf(c.fill), cfg.capacity);
      if !cfg.owned {
        var outcome := ledger.ApplyFill(c, accountant);
        if outcome.HalfApplied? {
          return HalfApplied;
        }
      }
      var projected := Project(c.fill);
      return if projected then Applied else OmsRefused;
    }

    /** A final order takes no fill, or is left as it was by it. */
    method Advance(order: Order, f: Fill) returns (t: Transition)
      requires Kept() && (proper ==> f.qty > 0)
      requires Enters(order) || (order.id in oms.orders && oms.orders[order.id] == order)
      modifies oms
      ensures Kept() && t == OnFilled(order, f.qty)
      ensures oms.orders == if t.Moved? then old(oms.orders)[order.id := t.order] else old(oms.orders)
    {
      if proper && OnFilled(order, f.qty).Moved? {
        FilledUpholds(mark, oms.orders, order, f.qty);
      }
      t := oms.OnOrderFilled(order, f.qty);
    }

    method Project(f: Fill) returns (ok: bool)
      requires Kept()
      requires proper ==> f.qty > 0
      modifies oms
      ensures Kept()
      ensures ok <==> Projected(old(oms.orders), f).Moved?
      ensures oms.orders == if ok then
        var o := Projected(old(oms.orders), f).order; old(oms.orders)[o.id := o]
        else old(oms.orders)
    {
      if f.orderId in oms.orders {
        var t := Advance(oms.orders[f.orderId], f);
        return t.Moved?;
      }
      var order := Projected(oms.orders, f).order;
      if proper {
        EnteringUpholds(mark, oms.orders, order);
      }
      oms.Update(order);
      return true;
    }

    /** One inbound execution: skipped if already applied, refused whole, or landed whole. */
    method Deliver(fill: Fill, recorded: Option<int>) returns (out: Inbound)
      requires Valid()
      requires proper ==> fill.qty > 0
      modifies this`killed, this`guard, this`side, this`log, this`refused, this`declined
      modifies this`applied, ledger, accountant, pricing, oms
      ensures Valid()
      ensures Received(cfg, old(View()), View(), fill, recorded, out)
    {
      var fp := FingerprintOf(fill);
      if fp in applied {
        TouchKeepsLength(applied, fp);
        applied := Touch(applied, fp);
        return Duplicate;
      }
      if fill.orderId in oms.orders && oms.orders[fill.orderId].status == Rejected {
        return AlreadyRejected;
      }
      var fee := Price(fill, recorded);
      if fee.Err? {
        return Unpriceable;
      }
      out := Land(Charge(fill, fee.value));
    }

    /** An execution from the broker's feed. */
    method ApplyInbound(fill: Fill, recorded: Option<int>) returns (out: Inbound)
      requires Valid()
      modifies this`mark, this`proper
      modifies this`killed, this`guard, this`side, this`log, this`refused, this`declined
      modifies this`applied, ledger, accountant, pricing, oms
      ensures Valid() && Began(old(oms.orders), Receive(fill, recorded))
      ensures Received(cfg, old(View()), View(), fill, recorded, out)
      ensures !out.HalfApplied? ==> Echoes(old(View()), View())
    {
      Begin(Receive(fill, recorded));
      out := Deliver(fill, recorded);
      ReceivingEchoes(cfg, old(View()), View(), fill, recorded, out);
    }

    // ---- submit ----------------------------------------------------------------

    method Reserve(key: Option<string>, hash: Hash) returns (l: Lookup)
      requires Valid()
      modifies this`guard
      ensures Valid()
      ensures l == if key.None? then Free else CheckKey(old(guard), key.value, hash)
      ensures !l.Free? ==> View() == old(View())
      ensures Echoes(old(View()), View())
      ensures l.Free? ==>
        Midway(old(View()), View(), key, hash, key.Some? ==> key.value !in old(side).Values)
    {
      if key.None? {
        ReservingIsMidway(View(), key, hash);
        return Free;
      }
      l := CheckKey(guard, key.value, hash);
      if l.Free? {
        ReservingIsMidway(View(), key, hash);
        guard := guard[key.value := Reserved(hash)];
      }
    }

    /** A write in the middle of a submit, whatever halt it leads to. */
    method Persist(e: Event, key: Option<string>, hash: Hash, ghost s0: Spine, ghost clean: bool) returns (ok: bool)
      requires Valid() && Midway(s0, View(), key, hash, clean) && !e.OrderFilled?
      modifies this`killed, this`guard, this`side, this`log, this`refused, this`declined, oms
      ensures Valid() && Midway(s0, View(), key, hash, clean)
      ensures ok ==> View() == old(View()).(log := old(log) + [e])
      ensures !ok ==> refused > old(refused)
      ensures Carried(e).None? ==> Echoes(old(View()), View())
    {
      ok := Append(e);
      MidwayThroughCancels(s0, old(View()), View(), key, hash, clean);
    }

    /** Hand the key back so that the client may retry. */
    method GiveUp(key: Option<string>, hash: Hash, ghost s0: Spine, ghost clean: bool)
      requires Valid() && Midway(s0, View(), key, hash, clean)
      modifies this`guard
      ensures Valid() && GivenUp(s0, View(), key) && Echoes(old(View()), View())
    {
      ReleasingGivesUp(s0, View(), key, hash, clean);
      guard := Release(guard, key);
      KeysEcho(old(View()), old(View()), View());
    }

    /** Write what must be durable before the submit goes on, or stop there. */
    method Commit(e: Event, why: Why, key: Option<string>, hash: Hash, ghost s0: Spine, ghost clean: bool)
      returns (stop: Option<Outcome>)
      requires Valid() && Midway(s0, View(), key, hash, clean) && Carried(e).None? && !e.OrderFilled?
      modifies this`killed, this`guard, this`side, this`log, this`refused, this`declined, oms
      ensures Valid() && Echoes(old(View()), View())
      ensures stop.None? ==> Midway(s0, View(), key, hash, clean)
      ensures stop.None? ==> View() == old(View()).(log := old(log) + [e])
      ensures stop.Some? ==> stop.value == Raised(why) && GivenUp(s0, View(), key) && s0.refused < refused
    {
      var ok := Persist(e, key, hash, s0, clean);
      if ok {
        return None;
      }
      ghost var s := View();
      GiveUp(key, hash, s0, clean);
      EchoesTransitive(old(View()), s, View());
      return Some(Raised(why));
    }

    /** A terminal refusal: the key this request reserved, if any, goes back first. */
    method RejectIntake(request: Request, id: string, reason: string, key: Option<string>, ghost s0: Spine)
      returns (receipt: Receipt)
      requires Valid() && GivenUp(s0, View().(guard := Release(guard, key)), key)
      requires Enters(MakeOrder(id, request, Rejected))
      modifies this`killed, this`guard, this`side, this`log, this`refused, this`declined, oms
      ensures Valid() && GivenUp(s0, View(), key)
      ensures old(killed) ==> guard == Release(old(guard), key)
      ensures receipt == Receipt(id, Rejected, reason)
      ensures id in oms.orders && oms.orders[id] == MakeOrder(id, request, Rejected)
      ensures Echoes(old(View()), View())
      ensures refused == old(refused) ==> log == old(log) + [OrderRejected(MakeOrder(id, request, Rejected))]
    {
      guard := Release(guard, key);
      ghost var s := View();
      var order := MakeOrder(id, request, Rejected);
      var stored := Note(order, OrderRejected(order));
      CachingSpares(s0, s, s.orders[id := order], key, SubmitHash(request), true);
      GivenUpThroughCancels(s0, s.(orders := s.orders[id := order]), View(), key);
      receipt := Receipt(id, Rejected, reason);
    }

    /** The last thing in the durable log is that this request is about to be sent. */
    ghost predicate Intent(request: Request)
      reads this`log
    {
      log != [] && log[|log| - 1] == BrokerOrderRequested(request)
    }

    /** Risk, then the fee-schedule gate, then the durable dispatch intent. Every
        stop hands the key back, and nothing has reached the venue. */
    method Admit(request: Request, key: Option<string>, hash: Hash, env: Env, ghost s0: Spine, ghost clean: bool)
      returns (stop: Option<Outcome>)
      requires Valid() && Midway(s0, View(), key, hash, clean)
      requires Faces(request, env)
      modifies this`killed, this`guard, this`side, this`log, this`refused, this`declined, oms
      ensures Valid()
      ensures stop.None? ==> Midway(s0, View(), key, hash, clean)
      ensures stop.None? ==> Admitted(request, env) && Intent(request)
      ensures stop.Some? ==> GivenUp(s0, View(), key) && Stops(s0, View(), request, env, stop.value)
      ensures Echoes(old(View()), View())
      ensures stop.None? ==> View() == old(View()).(log := old(log) + Admission(request, env))
    {
      stop := AskRisk(request, key, hash, env, s0, clean);
      if stop.Some? {
        return;
      }
      ghost var s := View();
      stop := Intend(request, key, hash, env, s0, clean);
      EchoesTransitive(old(View()), s, View());
      if stop.None? {
        AdmissionAppends(old(View()), s, View(), request, env);
      }
    }

    method AskRisk(request: Request, key: Option<string>, hash: Hash, env: Env, ghost s0: Spine, ghost clean: bool)
      returns (stop: Option<Outcome>)
      requires Valid() && Midway(s0, View(), key, hash, clean)
      requires Enters(MakeOrder(env.id, request, Rejected))
      modifies this`killed, this`guard, this`side, this`log, this`refused, this`declined, oms
      ensures Valid()
      ensures stop.None? ==> Midway(s0, View(), key, hash, clean) && (env.risk.Absent? || env.risk.Approves?)
      ensures stop.Some? ==> GivenUp(s0, View(), key) && Stops(s0, View(), request, env, stop.value)
      ensures Echoes(old(View()), View())
      ensures stop.None? ==>
        View() == old(View()).(log := old(log) + if env.risk.Approves? then [RiskDecision(request, true)] else [])
    {
      if env.risk.Fails? {
        GiveUp(key, hash, s0, clean);
        return Some(Raised(RiskFailed));
      }
      if env.risk.Denies? {
        var receipt := Deny(request, key, hash, env.id, s0, clean);
        return Some(Refused(receipt));
      }
      if env.risk.Approves? {
        stop := Commit(RiskDecision(request, true), RiskNotDurable, key, hash, s0, clean);
        return;
      }
      return None;
    }

    method Deny(request: Request, key: Option<string>, hash: Hash, id: string, ghost s0: Spine, ghost clean: bool)
      returns (receipt: Receipt)
      requires Valid() && Midway(s0, View(), key, hash, clean)
      requires Enters(MakeOrder(id, request, Rejected))
      modifies this`killed, this`guard, this`side, this`log, this`refused, this`declined, oms
      ensures Valid() && GivenUp(s0, View(), key)
      ensures receipt == Receipt(id, Rejected, "risk_check_failed")
      ensures id in oms.orders && oms.orders[id] == MakeOrder(id, request, Rejected)
      ensures Echoes(old(View()), View())
      ensures refused == old(refused) ==>
        log == old(log) + [RiskDecision(request, false)] + [OrderRejected(MakeOrder(id, request, Rejected))]
    {
      var order := MakeOrder(id, request, Rejected);
      Dismiss(order, key, hash, s0, clean);
      ghost var s := View();
      var logged := LogDenial(request, order);
      GivenUpThroughCancels(s0, s, View(), key);
      if logged {
        VerdictEchoes(old(View()), View(), RiskDecision(request, false), OrderRejected(order));
      }
      receipt := Receipt(id, Rejected, "risk_check_failed");
    }

    /** Cache the rejected order and hand its key back. */
    method Dismiss(order: Order, key: Option<string>, hash: Hash, ghost s0: Spine, ghost clean: bool)
      requires Valid() && Midway(s0, View(), key, hash, clean) && Enters(order)
      modifies this`guard, oms
      ensures Valid() && GivenUp(s0, View(), key)
      ensures View() == old(View()).(orders := old(oms.orders)[order.id := order], guard := guard)
    {
      ReleasingGivesUp(s0, View(), key, hash, clean);
      Enter(order);
      guard := Release(guard, key);
    }

    /** The verdict, then the order's snapshot. */
    method LogDenial(request: Request, order: Order) returns (ok: bool)
      requires Valid()
      modifies this`killed, this`guard, this`side, this`log, this`refused, this`declined, oms
      ensures Valid() && OnlyCancels(old(View()), View())
      ensures ok ==>
        View() == old(View()).(log := old(log) + [RiskDecision(request, false)] + [OrderRejected(order)])
      ensures !ok ==> refused > old(refused)
    {
      var decided := Append(RiskDecision(request, false));
      ghost var s := View();
      var stored := Append(OrderRejected(order));
      OnlyCancelsTransitive(old(View()), s, View());
      ok := decided && stored;
    }

    method Intend(request: Request, key: Option<string>, hash: Hash, env: Env, ghost s0: Spine, ghost clean: bool)
      returns (stop: Option<Outcome>)
      requires Valid() && Midway(s0, View(), key, hash, clean)
      requires Enters(MakeOrder(env.id, request, Rejected)) && (env.risk.Absent? || env.risk.Approves?)
      modifies this`killed, this`guard, this`side, this`log, this`refused, this`declined, oms
      ensures Valid()
      ensures stop.None? ==> Midway(s0, View(), key, hash, clean) && Admitted(request, env) && Intent(request)
      ensures stop.Some? ==> GivenUp(s0, View(), key) && Stops(s0, View(), request, env, stop.value)
      ensures Echoes(old(View()), View())
      ensures stop.None? ==> View() == old(View()).(log := old(log) + [BrokerOrderRequested(request)])
    {
      if Fees.RequireFeeSchedule(request.product).Err? {
        ReleasingGivesUp(s0, View(), key, hash, clean);
        var receipt := RejectIntake(request, env.id, "unsupported_product_type", key, s0);
        return Some(Refused(receipt));
      }
      stop := Commit(BrokerOrderRequested(request), IntentNotDurable, key, hash, s0, clean);
    }

    /** The venue may hold an order nobody can see: file it in the log and the OMS, keep
        the key and halt, which may still cancel it. */
    method FileUnknown(request: Request, key: Option<string>, hash: Hash, id: string, ghost s0: Spine,
                       ghost clean: bool)
      requires Valid() && Midway(s0, View(), key, hash, clean)
      requires Enters(MakeOrder(id, request, Rejected))
      modifies this`killed, this`guard, this`side, this`log, this`refused, this`declined, oms
      ensures Valid() && Midway(s0, View(), key, hash, clean) && killed
      ensures Filed(s0, View(), request, id)
      ensures Echoes(old(View()), View())
    {
      var filed := Persist(UnknownSubmission(request), key, hash, s0, clean);
      assert filed ==> log[|log| - 1] == UnknownSubmission(request);
      var placed := FileOrder(MakeOrder(id, request, Unknown), key, hash, s0, clean);
    }

    /** Cache an order and log it in the middle of a submit or a modify. */
    method File(order: Order, e: Event, key: Option<string>, hash: Hash, ghost s0: Spine, ghost clean: bool)
      returns (ok: bool)
      requires Valid() && Midway(s0, View(), key, hash, clean)
      requires Enters(order) && Carried(e) == Some(order)
      modifies this`killed, this`guard, this`side, this`log, this`refused, this`declined, oms
      ensures Valid() && Midway(s0, View(), key, hash, clean) && Echoes(old(View()), View())
      ensures ok ==> View() == old(View()).(orders := old(oms.orders)[order.id := order], log := old(log) + [e])
      ensures !ok ==> refused > old(refused)
      ensures order.id in oms.orders && oms.orders[order.id] in {order, order.(status := Cancelled)}
      ensures old(log) <= log
    {
      ghost var s := View().(orders := oms.orders[order.id := order]);
      CachingSpares(s0, View(), s.orders, key, hash, clean);
      ok := Note(order, e);
      MidwayThroughCancels(s0, s, View(), key, hash, clean);
    }

    method FileOrder(order: Order, key: Option<string>, hash: Hash, ghost s0: Spine, ghost clean: bool)
      returns (placed: bool)
      requires Valid() && Midway(s0, View(), key, hash, clean)
      requires Enters(order)
      modifies this`killed, this`guard, this`side, this`log, this`refused, this`declined, oms
      ensures Valid() && Midway(s0, View(), key, hash, clean) && killed && old(log) <= log
      ensures order.id in oms.orders && oms.orders[order.id] in {order, order.(status := Cancelled)}
      ensures if placed then OrderPlaced(order) in log else refused > old(refused)
      ensures refused >= old(refused)
      ensures Echoes(old(View()), View())
    {
      placed := File(order, OrderPlaced(order), key, hash, s0, clean);
      assert placed ==> log[|log| - 1] == OrderPlaced(order);
      ghost var s := View();
      var failures := Trip();
      MidwayThroughCancels(s0, s, View(), key, hash, clean);
    }

    /** The venue took the order: two durable writes gate the receipt, and only then
        is the order stamped with the key its cancel may hand back. */
    method Place(order: Order, key: Option<string>, hash: Hash, ghost s0: Spine, ghost clean: bool)
      returns (failed: Option<Why>)
      requires Valid() && Midway(s0, View(), key, hash, clean)
      requires Enters(order)
      modifies this`killed, this`guard, this`side, this`log, this`refused, this`declined, oms
      ensures Valid()
      ensures failed.Some? ==>
        && failed.value in {PlacedNotDurable, AckNotDurable} && Midway(s0, View(), key, hash, clean)
        && refused > s0.refused
      ensures failed.None? ==> View() == Stamped(old(View()), order, key)
      ensures Echoes(old(View()), View())
    {
      var placed := File(order, OrderPlaced(order), key, hash, s0, clean);
      if !placed {
        return Some(PlacedNotDurable);
      }
      var acknowledged := Persist(BrokerOrderAcknowledged(order), key, hash, s0, clean);
      if !acknowledged {
        return Some(AckNotDurable);
      }
      AckEchoes(old(View()), View(), order);
      Stamp(order, key);
      return None;
    }

    method Stamp(order: Order, key: Option<string>)
      requires Valid()
      modifies this`side
      ensures Valid()
      ensures View() == old(View()).(side := if key.Some? then old(side)[order.id := key.value] else old(side))
    {
      if key.Some? {
        side := side[order.id := key.value];
      }
    }

    /** Log, book, project, remember, and only then publish: the engine's own
        subscriber receives the event back and must skip it. */
    method Execute(order: Order, c: Charge) returns (failed: Option<Why>)
      requires Valid()
      requires Enters(order) && (proper ==> c.fill.qty > 0)
      modifies this`killed, this`guard, this`side, this`log, this`refused, this`declined
      modifies this`applied, ledger, accountant, pricing, oms
      ensures Valid()
      ensures Executes(cfg, old(View()), View(), order, c, failed)
      ensures Owned(old(oms.orders), order, c.fill) && Paid(failed) ==> Echoes(old(View()), View())
      ensures failed.None? ==> log == old(log) + [OrderFilled(c)]
    {
      failed := LogAndBook(c);
      if failed.None? {
        failed := Conclude(order, c, old(View()));
      }
      ExecutingEchoes(cfg, old(View()), View(), order, c, failed);
    }

    /** Project a booked fill onto its order and publish it. */
    method Conclude(order: Order, c: Charge, ghost s: Spine) returns (failed: Option<Why>)
      requires Valid() && Affordable(cfg, s, c) && View() == Landed(cfg, s, c).(applied := s.applied)
      requires Enters(order) && (proper ==> c.fill.qty > 0)
      modifies this`killed, this`guard, this`side, this`log, this`refused, this`declined
      modifies this`applied, ledger, accountant, pricing, oms
      ensures Valid() && failed in {None, Some(FillNotProjected)}
      ensures Executes(cfg, s, View(), order, c, failed)
    {
      var t := Advance(order, c.fill);
      if t.Illegal? {
        return Some(FillNotProjected);
      }
      Publish(c);
      return None;
    }

    method LogAndBook(c: Charge) returns (failed: Option<Why>)
      requires Valid()
      modifies this`killed, this`guard, this`side, this`log, this`refused, this`declined
      modifies ledger, accountant, oms
      ensures Valid()
      ensures failed.Some? ==> BookingFails(cfg, old(View()), View(), c, failed.value)
      ensures failed.None? ==>
        Affordable(cfg, old(View()), c) && View() == Landed(cfg, old(View()), c).(applied := old(applied))
    {
      var stored := Append(OrderFilled(c));
      if !stored {
        return Some(FillNotDurable);
      }
      if !cfg.owned {
        var outcome := ledger.ApplyFill(c, accountant);
        if !outcome.Applied? {
          return Some(if outcome.Refused? then FillUnaffordable else FillHalfApplied);
        }
      }
      return None;
    }

    /** Remember the fill, then deliver it to every subscriber, this engine included. */
    method Publish(c: Charge)
      requires Valid()
      requires proper ==> c.fill.qty > 0
      modifies this`killed, this`guard, this`side, this`log, this`refused, this`declined
      modifies this`applied, ledger, accountant, pricing, oms
      ensures Valid()
      ensures View() == old(View()).(applied := Echoed(cfg, old(View()), c.fill))
    {
      JustRemembered(applied, FingerprintOf(c.fill), cfg.capacity);
      applied := Remember(applied, FingerprintOf(c.fill), cfg.capacity);
      var echo := Deliver(c.fill, Some(c.fee));
    }

    /** Settle one charge of a stamped order. The key is completed last, and a fill
        that fails hands it back. */
    method SettleCharge(order: Order, c: Charge, key: Option<string>, hash: Hash, ghost s0: Spine, ghost clean: bool)
      returns (out: Outcome)
      requires Valid() && ReadyToFill(s0, View(), order, key, hash, clean)
      requires pricing.accrued == Quoted(cfg, s0, c.fill, None).accrued
      requires Enters(order) && (proper ==> c.fill.qty > 0)
      modifies this`killed, this`guard, this`side, this`log, this`refused, this`declined
      modifies this`applied, ledger, accountant, pricing, oms
      ensures Valid()
      ensures out.Raised? ==> FillFailed(cfg, s0, View(), order, c, key, out.why)
      ensures !out.Raised? ==>
        out.Receipted? && FilledAtOnce(cfg, s0, View(), order, c, key, hash, clean, out.receipt)
      ensures c.fill.orderId == order.id && !Unbooked(out) ==> Echoes(old(View()), View())
      ensures out.Receipted? ==> log == old(log) + [OrderFilled(c)]
    {
      ghost var s := View();
      ghost var ours := c.fill.orderId == order.id;
      if ours {
        ReadyIsOwned(s0, s, order, c.fill, key, hash, clean);
      }
      var failed := Execute(order, c);
      out := Account(order, c, failed, key, hash, s0, s, clean, ours);
    }

    /** Hand the key of a failed fill back, or complete that of a booked one. */
    method Account(order: Order, c: Charge, failed: Option<Why>, key: Option<string>, hash: Hash,
                   ghost s0: Spine, ghost s: Spine, ghost clean: bool, ghost ours: bool)
      returns (out: Outcome)
      requires Valid() && ReadyToFill(s0, s, order, key, hash, clean) && Executes(cfg, s, View(), order, c, failed)
      requires ours && Paid(failed) ==> Echoes(s, View())
      requires s.accrued == Quoted(cfg, s0, c.fill, None).accrued
      modifies this`guard
      ensures Valid()
      ensures failed.Some? ==> out == Raised(failed.value) && FillFailed(cfg, s0, View(), order, c, key, out.why)
      ensures failed.None? ==>
        out.Receipted? && FilledAtOnce(cfg, s0, View(), order, c, key, hash, clean, out.receipt)
      ensures ours && !Unbooked(out) ==> Echoes(s, View())
    {
      if failed.Some? {
        Abandon(order, c, key, hash, s0, s, clean, failed.value);
        return Raised(failed.value);
      }
      var receipt := Complete(order, c, key, hash, s0, s, clean);
      return Receipted(receipt);
    }

    method Abandon(order: Order, c: Charge, key: Option<string>, hash: Hash, ghost s0: Spine, ghost s: Spine,
                   ghost clean: bool, ghost why: Why)
      requires Valid() && ReadyToFill(s0, s, order, key, hash, clean)
      requires Executes(cfg, s, View(), order, c, Some(why))
      requires s.accrued == Quoted(cfg, s0, c.fill, None).accrued
      modifies this`guard
      ensures Valid() && FillFailed(cfg, s0, View(), order, c, key, why)
      ensures old(Echoes(s, View())) ==> Echoes(s, View())
    {
      FailedExecution(cfg, s0, s, View(), order, c, key, hash, clean, why);
      guard := Release(guard, key);
      KeysEcho(s, old(View()), View());
    }

    method Complete(order: Order, c: Charge, key: Option<string>, hash: Hash, ghost s0: Spine, ghost s: Spine,
                    ghost clean: bool)
      returns (receipt: Receipt)
      requires Valid() && ReadyToFill(s0, s, order, key, hash, clean) && Executes(cfg, s, View(), order, c, None)
      requires s.accrued == Quoted(cfg, s0, c.fill, None).accrued
      modifies this`guard
      ensures Valid() && FilledAtOnce(cfg, s0, View(), order, c, key, hash, clean, receipt)
      ensures old(Echoes(s, View())) ==> Echoes(s, View())
    {
      SuccessfulExecution(cfg, s0, s, View(), order, c, key, hash, clean);
      var o := OnFilled(order, c.fill.qty).order;
      receipt := Receipt(o.id, o.status, "submitted");
      guard := Record(guard, key, Placed(receipt));
      KeysEcho(s, old(View()), View());
    }

    method Settle(order: Order, fill: Fill, key: Option<string>, hash: Hash, ghost s0: Spine, ghost clean: bool)
      returns (out: Outcome)
      requires Valid() && ReadyToFill(s0, View(), order, key, hash, clean) && pricing.accrued == s0.accrued
      requires Enters(order) && (proper ==> fill.qty > 0)
      modifies this`killed, this`guard, this`side, this`log, this`refused, this`declined
      modifies this`applied, ledger, accountant, pricing, oms
      ensures Valid()
      ensures FillSettles(cfg, s0, View(), order, fill, key, hash, clean, out)
      ensures fill.orderId == order.id && !Unbooked(out) ==> Echoes(old(View()), View())
      ensures out.Receipted? ==>
        log == old(log) + [OrderFilled(Charge(fill, FeeFor(cfg, old(View()), fill, None).value))]
    {
      QuotingReadies(cfg, s0, View(), order, fill, key, hash, clean);
      var fee := Price(fill, None);
      if fee.Err? {
        return Raised(FillUnpriceable);
      }
      out := SettleCharge(order, Charge(fill, fee.value), key, hash, s0, clean);
    }

    /** Hand the request to the venue and act on its answer. */
    method Dispatch(request: Request, env: Env, ghost s0: Spine, ghost clean: bool) returns (out: Outcome)
      requires Valid() && Midway(s0, View(), request.cid, SubmitHash(request), clean)
      requires Faces(request, env) && Admitted(request, env) && Intent(request)
      modifies this`killed, this`guard, this`side, this`log, this`refused, this`declined
      modifies this`applied, this`sent, ledger, accountant, pricing, oms
      ensures Valid() && OwnerEnds(cfg, s0, View(), request, env, clean, out)
      ensures sent == old(sent) + [Sent(request, env.answer)] && (MayHold(env.answer) ==> Crossed(out))
      ensures Crossed(out) || out.Refused?
      ensures Belongs(DoSubmit(request, env)) && !Unbooked(out) ==> Echoes(old(View()), View())
      ensures out.Receipted? ==>
        env.answer.Took? && log == old(log) + Trail(cfg, old(View()), env.answer.order, env.answer.fill)
    {
      Send(Sent(request, env.answer));
      if env.answer.Threw? {
        out := ActOnThrow(request, env, s0, clean);
      } else {
        out := Take(request, env, s0, clean);
      }
    }

    method Send(call: Sent)
      requires Valid() && Intent(call.request)
      modifies this`sent
      ensures Valid() && View() == old(View()) && sent == old(sent) + [call]
    {
      sent := sent + [call];
    }

    /** Unknown unless the source proved that nothing left the process. */
    method ActOnThrow(request: Request, env: Env, ghost s0: Spine, ghost clean: bool) returns (out: Outcome)
      requires Valid() && Midway(s0, View(), request.cid, SubmitHash(request), clean) && env.answer.Threw?
      requires Faces(request, env) && Admitted(request, env)
      modifies this`killed, this`guard, this`side, this`log, this`refused, this`declined, oms
      ensures Valid() && OwnerEnds(cfg, s0, View(), request, env, clean, out)
      ensures out == Raised(VenueUnknown) || (out.Refused? && !MayHold(env.answer))
      ensures Echoes(old(View()), View())
    {
      var key, hash := request.cid, SubmitHash(request);
      if MayHold(env.answer) {
        FileUnknown(request, key, hash, env.id, s0, clean);
        return Raised(VenueUnknown);
      }
      ReleasingGivesUp(s0, View(), key, hash, clean);
      var receipt := RejectIntake(request, env.id, env.answer.reason, key, s0);
      return Refused(receipt);
    }

    method Acknowledge(order: Order, key: Option<string>, hash: Hash, ghost s0: Spine, ghost s1: Spine,
                       ghost clean: bool)
      returns (out: Outcome)
      requires Valid() && Midway(s0, s1, key, hash, clean) && View() == Stamped(s1, order, key)
      modifies this`guard
      ensures Valid() && out.Receipted? && AcceptedEnds(cfg, s0, View(), order, None, key, hash, clean, out)
      ensures Echoes(old(View()), View()) && log == s1.log + Trail(cfg, s1, order, None)
    {
      CompletingAcknowledges(s0, s1, order, key, hash, clean);
      var receipt := Receipt(order.id, order.status, "submitted");
      guard := Record(guard, key, Placed(receipt));
      KeysEcho(old(View()), old(View()), View());
      out := Receipted(receipt);
    }

    /** The venue's own account of the order ends the submit. */
    method Take(request: Request, env: Env, ghost s0: Spine, ghost clean: bool) returns (out: Outcome)
      requires Valid() && Midway(s0, View(), request.cid, SubmitHash(request), clean)
      requires Faces(request, env) && Admitted(request, env) && env.answer.Took?
      modifies this`killed, this`guard, this`side, this`log, this`refused, this`declined
      modifies this`applied, ledger, accountant, pricing, oms
      ensures Valid()
      ensures OwnerEnds(cfg, s0, View(), request, env, clean, out) && Crossed(out)
      ensures Belongs(DoSubmit(request, env)) && !Unbooked(out) ==> Echoes(old(View()), View())
      ensures out.Receipted? ==> log == old(log) + Trail(cfg, old(View()), env.answer.order, env.answer.fill)
    {
      out := Accept(env.answer.order, env.answer.fill, request.cid, SubmitHash(request), s0, clean);
      AcceptedIsOwned(cfg, s0, View(), request, env, clean, out);
    }

    method Accept(order: Order, fill: Option<Fill>, key: Option<string>, hash: Hash, ghost s0: Spine, ghost clean: bool)
      returns (out: Outcome)
      requires Valid() && Midway(s0, View(), key, hash, clean)
      requires Enters(order) && (proper && fill.Some? ==> fill.value.qty > 0)
      modifies this`killed, this`guard, this`side, this`log, this`refused, this`declined
      modifies this`applied, ledger, accountant, pricing, oms
      ensures Valid() && (out.Receipted? || out.Raised?)
      ensures AcceptedEnds(cfg, s0, View(), order, fill, key, hash, clean, out)
      ensures (fill.Some? ==> fill.value.orderId == order.id) && !Unbooked(out) ==> Echoes(old(View()), View())
      ensures out.Receipted? ==> log == old(log) + Trail(cfg, old(View()), order, fill)
    {
      var failed := Place(order, key, hash, s0, clean);
      if failed.Some? {
        return Raised(failed.value);
      }
      out := Fulfil(order, fill, key, hash, s0, old(View()), clean);
    }

    /** A stamped order is acknowledged, or its fill is settled. */
    method Fulfil(order: Order, fill: Option<Fill>, key: Option<string>, hash: Hash,
                  ghost s0: Spine, ghost s1: Spine, ghost clean: bool)
      returns (out: Outcome)
      requires Valid() && Midway(s0, s1, key, hash, clean) && View() == Stamped(s1, order, key)
      requires Enters(order) && (proper && fill.Some? ==> fill.value.qty > 0)
      modifies this`killed, this`guard, this`side, this`log, this`refused, this`declined
      modifies this`applied, ledger, accountant, pricing, oms
      ensures Valid() && (out.Receipted? || out.Raised?)
      ensures AcceptedEnds(cfg, s0, View(), order, fill, key, hash, clean, out)
      ensures (fill.Some? ==> fill.value.orderId == order.id) && !Unbooked(out) ==> Echoes(old(View()), View())
      ensures out.Receipted? ==> log == s1.log + Trail(cfg, s1, order, fill)
    {
      match fill
      case None => out := Acknowledge(order, key, hash, s0, s1, clean);
      case Some(f) => out := Redeem(order, f, key, hash, s0, s1, clean);
    }

    method Redeem(order: Order, fill: Fill, key: Option<string>, hash: Hash, ghost s0: Spine, ghost s1: Spine,
                  ghost clean: bool)
      returns (out: Outcome)
      requires Valid() && Midway(s0, s1, key, hash, clean) && View() == Stamped(s1, order, key)
      requires Enters(order) && (proper ==> fill.qty > 0)
      modifies this`killed, this`guard, this`side, this`log, this`refused, this`declined
      modifies this`applied, ledger, accountant, pricing, oms
      ensures Valid() && (out.Receipted? || out.Raised?)
      ensures AcceptedEnds(cfg, s0, View(), order, Some(fill), key, hash, clean, out)
      ensures fill.orderId == order.id && !Unbooked(out) ==> Echoes(old(View()), View())
      ensures out.Receipted? ==> log == s1.log + Trail(cfg, s1, order, Some(fill))
    {
      StampingReadies(s0, s1, order, key, hash, clean);
      out := Settle(order, fill, key, hash, s0, clean);
      SettledIsAccepted(cfg, s0, View(), order, fill, key, hash, clean, out);
      if out.Receipted? {
        StampedTrail(cfg, s1, order, key, fill);
      }
    }

    /** One order through the whole spine. */
    method Submit(request: Request, env: Env) returns (out: Outcome)
      requires Valid()
      modifies this`mark, this`proper
      modifies this`killed, this`guard, this`side, this`log, this`refused, this`declined
      modifies this`applied, this`sent, ledger, accountant, pricing, oms
      ensures Valid() && Began(old(oms.orders), DoSubmit(request, env))
      ensures SubmitEnds(cfg, old(View()), View(), request, env, out)
      ensures Sends(old(View()), old(sent), sent, request, env, out)
      ensures Belongs(DoSubmit(request, env)) && !Unbooked(out) ==> Echoes(old(View()), View())
      ensures out.Receipted? ==>
        && env.answer.Took?
        && log == old(log) + Admission(request, env) + Trail(cfg, old(View()), env.answer.order, env.answer.fill)
    {
      Begin(DoSubmit(request, env));
      assert View() == old(View());
      out := Handle(request, env);
    }

    method Handle(request: Request, env: Env) returns (out: Outcome)
      requires Valid() && Faces(request, env)
      modifies this`killed, this`guard, this`side, this`log, this`refused, this`declined
      modifies this`applied, this`sent, ledger, accountant, pricing, oms
      ensures Valid()
      ensures SubmitEnds(cfg, old(View()), View(), request, env, out)
      ensures Sends(old(View()), old(sent), sent, request, env, out)
      ensures Belongs(DoSubmit(request, env)) && !Unbooked(out) ==> Echoes(old(View()), View())
      ensures out.Receipted? ==>
        && env.answer.Took?
        && log == old(log) + Admission(request, env) + Trail(cfg, old(View()), env.answer.order, env.answer.fill)
    {
      if killed || env.gate.Some? {
        out := CloseGate(request, env);
      } else {
        out := Serve(request, env);
      }
    }

    /** Answered from the key table, or owned. */
    method Serve(request: Request, env: Env) returns (out: Outcome)
      requires Valid() && Faces(request, env) && !killed && env.gate.None?
      modifies this`killed, this`guard, this`side, this`log, this`refused, this`declined
      modifies this`applied, this`sent, ledger, accountant, pricing, oms
      ensures Valid()
      ensures SubmitEnds(cfg, old(View()), View(), request, env, out)
      ensures Sends(old(View()), old(sent), sent, request, env, out)
      ensures Belongs(DoSubmit(request, env)) && !Unbooked(out) ==> Echoes(old(View()), View())
      ensures out.Receipted? ==>
        && env.answer.Took?
        && log == old(log) + Admission(request, env) + Trail(cfg, old(View()), env.answer.order, env.answer.fill)
    {
      var key, hash := request.cid, SubmitHash(request);
      ghost var clean := key.Some? ==> key.value !in side.Values;
      var lookup := Reserve(key, hash);
      if !lookup.Free? {
        TakenKeyEnds(cfg, old(View()), sent, request, env, Reply(lookup));
        return Reply(lookup);
      }
      out := Undertake(request, env, old(View()), clean);
    }

    /** A request whose key, if it has one, was free in `s0` and is now its own. */
    method Undertake(request: Request, env: Env, ghost s0: Spine, ghost clean: bool) returns (out: Outcome)
      requires Valid() && Midway(s0, View(), request.cid, SubmitHash(request), clean) && Faces(request, env)
      requires !s0.killed && env.gate.None? && (request.cid.Some? ==> request.cid.value !in s0.guard)
      requires clean == (request.cid.Some? ==> request.cid.value !in s0.side.Values)
      modifies this`killed, this`guard, this`side, this`log, this`refused, this`declined
      modifies this`applied, this`sent, ledger, accountant, pricing, oms
      ensures Valid() && SubmitEnds(cfg, s0, View(), request, env, out)
      ensures Sends(s0, old(sent), sent, request, env, out)
      ensures Belongs(DoSubmit(request, env)) && !Unbooked(out) ==> Echoes(old(View()), View())
      ensures out.Receipted? ==>
        && env.answer.Took?
        && log == old(log) + Admission(request, env) + Trail(cfg, old(View()), env.answer.order, env.answer.fill)
    {
      out := Own(request, env, s0, clean);
      OwnedKeyEnds(cfg, s0, View(), old(sent), sent, request, env, out);
    }

    /** A halt, or a closed gate, refuses before any key is looked at. */
    method CloseGate(request: Request, env: Env) returns (out: Outcome)
      requires Valid() && (killed || env.gate.Some?)
      requires Faces(request, env)
      modifies this`killed, this`guard, this`side, this`log, this`refused, this`declined, oms
      ensures Valid() && SubmitEnds(cfg, old(View()), View(), request, env, out)
      ensures Sends(old(View()), sent, sent, request, env, out)
      ensures Echoes(old(View()), View())
    {
      assert View().(guard := Release(guard, None)) == View();
      var reason := if killed then "kill_switch_active" else env.gate.value;
      var receipt := RejectIntake(request, env.id, reason, None, View());
      return Refused(receipt);
    }

    method Own(request: Request, env: Env, ghost s0: Spine, ghost clean: bool) returns (out: Outcome)
      requires Valid() && Midway(s0, View(), request.cid, SubmitHash(request), clean)
      requires Faces(request, env)
      modifies this`killed, this`guard, this`side, this`log, this`refused, this`declined
      modifies this`applied, this`sent, ledger, accountant, pricing, oms
      ensures Valid() && OwnerEnds(cfg, s0, View(), request, env, clean, out)
      ensures if Admitted(request, env) && out !in {Raised(RiskNotDurable), Raised(IntentNotDurable)}
        then sent == old(sent) + [Sent(request, env.answer)] && (MayHold(env.answer) ==> Crossed(out))
        else sent == old(sent) && !Crossed(out)
      ensures Belongs(DoSubmit(request, env)) && !Unbooked(out) ==> Echoes(old(View()), View())
      ensures out.Receipted? ==>
        && env.answer.Took?
        && log == old(log) + Admission(request, env) + Trail(cfg, old(View()), env.answer.order, env.answer.fill)
    {
      var stop := Admit(request, request.cid, SubmitHash(request), env, s0, clean);
      if stop.Some? {
        StoppedIsOwned(cfg, s0, View(), request, env, clean, stop.value);
        return stop.value;
      }
      out := Proceed(request, env, s0, old(View()), clean);
    }

    /** The request was in state `s` before it was admitted. */
    method Proceed(request: Request, env: Env, ghost s0: Spine, ghost s: Spine, ghost clean: bool)
      returns (out: Outcome)
      requires Valid() && Midway(s0, View(), request.cid, SubmitHash(request), clean)
      requires Faces(request, env) && Admitted(request, env) && Intent(request)
      requires View() == s.(log := s.log + Admission(request, env)) && Echoes(s, View())
      modifies this`killed, this`guard, this`side, this`log, this`refused, this`declined
      modifies this`applied, this`sent, ledger, accountant, pricing, oms
      ensures Valid() && OwnerEnds(cfg, s0, View(), request, env, clean, out) && (Crossed(out) || out.Refused?)
      ensures sent == old(sent) + [Sent(request, env.answer)] && (MayHold(env.answer) ==> Crossed(out))
      ensures Belongs(DoSubmit(request, env)) && !Unbooked(out) ==> Echoes(s, View())
      ensures out.Receipted? ==>
        && env.answer.Took?
        && log == s.log + Admission(request, env) + Trail(cfg, s, env.answer.order, env.answer.fill)
    {
      ghost var t := View();
      out := Dispatch(request, env, s0, clean);
      if env.answer.Took? {
        TrailIgnoresTheLog(cfg, s, t, env.answer.order, env.answer.fill);
      }
      if Echoes(t, View()) {
        EchoesTransitive(s, t, View());
      }
    }

    // ---- cancel and modify ------------------------------------------------------

    /** Cancel under the cancel's own key. */
    method Cancel(id: string, key: Option<string>) returns (out: Mutation)
      requires Valid()
      modifies this`mark, this`proper
      modifies this`killed, this`guard, this`side, this`log, this`refused, this`declined, oms
      ensures Valid() && Began(old(oms.orders), DoCancel(id, key))
      ensures MutationEnds(old(View()), View(), key, CancelHash(id), NotCancellable(old(oms.orders), id), out)
      ensures out.Done? ==>
        && id in old(oms.orders) && old(oms.orders)[id].status !in TERMINAL
        && out.order == old(oms.orders)[id].(status := Cancelled)
        && id in oms.orders && oms.orders[id] == out.order
      ensures Echoes(old(View()), View())
      ensures out.Done? && refused == old(refused) ==>
        log == old(log) + [CancelRequested(id)] + [OrderCancelled(out.order)]
    {
      Begin(DoCancel(id, key));
      assert View() == old(View());
      out := Recall(id, key);
    }

    method Recall(id: string, key: Option<string>) returns (out: Mutation)
      requires Valid()
      modifies this`killed, this`guard, this`side, this`log, this`refused, this`declined, oms
      ensures Valid()
      ensures MutationEnds(old(View()), View(), key, CancelHash(id), NotCancellable(old(oms.orders), id), out)
      ensures out.Done? ==>
        && id in old(oms.orders) && old(oms.orders)[id].status !in TERMINAL
        && out.order == old(oms.orders)[id].(status := Cancelled)
        && id in oms.orders && oms.orders[id] == out.order
      ensures Echoes(old(View()), View())
      ensures out.Done? && refused == old(refused) ==>
        log == old(log) + [CancelRequested(id)] + [OrderCancelled(out.order)]
    {
      var lookup := Reserve(key, CancelHash(id));
      if !lookup.Free? {
        return Echo(lookup);
      }
      var r := Withdraw(id, key, old(View()), key.Some? ==> key.value !in old(side).Values);
      return if r.Some? then Done(r.value) else Failed;
    }

    /** Cancel the order, and complete the key or hand it back. */
    method Withdraw(id: string, key: Option<string>, ghost s0: Spine, ghost clean: bool) returns (r: Option<Order>)
      requires Valid() && Midway(s0, View(), key, CancelHash(id), clean)
      modifies this`killed, this`guard, this`side, this`log, this`refused, this`declined, oms
      ensures Valid()
      ensures r.None? ==>
        GivenUp(s0, View(), key) && (NotCancellable(old(oms.orders), id) || declined > old(declined))
      ensures r.Some? ==> !NotCancellable(old(oms.orders), id)
      ensures r.Some? ==>
        && Spares(s0, View(), key) && KeyCompleted(View(), key, CancelHash(id), clean, Amended(r.value))
        && id in old(oms.orders) && old(oms.orders)[id].status !in TERMINAL
        && r.value == old(oms.orders)[id].(status := Cancelled)
        && id in oms.orders && oms.orders[id] == r.value
      ensures Echoes(old(View()), View())
      ensures r.Some? && refused == old(refused) ==> log == old(log) + [CancelRequested(id)] + [OrderCancelled(r.value)]
    {
      r := CancelOrder(id);
      MidwayThroughCancels(s0, old(View()), View(), key, CancelHash(id), clean);
      if r.None? {
        GiveUp(key, CancelHash(id), s0, clean);
        return;
      }
      Finish(r.value, key, CancelHash(id), s0, clean);
    }

    /** Complete a cancel's or a modify's key with the order it left. */
    method Finish(order: Order, key: Option<string>, hash: Hash, ghost s0: Spine, ghost clean: bool)
      requires Valid() && Midway(s0, View(), key, hash, clean)
      modifies this`guard
      ensures Valid() && Spares(s0, View(), key) && KeyCompleted(View(), key, hash, clean, Amended(order))
    {
      RecordingCompletes(s0, View(), key, hash, clean, Amended(order));
      guard := Record(guard, key, Amended(order));
    }

    /** Change a working order's terms. Risk is asked before the venue, and the OMS
        changes only after the venue agreed. */
    method Modify(id: string, request: Request, risk: Verdict) returns (out: Mutation)
      requires Valid()
      modifies this`mark, this`proper
      modifies this`killed, this`guard, this`side, this`log, this`refused, this`declined, oms
      ensures Valid() && Began(old(oms.orders), DoModify(id, request, risk))
      ensures MutationEnds(old(View()), View(), request.cid, ModifyHash(id, request),
                           NotModifiable(old(oms.orders), id, request, risk), out)
      ensures out.Done? ==>
        && id in old(oms.orders) && Modifiable(old(oms.orders)[id], request) && !risk.Denies? && !risk.Fails?
        && out.order == Modified(old(oms.orders)[id], request) && NewTerms(old(oms.orders)[id], out.order, request)
        && id in oms.orders && oms.orders[id] in {out.order, out.order.(status := Cancelled)}
      ensures out.Failed? ==> oms.orders == old(oms.orders)
      ensures Echoes(old(View()), View())
      ensures out.Done? && refused == old(refused) ==> log == old(log) + [OrderModified(out.order)]
    {
      Begin(DoModify(id, request, risk));
      assert View() == old(View());
      out := Revise(id, request, risk);
    }

    method Revise(id: string, request: Request, risk: Verdict) returns (out: Mutation)
      requires Valid()
      modifies this`killed, this`guard, this`side, this`log, this`refused, this`declined, oms
      ensures Valid()
      ensures MutationEnds(old(View()), View(), request.cid, ModifyHash(id, request),
                           NotModifiable(old(oms.orders), id, request, risk), out)
      ensures out.Done? ==>
        && id in old(oms.orders) && Modifiable(old(oms.orders)[id], request) && !risk.Denies? && !risk.Fails?
        && out.order == Modified(old(oms.orders)[id], request) && NewTerms(old(oms.orders)[id], out.order, request)
        && id in oms.orders && oms.orders[id] in {out.order, out.order.(status := Cancelled)}
      ensures out.Failed? ==> oms.orders == old(oms.orders)
      ensures Echoes(old(View()), View())
      ensures out.Done? && refused == old(refused) ==> log == old(log) + [OrderModified(out.order)]
    {
      var key, hash := request.cid, ModifyHash(id, request);
      var lookup := Reserve(key, hash);
      if !lookup.Free? {
        return Echo(lookup);
      }
      out := Rework(id, request, risk, old(View()), key.Some? ==> key.value !in old(side).Values);
    }

    method Rework(id: string, request: Request, risk: Verdict, ghost s0: Spine, ghost clean: bool)
      returns (out: Mutation)
      requires Valid() && Midway(s0, View(), request.cid, ModifyHash(id, request), clean)
      modifies this`killed, this`guard, this`side, this`log, this`refused, this`declined, oms
      ensures Valid() && (out.Done? || out.Failed?)
      ensures out.Failed? ==>
        && GivenUp(s0, View(), request.cid) && oms.orders == old(oms.orders)
        && (NotModifiable(old(oms.orders), id, request, risk) || declined > old(declined))
      ensures out.Done? ==>
        && Spares(s0, View(), request.cid)
        && KeyCompleted(View(), request.cid, ModifyHash(id, request), clean, Amended(out.order))
        && id in old(oms.orders) && Modifiable(old(oms.orders)[id], request) && !risk.Denies? && !risk.Fails?
        && out.order == Modified(old(oms.orders)[id], request) && NewTerms(old(oms.orders)[id], out.order, request)
        && id in oms.orders && oms.orders[id] in {out.order, out.order.(status := Cancelled)}
      ensures Echoes(old(View()), View())
      ensures out.Done? && refused == old(refused) ==> log == old(log) + [OrderModified(out.order)]
    {
      var key, hash := request.cid, ModifyHash(id, request);
      if id !in oms.orders || !Modifiable(oms.orders[id], request) || risk.Denies? || risk.Fails? {
        GiveUp(key, hash, s0, clean);
        return Failed;
      }
      var refuses: bool := *;
      if refuses {
        TurnDown(key, hash, s0, clean);
        return Failed;
      }
      var modified := Modified(oms.orders[id], request);
      Amend(modified, key, hash, s0, clean);
      return Done(modified);
    }

    /** The venue refused a modify. */
    method TurnDown(key: Option<string>, hash: Hash, ghost s0: Spine, ghost clean: bool)
      requires Valid() && Midway(s0, View(), key, hash, clean)
      modifies this`guard, this`declined
      ensures Valid() && GivenUp(s0, View(), key) && declined == old(declined) + 1 && Echoes(old(View()), View())
    {
      GiveUp(key, hash, s0, clean);
      declined := declined + 1;
      KeysEcho(old(View()), old(View()), View());
    }

    method Amend(order: Order, key: Option<string>, hash: Hash, ghost s0: Spine, ghost clean: bool)
      requires Valid() && Midway(s0, View(), key, hash, clean)
      requires Enters(order)
      modifies this`killed, this`guard, this`side, this`log, this`refused, this`declined, oms
      ensures Valid() && Spares(s0, View(), key) && KeyCompleted(View(), key, hash, clean, Amended(order))
      ensures order.id in oms.orders && oms.orders[order.id] in {order, order.(status := Cancelled)}
      ensures Echoes(old(View()), View())
      ensures refused == old(refused) ==> log == old(log) + [OrderModified(order)]
    {
      var stored := File(order, OrderModified(order), key, hash, s0, clean);
      Finish(order, key, hash, s0, clean);
    }

    // ---- whole sessions ---------------------------------------------------------

    ghost function Here(): Node
      reads this, ledger, accountant, pricing, oms
    {
      Node(View(), sent)
    }

    /** One operation is one step of the session model. */
    method Perform(call: Call) returns (step: Step)
      requires Valid()
      modifies this`mark, this`proper
      modifies this`killed, this`guard, this`side, this`log, this`refused, this`declined
      modifies this`applied, this`sent, ledger, accountant, pricing, oms
      ensures Valid() && Answers(call, step)
      ensures Performs(cfg, old(Here()), step, Here())
      ensures Upholds(old(Here()), step, Here()) && Mirrors(old(Here()), step, Here())
    {
      step := Act(call);
    }

    method Act(call: Call) returns (step: Step)
      requires Valid()
      modifies this`mark, this`proper
      modifies this`killed, this`guard, this`side, this`log, this`refused, this`declined
      modifies this`applied, this`sent, ledger, accountant, pricing, oms
      ensures Valid() && Answers(call, step) && Began(old(oms.orders), call)
      ensures Performs(cfg, old(Here()), step, Here()) && Mirrors(old(Here()), step, Here())
    {
      match call {
        case DoSubmit(request, env) =>
          var out := Submit(request, env);
          return Submitting(request, env, out);
        case DoCancel(id, key) =>
          step := Change(call);
        case DoModify(id, request, risk) =>
          step := Change(call);
        case Receive(fill, fee) =>
          var got := ApplyInbound(fill, fee);
          return Receiving(fill, fee, got);
        case Halt =>
          step := Switch(call);
        case Resume =>
          step := Switch(call);
      }
    }

    /** Any sequence of calls is a run of the session model: with a store that may refuse any
        write and a venue that may refuse any cancel. */

    method Switch(call: Call) returns (step: Step)
      requires Valid() && (call.Halt? || call.Resume?)
      modifies this`mark, this`proper
      modifies this`killed, this`guard, this`side, this`log, this`refused, this`declined, oms
      ensures Valid() && Answers(call, step) && Began(old(oms.orders), call)
      ensures Performs(cfg, old(Here()), step, Here()) && Mirrors(old(Here()), step, Here())
    {
      Begin(call);
      if call.Resume? {
        killed := false;
        return Resumed;
      }
      var failures := Trip();
      return Halted;
    }

    method Change(call: Call) returns (step: Step)
      requires Valid() && (call.DoCancel? || call.DoModify?)
      modifies this`mark, this`proper
      modifies this`killed, this`guard, this`side, this`log, this`refused, this`declined, oms
      ensures Valid() && Answers(call, step) && Began(old(oms.orders), call)
      ensures Performs(cfg, old(Here()), step, Here()) && Mirrors(old(Here()), step, Here())
    {
      if call.DoCancel? {
        var change := Cancel(call.id, call.key);
        return Cancelling(call.id, call.key, change);
      }
      var change := Modify(call.id, call.request, call.risk);
      return Modifying(call.id, call.request, call.risk, change);
    }

    method Session(calls: seq<Call>) returns (steps: seq<Step>, ghost nodes: seq<Node>)
      requires Valid()
      modifies this`mark, this`proper
      modifies this`killed, this`guard, this`side, this`log, this`refused, this`declined
      modifies this`applied, this`sent, ledger, accountant, pricing, oms
      ensures Valid() && IsRun(cfg, nodes, steps) && |steps| == |calls|
      ensures nodes[0] == old(Here()) && nodes[|steps|] == Here()
      ensures forall i :: 0 <= i < |calls| ==> Answers(calls[i], steps[i])
    {
      steps, nodes := [], [Here()];
      for i := 0 to |calls|
        invariant Valid() && IsRun(cfg, nodes, steps) && |steps| == i
        invariant nodes[0] == old(Here()) && nodes[i] == Here()
        invariant forall k :: 0 <= k < i ==> Answers(calls[k], steps[k])
      {
        var step := Perform(calls[i]);
        RunExtends(cfg, nodes, steps, step, Here());
        steps, nodes := steps + [step], nodes + [Here()];
      }
    }
  }

  /** A new engine whose venue only acknowledges, and whose feed brings sized and priced fills,
      is orderly and tracked after any sequence of calls. */
  method AcknowledgedSession(cfg: Config, cash: int, calls: seq<Call>) returns (e: Engine)
    requires cfg.capacity > 0
    requires forall call :: call in calls && call.DoSubmit? ==> AcknowledgeOnly(call.env.answer)
    requires forall call :: call in calls && call.Receive? ==>
      Executed(call.fill) && (call.fee.Some? ==> call.fee.value >= 0)
    ensures fresh(e) && e.Valid()
    ensures Orderly(cfg, e.Here(), Book(cash, 0, map[])) && Tracked(cfg, e.View())
  {
    e := new Engine(cfg, cash);
    var steps, nodes := e.Session(calls);
    forall step | step in steps
      ensures step.Submitting? ==> AcknowledgeOnly(step.env.answer)
      ensures step.Receiving? ==> Executed(step.fill) && (step.fee.Some? ==> step.fee.value >= 0)
    {
      var i :| 0 <= i < |steps| && steps[i] == step;
      assert calls[i] in calls && Answers(calls[i], step);
    }
    AcknowledgedRunIsOrderly(cfg, nodes, steps, Book(cash, 0, map[]));
  }
}
