/** One submit on values: what it may touch on the way, and how it can end. */
module Submission {
  import opened Domain
  import opened Orders
  import opened Book
  import opened Spine
  import opened Booking
  import Fees

  datatype Verdict = Absent | Approves | Denies | Fails

  /** The venue took the order, with or without an immediate fill, or the call threw.
      A source that can leave the process is assumed to have crossed the boundary
      unless its latch says it did not; `unknown` is the typed unknown-outcome error. */
  datatype Answer =
    | Took(order: Order, fill: Option<Fill>)
    | Threw(reaches: bool, latch: Option<bool>, unknown: bool, reason: string)

  predicate MayHold(a: Answer) {
    a.Took? || (a.reaches && a.latch != Some(false)) || a.unknown
  }

  /** Everything outside the engine that one submit meets: a closed feed or
      risk-binding gate, the risk verdict, a new order id and the venue's answer. */
  datatype Env = Env(gate: Option<string>, risk: Verdict, id: string, answer: Answer)

  /** What a submit meets will keep the orders sound and the final ones final: a size, a
      sound order from the venue, ids that belong to no final order, and a sized fill. */
  ghost predicate Proper(orders: map<string, Order>, request: Request, env: Env) {
    && MayEnter(orders, MakeOrder(env.id, request, Rejected))
    && (env.answer.Took? ==>
          MayEnter(orders, env.answer.order) && (env.answer.fill.Some? ==> env.answer.fill.value.qty > 0))
  }

  datatype Why =
    | KeyMismatch | RiskFailed | RiskNotDurable | IntentNotDurable
    | VenueUnknown | PlacedNotDurable | AckNotDurable
    | FillUnpriceable | FillNotDurable | FillUnaffordable | FillHalfApplied | FillNotProjected

  /** `Refused` is a rejection receipt, `Busy` the pending receipt of a key in flight. */
  datatype Outcome =
    | Receipted(receipt: Receipt) | Refused(receipt: Receipt)
    | Replayed(result: KeyResult) | Busy | Raised(why: Why)

  /** What a submit may do beside its own key and order: the log only grows, and
      other keys are at most handed back by cancels. Order `stamp` may have been stamped. */
  ghost predicate Aside(s: Spine, t: Spine, key: Option<string>, stamp: Option<string>) {
    && s.log <= t.log && (s.killed ==> t.killed) && s.refused <= t.refused
    && (forall c :: c in t.guard && key != Some(c) ==> c in s.guard && t.guard[c] == s.guard[c])
    && (forall c :: c in s.guard && c !in t.guard && key != Some(c) ==> s.guard[c].Reserved? && c in s.side.Values)
    && (forall o :: o in t.side && stamp != Some(o) ==> o in s.side && t.side[o] == s.side[o])
    && (stamp.Some? && stamp.value in t.side ==> key == Some(t.side[stamp.value]))
  }

  /** No fill, position, cash, fee or fingerprint moves either. */
  ghost predicate SparesBut(s: Spine, t: Spine, key: Option<string>, stamp: Option<string>) {
    && t.book == s.book && t.applied == s.applied && t.accrued == s.accrued
    && FillsIn(t.log) == FillsIn(s.log)
    && Aside(s, t, key, stamp)
  }

  ghost predicate Spares(s: Spine, t: Spine, key: Option<string>) {
    SparesBut(s, t, key, None)
  }

  lemma AsideThroughCancels(s: Spine, t: Spine, u: Spine, key: Option<string>, stamp: Option<string>)
    requires Aside(s, t, key, stamp) && OnlyCancels(t, u)
    ensures Aside(s, u, key, stamp)
  {
    forall c | c in s.guard && c !in u.guard && key != Some(c)
      ensures s.guard[c].Reserved? && c in s.side.Values
    {
      if c in t.guard {
        var o :| o in t.side && o !in u.side && t.side[o] == c;
        assert o in s.side && s.side[o] == c;
      }
    }
  }

  /** A submit under way since `s`: its key is still reserved for it, unless a
      stale stamp (`!clean`) let a cancel take it away. */
  ghost predicate Midway(s: Spine, t: Spine, key: Option<string>, hash: Hash, clean: bool) {
    && Spares(s, t, key)
    && (key.Some? ==>
          && (key.value in t.guard ==> t.guard[key.value] == Reserved(hash))
          && (clean ==> key.value in t.guard && key.value !in t.side.Values))
  }

  /** A submit given up since `s`: its key is free again. */
  ghost predicate GivenUp(s: Spine, t: Spine, key: Option<string>) {
    Spares(s, t, key) && (key.Some? ==> key.value !in t.guard)
  }

  /** Caching orders is no concern of a submit's key. */
  lemma CachingSpares(s: Spine, t: Spine, orders: map<string, Order>, key: Option<string>, hash: Hash, clean: bool)
    ensures Midway(s, t, key, hash, clean) ==> Midway(s, t.(orders := orders), key, hash, clean)
    ensures GivenUp(s, t, key) ==> GivenUp(s, t.(orders := orders), key)
  {
  }

  lemma MidwayThroughCancels(s: Spine, t: Spine, u: Spine, key: Option<string>, hash: Hash, clean: bool)
    requires Midway(s, t, key, hash, clean) && OnlyCancels(t, u)
    ensures Midway(s, u, key, hash, clean)
  {
    AsideThroughCancels(s, t, u, key, None);
  }

  lemma GivenUpThroughCancels(s: Spine, t: Spine, u: Spine, key: Option<string>)
    requires GivenUp(s, t, key) && OnlyCancels(t, u)
    ensures GivenUp(s, u, key)
  {
    AsideThroughCancels(s, t, u, key, None);
  }

  lemma ReleasingGivesUp(s: Spine, t: Spine, key: Option<string>, hash: Hash, clean: bool)
    requires Midway(s, t, key, hash, clean)
    ensures GivenUp(s, t.(guard := Release(t.guard, key)), key)
  {
  }

  function Stamped(s: Spine, order: Order, key: Option<string>): Spine {
    s.(orders := s.orders[order.id := order],
       log := s.log + [OrderPlaced(order)] + [BrokerOrderAcknowledged(order)],
       side := if key.Some? then s.side[order.id := key.value] else s.side)
  }

  function StampOf(order: Order, key: Option<string>): Option<string> {
    if key.Some? then Some(order.id) else None
  }

  // ---- how a submit ends -----------------------------------------------------

  ghost predicate KeyCompleted(t: Spine, key: Option<string>, hash: Hash, clean: bool, result: KeyResult) {
    key.Some? ==>
      && key.value in t.guard && t.guard[key.value].Completed? && t.guard[key.value].result == result
      && t.guard[key.value].bound in {None, Some(hash)} && (clean ==> t.guard[key.value].bound == Some(hash))
  }

  ghost predicate KeyFree(t: Spine, key: Option<string>) {
    key.Some? ==> key.value !in t.guard
  }

  /** Acknowledged without a fill. */
  ghost predicate Acknowledged(s: Spine, t: Spine, order: Order, key: Option<string>, hash: Hash, clean: bool,
                               r: Receipt) {
    && SparesBut(s, t, key, StampOf(order, key)) && KeyCompleted(t, key, hash, clean, Placed(r))
    && r == Receipt(order.id, order.status, "submitted")
    && order.id in t.orders && t.orders[order.id] == order
    && (key.Some? ==> order.id in t.side && t.side[order.id] == key.value)
  }

  /** The log has the charge, and so has the book unless the venue projects positions. */
  ghost predicate Booked(cfg: Config, s: Spine, t: Spine, c: Charge) {
    && FillsIn(t.log) == FillsIn(s.log) + [c]
    && t.book == (if cfg.owned then s.book else BookFill(s.book, c))
  }

  /** Filled at once: paid for, logged, booked once and remembered, and only then completed. */
  ghost predicate FilledAtOnce(cfg: Config, s: Spine, t: Spine, order: Order, c: Charge,
                               key: Option<string>, hash: Hash, clean: bool, r: Receipt) {
    && Affordable(cfg, s, c) && Booked(cfg, s, t, c)
    && t.applied == Echoed(cfg, s, c.fill) && t.accrued == Quoted(cfg, s, c.fill, None).accrued
    && Aside(s, t, key, StampOf(order, key))
    && OnFilled(order, c.fill.qty).Moved?
    && var o := OnFilled(order, c.fill.qty).order;
       && r == Receipt(o.id, o.status, "submitted")
       && o.id in t.orders && t.orders[o.id] == o
       && KeyCompleted(t, key, hash, clean, Placed(r))
  }

  /** The fingerprints after a fill was remembered and its own event skipped. */
  function Echoed(cfg: Config, s: Spine, f: Fill): Lru {
    Touch(Remember(s.applied, FingerprintOf(f), cfg.capacity), FingerprintOf(f))
  }

  /** The order is still open under its stamp, whoever owns the key by now. */
  ghost predicate LeftStamped(t: Spine, order: Order, key: Option<string>) {
    && order.id in t.orders && t.orders[order.id] == order
    && (key.Some? ==> order.id in t.side && t.side[order.id] == key.value)
  }

  /** A fill that failed on the synchronous door frees the key. Where the write went
      through, the charge stays in the log and the order stays stamped; the book
      has moved only if the order could not take the fill, or a debit failed. */
  ghost predicate FillFailed(cfg: Config, s: Spine, t: Spine, order: Order, c: Charge, key: Option<string>, why: Why) {
    && KeyFree(t, key)
    && t.accrued == Quoted(cfg, s, c.fill, None).accrued && t.applied == s.applied
    && Aside(s, t, key, StampOf(order, key))
    && match why
       case FillNotDurable => t.book == s.book && FillsIn(t.log) == FillsIn(s.log) && s.refused < t.refused
       case FillUnaffordable =>
         && !Affordable(cfg, s, c) && LeftStamped(t, order, key)
         && t.book == s.book && FillsIn(t.log) == FillsIn(s.log) + [c]
       case FillHalfApplied =>
         HalfBooked(cfg, s, t, c) && LeftStamped(t, order, key) && FillsIn(t.log) == FillsIn(s.log) + [c]
       case FillNotProjected =>
         && Affordable(cfg, s, c) && LeftStamped(t, order, key)
         && Booked(cfg, s, t, c) && OnFilled(order, c.fill.qty).Illegal?
       case _ => false
  }

  /** How the synchronous door ends once the order is stamped. */
  ghost predicate FillSettles(cfg: Config, s: Spine, t: Spine, order: Order, fill: Fill,
                              key: Option<string>, hash: Hash, clean: bool, out: Outcome) {
    var fee := FeeFor(cfg, s, fill, None);
    if out == Raised(FillUnpriceable) then
      && fee.Err? && SparesBut(s, t, key, StampOf(order, key)) && LeftStamped(t, order, key)
      && (key.Some? && key.value in t.guard ==> t.guard[key.value] == Reserved(hash))
      && (key.Some? && clean ==> key.value in t.guard)
    else
      && fee.Ok?
      && var c := Charge(fill, fee.value);
         match out
         case Raised(why) => FillFailed(cfg, s, t, order, c, key, why)
         case Receipted(r) => FilledAtOnce(cfg, s, t, order, c, key, hash, clean, r)
         case _ => false
  }

  /** How a submit ends once the venue took the order. */
  ghost predicate AcceptedEnds(cfg: Config, s: Spine, t: Spine, order: Order, fill: Option<Fill>,
                               key: Option<string>, hash: Hash, clean: bool, out: Outcome) {
    if out in {Raised(PlacedNotDurable), Raised(AckNotDurable)} then
      Midway(s, t, key, hash, clean) && s.refused < t.refused
    else if fill.None? then out.Receipted? && Acknowledged(s, t, order, key, hash, clean, out.receipt)
    else FillSettles(cfg, s, t, order, fill.value, key, hash, clean, out)
  }

  lemma SettledIsAccepted(cfg: Config, s: Spine, t: Spine, order: Order, fill: Fill,
                          key: Option<string>, hash: Hash, clean: bool, out: Outcome)
    requires FillSettles(cfg, s, t, order, fill, key, hash, clean, out)
    ensures AcceptedEnds(cfg, s, t, order, Some(fill), key, hash, clean, out) && (out.Receipted? || out.Raised?)
  {
  }

  /** Nothing before the venue stands in the way: no risk manager objects, and the product
      has a tariff. */
  predicate Admitted(request: Request, env: Env) {
    (env.risk.Absent? || env.risk.Approves?) && Fees.RequireFeeSchedule(request.product).Ok?
  }

  /** What an admitted request has logged before it is sent: the approval, if risk gave one, and
      the intent. */
  function Admission(request: Request, env: Env): seq<Event> {
    (if env.risk.Approves? then [RiskDecision(request, true)] else []) + [BrokerOrderRequested(request)]
  }

  lemma AdmissionAppends(s: Spine, t: Spine, u: Spine, request: Request, env: Env)
    requires t == s.(log := s.log + if env.risk.Approves? then [RiskDecision(request, true)] else [])
    requires u == t.(log := t.log + [BrokerOrderRequested(request)])
    ensures u == s.(log := s.log + Admission(request, env))
  {
    assert u.log == s.log + Admission(request, env);
  }

  /** What a request the venue took has logged once it is receipted. */
  function Trail(cfg: Config, s: Spine, order: Order, fill: Option<Fill>): seq<Event> {
    var fee := if fill.Some? then FeeFor(cfg, s, fill.value, None) else Fees.Ok(0);
    [OrderPlaced(order)] + [BrokerOrderAcknowledged(order)]
    + (if fill.Some? && fee.Ok? then [OrderFilled(Charge(fill.value, fee.value))] else [])
  }

  lemma TrailIgnoresTheLog(cfg: Config, s: Spine, t: Spine, order: Order, fill: Option<Fill>)
    requires t == s.(log := t.log)
    ensures Trail(cfg, t, order, fill) == Trail(cfg, s, order, fill)
  {
  }

  /** Why a request is turned down, if it is: by risk, for want of a tariff, or by a call that
      surely never left the process. */
  function Denial(request: Request, env: Env): Option<string> {
    if env.risk.Fails? then None
    else if env.risk.Denies? then Some("risk_check_failed")
    else if Fees.RequireFeeSchedule(request.product).Err? then Some("unsupported_product_type")
    else if env.answer.Threw? && !MayHold(env.answer) then Some(env.answer.reason)
    else None
  }

  lemma StampedTrail(cfg: Config, s: Spine, order: Order, key: Option<string>, fill: Fill)
    requires FeeFor(cfg, s, fill, None).Ok?
    ensures var t := Stamped(s, order, key);
      t.log + [OrderFilled(Charge(fill, FeeFor(cfg, t, fill, None).value))] == s.log + Trail(cfg, s, order, Some(fill))
  {
  }

  /** How a submit that reserved its key ends: reserved only where the venue may
      hold the order, completed with the receipt, free in every other case. A write
      is reported as not durable only when the store refused one. */
  ghost predicate OwnerEnds(cfg: Config, s: Spine, t: Spine, request: Request, env: Env, clean: bool, out: Outcome) {
    var key, hash := request.cid, SubmitHash(request);
    match out
    case Replayed(_) => false
    case Busy => false
    case Refused(r) =>
      GivenUp(s, t, key) && Denial(request, env) == Some(r.message) && Recorded(t, request, env.id, r)
    case Raised(RiskFailed) => GivenUp(s, t, key) && env.risk.Fails?
    case Raised(RiskNotDurable) => GivenUp(s, t, key) && env.risk.Approves? && s.refused < t.refused
    case Raised(IntentNotDurable) => GivenUp(s, t, key) && Admitted(request, env) && s.refused < t.refused
    case Raised(VenueUnknown) =>
      && Midway(s, t, key, hash, clean) && t.killed && env.answer.Threw? && MayHold(env.answer)
      && Admitted(request, env) && Filed(s, t, request, env.id)
    case _ =>
      && env.answer.Took? && Admitted(request, env)
      && AcceptedEnds(cfg, s, t, env.answer.order, env.answer.fill, key, hash, clean, out)
  }

  /** How a request can stop short of the venue. */
  ghost predicate Stops(s: Spine, t: Spine, request: Request, env: Env, out: Outcome) {
    match out
    case Refused(r) =>
      !Admitted(request, env) && Denial(request, env) == Some(r.message) && Recorded(t, request, env.id, r)
    case Raised(RiskFailed) => env.risk.Fails?
    case Raised(RiskNotDurable) => env.risk.Approves? && s.refused < t.refused
    case Raised(IntentNotDurable) => Admitted(request, env) && s.refused < t.refused
    case _ => false
  }

  lemma StoppedIsOwned(cfg: Config, s: Spine, t: Spine, request: Request, env: Env, clean: bool, out: Outcome)
    requires GivenUp(s, t, request.cid) && Stops(s, t, request, env, out)
    ensures OwnerEnds(cfg, s, t, request, env, clean, out) && !Crossed(out)
    ensures !Admitted(request, env) || out in {Raised(RiskNotDurable), Raised(IntentNotDurable)}
  {
  }

  /** An order of unknown outcome is in the OMS, unless the halt cancelled it, and in the log,
      unless the store refused a write. */
  ghost predicate Filed(s: Spine, t: Spine, request: Request, id: string) {
    var order := MakeOrder(id, request, Unknown);
    && Describes(order, id, request, Unknown)
    && id in t.orders && t.orders[id] in {order, order.(status := Cancelled)}
    && (t.refused == s.refused ==> UnknownSubmission(request) in t.log && OrderPlaced(order) in t.log)
  }

  lemma AcceptedIsOwned(cfg: Config, s: Spine, t: Spine, request: Request, env: Env, clean: bool, out: Outcome)
    requires env.answer.Took? && Admitted(request, env) && (out.Receipted? || out.Raised?)
    requires AcceptedEnds(cfg, s, t, env.answer.order, env.answer.fill, request.cid, SubmitHash(request), clean, out)
    ensures OwnerEnds(cfg, s, t, request, env, clean, out) && Crossed(out)
  {
  }

  ghost predicate Recorded(t: Spine, request: Request, id: string, r: Receipt) {
    && r.id == id && r.status == Rejected
    && id in t.orders && t.orders[id] == MakeOrder(id, request, Rejected)
    && Describes(t.orders[id], id, request, Rejected)
  }

  /** The answer to a submit whose key is taken. */
  function Reply(l: Lookup): Outcome {
    match l
    case Replay(r) => Replayed(r)
    case Inflight => Busy
    case _ => Raised(KeyMismatch)
  }

  /** How any submit ends. A halt or a closed gate touches no key, and a key
      already in the table is answered from it with nothing changed. */
  ghost predicate SubmitEnds(cfg: Config, s: Spine, t: Spine, request: Request, env: Env, out: Outcome) {
    var key, hash := request.cid, SubmitHash(request);
    if s.killed || env.gate.Some? then
      && out.Refused? && GivenUp(s, t, None) && Recorded(t, request, env.id, out.receipt)
      && out.receipt.message == (if s.killed then "kill_switch_active" else env.gate.value)
      && (s.killed ==> t.guard == s.guard)
    else if key.Some? && key.value in s.guard then
      t == s && out == Reply(CheckKey(s.guard, key.value, hash))
    else
      OwnerEnds(cfg, s, t, request, env, key.Some? ==> key.value !in s.side.Values, out)
  }

  /** How a cancel or a modify under its own key ends. It fails only when it is `barred` or the
      venue declined something. */
  datatype Mutation = Done(order: Order) | Repeated(result: KeyResult) | Occupied | Clash | Failed

  function Echo(l: Lookup): Mutation {
    match l
    case Replay(r) => Repeated(r)
    case Inflight => Occupied
    case _ => Clash
  }

  ghost predicate MutationEnds(s: Spine, t: Spine, key: Option<string>, hash: Hash, barred: bool, out: Mutation) {
    var clean := key.Some? ==> key.value !in s.side.Values;
    if key.Some? && key.value in s.guard then
      t == s && out == Echo(CheckKey(s.guard, key.value, hash))
    else match out
      case Done(order) => !barred && Spares(s, t, key) && KeyCompleted(t, key, hash, clean, Amended(order))
      case Failed => GivenUp(s, t, key) && (barred || s.declined < t.declined)
      case _ => false
  }

  /** Nothing to cancel: unknown, or in a status with no way to CANCELLED. */
  predicate NotCancellable(orders: map<string, Order>, id: string) {
    id !in orders || OnCancelled(orders[id]).Illegal?
  }

  /** Nothing to modify, or not in this way. */
  predicate NotModifiable(orders: map<string, Order>, id: string, request: Request, risk: Verdict) {
    id !in orders || !Modifiable(orders[id], request) || risk.Denies? || risk.Fails?
  }

  lemma RecordingCompletes(s: Spine, t: Spine, key: Option<string>, hash: Hash, clean: bool, result: KeyResult)
    requires Midway(s, t, key, hash, clean)
    ensures var u := t.(guard := Record(t.guard, key, result));
      Spares(s, u, key) && KeyCompleted(u, key, hash, clean, result)
  {
  }

  lemma ReservingIsMidway(s: Spine, key: Option<string>, hash: Hash)
    requires key.Some? ==> key.value !in s.guard
    ensures Midway(s, if key.Some? then s.(guard := s.guard[key.value := Reserved(hash)]) else s, key, hash,
                   key.Some? ==> key.value !in s.side.Values)
  {
  }

  lemma StampedFills(s: Spine, order: Order, key: Option<string>)
    ensures FillsIn(Stamped(s, order, key).log) == FillsIn(s.log)
  {
    FillsAppend(s.log, OrderPlaced(order));
    FillsAppend(s.log + [OrderPlaced(order)], BrokerOrderAcknowledged(order));
  }

  lemma CompletingAcknowledges(s: Spine, t: Spine, order: Order, key: Option<string>, hash: Hash, clean: bool)
    requires Midway(s, t, key, hash, clean)
    ensures var r := Receipt(order.id, order.status, "submitted");
      var u := Stamped(t, order, key);
      Acknowledged(s, u.(guard := Record(u.guard, key, Placed(r))), order, key, hash, clean, r)
  {
    StampedFills(t, order, key);
    var r, u := Receipt(order.id, order.status, "submitted"), Stamped(t, order, key);
    var v := u.(guard := Record(u.guard, key, Placed(r)));
    assert Aside(s, v, key, StampOf(order, key));
    assert KeyCompleted(v, key, hash, clean, Placed(r));
  }

  /** How the log or the book can refuse a charge. */
  ghost predicate BookingFails(cfg: Config, s: Spine, t: Spine, c: Charge, why: Why) {
    var logged := s.(log := s.log + [OrderFilled(c)]);
    match why
    case FillNotDurable => OnlyCancels(s, t) && s.refused < t.refused
    case FillUnaffordable => t == logged && !Affordable(cfg, s, c)
    case FillHalfApplied => t == logged.(book := t.book) && HalfBooked(cfg, s, t, c)
    case _ => false
  }

  /** What the synchronous fill itself does from the stamped state. */
  ghost predicate Executes(cfg: Config, s: Spine, t: Spine, order: Order, c: Charge, failed: Option<Why>) {
    match failed
    case None =>
      && Affordable(cfg, s, c) && OnFilled(order, c.fill.qty).Moved?
      && var o := OnFilled(order, c.fill.qty).order;
         t == Landed(cfg, s, c).(orders := s.orders[o.id := o], applied := Echoed(cfg, s, c.fill))
    case Some(FillNotProjected) =>
      && Affordable(cfg, s, c) && OnFilled(order, c.fill.qty).Illegal?
      && t == Landed(cfg, s, c).(applied := s.applied)
    case Some(why) => BookingFails(cfg, s, t, c, why)
  }

  /** The order is cached, and the fill is one of its own. */
  predicate Owned(orders: map<string, Order>, order: Order, fill: Fill) {
    order.id in orders && orders[order.id] == order && fill.orderId == order.id
  }

  lemma OwnedFill(orders: map<string, Order>, order: Order, c: Charge)
    requires Owned(orders, order, c.fill)
    ensures AfterEvent(orders, OrderFilled(c)) ==
      match OnFilled(order, c.fill.qty) case Moved(o) => orders[o.id := o] case Illegal(_) => orders
  {
  }

  /** The ledger did not refuse the charge. */
  predicate Paid(failed: Option<Why>) {
    failed != Some(FillUnaffordable) && failed != Some(FillHalfApplied)
  }

  /** Such a fill reaches its order, unless the ledger refused it. */
  lemma ExecutingEchoes(cfg: Config, s: Spine, t: Spine, order: Order, c: Charge, failed: Option<Why>)
    requires Executes(cfg, s, t, order, c, failed)
    ensures Owned(s.orders, order, c.fill) && Paid(failed) ==> Echoes(s, t)
  {
    if Owned(s.orders, order, c.fill) && failed in {None, Some(FillNotProjected)} {
      OwnedFill(s.orders, order, c);
      FillEchoes(s, t, c);
    }
  }

  /** What a fill needs to know of the submit it belongs to: nothing has moved but
      the order, its stamp and, once quoted, the accrual. */
  ghost predicate ReadyToFill(s: Spine, t: Spine, order: Order, key: Option<string>, hash: Hash, clean: bool) {
    && SparesBut(s, t.(accrued := s.accrued), key, StampOf(order, key)) && LeftStamped(t, order, key)
    && (key.Some? && key.value in t.guard ==> t.guard[key.value] == Reserved(hash))
    && (key.Some? && clean ==> key.value in t.guard)
  }

  lemma ReadyIsOwned(s: Spine, t: Spine, order: Order, fill: Fill, key: Option<string>, hash: Hash, clean: bool)
    requires ReadyToFill(s, t, order, key, hash, clean) && fill.orderId == order.id
    ensures Owned(t.orders, order, fill)
  {
  }

  lemma StampingReadies(s: Spine, t: Spine, order: Order, key: Option<string>, hash: Hash, clean: bool)
    requires Midway(s, t, key, hash, clean)
    ensures ReadyToFill(s, Stamped(t, order, key), order, key, hash, clean)
    ensures Stamped(t, order, key).accrued == s.accrued
  {
    StampedFills(t, order, key);
  }

  /** Quoting a fee changes none of this; a refused quote is how an unpriceable fill ends. */
  lemma QuotingReadies(cfg: Config, s: Spine, t: Spine, order: Order, fill: Fill,
                       key: Option<string>, hash: Hash, clean: bool)
    requires ReadyToFill(s, t, order, key, hash, clean) && t.accrued == s.accrued
    ensures ReadyToFill(s, Quoted(cfg, t, fill, None), order, key, hash, clean)
    ensures Quoted(cfg, t, fill, None).accrued == Quoted(cfg, s, fill, None).accrued
    ensures FeeFor(cfg, t, fill, None) == FeeFor(cfg, s, fill, None)
    ensures FeeFor(cfg, s, fill, None).Err? ==>
      && Quoted(cfg, t, fill, None) == t
      && FillSettles(cfg, s, t, order, fill, key, hash, clean, Raised(FillUnpriceable))
  {
    assert t.(accrued := s.accrued) == t;
  }

  /** Releasing a key that is at most reserved frees it and nothing else. */
  lemma ReleasingIsAside(s: Spine, t: Spine, key: Option<string>, hash: Hash, stamp: Option<string>)
    requires Aside(s, t, key, stamp)
    requires key.Some? && key.value in t.guard ==> t.guard[key.value] == Reserved(hash)
    ensures var u := t.(guard := Release(t.guard, key)); Aside(s, u, key, stamp) && KeyFree(u, key)
  {
  }

  /** Booking, and whatever it logs, is aside too. */
  lemma LoggingIsAside(s: Spine, t: Spine, u: Spine, key: Option<string>, stamp: Option<string>)
    requires Aside(s, t, key, stamp)
    requires u.guard == t.guard && u.side == t.side && u.killed == t.killed && t.log <= u.log
    requires t.refused <= u.refused
    ensures Aside(s, u, key, stamp)
  {
  }

  lemma LostWrite(cfg: Config, s: Spine, t: Spine, u: Spine, order: Order, c: Charge,
                  key: Option<string>, hash: Hash, clean: bool)
    requires ReadyToFill(s, t, order, key, hash, clean)
    requires t.accrued == Quoted(cfg, s, c.fill, None).accrued
    requires OnlyCancels(t, u) && t.refused < u.refused
    ensures FillFailed(cfg, s, u.(guard := Release(u.guard, key)), order, c, key, FillNotDurable)
  {
    AsideThroughCancels(s, t, u, key, StampOf(order, key));
    ReleasingIsAside(s, u, key, hash, StampOf(order, key));
  }

  lemma LoggedFailure(cfg: Config, s: Spine, t: Spine, u: Spine, order: Order, c: Charge,
                      key: Option<string>, hash: Hash, clean: bool, why: Why)
    requires ReadyToFill(s, t, order, key, hash, clean) && !why.FillNotDurable?
    requires t.accrued == Quoted(cfg, s, c.fill, None).accrued
    requires Executes(cfg, t, u, order, c, Some(why))
    ensures FillFailed(cfg, s, u.(guard := Release(u.guard, key)), order, c, key, why)
  {
    FillsAppend(t.log, OrderFilled(c));
    assert t.log <= u.log && u.guard == t.guard && u.side == t.side && u.killed == t.killed && u.orders == t.orders;
    assert u.refused == t.refused;
    LoggingIsAside(s, t, u, key, StampOf(order, key));
    ReleasingIsAside(s, u, key, hash, StampOf(order, key));
  }

  lemma FailedExecution(cfg: Config, s: Spine, t: Spine, u: Spine, order: Order, c: Charge,
                        key: Option<string>, hash: Hash, clean: bool, why: Why)
    requires ReadyToFill(s, t, order, key, hash, clean)
    requires t.accrued == Quoted(cfg, s, c.fill, None).accrued
    requires Executes(cfg, t, u, order, c, Some(why))
    ensures FillFailed(cfg, s, u.(guard := Release(u.guard, key)), order, c, key, why)
  {
    if why.FillNotDurable? {
      LostWrite(cfg, s, t, u, order, c, key, hash, clean);
    } else {
      LoggedFailure(cfg, s, t, u, order, c, key, hash, clean, why);
    }
  }

  lemma SuccessfulExecution(cfg: Config, s: Spine, t: Spine, u: Spine, order: Order, c: Charge,
                            key: Option<string>, hash: Hash, clean: bool)
    requires ReadyToFill(s, t, order, key, hash, clean)
    requires t.accrued == Quoted(cfg, s, c.fill, None).accrued
    requires Executes(cfg, t, u, order, c, None)
    ensures var o := OnFilled(order, c.fill.qty).order;
      var r := Receipt(o.id, o.status, "submitted");
      FilledAtOnce(cfg, s, u.(guard := Record(u.guard, key, Placed(r))), order, c, key, hash, clean, r)
  {
    FillsAppend(t.log, OrderFilled(c));
  }


  // ---- what reaches the venue ----------------------------------------------------

  datatype Sent = Sent(request: Request, answer: Answer)

  /** The venue was reached, or may have been. */
  predicate Crossed(out: Outcome) {
    out.Receipted? ||
    (out.Raised? && out.why !in {KeyMismatch, RiskFailed, RiskNotDurable, IntentNotDurable})
  }

  /** The request got past every gate and write before the venue. */
  ghost predicate Reaches(s: Spine, request: Request, env: Env, out: Outcome) {
    && !s.killed && env.gate.None? && (request.cid.Some? ==> request.cid.value !in s.guard)
    && Admitted(request, env) && out !in {Raised(RiskNotDurable), Raised(IntentNotDurable)}
  }

  /** A submit sends once if it reaches the venue, which it does only with the switch off, the
      gates open and the key free, and never otherwise. What the venue may hold is never
      reported as refused, and no crossing is reported without a send. */
  ghost predicate Sends(s: Spine, before: seq<Sent>, after: seq<Sent>, request: Request, env: Env, out: Outcome) {
    if Reaches(s, request, env, out) then
      after == before + [Sent(request, env.answer)] && (MayHold(env.answer) ==> Crossed(out))
    else after == before && !Crossed(out)
  }

  /** A submit whose key was taken. */
  lemma TakenKeyEnds(cfg: Config, s: Spine, sent: seq<Sent>, request: Request, env: Env, out: Outcome)
    requires !s.killed && env.gate.None? && request.cid.Some? && request.cid.value in s.guard
    requires out == Reply(CheckKey(s.guard, request.cid.value, SubmitHash(request)))
    ensures SubmitEnds(cfg, s, s, request, env, out) && Sends(s, sent, sent, request, env, out)
    ensures !out.Receipted? && Echoes(s, s)
  {
  }

  /** A submit that owned its key. */
  lemma OwnedKeyEnds(cfg: Config, s: Spine, t: Spine, before: seq<Sent>, after: seq<Sent>, request: Request, env: Env,
                     out: Outcome)
    requires !s.killed && env.gate.None? && (request.cid.Some? ==> request.cid.value !in s.guard)
    requires OwnerEnds(cfg, s, t, request, env, request.cid.Some? ==> request.cid.value !in s.side.Values, out)
    requires if Admitted(request, env) && out !in {Raised(RiskNotDurable), Raised(IntentNotDurable)}
      then after == before + [Sent(request, env.answer)] && (MayHold(env.answer) ==> Crossed(out))
      else after == before && !Crossed(out)
    ensures SubmitEnds(cfg, s, t, request, env, out) && Sends(s, before, after, request, env, out)
  {
  }

  // ---- when a submit succeeds ------------------------------------------------------

  /** With the switch off, the gates open, the key free, no objection from risk and a tariff,
      and while the store takes every write, the request is sent, and an acknowledgement by
      the venue is what the caller gets. A call that threw is unknown, and halts the engine,
      unless the source cannot leave the process or says it did not. */
  lemma AcknowledgedSubmitSucceeds(cfg: Config, s: Spine, t: Spine, before: seq<Sent>, after: seq<Sent>,
                                   request: Request, env: Env, out: Outcome)
    requires SubmitEnds(cfg, s, t, request, env, out) && Sends(s, before, after, request, env, out)
    requires !s.killed && env.gate.None? && (request.cid.Some? ==> request.cid.value !in s.guard)
    requires env.risk.Absent? || env.risk.Approves?
    requires request.product in {None, Some(Intraday), Some(Delivery)}
    requires t.refused == s.refused
    ensures after == before + [Sent(request, env.answer)]
    ensures env.answer.Took? && env.answer.fill.None? ==>
      out == Receipted(Receipt(env.answer.order.id, env.answer.order.status, "submitted"))
    ensures env.answer.Threw? ==>
      if env.answer.unknown || (env.answer.reaches && (env.answer.latch.None? || env.answer.latch.value))
      then out == Raised(VenueUnknown) && t.killed
      else out == Refused(Receipt(env.id, Rejected, env.answer.reason))
  {
  }

  /** A refusal to write is never claimed without one. */
  lemma NotDurableMeansRefused(cfg: Config, s: Spine, t: Spine, request: Request, env: Env, out: Outcome)
    requires SubmitEnds(cfg, s, t, request, env, out)
    requires out in {Raised(RiskNotDurable), Raised(IntentNotDurable), Raised(PlacedNotDurable),
                     Raised(AckNotDurable), Raised(FillNotDurable)}
    ensures s.refused < t.refused
  {
  }
}
