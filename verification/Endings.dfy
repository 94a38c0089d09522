/** What the endings of a submit mean: for its key, for the book, and for the venue. */
module Endings {
  import opened Domain
  import opened Orders
  import opened PositionMath
  import opened Book
  import opened Spine
  import opened Booking
  import opened Submission
  import CL = CashLedger
  import Fees
  import FA = FeeAccrual

  // ---- synchronous fills -----------------------------------------------------------

  /** A quoted fee is never negative, so a synchronous fill with a size and a price is
      never left half applied. */
  lemma NeverHalfApplied(cfg: Config, s: Spine, t: Spine, order: Order, fill: Fill,
                         key: Option<string>, hash: Hash, clean: bool, out: Outcome)
    requires FillSettles(cfg, s, t, order, fill, key, hash, clean, out)
    requires Executed(fill) && FA.WithinCap(s.accrued)
    ensures out != Raised(FillHalfApplied)
  {
    FA.AccrualStaysWithinCap(s.accrued, fill);
    if out == Raised(FillHalfApplied) {
      HalfBookedIsNegative(cfg, s, t, Charge(fill, FeeFor(cfg, s, fill, None).value));
    }
  }

  /** A synchronous fill that was priced and logged is refused by the ledger exactly when the
      cash is short. */
  lemma WhenAnswerIsUnaffordable(cfg: Config, s: Spine, t: Spine, order: Order, fill: Fill,
                                 key: Option<string>, hash: Hash, clean: bool, out: Outcome)
    requires FillSettles(cfg, s, t, order, fill, key, hash, clean, out)
    requires out !in {Raised(FillUnpriceable), Raised(FillNotDurable)}
    ensures out == Raised(FillUnaffordable) <==>
      !cfg.owned && CL.Short(cfg.floor, s.book.cash, Charge(fill, FeeFor(cfg, s, fill, None).value))
  {
    CL.WhenShort(cfg.floor, s.book.cash, Charge(fill, FeeFor(cfg, s, fill, None).value));
  }

  /** A fill always changes the book. */
  lemma BookingMoves(b: Book, c: Charge)
    requires Executed(c.fill)
    ensures BookFill(b, c) != b
  {
    var k := c.fill.instrument;
    var moved := BookPosition(b.positions, c);
    assert k in b.positions ==> moved[k].qty == b.positions[k].qty + Signed(c.fill);
  }

  /** The synchronous door keeps the book the fold of the log if and only if the fill
      was not priced, was not logged, or was affordable: it logs before it asks. */
  lemma SynchronousFold(cfg: Config, s: Spine, t: Spine, order: Order, fill: Fill,
                        key: Option<string>, hash: Hash, clean: bool, out: Outcome, opening: Book)
    requires FillSettles(cfg, s, t, order, fill, key, hash, clean, out)
    requires !cfg.owned && Folded(s, opening) && Executed(fill) && FA.WithinCap(s.accrued)
    ensures var fee := FeeFor(cfg, s, fill, None);
      Folded(t, opening) <==>
        || fee.Err? || FillsIn(t.log) == FillsIn(s.log)
        || Affords(cfg.floor, s.book.cash, CL.Required(Charge(fill, fee.value)))
  {
    NeverHalfApplied(cfg, s, t, order, fill, key, hash, clean, out);
    if FeeFor(cfg, s, fill, None).Ok? {
      var c := Charge(fill, FeeFor(cfg, s, fill, None).value);
      BookRunAppends(opening, FillsIn(s.log), c);
      BookingMoves(s.book, c);
    }
  }

  /** A fill that moved the book leaves the key free if and only if the order could not
      take it: for a sound order, one that is REJECTED or PENDING, or a NEW one that
      the fill would complete. */
  lemma BookedButFree(cfg: Config, s: Spine, t: Spine, order: Order, fill: Fill,
                      key: Option<string>, hash: Hash, clean: bool, out: Outcome)
    requires FillSettles(cfg, s, t, order, fill, key, hash, clean, out)
    requires Executed(fill) && FA.WithinCap(s.accrued) && key.Some? && t.book != s.book
    ensures KeyFree(t, key) <==> OnFilled(order, fill.qty).Illegal?
    ensures Sound(order) ==>
      (KeyFree(t, key) <==>
         || order.status in {Rejected, Pending}
         || (order.status == New && order.filled + fill.qty >= order.quantity))
  {
    NeverHalfApplied(cfg, s, t, order, fill, key, hash, clean, out);
    if Sound(order) {
      WhenFillsAreRefused(order, fill.qty);
    }
  }

  // ---- no stranded keys ------------------------------------------------------------

  /** A request that found its key free leaves it reserved only where the venue may hold
      the order, completed only with the receipt it returned, and otherwise free. A
      free key means nothing was booked, unless the order could not take its fill.
      The completed key keeps its hash when no stale stamp let a cancel take it. */
  ghost predicate KeyAccountedFor(s: Spine, t: Spine, request: Request, env: Env, out: Outcome)
    requires request.cid.Some?
  {
    var c := request.cid.value;
    && (c in t.guard && t.guard[c].Reserved? ==>
          MayHold(env.answer) && t.guard[c] == Reserved(SubmitHash(request)) && out.Raised? && t.book == s.book)
    && (c in t.guard && t.guard[c].Completed? ==>
          && out.Receipted? && t.guard[c].result == Placed(out.receipt)
          && (c !in s.side.Values ==> t.guard[c].bound == Some(SubmitHash(request))))
    && (c !in t.guard ==> out.Refused? || out.Raised?)
    && (c !in t.guard && t.book != s.book ==>
          && env.answer.Took? && env.answer.fill.Some?
          && (Executed(env.answer.fill.value) ==> OnFilled(env.answer.order, env.answer.fill.value.qty).Illegal?))
  }

  lemma NoStrandedKey(cfg: Config, s: Spine, t: Spine, request: Request, env: Env, out: Outcome)
    requires SubmitEnds(cfg, s, t, request, env, out) && !s.killed && env.gate.None?
    requires request.cid.Some? && request.cid.value !in s.guard && FA.WithinCap(s.accrued)
    ensures KeyAccountedFor(s, t, request, env, out)
  {
    var clean := request.cid.value !in s.side.Values;
    if env.answer.Took?
       && AcceptedEnds(cfg, s, t, env.answer.order, env.answer.fill, request.cid, SubmitHash(request), clean, out) {
      AcceptedKey(cfg, s, t, request, env, out);
    }
  }

  lemma AcceptedKey(cfg: Config, s: Spine, t: Spine, request: Request, env: Env, out: Outcome)
    requires request.cid.Some? && env.answer.Took? && FA.WithinCap(s.accrued)
    requires AcceptedEnds(cfg, s, t, env.answer.order, env.answer.fill, request.cid, SubmitHash(request),
                          request.cid.value !in s.side.Values, out)
    ensures KeyAccountedFor(s, t, request, env, out)
  {
    if env.answer.fill.Some? && Executed(env.answer.fill.value)
       && out !in {Raised(PlacedNotDurable), Raised(AckNotDurable)} {
      NeverHalfApplied(cfg, s, t, env.answer.order, env.answer.fill.value, request.cid, SubmitHash(request),
                       request.cid.value !in s.side.Values, out);
    }
  }

  // ---- at most once at the venue -----------------------------------------------------

  /** How many orders the venue may hold under a key. */
  function Held(sent: seq<Sent>, key: string): nat {
    if sent == [] then 0
    else
      var last := sent[|sent| - 1];
      Held(sent[..|sent| - 1], key) + (if last.request.cid == Some(key) && MayHold(last.answer) then 1 else 0)
  }

  /** At most one, and none under a key that is free to be used again. */
  ghost predicate AtMostOnce(sent: seq<Sent>, guard: Guard) {
    forall c :: Held(sent, c) <= (if c in guard then 1 else 0)
  }

  /** One send under a key that was free keeps this, no other key being lost, if and only
      if the venue surely holds nothing or the key is taken afterwards. */
  lemma SendingIsAtMostOnce(before: seq<Sent>, after: seq<Sent>, s: Spine, t: Spine, request: Request, env: Env)
    requires after == before + [Sent(request, env.answer)]
    requires AtMostOnce(before, s.guard) && (forall c :: c in s.guard ==> c in t.guard)
    requires request.cid.Some? ==> request.cid.value !in s.guard
    ensures AtMostOnce(after, t.guard) <==>
      request.cid.None? || !MayHold(env.answer) || request.cid.value in t.guard
  {
    assert after[..|after| - 1] == before;
    forall c
      ensures Held(after, c) == Held(before, c) + (if request.cid == Some(c) && MayHold(env.answer) then 1 else 0)
    {
    }
  }

  /** No stamped order owns a reserved key, so whatever else a submit does, cancels lose none. */
  lemma AsideKeepsKeys(s: Spine, t: Spine, key: Option<string>, stamp: Option<string>)
    requires Aside(s, t, key, stamp) && SideSettled(s) && (key.Some? ==> key.value !in s.guard)
    ensures forall c :: c in s.guard ==> c in t.guard && t.guard[c] == s.guard[c]
  {
    assert forall c :: c in s.side.Values ==> c in s.guard && s.guard[c].Completed?;
  }

  /** Where the order it stamped owns a completed key, a submit leaves none owning a reserved one. */
  lemma AsideKeepsSettled(s: Spine, t: Spine, key: Option<string>, stamp: Option<string>)
    requires Aside(s, t, key, stamp) && SideSettled(s) && (key.Some? ==> key.value !in s.guard)
    requires stamp.Some? && stamp.value in t.side ==>
      t.side[stamp.value] in t.guard && t.guard[t.side[stamp.value]].Completed?
    ensures SideSettled(t)
  {
    AsideKeepsKeys(s, t, key, stamp);
  }

  /** The fill was priced, its write went through, the ledger could pay for it and the
      order could take it. */
  ghost predicate Absorbed(cfg: Config, s: Spine, t: Spine, order: Order, fill: Fill) {
    var fee := FeeFor(cfg, s, fill, None);
    && fee.Ok? && FillsIn(t.log) == FillsIn(s.log) + [Charge(fill, fee.value)]
    && Affordable(cfg, s, Charge(fill, fee.value)) && OnFilled(order, fill.qty).Moved?
  }

  /** A submit answered with a fill, once that fill is tried, leaves the venue with at most
      one order per key if and only if the fill could not be priced or was absorbed; and
      leaves it so in a way no later cancel can undo if and only if it was absorbed. */
  lemma FillKeepsAtMostOnce(cfg: Config, s: Spine, t: Spine, request: Request, env: Env, out: Outcome,
                            before: seq<Sent>, after: seq<Sent>)
    requires env.answer.Took? && env.answer.fill.Some? && Executed(env.answer.fill.value)
    requires request.cid.Some? && request.cid.value !in s.guard && request.cid.value !in s.side.Values
    requires FillSettles(cfg, s, t, env.answer.order, env.answer.fill.value, request.cid, SubmitHash(request),
                         true, out)
    requires after == before + [Sent(request, env.answer)] && AtMostOnce(before, s.guard)
    requires SideSettled(s) && FA.WithinCap(s.accrued)
    ensures var absorbed := Absorbed(cfg, s, t, env.answer.order, env.answer.fill.value);
      && (AtMostOnce(after, t.guard) <==> FeeFor(cfg, s, env.answer.fill.value, None).Err? || absorbed)
      && (AtMostOnce(after, t.guard) && SideSettled(t) <==> absorbed)
  {
    var order, fill := env.answer.order, env.answer.fill.value;
    var stamp := StampOf(order, request.cid);
    NeverHalfApplied(cfg, s, t, order, fill, request.cid, SubmitHash(request), true, out);
    AsideKeepsKeys(s, t, request.cid, stamp);
    SendingIsAtMostOnce(before, after, s, t, request, env);
    if out.Receipted? {
      AsideKeepsSettled(s, t, request.cid, stamp);
    }
  }

  /** An open order cancelled, its stamp lifted and its key handed back. */
  function Dropped(s: Spine, order: Order): Spine {
    Unstamped(s.(orders := s.orders[order.id := order.(status := Cancelled)]), order.id)
  }

  /** Cancelling an order stamped with a reserved key frees that key. */
  lemma DroppingFreesTheKey(s: Spine, order: Order, key: string)
    requires LeftStamped(s, order, Some(key)) && order.status !in TERMINAL
    ensures OnlyCancels(s, Dropped(s, order))
    ensures key in s.guard && s.guard[key].Reserved? ==> key !in Dropped(s, order).guard
  {
    var marked := s.(orders := s.orders[order.id := order.(status := Cancelled)]);
    assert s.log + [] == s.log;
    MarkingOnlyCancels(s, s, order.id);
    UnstampingOnlyCancels(marked, order.id);
    OnlyCancelsTransitive(s, marked, Dropped(s, order));
  }

  /** A fill that fails after its write frees the key but leaves the stamp. When a retry
      has reserved the key, cancelling the first order takes it from the retry. */
  lemma StaleStampTakesTheKey(cfg: Config, s: Spine, t: Spine, order: Order, c: Charge, key: string, why: Why,
                              hash: Hash)
    requires FillFailed(cfg, s, t, order, c, Some(key), why) && !why.FillNotDurable?
    requires order.status !in TERMINAL
    ensures key !in t.guard
    ensures var retry := t.(guard := t.guard[key := Reserved(hash)]);
      && Midway(t, retry, Some(key), hash, false)
      && OnlyCancels(retry, Dropped(retry, order)) && key !in Dropped(retry, order).guard
  {
    ReservingIsMidway(t, Some(key), hash);
    DroppingFreesTheKey(t.(guard := t.guard[key := Reserved(hash)]), order, key);
  }

  /** An unpriced fill keeps the key reserved and the order stamped with it: the venue may
      hold one order under a taken key until that order is cancelled, and one under a
      free key from then on. */
  lemma UnpricedStampFreesTheKey(cfg: Config, s: Spine, t: Spine, request: Request, env: Env, sent: seq<Sent>)
    requires env.answer.Took? && env.answer.fill.Some? && Executed(env.answer.fill.value)
    requires request.cid.Some? && request.cid.value !in s.guard && request.cid.value !in s.side.Values
    requires FillSettles(cfg, s, t, env.answer.order, env.answer.fill.value, request.cid, SubmitHash(request),
                         true, Raised(FillUnpriceable))
    requires AtMostOnce(sent, s.guard) && SideSettled(s) && FA.WithinCap(s.accrued)
    requires env.answer.order.status !in TERMINAL
    ensures var after, u := sent + [Sent(request, env.answer)], Dropped(t, env.answer.order);
      && AtMostOnce(after, t.guard) && !SideSettled(t)
      && OnlyCancels(t, u) && request.cid.value !in u.guard && !AtMostOnce(after, u.guard)
  {
    var after, key := sent + [Sent(request, env.answer)], request.cid.value;
    FillKeepsAtMostOnce(cfg, s, t, request, env, Raised(FillUnpriceable), sent, after);
    DroppingFreesTheKey(t, env.answer.order, key);
    assert Held(after, key) >= 1;
  }

  // ---- fills answered at once are not looked up ----------------------------------------

  /** A table of prints no longer than the charges, all different, whose prints it holds,
      holds no other. */
  lemma {:induction false} NoOtherPrints(cs: seq<Charge>, lru: Lru, fp: Fingerprint)
    requires Distinct(cs) && |lru| <= |cs|
    requires forall i :: 0 <= i < |cs| ==> FingerprintOf(cs[i].fill) in lru
    ensures fp in lru ==> exists i :: 0 <= i < |cs| && FingerprintOf(cs[i].fill) == fp
    decreases |cs|
  {
    if cs != [] && FingerprintOf(cs[|cs| - 1].fill) != fp {
      var last, rest := FingerprintOf(cs[|cs| - 1].fill), cs[..|cs| - 1];
      WithoutShrinks(lru, last);
      NoOtherPrints(rest, Without(lru, last), fp);
      assert forall i :: 0 <= i < |rest| ==> rest[i] == cs[i];
    }
  }

  lemma AbsorbedIsTracked(cfg: Config, s: Spine, t: Spine, c: Charge)
    requires Booked(cfg, s, t, c) && t.applied == Echoed(cfg, s, c.fill) && FingerprintOf(c.fill) !in s.applied
    requires Tracked(cfg, s)
    ensures Tracked(cfg, t)
  {
    LandingTracks(cfg, s, c);
    FillsAppend(s.log, OrderFilled(c));
    TouchKeepsLength(Remember(s.applied, FingerprintOf(c.fill), cfg.capacity), FingerprintOf(c.fill));
  }

  /** The synchronous door remembers a fill without looking whether it knows it. While
      the table has room, the log stays free of repeats, and tracked, if and only if
      the fill was new. */
  lemma WhenSynchronousFillRepeats(cfg: Config, s: Spine, t: Spine, order: Order, c: Charge,
                                   key: Option<string>, hash: Hash, clean: bool, r: Receipt)
    requires FilledAtOnce(cfg, s, t, order, c, key, hash, clean, r)
    requires Tracked(cfg, s) && |FillsIn(s.log)| < cfg.capacity
    ensures Distinct(FillsIn(t.log)) <==> FingerprintOf(c.fill) !in s.applied
    ensures Tracked(cfg, t) <==> FingerprintOf(c.fill) !in s.applied
  {
    var fp, cs := FingerprintOf(c.fill), FillsIn(s.log);
    if fp in s.applied {
      NoOtherPrints(cs, s.applied, fp);
      var i :| 0 <= i < |cs| && FingerprintOf(cs[i].fill) == fp;
      assert FillsIn(t.log)[i] == cs[i] && FillsIn(t.log)[|cs|] == c;
    } else {
      AbsorbedIsTracked(cfg, s, t, c);
    }
  }

  // ---- the failures are reached --------------------------------------------------------

  /** The key reserved and the intent logged. */
  function Intended(s: Spine, request: Request): Spine
    requires request.cid.Some?
  {
    s.(guard := s.guard[request.cid.value := Reserved(SubmitHash(request))],
       log := s.log + [BrokerOrderRequested(request)])
  }

  /** A fill of a request under a free key can be tried from these states. */
  lemma FillIsTried(cfg: Config, s: Spine, request: Request, order: Order, fill: Fill) returns (p: Spine, q: Spine)
    requires request.cid.Some? && request.cid.value !in s.guard
    ensures p == Stamped(Intended(s, request), order, request.cid) && q == Quoted(cfg, p, fill, None)
    ensures ReadyToFill(s, q, order, request.cid, SubmitHash(request), request.cid.value !in s.side.Values)
    ensures q.accrued == Quoted(cfg, s, fill, None).accrued && q.book == s.book
    ensures FeeFor(cfg, s, fill, None).Err? ==>
      FillSettles(cfg, s, p, order, fill, request.cid, SubmitHash(request), request.cid.value !in s.side.Values,
                  Raised(FillUnpriceable))
  {
    var key, hash, clean := request.cid, SubmitHash(request), request.cid.value !in s.side.Values;
    FillsAppend(s.log, BrokerOrderRequested(request));
    assert Midway(s, Intended(s, request), key, hash, clean);
    p := Stamped(Intended(s, request), order, key);
    q := Quoted(cfg, p, fill, None);
    StampingReadies(s, Intended(s, request), order, key, hash, clean);
    QuotingReadies(cfg, s, p, order, fill, key, hash, clean);
  }

  /** Every fill that cannot be priced has this ending: stamped, key reserved. */
  lemma UnpricedEnding(cfg: Config, s: Spine, request: Request, order: Order, fill: Fill) returns (t: Spine)
    requires request.cid.Some? && request.cid.value !in s.guard && FeeFor(cfg, s, fill, None).Err?
    ensures FillSettles(cfg, s, t, order, fill, request.cid, SubmitHash(request),
                        request.cid.value !in s.side.Values, Raised(FillUnpriceable))
  {
    var q;
    t, q := FillIsTried(cfg, s, request, order, fill);
  }

  /** Every priced charge the ledger cannot pay for has this ending: logged, key freed. */
  lemma UnaffordableEnding(cfg: Config, s: Spine, request: Request, order: Order, fill: Fill) returns (t: Spine)
    requires request.cid.Some? && request.cid.value !in s.guard && FeeFor(cfg, s, fill, None).Ok?
    requires !Affordable(cfg, s, Charge(fill, FeeFor(cfg, s, fill, None).value))
    ensures FillSettles(cfg, s, t, order, fill, request.cid, SubmitHash(request),
                        request.cid.value !in s.side.Values, Raised(FillUnaffordable))
  {
    var key, c := request.cid, Charge(fill, FeeFor(cfg, s, fill, None).value);
    var p, q := FillIsTried(cfg, s, request, order, fill);
    var u := q.(log := q.log + [OrderFilled(c)]);
    FailedExecution(cfg, s, q, u, order, c, key, SubmitHash(request), key.value !in s.side.Values, FillUnaffordable);
    t := u.(guard := Release(u.guard, key));
  }

  /** Every affordable fill of an order that cannot take it has this one: booked, key freed. */
  lemma UnprojectableEnding(cfg: Config, s: Spine, request: Request, order: Order, fill: Fill) returns (t: Spine)
    requires request.cid.Some? && request.cid.value !in s.guard && FeeFor(cfg, s, fill, None).Ok?
    requires Affordable(cfg, s, Charge(fill, FeeFor(cfg, s, fill, None).value))
    requires OnFilled(order, fill.qty).Illegal?
    ensures FillSettles(cfg, s, t, order, fill, request.cid, SubmitHash(request),
                        request.cid.value !in s.side.Values, Raised(FillNotProjected))
    ensures t.log == Stamped(Intended(s, request), order, request.cid).log
                     + [OrderFilled(Charge(fill, FeeFor(cfg, s, fill, None).value))]
  {
    var key, c := request.cid, Charge(fill, FeeFor(cfg, s, fill, None).value);
    var p, q := FillIsTried(cfg, s, request, order, fill);
    var u := Landed(cfg, q, c).(applied := q.applied);
    FailedExecution(cfg, s, q, u, order, c, key, SubmitHash(request), key.value !in s.side.Values, FillNotProjected);
    t := u.(guard := Release(u.guard, key));
  }

  /** Every affordable fill its order can take has this one, known before or not: booked, key
      completed. */
  lemma AbsorbedEnding(cfg: Config, s: Spine, request: Request, order: Order, fill: Fill) returns (t: Spine, r: Receipt)
    requires request.cid.Some? && request.cid.value !in s.guard && FeeFor(cfg, s, fill, None).Ok?
    requires Affordable(cfg, s, Charge(fill, FeeFor(cfg, s, fill, None).value))
    requires OnFilled(order, fill.qty).Moved?
    ensures FilledAtOnce(cfg, s, t, order, Charge(fill, FeeFor(cfg, s, fill, None).value), request.cid,
                         SubmitHash(request), request.cid.value !in s.side.Values, r)
  {
    var key, c := request.cid, Charge(fill, FeeFor(cfg, s, fill, None).value);
    var p, q := FillIsTried(cfg, s, request, order, fill);
    var o := OnFilled(order, fill.qty).order;
    r := Receipt(o.id, o.status, "submitted");
    var u := Landed(cfg, q, c).(orders := q.orders[o.id := o], applied := Echoed(cfg, q, fill));
    SuccessfulExecution(cfg, s, q, u, order, c, key, SubmitHash(request), key.value !in s.side.Values);
    t := u.(guard := Record(u.guard, key, Placed(r)));
  }

  /** An engine with room for two fingerprints, no fees and the floor on. */
  const PLAIN := Config(true, false, 2, false, true)

  /** A new one with this much cash. */
  function Opened(cash: int): Spine {
    Spine(false, map[], map[], map[], [], [], Book(cash, 0, map[]), map[], 0, 0)
  }

  /** One share at 100 paisa, placed and filled under key "k". */
  const ONE := Request(Some("k"), "X", Buy, 1, Some(100), None, false)
  const SHARE := Fill.Fill("1", "X", Buy, 1, 100, 0, None, None, None)

  /** A 100-paisa purchase out of 99 paisa: the log has it, the book does not, and the key
      is free although the venue executed the order. */
  lemma BuyWithoutCash() returns (t: Spine)
    ensures var order := MakeOrder("1", ONE, Ack);
      && FillSettles(PLAIN, Opened(99), t, order, SHARE, Some("k"), SubmitHash(ONE), true, Raised(FillUnaffordable))
      && Folded(Opened(99), Opened(99).book) && !Folded(t, Opened(99).book)
      && !AtMostOnce([Sent(ONE, Took(order, Some(SHARE)))], t.guard)
  {
    var s, order := Opened(99), MakeOrder("1", ONE, Ack);
    t := UnaffordableEnding(PLAIN, s, ONE, order, SHARE);
    SynchronousFold(PLAIN, s, t, order, SHARE, Some("k"), SubmitHash(ONE), true, Raised(FillUnaffordable), s.book);
    var env := Env(None, Absent, "1", Took(order, Some(SHARE)));
    SendingIsAtMostOnce([], [Sent(ONE, env.answer)], s, t, ONE, env);
  }

  /** A NEW order filled whole: the book has moved and the key is free. */
  lemma NewOrderFilledWhole() returns (t: Spine)
    ensures FillSettles(PLAIN, Opened(100), t, MakeOrder("1", ONE, New), SHARE, Some("k"), SubmitHash(ONE), true,
                        Raised(FillNotProjected))
    ensures t.book != Opened(100).book && KeyFree(t, Some("k"))
    ensures t.log == Stamped(Intended(Opened(100), ONE), MakeOrder("1", ONE, New), Some("k")).log
                     + [OrderFilled(Charge(SHARE, 0))]
  {
    var order := MakeOrder("1", ONE, New);
    WhenFillsAreRefused(order, SHARE.qty);
    t := UnprojectableEnding(PLAIN, Opened(100), ONE, order, SHARE);
    BookingMoves(Opened(100).book, Charge(SHARE, 0));
  }

  /** With fees charged, the same share delivered under a margin product cannot be priced.
      Cancelling its order then frees the key under which the venue executed it. */
  lemma MarginFillThenCancel() returns (t: Spine, u: Spine)
    ensures var cfg, order, fill := PLAIN.(charges := true), MakeOrder("1", ONE, Ack), SHARE.(product := Some(Margin));
      && FillSettles(cfg, Opened(100), t, order, fill, Some("k"), SubmitHash(ONE), true, Raised(FillUnpriceable))
      && OnlyCancels(t, u) && AtMostOnce([Sent(ONE, Took(order, Some(fill)))], t.guard)
      && !AtMostOnce([Sent(ONE, Took(order, Some(fill)))], u.guard)
  {
    var cfg, s, order := PLAIN.(charges := true), Opened(100), MakeOrder("1", ONE, Ack);
    var fill := SHARE.(product := Some(Margin));
    FA.AccrualStaysWithinCap(s.accrued, fill);
    t := UnpricedEnding(cfg, s, ONE, order, fill);
    var env := Env(None, Absent, "1", Took(order, Some(fill)));
    UnpricedStampFreesTheKey(cfg, s, t, ONE, env, []);
    u := Dropped(t, order);
    assert [] + [Sent(ONE, env.answer)] == [Sent(ONE, env.answer)];
  }

  /** An execution delivered by the feed and then answered to the submit, if it can be paid
      for twice and the order can take it, is logged and booked twice. */
  lemma DeliveredThenAnswered(cfg: Config, s0: Spine, s: Spine, request: Request, order: Order, fill: Fill)
    returns (t: Spine, r: Receipt)
    requires Received(cfg, s0, s, fill, None, Applied)
    requires request.cid.Some? && request.cid.value !in s.guard && FeeFor(cfg, s, fill, None).Ok?
    requires Affordable(cfg, s, Charge(fill, FeeFor(cfg, s, fill, None).value)) && OnFilled(order, fill.qty).Moved?
    ensures FillSettles(cfg, s, t, order, fill, request.cid, SubmitHash(request),
                        request.cid.value !in s.side.Values, Receipted(r))
    ensures var first, second := FeeFor(cfg, s0, fill, None).value, FeeFor(cfg, s, fill, None).value;
      && FillsIn(t.log) == FillsIn(s0.log) + [Charge(fill, first)] + [Charge(fill, second)]
      && (!cfg.owned ==> t.book == BookFill(BookFill(s0.book, Charge(fill, first)), Charge(fill, second)))
  {
    FillsAppend(s0.log, OrderFilled(Charge(fill, FeeFor(cfg, s0, fill, None).value)));
    t, r := AbsorbedEnding(cfg, s, request, order, fill);
  }

  /** The first delivery of a fill on an order nobody knows, if it can be paid for. */
  lemma FirstDelivery(cfg: Config, s: Spine, f: Fill) returns (t: Spine)
    requires cfg.capacity > 0 && s.applied == [] && f.orderId !in s.orders && FeeFor(cfg, s, f, None).Ok?
    requires Affordable(cfg, s, Charge(f, FeeFor(cfg, s, f, None).value))
    ensures Received(cfg, s, t, f, None, Applied) && t.applied == [FingerprintOf(f)]
    ensures t.guard == s.guard && t.side == s.side
    ensures t.book == if cfg.owned then s.book else BookFill(s.book, Charge(f, FeeFor(cfg, s, f, None).value))
  {
    var o := Projected(s.orders, f).order;
    t := Landed(cfg, Quoted(cfg, s, f, None), Charge(f, FeeFor(cfg, s, f, None).value)).(orders := s.orders[o.id := o]);
  }

  /** So is every fill of an order that can take it, on a new engine without fees or a floor,
      although its fingerprint is retained in between. */
  lemma EveryFillBookedTwice(cfg: Config, cash: int, request: Request, order: Order, fill: Fill)
    returns (s: Spine, t: Spine, r: Receipt)
    requires !cfg.owned && !cfg.charges && !cfg.floor && cfg.capacity > 0
    requires request.cid.Some? && OnFilled(order, fill.qty).Moved?
    ensures Received(cfg, Opened(cash), s, fill, None, Applied) && FingerprintOf(fill) in s.applied
    ensures FillSettles(cfg, s, t, order, fill, request.cid, SubmitHash(request), true, Receipted(r))
    ensures FillsIn(t.log) == [Charge(fill, 0)] + [Charge(fill, 0)]
  {
    var s0 := Opened(cash);
    s := FirstDelivery(cfg, s0, fill);
    t, r := DeliveredThenAnswered(cfg, s0, s, request, order, fill);
  }

  /** One share, delivered as trade "T" and then answered as trade "T". */
  lemma ShareBookedTwice() returns (s: Spine, t: Spine, r: Receipt)
    ensures var cfg, fill := PLAIN.(floor := false), SHARE.(fillId := Some("T"));
      && Received(cfg, Opened(0), s, fill, None, Applied) && FingerprintOf(fill) in s.applied
      && FillSettles(cfg, s, t, MakeOrder("1", ONE, Ack), fill, ONE.cid, SubmitHash(ONE), true, Receipted(r))
      && FillsIn(t.log) == [Charge(fill, 0)] + [Charge(fill, 0)]
  {
    var order := MakeOrder("1", ONE, Ack);
    assert OnFilled(order, 1).Moved? by {
      WhenFillsAreRefused(order, 1);
    }
    s, t, r := EveryFillBookedTwice(PLAIN.(floor := false), 0, ONE, order, SHARE.(fillId := Some("T")));
  }
}
