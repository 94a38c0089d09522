/** What a fill does to the engine's state, on the inbound door and in general. */
module Booking {
  import opened Domain
  import opened Paisa
  import opened Orders
  import opened Book
  import opened Spine
  import CL = CashLedger
  import Fees
  import FA = FeeAccrual

  /** How the inbound door can end. `HalfApplied` and `OmsRefused` are raised after
      the log and the book have moved. */
  datatype Inbound =
    | Duplicate | AlreadyRejected | Unpriceable | Unaffordable | NotDurable
    | HalfApplied | OmsRefused | Applied

  /** How an engine is put together: whether a failed write halts it, whether its
      venue projects positions itself, how many fingerprints it retains, whether it
      charges fees, and whether its ledger keeps cash above zero. */
  datatype Config = Config(durable: bool, owned: bool, capacity: nat, charges: bool, floor: bool)

  /** The ledger will let the charge through; a projecting venue asks no ledger. */
  predicate Affordable(cfg: Config, s: Spine, c: Charge) {
    cfg.owned || Affords(cfg.floor, s.book.cash, CL.Required(c))
  }

  /** The proof passed, the position is booked, and a debit then failed. */
  ghost predicate HalfBooked(cfg: Config, s: Spine, t: Spine, c: Charge) {
    && !cfg.owned && Affordable(cfg, s, c) && !CL.DebitsHold(cfg.floor, s.book.cash, c)
    && t.book.positions == BookPosition(s.book.positions, c) && t.book.fees == s.book.fees
  }

  /** That takes a negative fee or a negative notional. */
  lemma HalfBookedIsNegative(cfg: Config, s: Spine, t: Spine, c: Charge)
    requires HalfBooked(cfg, s, t, c)
    ensures c.fee < 0 || CL.Notional(c.fill) < 0
    ensures !(c.fee >= 0 && Executed(c.fill))
  {
    if Executed(c.fill) {
      ProductIsNonNegative(c.fill.qty, c.fill.price);
    }
  }

  /** The fee recorded on the event, else nothing where the venue projects, else today's. */
  function FeeFor(cfg: Config, s: Spine, f: Fill, recorded: Option<int>): Fees.Result<int> {
    if recorded.Some? then Fees.Ok(recorded.value)
    else if cfg.owned then Fees.Ok(0)
    else FA.Quote(cfg.charges, s.accrued, f)
  }

  /** Quoting a fee advances the accrual, whatever becomes of the fill. */
  function Quoted(cfg: Config, s: Spine, f: Fill, recorded: Option<int>): Spine {
    if recorded.None? && !cfg.owned && cfg.charges then s.(accrued := FA.Accrue(s.accrued, f)) else s
  }

  /** Logged, remembered and, unless the venue projects positions itself, booked. */
  function Landed(cfg: Config, s: Spine, c: Charge): Spine {
    s.(log := s.log + [OrderFilled(c)],
       applied := Remember(s.applied, FingerprintOf(c.fill), cfg.capacity),
       book := if cfg.owned then s.book else BookFill(s.book, c))
  }

  /** The book is the fold of the log's fills over an opening balance. */
  ghost predicate Folded(s: Spine, opening: Book) {
    s.book == BookRun(opening, FillsIn(s.log))
  }

  lemma LandingFolds(cfg: Config, s: Spine, c: Charge, opening: Book)
    requires Folded(s, opening) && !cfg.owned
    ensures Folded(Landed(cfg, s, c), opening)
  {
    FillsAppend(s.log, OrderFilled(c));
    BookRunAppends(opening, FillsIn(s.log), c);
  }

  /** What the inbound door may do to the state, given how it ended. */
  ghost predicate Received(cfg: Config, s: Spine, t: Spine, f: Fill, recorded: Option<int>, out: Inbound) {
    var fee := FeeFor(cfg, s, f, recorded);
    var quoted := Quoted(cfg, s, f, recorded);
    && (FingerprintOf(f) in s.applied <==> out.Duplicate?)
    && (!out.Duplicate? ==>
          (f.orderId in s.orders && s.orders[f.orderId].status == Rejected <==> out.AlreadyRejected?))
    && match out
       case Duplicate => t == s.(applied := Touch(s.applied, FingerprintOf(f)))
       case AlreadyRejected => t == s
       case Unpriceable => fee.Err? && t == s
       case Unaffordable => fee.Ok? && !Affordable(cfg, s, Charge(f, fee.value)) && t == quoted
       case NotDurable =>
         fee.Ok? && Affordable(cfg, s, Charge(f, fee.value)) && OnlyCancels(quoted, t) && s.refused < t.refused
       case HalfApplied =>
         && fee.Ok? && HalfBooked(cfg, s, t, Charge(f, fee.value))
         && t == Landed(cfg, quoted, Charge(f, fee.value)).(book := t.book)
       case OmsRefused =>
         && fee.Ok? && Affordable(cfg, s, Charge(f, fee.value)) && Projected(s.orders, f).Illegal?
         && t == Landed(cfg, quoted, Charge(f, fee.value))
       case Applied =>
         && fee.Ok? && Affordable(cfg, s, Charge(f, fee.value)) && Projected(s.orders, f).Moved?
         && var o := Projected(s.orders, f).order;
            t == Landed(cfg, quoted, Charge(f, fee.value)).(orders := s.orders[o.id := o])
  }

  /** Whatever the inbound door did, short of a half-applied fill. */
  lemma ReceivingEchoes(cfg: Config, s: Spine, t: Spine, f: Fill, recorded: Option<int>, out: Inbound)
    requires Received(cfg, s, t, f, recorded, out)
    ensures !out.HalfApplied? ==> Echoes(s, t)
  {
    if out.OmsRefused? || out.Applied? {
      FillEchoes(s, t, Charge(f, FeeFor(cfg, s, f, recorded).value));
    }
  }

  /** A delivery that got as far as the ledger's proof is refused there exactly when the cash
      is short; nothing is asked of a ledger whose venue projects. */
  lemma WhenDeliveryIsUnaffordable(cfg: Config, s: Spine, t: Spine, f: Fill, recorded: Option<int>, out: Inbound)
    requires Received(cfg, s, t, f, recorded, out) && out !in {Duplicate, AlreadyRejected, Unpriceable}
    ensures out.Unaffordable? <==>
      !cfg.owned && CL.Short(cfg.floor, s.book.cash, Charge(f, FeeFor(cfg, s, f, recorded).value))
  {
    CL.WhenShort(cfg.floor, s.book.cash, Charge(f, FeeFor(cfg, s, f, recorded).value));
  }

  /** Whatever the door did, short of a half-applied fill, the book is still the fold of the log. */
  lemma ReceivingFolds(cfg: Config, s: Spine, t: Spine, f: Fill, recorded: Option<int>, out: Inbound, opening: Book)
    requires Received(cfg, s, t, f, recorded, out) && !out.HalfApplied? && !cfg.owned
    requires Folded(s, opening)
    ensures Folded(t, opening)
  {
    if out.OmsRefused? || out.Applied? {
      LandingFolds(cfg, Quoted(cfg, s, f, recorded), Charge(f, FeeFor(cfg, s, f, recorded).value), opening);
    }
  }

  /** A fingerprint just remembered is retained exactly when there is room for one. */
  lemma JustRemembered(lru: Lru, fp: Fingerprint, max: nat)
    requires |lru| <= max
    ensures |Remember(lru, fp, max)| <= max
    ensures fp in Remember(lru, fp, max) <==> max > 0
  {
    if fp in lru {
      WithoutShrinks(lru, fp);
      assert Remember(lru, fp, max) == Without(lru, fp) + [fp];
    } else {
      assert (lru + [fp])[|lru|] == fp;
      assert max > 0 ==> Remember(lru, fp, max)[|Remember(lru, fp, max)| - 1] == fp;
    }
  }

  lemma TouchKeepsLength(lru: Lru, fp: Fingerprint)
    ensures |Touch(lru, fp)| <= |lru|
  {
    if fp in lru {
      WithoutShrinks(lru, fp);
    }
  }

  // ---- what the retained fingerprints guarantee --------------------------------

  predicate Distinct(cs: seq<Charge>) {
    forall i, j :: 0 <= i < j < |cs| ==> FingerprintOf(cs[i].fill) != FingerprintOf(cs[j].fill)
  }

  /** Until the table overflows, every logged fill is retained and none is logged twice. */
  ghost predicate Tracked(cfg: Config, s: Spine) {
    var cs := FillsIn(s.log);
    && |s.applied| <= |cs|
    && (|cs| <= cfg.capacity ==> Distinct(cs) && forall i :: 0 <= i < |cs| ==> FingerprintOf(cs[i].fill) in s.applied)
  }

  lemma LandingTracks(cfg: Config, s: Spine, c: Charge)
    requires Tracked(cfg, s) && FingerprintOf(c.fill) !in s.applied
    ensures Tracked(cfg, Landed(cfg, s, c))
  {
    FillsAppend(s.log, OrderFilled(c));
    var fp := FingerprintOf(c.fill);
    assert |FillsIn(s.log)| < cfg.capacity ==> Remember(s.applied, fp, cfg.capacity) == s.applied + [fp];
  }

  /** No delivery, repeated or not, is logged or booked twice while it is retained. */
  lemma ReceivingTracks(cfg: Config, s: Spine, t: Spine, f: Fill, recorded: Option<int>, out: Inbound)
    requires Received(cfg, s, t, f, recorded, out) && Tracked(cfg, s)
    ensures Tracked(cfg, t)
  {
    if out.Duplicate? {
      TouchKeepsLength(s.applied, FingerprintOf(f));
    } else if out in {HalfApplied, OmsRefused, Applied} {
      LandingTracks(cfg, Quoted(cfg, s, f, recorded), Charge(f, FeeFor(cfg, s, f, recorded).value));
    }
  }
}
