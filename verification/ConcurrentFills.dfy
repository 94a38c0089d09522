/** The ledger protocol with the real position booker plugged in, and what the
    order of booking does and does not change. */
module ConcurrentFills {
  import opened Domain
  import opened Paisa
  import opened PositionMath
  import opened Book
  import CL = CashLedger
  import LP = LedgerProtocol

  type Config = LP.Config<map<string, Position>, Charge>

  ghost predicate Trading(cfg: Config) {
    && (forall ps, c :: cfg.book(ps, c) == BookPosition(ps, c))
    && (forall t :: t in cfg.jobs ==>
          var j := cfg.jobs[t];
          && CL.Payable(j.work)
          && j.buy == j.work.fill.side.Buy?
          && j.notional == CL.Notional(j.work.fill)
          && j.fee == j.work.fee)
  }

  function BookOf(a: LP.Account<map<string, Position>>): Book {
    Book(a.cash, a.fees, a.positions)
  }

  function Charges(cfg: Config, ts: seq<LP.Tid>): seq<Charge>
    requires forall t :: t in ts ==> t in cfg.jobs
  {
    if ts == [] then [] else Charges(cfg, ts[..|ts| - 1]) + [cfg.jobs[ts[|ts| - 1]].work]
  }

  lemma {:induction false} SerialIsBookRun(cfg: Config, ts: seq<LP.Tid>)
    requires Trading(cfg) && forall t :: t in ts ==> t in cfg.jobs
    ensures BookOf(LP.Serial(cfg, ts)) == BookRun(BookOf(cfg.opening), Charges(cfg, ts))
  {
    if ts != [] {
      var init, j := ts[..|ts| - 1], cfg.jobs[ts[|ts| - 1]];
      SerialIsBookRun(cfg, init);
      BookRunAppends(BookOf(cfg.opening), Charges(cfg, init), j.work);
      CL.NotionalIsCashFlow(j.work.fill);
    }
  }

  /** Whenever the lock is free, the live book is the book of the applied fills run
      one at a time through the ledger. */
  lemma ConcurrentBookIsSerial(cfg: Config, schedule: seq<LP.Tick>)
    requires Trading(cfg)
    ensures var s := LP.Run(cfg, schedule);
      LP.Shape(cfg, s) && (s.holder.None? ==>
        BookOf(s.account) == BookRun(BookOf(cfg.opening), Charges(cfg, s.booked)))
  {
    LP.FillsAreSerializable(cfg, schedule);
    SerialIsBookRun(cfg, LP.Run(cfg, schedule).booked);
  }

  // ---- what booking order changes -----------------------------------------

  function Total<T>(xs: seq<T>, g: T -> int): int {
    if xs == [] then 0 else Total(xs[..|xs| - 1], g) + g(xs[|xs| - 1])
  }

  lemma {:induction false} TotalWithout<T>(xs: seq<T>, g: T -> int, i: nat)
    requires i < |xs|
    ensures Total(xs, g) == Total(xs[..i] + xs[i + 1..], g) + g(xs[i])
  {
    var rest := xs[..i] + xs[i + 1..];
    if i < |xs| - 1 {
      var init := xs[..|xs| - 1];
      TotalWithout(init, g, i);
      assert rest[..|rest| - 1] == init[..i] + init[i + 1..];
    } else {
      assert rest == xs[..|xs| - 1];
    }
  }

  lemma ContentsWithout<T>(xs: seq<T>, i: nat)
    requires i < |xs|
    ensures multiset(xs[..i] + xs[i + 1..]) == multiset(xs) - multiset{xs[i]}
  {
    assert xs == xs[..i] + [xs[i]] + xs[i + 1..];
  }

  lemma {:induction false} TotalIgnoresOrder<T>(xs: seq<T>, ys: seq<T>, g: T -> int)
    requires multiset(xs) == multiset(ys)
    ensures Total(xs, g) == Total(ys, g)
  {
    if xs == [] {
      assert |multiset(ys)| == 0;
    } else {
      var n := |xs| - 1;
      assert xs[n] in multiset(ys);
      var i :| 0 <= i < |ys| && ys[i] == xs[n];
      ContentsWithout(xs, n);
      ContentsWithout(ys, i);
      TotalWithout(ys, g, i);
      assert xs[..n] + xs[n + 1..] == xs[..n];
      TotalIgnoresOrder(xs[..n], ys[..i] + ys[i + 1..], g);
    }
  }

  function NetFlow(c: Charge): int {
    CashFlow(c.fill) - c.fee
  }

  function Fee(c: Charge): int {
    c.fee
  }

  lemma {:induction false} CashIsSummed(b: Book, cs: seq<Charge>)
    ensures BookRun(b, cs).cash == b.cash + Total(cs, NetFlow)
    ensures BookRun(b, cs).fees == b.fees + Total(cs, Fee)
  {
    if cs != [] {
      CashIsSummed(b, cs[..|cs| - 1]);
    }
  }

  /** Cash and fees do not depend on the order fills are booked in. */
  lemma CashIgnoresOrder(b: Book, cs: seq<Charge>, ds: seq<Charge>)
    requires multiset(cs) == multiset(ds)
    ensures BookRun(b, cs).cash == BookRun(b, ds).cash
    ensures BookRun(b, cs).fees == BookRun(b, ds).fees
  {
    CashIsSummed(b, cs);
    CashIsSummed(b, ds);
    TotalIgnoresOrder(cs, ds, NetFlow);
    TotalIgnoresOrder(cs, ds, Fee);
  }

  /** Positions do. Holding one share at 100, a sale at 200 and a purchase at 300
      realize 100 in that order and nothing in the other, so a log written in one
      order does not rebuild a book written in the other. */
  lemma OrderChangesRealized(b: Book, sale: Charge, purchase: Charge)
    requires "X" in b.positions && b.positions["X"] == Position(1, 100, 0, None)
    requires sale.fee == 0 && sale.fill.instrument == "X" && sale.fill.side.Sell?
    requires sale.fill.qty == 1 && sale.fill.price == 200
    requires purchase.fee == 0 && purchase.fill.instrument == "X" && purchase.fill.side.Buy?
    requires purchase.fill.qty == 1 && purchase.fill.price == 300
    ensures BookFill(BookFill(b, sale), purchase).positions["X"] == Position(1, 300, 100, None)
    ensures BookFill(BookFill(b, purchase), sale).positions["X"] == Position(1, 200, 0, None)
  {
    ReducedPosition(b.positions["X"], sale.fill);
    ExactRounds(300, 1);
    ExactRounds(200, 2);
    ReducedPosition(Position(2, 200, 0, None), sale.fill);
  }
}
