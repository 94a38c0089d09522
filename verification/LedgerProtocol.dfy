/** Concurrent fills against one ledger. Both fill doors are cut into the steps
    between which another thread can run; the ledger lock is re-entrant, and any
    durable append may fail. A schedule picks, at each step, the thread and
    whether its append lands. */
module LedgerProtocol {
  import opened Domain

  type Tid = nat

  /** The synchronous door logs the fill before it takes the lock; the inbound
      door proves and logs it while holding the lock. */
  datatype Door = Sync | Inbound

  /** A fill as the ledger sees it; `work` is what the position booker is handed. */
  datatype Job<C> = Job(door: Door, buy: bool, notional: nat, fee: nat, work: C)

  /** `Broken` is a debit refused after the position was booked, or a logged
      inbound fill refused: what the lock has to make impossible. */
  datatype Phase =
    | Recording | Waiting | Checking | Persisting | Reentering
    | Proving | Booking | Moving | Charging
    | Unwinding | Leaving(applied: bool) | Finished(applied: bool) | Broken

  /** What fills move. Positions are booked by whatever function the engine passes. */
  datatype Account<P> = Account(cash: int, fees: int, positions: P)

  datatype Config<!P, !C> = Config(
    floor: bool,
    opening: Account<P>,
    book: (P, C) -> P,
    jobs: map<Tid, Job<C>>)

  datatype State<P> = State(
    account: Account<P>,
    log: seq<Tid>,
    logged: set<Tid>,
    booked: seq<Tid>,
    holder: Option<Tid>,
    depth: nat,
    at: map<Tid, Phase>)

  function Start<P, C>(cfg: Config<P, C>): State<P> {
    State(cfg.opening, [], {}, [], None, 0,
          map t | t in cfg.jobs :: if cfg.jobs[t].door.Sync? then Recording else Waiting)
  }

  function Asked<C>(j: Job<C>): int {
    Owed(j.buy, j.notional, j.fee)
  }

  function Flow<C>(j: Job<C>): int {
    var n: int := j.notional;
    if j.buy then -n else n
  }

  function Goto<P>(s: State<P>, t: Tid, p: Phase): State<P> {
    s.(at := s.at[t := p])
  }

  function Enter<P>(s: State<P>, t: Tid, p: Phase): State<P> {
    if s.holder.None? || s.holder == Some(t) then
      Goto(s, t, p).(holder := Some(t), depth := s.depth + 1)
    else s
  }

  function Exit<P>(s: State<P>, t: Tid, p: Phase): State<P>
    requires s.depth > 0
  {
    Goto(s, t, p).(depth := s.depth - 1, holder := if s.depth == 1 then None else s.holder)
  }

  /** One step of thread `t`; `lands` is the fate of an append if this step makes one. */
  function Step<P, C>(cfg: Config<P, C>, s: State<P>, t: Tid, lands: bool): State<P> {
    if t !in cfg.jobs || t !in s.at then s else
      var j := cfg.jobs[t];
      match s.at[t]
      case Recording =>
        if lands then Goto(s, t, Waiting).(log := s.log + [t], logged := s.logged + {t})
        else Goto(s, t, Finished(false))
      case Waiting => Enter(s, t, if j.door.Sync? then Proving else Checking)
      case Checking =>
        Goto(s, t, if Affords(cfg.floor, s.account.cash, Asked(j)) then Persisting else Leaving(false))
      case Persisting =>
        if lands then Goto(s, t, Reentering).(log := s.log + [t], logged := s.logged + {t})
        else Goto(s, t, Leaving(false))
      case Reentering => Enter(s, t, Proving)
      case Proving =>
        if Affords(cfg.floor, s.account.cash, Asked(j)) then Goto(s, t, Booking)
        else Goto(s, t, if j.door.Sync? then Leaving(false) else Broken)
      case Booking =>
        Goto(s, t, Moving).(account := s.account.(positions := cfg.book(s.account.positions, j.work)))
      case Moving =>
        if j.buy && !Affords(cfg.floor, s.account.cash, j.notional) then Goto(s, t, Broken)
        else Goto(s, t, Charging).(account := s.account.(cash := s.account.cash + Flow(j)))
      case Charging =>
        if !Affords(cfg.floor, s.account.cash, j.fee) then Goto(s, t, Broken)
        else
          Goto(s, t, if j.door.Sync? then Leaving(true) else Unwinding)
            .(account := s.account.(cash := s.account.cash - j.fee, fees := s.account.fees + j.fee),
              booked := s.booked + [t])
      case Unwinding => if s.depth > 0 then Exit(s, t, Leaving(true)) else s
      case Leaving(applied) => if s.depth > 0 then Exit(s, t, Finished(applied)) else s
      case Finished(_) => s
      case Broken => s
  }

  datatype Tick = Tick(thread: Tid, lands: bool)

  function Run<P, C>(cfg: Config<P, C>, schedule: seq<Tick>): State<P> {
    if schedule == [] then Start(cfg) else
      var last := schedule[|schedule| - 1];
      Step(cfg, Run(cfg, schedule[..|schedule| - 1]), last.thread, last.lands)
  }

  // ---- the invariant ------------------------------------------------------

  /** Lock levels a thread in phase `p` owns. */
  function Levels(p: Phase): nat {
    match p
    case Checking | Persisting | Reentering | Leaving(_) => 1
    case Proving | Booking | Moving | Charging => 1
    case Unwinding => 2
    case _ => 0
  }

  function Owned(door: Door, p: Phase): nat {
    if door.Inbound? && (p.Proving? || p.Booking? || p.Moving? || p.Charging?) then 2 else Levels(p)
  }

  predicate Done(p: Phase) {
    p.Unwinding? || (p.Leaving? && p.applied) || (p.Finished? && p.applied)
  }

  predicate Logged(door: Door, p: Phase) {
    if door.Sync? then !p.Recording? && p != Finished(false)
    else p in {Reentering, Proving, Booking, Moving, Charging} || Done(p)
  }

  /** The proof has passed and nothing has been debited yet. */
  predicate Proved(door: Door, p: Phase) {
    p in {Persisting, Reentering, Booking} || (door.Inbound? && p.Proving?)
  }

  /** One whole fill, as if nothing else were running. */
  function Apply<P, C>(cfg: Config<P, C>, a: Account<P>, j: Job<C>): Account<P> {
    Account(a.cash + Flow(j) - j.fee, a.fees + j.fee, cfg.book(a.positions, j.work))
  }

  /** The account a serial execution has after the fills of `ts`, in that order. */
  function Serial<P, C>(cfg: Config<P, C>, ts: seq<Tid>): Account<P>
    requires forall t :: t in ts ==> t in cfg.jobs
  {
    if ts == [] then cfg.opening
    else Apply(cfg, Serial(cfg, ts[..|ts| - 1]), cfg.jobs[ts[|ts| - 1]])
  }

  /** The serial account, plus whatever part of its own fill the lock holder has moved. */
  ghost function Expected<P, C>(cfg: Config<P, C>, s: State<P>): Account<P>
    requires Shape(cfg, s)
  {
    var base := Serial(cfg, s.booked);
    if s.holder.None? then base else
      var j := cfg.jobs[s.holder.value];
      match s.at[s.holder.value]
      case Moving => base.(positions := cfg.book(base.positions, j.work))
      case Charging => base.(positions := cfg.book(base.positions, j.work), cash := base.cash + Flow(j))
      case _ => base
  }

  ghost predicate Shape<P, C>(cfg: Config<P, C>, s: State<P>) {
    && s.at.Keys == cfg.jobs.Keys
    && (forall t :: t in s.booked ==> t in cfg.jobs)
    && (s.holder.Some? ==> s.holder.value in cfg.jobs)
    && (s.holder.None? ==> s.depth == 0)
  }

  ghost predicate Local<P, C>(cfg: Config<P, C>, s: State<P>, t: Tid)
    requires Shape(cfg, s) && t in cfg.jobs
  {
    var p, door := s.at[t], cfg.jobs[t].door;
    && !p.Broken?
    && (Owned(door, p) > 0 <==> s.holder == Some(t))
    && (s.holder == Some(t) ==> s.depth == Owned(door, p))
    && (door.Sync? ==> p !in {Checking, Persisting, Reentering, Unwinding})
    && (door.Inbound? ==> !p.Recording?)
    && (t in s.booked <==> Done(p))
    && (Logged(door, p) ==> t in s.logged)
    && (door.Inbound? && t in s.logged ==> Logged(door, p))
    && (Proved(door, p) || p.Moving? ==> Affords(cfg.floor, Serial(cfg, s.booked).cash, Asked(cfg.jobs[t])))
    && (p.Charging? ==> Affords(cfg.floor, s.account.cash, cfg.jobs[t].fee))
  }

  ghost predicate Funded<P, C>(cfg: Config<P, C>, s: State<P>)
    requires Shape(cfg, s)
  {
    cfg.floor && cfg.opening.cash >= 0 ==> s.account.cash >= 0 && Serial(cfg, s.booked).cash >= 0
  }

  ghost predicate Distinct(ts: seq<Tid>) {
    forall i, j :: 0 <= i < j < |ts| ==> ts[i] != ts[j]
  }

  ghost predicate Inv<P, C>(cfg: Config<P, C>, s: State<P>) {
    && Shape(cfg, s)
    && (forall t :: t in cfg.jobs ==> Local(cfg, s, t))
    && s.account == Expected(cfg, s)
    && Distinct(s.booked)
    && Funded(cfg, s)
  }

  lemma SerialAppends<P, C>(cfg: Config<P, C>, ts: seq<Tid>, t: Tid)
    requires t in cfg.jobs && forall u :: u in ts ==> u in cfg.jobs
    ensures Serial(cfg, ts + [t]) == Apply(cfg, Serial(cfg, ts), cfg.jobs[t])
  {
    assert (ts + [t])[..|ts|] == ts;
  }

  /** What a step of `t` may do to the rest of the system: nothing to another
      thread's phase, and nothing at all to what a lock holder relies on. */
  ghost predicate Contained<P>(s: State<P>, s': State<P>, t: Tid) {
    && (s'.at == s.at || (t in s'.at && s'.at == s.at[t := s'.at[t]]))
    && (s'.booked == s.booked || s'.booked == s.booked + [t])
    && (s'.logged == s.logged || s'.logged == s.logged + {t})
    && (s.holder != Some(t) && s'.holder != Some(t) ==>
         s'.holder == s.holder && s'.depth == s.depth && s'.account == s.account && s'.booked == s.booked)
    && (s.holder == Some(t) || s'.holder == Some(t) ==>
         s.holder in {None, Some(t)} && s'.holder in {None, Some(t)})
  }

  lemma OthersUndisturbed<P, C>(cfg: Config<P, C>, s: State<P>, s': State<P>, t: Tid, u: Tid)
    requires Shape(cfg, s) && Shape(cfg, s') && u in cfg.jobs && u != t
    requires Contained(s, s', t) && Local(cfg, s, u)
    ensures Local(cfg, s', u)
  {
  }

  /** The stepping thread's own part of the invariant, and the account it leaves. */
  ghost predicate Own<P, C>(cfg: Config<P, C>, s: State<P>, t: Tid)
    requires t in cfg.jobs
  {
    && Shape(cfg, s)
    && Local(cfg, s, t)
    && s.account == Expected(cfg, s)
    && Funded(cfg, s)
  }

  lemma EnterStep<P, C>(cfg: Config<P, C>, s: State<P>, t: Tid, lands: bool)
    requires t in cfg.jobs && Own(cfg, s, t)
    requires s.at[t].Waiting? || s.at[t].Reentering?
    ensures var s' := Step(cfg, s, t, lands);
      Own(cfg, s', t) && Contained(s, s', t) && s'.booked == s.booked
  {
  }

  lemma ExitStep<P, C>(cfg: Config<P, C>, s: State<P>, t: Tid, lands: bool)
    requires t in cfg.jobs && Own(cfg, s, t)
    requires s.at[t].Unwinding? || s.at[t].Leaving?
    ensures var s' := Step(cfg, s, t, lands);
      Own(cfg, s', t) && Contained(s, s', t) && s'.booked == s.booked
  {
  }

  lemma ProofStep<P, C>(cfg: Config<P, C>, s: State<P>, t: Tid, lands: bool)
    requires t in cfg.jobs && Own(cfg, s, t)
    requires s.at[t].Checking? || s.at[t].Proving?
    ensures var s' := Step(cfg, s, t, lands);
      Own(cfg, s', t) && Contained(s, s', t) && s'.booked == s.booked
  {
  }

  lemma LogStep<P, C>(cfg: Config<P, C>, s: State<P>, t: Tid, lands: bool)
    requires t in cfg.jobs && Own(cfg, s, t)
    requires s.at[t].Recording? || s.at[t].Persisting?
    ensures var s' := Step(cfg, s, t, lands);
      Own(cfg, s', t) && Contained(s, s', t) && s'.booked == s.booked
  {
  }

  lemma MoneyStep<P, C>(cfg: Config<P, C>, s: State<P>, t: Tid, lands: bool)
    requires t in cfg.jobs && Own(cfg, s, t)
    requires s.at[t].Booking? || s.at[t].Moving?
    ensures var s' := Step(cfg, s, t, lands);
      Own(cfg, s', t) && Contained(s, s', t) && s'.booked == s.booked
  {
  }

  lemma ChargingStep<P, C>(cfg: Config<P, C>, s: State<P>, t: Tid, lands: bool)
    requires t in cfg.jobs && Own(cfg, s, t) && s.at[t].Charging?
    ensures var s' := Step(cfg, s, t, lands);
      Own(cfg, s', t) && Contained(s, s', t) && s'.booked == s.booked + [t]
  {
    SerialAppends(cfg, s.booked, t);
  }

  lemma DistinctAppends(ts: seq<Tid>, t: Tid)
    requires Distinct(ts) && t !in ts
    ensures Distinct(ts + [t])
  {
  }

  lemma StepKeepsInv<P, C>(cfg: Config<P, C>, s: State<P>, t: Tid, lands: bool)
    requires Inv(cfg, s)
    ensures Inv(cfg, Step(cfg, s, t, lands))
  {
    if t in cfg.jobs {
      assert Local(cfg, s, t);
      if s.at[t].Charging? {
        ChargingStep(cfg, s, t, lands);
        DistinctAppends(s.booked, t);
      } else if s.at[t].Booking? || s.at[t].Moving? {
        MoneyStep(cfg, s, t, lands);
      } else if s.at[t].Checking? || s.at[t].Proving? {
        ProofStep(cfg, s, t, lands);
      } else if s.at[t].Recording? || s.at[t].Persisting? {
        LogStep(cfg, s, t, lands);
      } else if s.at[t].Waiting? || s.at[t].Reentering? {
        EnterStep(cfg, s, t, lands);
      } else if s.at[t].Unwinding? || s.at[t].Leaving? {
        ExitStep(cfg, s, t, lands);
      }
      var s' := Step(cfg, s, t, lands);
      forall u | u in cfg.jobs && u != t
        ensures Local(cfg, s', u)
      {
        OthersUndisturbed(cfg, s, s', t, u);
      }
    }
  }

  /** Under every interleaving and every pattern of failed appends. */
  lemma {:induction false} RunKeepsInv<P, C>(cfg: Config<P, C>, schedule: seq<Tick>)
    ensures Inv(cfg, Run(cfg, schedule))
  {
    if schedule == [] {
    } else {
      var last := schedule[|schedule| - 1];
      RunKeepsInv(cfg, schedule[..|schedule| - 1]);
      StepKeepsInv(cfg, Run(cfg, schedule[..|schedule| - 1]), last.thread, last.lands);
    }
  }

  // ---- what no interleaving can do ----------------------------------------

  /** No thread ever fails a debit after its proof passed or loses a logged inbound
      fill, and the floor holds at every step, not only between fills. */
  lemma NoInterleavingOverdraws<P, C>(cfg: Config<P, C>, schedule: seq<Tick>, t: Tid)
    requires t in cfg.jobs
    ensures var s := Run(cfg, schedule);
      && t in s.at && !s.at[t].Broken?
      && (cfg.floor && cfg.opening.cash >= 0 ==> s.account.cash >= 0)
  {
    RunKeepsInv(cfg, schedule);
    assert Local(cfg, Run(cfg, schedule), t);
  }

  /** Concurrent fills are serializable: whenever the lock is free, the account is
      that of running, one after another, exactly the fills whose threads reported
      success. Each is booked once, was logged first, and a refused one left no
      trace; on the inbound door not even in the log. */
  lemma FillsAreSerializable<P, C>(cfg: Config<P, C>, schedule: seq<Tick>)
    ensures var s := Run(cfg, schedule);
      && Shape(cfg, s) && Distinct(s.booked)
      && (s.holder.None? ==> s.account == Serial(cfg, s.booked))
      && (forall t :: t in cfg.jobs && s.at[t].Finished? ==>
            && (t in s.booked <==> s.at[t].applied)
            && (t in s.booked ==> t in s.logged)
            && (cfg.jobs[t].door.Inbound? && t in s.logged ==> t in s.booked))
  {
    RunKeepsInv(cfg, schedule);
    var s := Run(cfg, schedule);
    forall t | t in cfg.jobs && s.at[t].Finished?
      ensures (t in s.booked <==> s.at[t].applied) && (t in s.booked ==> t in s.logged)
      ensures cfg.jobs[t].door.Inbound? && t in s.logged ==> t in s.booked
    {
      assert Local(cfg, s, t);
    }
  }

  lemma RunAppends<P, C>(cfg: Config<P, C>, schedule: seq<Tick>, t: Tid, lands: bool)
    ensures Run(cfg, schedule + [Tick(t, lands)]) == Step(cfg, Run(cfg, schedule), t, lands)
  {
    assert (schedule + [Tick(t, lands)])[..|schedule|] == schedule;
  }

  // ---- log order and booking order ---------------------------------------------

  /** The log with everything dropped that was never booked. */
  function OnlyBooked(log: seq<Tid>, booked: seq<Tid>): seq<Tid> {
    if log == [] then []
    else OnlyBooked(log[..|log| - 1], booked) + (if log[|log| - 1] in booked then [log[|log| - 1]] else [])
  }

  /** Fills were booked in the order they were logged. */
  ghost predicate OrdersAgree<P>(s: State<P>) {
    OnlyBooked(s.log, s.booked) == s.booked
  }

  lemma {:induction false} AllAreBooked(log: seq<Tid>, booked: seq<Tid>)
    requires forall t :: t in log ==> t in booked
    ensures OnlyBooked(log, booked) == log
  {
    if log != [] {
      AllAreBooked(log[..|log| - 1], booked);
      assert log == log[..|log| - 1] + [log[|log| - 1]];
    }
  }

  predicate AllInbound<P, C>(cfg: Config<P, C>) {
    forall t :: t in cfg.jobs ==> cfg.jobs[t].door.Inbound?
  }

  /** On the inbound door only the lock holder can be logged and not yet booked. */
  ghost predicate LoggedInTurn<P, C>(cfg: Config<P, C>, s: State<P>)
    requires Shape(cfg, s)
  {
    s.log == if s.holder.Some? && s.at[s.holder.value] in {Reentering, Proving, Booking, Moving, Charging}
             then s.booked + [s.holder.value] else s.booked
  }

  lemma StepLogsInTurn<P, C>(cfg: Config<P, C>, s: State<P>, t: Tid, lands: bool)
    requires AllInbound(cfg) && Inv(cfg, s) && LoggedInTurn(cfg, s) && Shape(cfg, Step(cfg, s, t, lands))
    ensures LoggedInTurn(cfg, Step(cfg, s, t, lands))
  {
    if t in cfg.jobs {
      assert Local(cfg, s, t);
    }
  }

  lemma {:induction false} InboundLogsInTurn<P, C>(cfg: Config<P, C>, schedule: seq<Tick>)
    requires AllInbound(cfg)
    ensures Inv(cfg, Run(cfg, schedule)) && LoggedInTurn(cfg, Run(cfg, schedule))
  {
    RunKeepsInv(cfg, schedule);
    if schedule != [] {
      var init, last := schedule[..|schedule| - 1], schedule[|schedule| - 1];
      InboundLogsInTurn(cfg, init);
      StepLogsInTurn(cfg, Run(cfg, init), last.thread, last.lands);
    }
  }

  /** A lone synchronous fill is logged at most once, and before it is booked. */
  ghost predicate LoneInTurn<P>(s: State<P>, t: Tid) {
    && t in s.at
    && s.log == (if s.at[t].Recording? || (s.at[t] == Finished(false) && s.log == []) then [] else [t])
    && s.booked == (if Done(s.at[t]) then [t] else [])
  }

  lemma StepLogsAlone<P, C>(cfg: Config<P, C>, s: State<P>, t: Tid, lands: bool)
    requires t in cfg.jobs && cfg.jobs[t].door.Sync? && Inv(cfg, s) && LoneInTurn(s, t)
    ensures LoneInTurn(Step(cfg, s, t, lands), t)
  {
    assert Local(cfg, s, t);
  }

  lemma {:induction false} LoneFillLogsInTurn<P, C>(cfg: Config<P, C>, schedule: seq<Tick>, t: Tid)
    requires cfg.jobs.Keys == {t} && cfg.jobs[t].door.Sync?
    ensures LoneInTurn(Run(cfg, schedule), t)
  {
    if schedule != [] {
      var init, last := schedule[..|schedule| - 1], schedule[|schedule| - 1];
      LoneFillLogsInTurn(cfg, init, t);
      RunKeepsInv(cfg, init);
      if last.thread == t {
        StepLogsAlone(cfg, Run(cfg, init), t, last.lands);
      }
    }
  }

  ghost predicate Alone<P, C>(cfg: Config<P, C>, t: Tid) {
    cfg.jobs.Keys == {t}
  }

  /** With only inbound fills, or a single fill, booking order is log order whenever the lock
      is free, over every schedule. */
  lemma BookedAsLogged<P, C>(cfg: Config<P, C>, schedule: seq<Tick>)
    requires AllInbound(cfg) || exists t :: Alone(cfg, t)
    ensures var s := Run(cfg, schedule); s.holder.None? ==> OrdersAgree(s)
  {
    var s := Run(cfg, schedule);
    if AllInbound(cfg) {
      InboundLogsInTurn(cfg, schedule);
      if s.holder.None? {
        AllAreBooked(s.log, s.booked);
      }
    } else {
      var t :| Alone(cfg, t);
      LoneFillLogsInTurn(cfg, schedule, t);
      assert [t][..0] == [] && OnlyBooked([], s.booked) == [];
    }
  }

  /** What a fill leaves in cash. */
  function After<C>(cash: int, j: Job<C>): int {
    cash + Flow(j) - j.fee
  }

  /** Enough for both debits of a fill, which never takes more than was asked for. */
  lemma EnoughForBoth<C>(floor: bool, cash: int, j: Job<C>)
    requires Affords(floor, cash, Asked(j))
    ensures j.buy ==> Affords(floor, cash, j.notional)
    ensures Affords(floor, cash + Flow(j), j.fee)
    ensures After(cash, j) >= cash - Asked(j) && Asked(j) >= 0
  {
  }

  /** `n` steps of one thread, all its appends landing. */
  function Repeat<P, C>(cfg: Config<P, C>, s: State<P>, t: Tid, n: nat): State<P> {
    if n == 0 then s else Step(cfg, Repeat(cfg, s, t, n - 1), t, true)
  }

  lemma {:induction false} Scheduled<P, C>(cfg: Config<P, C>, schedule: seq<Tick>, t: Tid, n: nat)
    returns (longer: seq<Tick>)
    ensures Run(cfg, longer) == Repeat(cfg, Run(cfg, schedule), t, n)
  {
    if n == 0 {
      longer := schedule;
    } else {
      longer := Scheduled(cfg, schedule, t, n - 1);
      RunAppends(cfg, longer, t, true);
      longer := longer + [Tick(t, true)];
    }
  }

  /** From its proof to its last debit, a fill that can be paid for is booked. */
  lemma PaysUp<P, C>(cfg: Config<P, C>, s: State<P>, t: Tid)
    requires t in cfg.jobs && t in s.at && s.at[t].Proving?
    requires Affords(cfg.floor, s.account.cash, Asked(cfg.jobs[t]))
    ensures var s', j := Repeat(cfg, s, t, 4), cfg.jobs[t];
      && s'.at == s.at[t := if j.door.Sync? then Leaving(true) else Unwinding]
      && s'.account.cash == After(s.account.cash, j) && s'.booked == s.booked + [t]
      && s'.holder == s.holder && s'.depth == s.depth && s'.log == s.log
  {
    var j := cfg.jobs[t];
    EnoughForBoth(cfg.floor, s.account.cash, j);
    assert Repeat(cfg, s, t, 1) == Goto(s, t, Booking);
    var booked := cfg.book(s.account.positions, j.work);
    assert Repeat(cfg, s, t, 2) == Goto(s, t, Moving).(account := s.account.(positions := booked));
    assert Repeat(cfg, s, t, 3) == Goto(s, t, Charging)
      .(account := s.account.(positions := booked, cash := s.account.cash + Flow(j)));
  }

  /** The lock is free, and so is the thread's way to it. */
  ghost predicate Idle<P>(s: State<P>, t: Tid) {
    t in s.at && s.at[t].Waiting? && s.holder.None? && s.depth == 0
  }

  /** The thread has just booked its fill, and nothing else has happened. */
  ghost predicate Completed<P, C>(cfg: Config<P, C>, s: State<P>, s': State<P>, t: Tid)
    requires t in cfg.jobs
  {
    && s'.at == s.at[t := Finished(true)] && s'.holder.None? && s'.depth == 0
    && s'.booked == s.booked + [t] && s'.account.cash == After(s.account.cash, cfg.jobs[t])
  }

  /** A synchronous thread that has logged its fill, can pay for it and finds the lock free
      can run through to the end. */
  lemma RunsThrough<P, C>(cfg: Config<P, C>, schedule: seq<Tick>, t: Tid) returns (longer: seq<Tick>)
    requires t in cfg.jobs && cfg.jobs[t].door.Sync? && Idle(Run(cfg, schedule), t)
    requires Affords(cfg.floor, Run(cfg, schedule).account.cash, Asked(cfg.jobs[t]))
    ensures Completed(cfg, Run(cfg, schedule), Run(cfg, longer), t) && Run(cfg, longer).log == Run(cfg, schedule).log
  {
    var s := Run(cfg, schedule);
    longer := Scheduled(cfg, schedule, t, 1);
    var entered := Run(cfg, longer);
    assert entered == Goto(s, t, Proving).(holder := Some(t), depth := 1);
    PaysUp(cfg, entered, t);
    longer := Scheduled(cfg, longer, t, 4);
    longer := Scheduled(cfg, longer, t, 1);
  }

  /** So can an inbound one that has not started. */
  lemma InboundRunsThrough<P, C>(cfg: Config<P, C>, schedule: seq<Tick>, t: Tid) returns (longer: seq<Tick>)
    requires t in cfg.jobs && cfg.jobs[t].door.Inbound? && Idle(Run(cfg, schedule), t)
    requires Affords(cfg.floor, Run(cfg, schedule).account.cash, Asked(cfg.jobs[t]))
    ensures Completed(cfg, Run(cfg, schedule), Run(cfg, longer), t)
    ensures Run(cfg, longer).log == Run(cfg, schedule).log + [t]
  {
    var s := Run(cfg, schedule);
    longer := Scheduled(cfg, schedule, t, 4);
    InboundLogs(cfg, s, t);
    var entered := Run(cfg, longer);
    PaysUp(cfg, entered, t);
    longer := Scheduled(cfg, longer, t, 4);
    InboundExits(cfg, Run(cfg, longer), t);
    longer := Scheduled(cfg, longer, t, 2);
  }

  lemma InboundExits<P, C>(cfg: Config<P, C>, s: State<P>, t: Tid)
    requires t in cfg.jobs && t in s.at && s.at[t].Unwinding? && s.depth == 2
    ensures Repeat(cfg, s, t, 2) == Goto(s, t, Finished(true)).(holder := None, depth := 0)
  {
    assert Repeat(cfg, s, t, 1) == Goto(s, t, Leaving(true)).(depth := 1);
  }

  lemma InboundLogs<P, C>(cfg: Config<P, C>, s: State<P>, t: Tid)
    requires t in cfg.jobs && cfg.jobs[t].door.Inbound? && Idle(s, t)
    requires Affords(cfg.floor, s.account.cash, Asked(cfg.jobs[t]))
    ensures Repeat(cfg, s, t, 4) ==
      Goto(s, t, Proving).(holder := Some(t), depth := 2, log := s.log + [t], logged := s.logged + {t})
  {
    assert Repeat(cfg, s, t, 1) == Goto(s, t, Checking).(holder := Some(t), depth := 1);
    assert Repeat(cfg, s, t, 2) == Goto(s, t, Persisting).(holder := Some(t), depth := 1);
    assert Repeat(cfg, s, t, 3)
      == Goto(s, t, Reentering).(holder := Some(t), depth := 1, log := s.log + [t], logged := s.logged + {t});
  }

  /** A fill of either door that has not started can be logged and booked while the lock is free. */
  lemma LogsAndBooks<P, C>(cfg: Config<P, C>, schedule: seq<Tick>, t: Tid) returns (longer: seq<Tick>)
    requires t in cfg.jobs && t in Start(cfg).at
    requires var s := Run(cfg, schedule);
      t in s.at && s.at[t] == Start(cfg).at[t] && s.holder.None? && s.depth == 0
    requires Affords(cfg.floor, Run(cfg, schedule).account.cash, Asked(cfg.jobs[t]))
    ensures Completed(cfg, Run(cfg, schedule), Run(cfg, longer), t)
    ensures Run(cfg, longer).log == Run(cfg, schedule).log + [t]
  {
    if cfg.jobs[t].door.Sync? {
      RunAppends(cfg, schedule, t, true);
      longer := RunsThrough(cfg, schedule + [Tick(t, true)], t);
    } else {
      longer := InboundRunsThrough(cfg, schedule, t);
    }
  }

  /** The opening balance pays for any two of the fills; without a floor it always does. */
  ghost predicate PaysForTwo<P, C>(cfg: Config<P, C>, t: Tid, u: Tid)
    requires t in cfg.jobs && u in cfg.jobs
  {
    Affords(cfg.floor, cfg.opening.cash, Asked(cfg.jobs[t]) + Asked(cfg.jobs[u]))
  }

  /** The synchronous door logs outside the lock, so a fill of either door can be logged after
      it and booked before it. */
  lemma LogAndBookOrderCanDiffer<P, C>(cfg: Config<P, C>, t: Tid, u: Tid) returns (schedule: seq<Tick>)
    requires t in cfg.jobs && u in cfg.jobs && t != u && cfg.jobs[t].door.Sync? && PaysForTwo(cfg, t, u)
    ensures var s := Run(cfg, schedule);
      s.log == [t, u] && s.booked == [u, t] && s.holder.None? && !OrdersAgree(s)
  {
    RunAppends(cfg, [], t, true);
    EnoughForEach(cfg.floor, cfg.opening.cash, cfg.jobs[u], cfg.jobs[t]);
    schedule := LogsAndBooks(cfg, [] + [Tick(t, true)], u);
    schedule := RunsThrough(cfg, schedule, t);
    AllAreBooked([t, u], [u, t]);
  }

  lemma EnoughForEach<C>(floor: bool, cash: int, first: Job<C>, second: Job<C>)
    requires Affords(floor, cash, Asked(second) + Asked(first))
    ensures Affords(floor, cash, Asked(first)) && Affords(floor, After(cash, first), Asked(second))
  {
  }

  /** While the opening balance pays for any two fills, booking order is log order over every
      schedule if and only if every fill is inbound or there is just one. */
  lemma OrdersAgreeExactlyWhen<P, C>(cfg: Config<P, C>)
    requires forall t, u :: t in cfg.jobs && u in cfg.jobs && t != u ==> PaysForTwo(cfg, t, u)
    ensures (forall schedule :: Run(cfg, schedule).holder.None? ==> OrdersAgree(Run(cfg, schedule)))
      <==> AllInbound(cfg) || exists t :: Alone(cfg, t)
  {
    if AllInbound(cfg) || exists t :: Alone(cfg, t) {
      forall schedule ensures Run(cfg, schedule).holder.None? ==> OrdersAgree(Run(cfg, schedule)) {
        BookedAsLogged(cfg, schedule);
      }
    } else {
      var t :| t in cfg.jobs && cfg.jobs[t].door.Sync?;
      assert !Alone(cfg, t);
      var u :| u in cfg.jobs && u != t;
      var schedule := LogAndBookOrderCanDiffer(cfg, t, u);
      assert Run(cfg, schedule).holder.None? && !OrdersAgree(Run(cfg, schedule));
    }
  }
}
