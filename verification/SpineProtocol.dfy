/** Submissions that race for an idempotency key. Every client call is a thread
    cut into the steps between which others can run; any durable append may fail,
    the venue may accept, reject locally or leave the outcome unknown, orders may
    be cancelled and the kill switch thrown at any moment. */
module SpineProtocol {
  import opened Domain

  type Tid = nat
  type Cid = string
  type OrderId = nat

  /** A key is free when absent. `owner` records which thread reserved it; the guard
      itself never reads it. */
  datatype Key = Reserved(hash: string, owner: Tid) | Completed(hash: string)

  /** A submit, or a cancel or modify that carries a correlation id of its own. */
  datatype Job = Submit(cid: Cid, hash: string) | Mutate(cid: Cid, hash: string)

  datatype Phase =
    | Intake | Reserving | Vetting | Intent | Sending
    | Placing(order: OrderId) | Acking(order: OrderId) | Stamping(order: OrderId)
    | Completing
    | Mutating
    | Finished

  /** What the environment does to a step: lets it through, stops it (a gate, a
      failed append, a local rejection), accepts the order, or loses the answer
      of a venue that did or did not take the order. */
  datatype Fate = Go | Stop | Accept(order: OrderId) | Lose(order: OrderId, taken: bool)

  /** `Pop` and `Hand` are the two halves of what any cancel does to the key of the
      order it cancelled: take it out of the side table, then release it. */
  datatype Action = Advance(t: Tid, fate: Fate) | Halt | Resume | Pop(order: OrderId) | Hand(cid: Cid)

  /** `fused` says that stamping the side table and completing the key of an
      acknowledged order happen with no cancel in between. */
  datatype Config = Config(jobs: map<Tid, Job>, fused: bool)

  /** `accepted` is the venue's own record; `sent` are the threads whose request may
      have reached it. */
  datatype State = State(
    guard: map<Cid, Key>,
    accepted: map<OrderId, Cid>,
    side: map<OrderId, Cid>,
    popped: set<Cid>,
    sent: set<Tid>,
    halted: bool,
    at: map<Tid, Phase>)

  function Start(cfg: Config): State {
    State(map[], map[], map[], {}, {}, false, map t | t in cfg.jobs :: Intake)
  }

  /** `release` is a no-op unless the key is reserved. */
  function Release(guard: map<Cid, Key>, cid: Cid): map<Cid, Key> {
    if cid in guard && guard[cid].Reserved? then guard - {cid} else guard
  }

  function Goto(s: State, t: Tid, p: Phase): State {
    s.(at := s.at[t := p])
  }

  function GiveUp(s: State, t: Tid, cid: Cid): State {
    Goto(s, t, Finished).(guard := Release(s.guard, cid))
  }

  function Record(s: State, cid: Cid, hash: string): State {
    s.(guard := s.guard[cid := Completed(hash)])
  }

  /** Where a step of thread `t` takes it. */
  function NextPhase(cfg: Config, s: State, t: Tid, fate: Fate): Phase
    requires t in cfg.jobs && t in s.at
  {
    match s.at[t]
    case Intake =>
      if cfg.jobs[t].Submit? && (s.halted || !fate.Go?) then Finished else Reserving
    case Reserving =>
      // a reserved or completed key, with this request's hash or another, ends the call
      if cfg.jobs[t].cid in s.guard then Finished
      else if cfg.jobs[t].Submit? then Vetting else Mutating
    case Vetting => if fate.Go? then Intent else Finished
    case Intent => if fate.Go? then Sending else Finished
    case Sending =>
      if (fate.Accept? || fate.Lose?) && fate.order in s.accepted then Sending
      else if fate.Accept? then Placing(fate.order) else Finished
    case Placing(o) => if fate.Go? then Acking(o) else Finished
    case Acking(o) => if fate.Go? then Stamping(o) else Finished
    case Stamping(_) => if cfg.fused then Finished else Completing
    case _ => Finished
  }

  /** What that step does to the shared state. */
  function Advanced(cfg: Config, s: State, t: Tid, fate: Fate): State
    requires t in cfg.jobs && t in s.at
  {
    var job := cfg.jobs[t];
    var moved := Goto(s, t, NextPhase(cfg, s, t, fate));
    match s.at[t]
    case Reserving =>
      if job.cid in s.guard then moved
      else moved.(guard := s.guard[job.cid := Reserved(job.hash, t)])
    case Vetting | Intent => if fate.Go? then moved else moved.(guard := Release(s.guard, job.cid))
    case Sending =>
      if !fate.Accept? && !fate.Lose? then moved.(guard := Release(s.guard, job.cid))
      else if fate.order in s.accepted then moved
      else moved.(
        accepted := if fate.Accept? || fate.taken then s.accepted[fate.order := job.cid] else s.accepted,
        sent := s.sent + {t})
    case Stamping(o) =>
      var stamped := moved.(side := s.side[o := job.cid]);
      if cfg.fused then Record(stamped, job.cid, job.hash) else stamped
    case Completing => Record(moved, job.cid, job.hash)
    case Mutating => if fate.Go? then Record(moved, job.cid, job.hash) else moved.(guard := Release(s.guard, job.cid))
    case _ => moved
  }

  lemma AdvancedMoves(cfg: Config, s: State, t: Tid, fate: Fate)
    requires t in cfg.jobs && t in s.at
    ensures Advanced(cfg, s, t, fate).at == s.at[t := NextPhase(cfg, s, t, fate)]
  {
  }

  function Step(cfg: Config, s: State, a: Action): State {
    match a
    case Advance(t, fate) => if t in cfg.jobs && t in s.at then Advanced(cfg, s, t, fate) else s
    case Halt => s.(halted := true)
    case Resume => s.(halted := false)
    case Pop(o) =>
      if o in s.side then s.(side := s.side - {o}, popped := s.popped + {s.side[o]}) else s
    case Hand(cid) =>
      if cid in s.popped then s.(popped := s.popped - {cid}, guard := Release(s.guard, cid)) else s
  }

  function Run(cfg: Config, actions: seq<Action>): State {
    if actions == [] then Start(cfg)
    else Step(cfg, Run(cfg, actions[..|actions| - 1]), actions[|actions| - 1])
  }

  // ---- at most once at the venue ------------------------------------------

  /** No two orders the venue took were placed under one correlation id. */
  ghost predicate AtMostOnce(s: State) {
    forall o, p :: o in s.accepted && p in s.accepted && s.accepted[o] == s.accepted[p] ==> o == p
  }

  ghost predicate Untaken(s: State, cid: Cid) {
    forall o :: o in s.accepted ==> s.accepted[o] != cid
  }

  predicate BeforeVenue(p: Phase) {
    p.Vetting? || p.Intent? || p.Sending?
  }

  predicate AfterVenue(p: Phase) {
    p.Placing? || p.Acking? || p.Stamping?
  }

  predicate OwnsKey(p: Phase) {
    BeforeVenue(p) || AfterVenue(p) || p.Mutating?
  }

  ghost predicate Settled(s: State, cid: Cid) {
    cid in s.guard && s.guard[cid].Completed?
  }

  /** A thread that may still release or complete its key is the one that reserved
      it; until it reaches the venue nobody has taken an order under that key. */
  ghost predicate ThreadOk(cfg: Config, s: State, t: Tid)
    requires t in cfg.jobs && t in s.at
  {
    var cid, p := cfg.jobs[t].cid, s.at[t];
    && !p.Completing?
    && (OwnsKey(p) ==> cid in s.guard && s.guard[cid] == Reserved(cfg.jobs[t].hash, t))
    && (BeforeVenue(p) || p.Mutating? ==> Untaken(s, cid))
    && (AfterVenue(p) ==> t in s.sent)
  }

  /** A reserved key belongs to the thread that reserved it: one still at work, or
      one that finished after its request may have reached the venue. */
  ghost predicate KeyOk(cfg: Config, s: State, cid: Cid)
    requires s.at.Keys == cfg.jobs.Keys && cid in s.guard
  {
    s.guard[cid].Reserved? ==>
      var t := s.guard[cid].owner;
      && t in cfg.jobs && cfg.jobs[t].cid == cid
      && (OwnsKey(s.at[t]) || (s.at[t].Finished? && t in s.sent))
  }

  ghost predicate Inv(cfg: Config, s: State) {
    && s.at.Keys == cfg.jobs.Keys
    && AtMostOnce(s)
    && (forall t :: t in cfg.jobs ==> ThreadOk(cfg, s, t))
    && (forall cid :: cid in s.guard ==> KeyOk(cfg, s, cid))
    && (forall o :: o in s.accepted ==> s.accepted[o] in s.guard)
    && (forall o :: o in s.side ==> Settled(s, s.side[o]))
    && (forall cid :: cid in s.popped ==> Settled(s, cid))
  }

  /** A phase change that takes no key, and leaves one only behind the venue call
      or by finishing. */
  lemma MovingKeepsInv(cfg: Config, s: State, t: Tid, p: Phase)
    requires Inv(cfg, s) && t in cfg.jobs && !p.Completing?
    requires OwnsKey(p) ==> OwnsKey(s.at[t])
    requires BeforeVenue(p) || p.Mutating? ==> BeforeVenue(s.at[t]) || s.at[t].Mutating?
    requires AfterVenue(p) ==> AfterVenue(s.at[t])
    requires OwnsKey(s.at[t]) ==> OwnsKey(p) || (p.Finished? && t in s.sent)
    requires s.at[t].Finished? ==> p.Finished?
    ensures Inv(cfg, Goto(s, t, p))
  {
    var s' := Goto(s, t, p);
    assert ThreadOk(cfg, s, t);
    forall u | u in cfg.jobs
      ensures ThreadOk(cfg, s', u)
    {
      assert ThreadOk(cfg, s, u);
    }
    forall cid | cid in s'.guard
      ensures KeyOk(cfg, s', cid)
    {
      assert KeyOk(cfg, s, cid);
    }
  }

  lemma ReservingKeepsInv(cfg: Config, s: State, t: Tid, p: Phase)
    requires Inv(cfg, s) && t in cfg.jobs && s.at[t].Reserving? && (p.Vetting? || p.Mutating?)
    requires cfg.jobs[t].cid !in s.guard
    ensures Inv(cfg, Goto(s, t, p).(guard := s.guard[cfg.jobs[t].cid := Reserved(cfg.jobs[t].hash, t)]))
  {
    var cid := cfg.jobs[t].cid;
    var s' := Goto(s, t, p).(guard := s.guard[cid := Reserved(cfg.jobs[t].hash, t)]);
    forall c | c in s'.guard
      ensures KeyOk(cfg, s', c)
    {
      assert c in s.guard ==> KeyOk(cfg, s, c);
    }
    forall u | u in cfg.jobs
      ensures ThreadOk(cfg, s', u)
    {
      assert ThreadOk(cfg, s, u);
    }
  }

  /** A thread that gives up before the venue frees a key nobody else relies on. */
  lemma GivingUpKeepsInv(cfg: Config, s: State, t: Tid)
    requires Inv(cfg, s) && t in cfg.jobs && (BeforeVenue(s.at[t]) || s.at[t].Mutating?)
    ensures Inv(cfg, GiveUp(s, t, cfg.jobs[t].cid))
  {
    var cid := cfg.jobs[t].cid;
    var s' := GiveUp(s, t, cid);
    assert ThreadOk(cfg, s, t);
    forall c | c in s'.guard
      ensures KeyOk(cfg, s', c)
    {
      assert KeyOk(cfg, s, c);
    }
    forall u | u in cfg.jobs
      ensures ThreadOk(cfg, s', u)
    {
      assert ThreadOk(cfg, s, u);
    }
  }

  /** The venue takes the first order under a key that its sender still owns, or
      the answer is lost. */
  lemma SendingKeepsInv(cfg: Config, s: State, t: Tid, o: OrderId, taken: bool, p: Phase)
    requires Inv(cfg, s) && t in cfg.jobs && s.at[t].Sending? && o !in s.accepted
    requires (taken && p == Placing(o)) || p.Finished?
    ensures Inv(cfg, Goto(s, t, p).(
      accepted := if taken then s.accepted[o := cfg.jobs[t].cid] else s.accepted,
      sent := s.sent + {t}))
  {
    var s' := Goto(s, t, p).(
      accepted := if taken then s.accepted[o := cfg.jobs[t].cid] else s.accepted,
      sent := s.sent + {t});
    assert ThreadOk(cfg, s, t);
    forall u | u in cfg.jobs
      ensures ThreadOk(cfg, s', u)
    {
      assert ThreadOk(cfg, s, u);
    }
    forall c | c in s'.guard
      ensures KeyOk(cfg, s', c)
    {
      assert KeyOk(cfg, s, c);
    }
  }

  lemma CompletingKeepsInv(cfg: Config, s: State, t: Tid, side: map<OrderId, Cid>)
    requires Inv(cfg, s) && t in cfg.jobs && (s.at[t].Stamping? || s.at[t].Mutating?)
    requires forall o :: o in side ==>
      (o in s.side && side[o] == s.side[o]) || side[o] == cfg.jobs[t].cid
    ensures Inv(cfg, Record(Goto(s.(side := side), t, Finished), cfg.jobs[t].cid, cfg.jobs[t].hash))
  {
    var s' := Record(Goto(s.(side := side), t, Finished), cfg.jobs[t].cid, cfg.jobs[t].hash);
    assert ThreadOk(cfg, s, t);
    forall u | u in cfg.jobs
      ensures ThreadOk(cfg, s', u)
    {
      assert ThreadOk(cfg, s, u);
    }
    forall c | c in s'.guard
      ensures KeyOk(cfg, s', c)
    {
      assert c in s.guard ==> KeyOk(cfg, s, c);
    }
  }

  /** Stamps and lifted stamps matter only through the keys they name. */
  lemma StampsKeepInv(cfg: Config, s: State, s': State)
    requires Inv(cfg, s) && s' == s.(halted := s'.halted, side := s'.side, popped := s'.popped)
    requires forall o :: o in s'.side ==> Settled(s, s'.side[o])
    requires forall cid :: cid in s'.popped ==> Settled(s, cid)
    ensures Inv(cfg, s')
  {
    forall u | u in cfg.jobs
      ensures ThreadOk(cfg, s', u)
    {
      assert ThreadOk(cfg, s, u);
    }
    forall c | c in s'.guard
      ensures KeyOk(cfg, s', c)
    {
      assert KeyOk(cfg, s, c);
    }
  }

  /** Handing back the key of a cancelled order does nothing: it is completed. */
  lemma CancellingKeepsInv(cfg: Config, s: State, a: Action)
    requires Inv(cfg, s) && !a.Advance?
    ensures Inv(cfg, Step(cfg, s, a))
    ensures Step(cfg, s, a).guard == s.guard
  {
    assert a.Hand? && a.cid in s.popped ==> Settled(s, a.cid);
    StampsKeepInv(cfg, s, Step(cfg, s, a));
  }

  lemma EarlyStepKeepsInv(cfg: Config, s: State, t: Tid, fate: Fate)
    requires Inv(cfg, s) && t in cfg.jobs
    requires s.at[t].Intake? || s.at[t].Reserving? || s.at[t].Vetting? || s.at[t].Intent?
    ensures Inv(cfg, Advanced(cfg, s, t, fate))
  {
    match s.at[t]
    case Intake =>
      MovingKeepsInv(cfg, s, t, Reserving);
      MovingKeepsInv(cfg, s, t, Finished);
    case Reserving =>
      if cfg.jobs[t].cid in s.guard {
        MovingKeepsInv(cfg, s, t, Finished);
      } else {
        ReservingKeepsInv(cfg, s, t, if cfg.jobs[t].Submit? then Vetting else Mutating);
      }
    case Vetting =>
      MovingKeepsInv(cfg, s, t, Intent);
      GivingUpKeepsInv(cfg, s, t);
    case Intent =>
      MovingKeepsInv(cfg, s, t, Sending);
      GivingUpKeepsInv(cfg, s, t);
  }

  lemma SendStepKeepsInv(cfg: Config, s: State, t: Tid, fate: Fate)
    requires Inv(cfg, s) && t in cfg.jobs && s.at[t].Sending?
    ensures Inv(cfg, Advanced(cfg, s, t, fate))
  {
    if (fate.Accept? || fate.Lose?) && fate.order in s.accepted {
      MovingKeepsInv(cfg, s, t, Sending);
    } else if fate.Accept? {
      SendingKeepsInv(cfg, s, t, fate.order, true, Placing(fate.order));
    } else if fate.Lose? {
      SendingKeepsInv(cfg, s, t, fate.order, fate.taken, Finished);
    } else {
      GivingUpKeepsInv(cfg, s, t);
    }
  }

  lemma LateStepKeepsInv(cfg: Config, s: State, t: Tid, fate: Fate)
    requires cfg.fused && Inv(cfg, s) && t in cfg.jobs
    requires AfterVenue(s.at[t]) || s.at[t].Mutating?
    ensures Inv(cfg, Advanced(cfg, s, t, fate))
  {
    assert ThreadOk(cfg, s, t);
    match s.at[t]
    case Placing(o) =>
      MovingKeepsInv(cfg, s, t, if fate.Go? then Acking(o) else Finished);
    case Acking(o) =>
      MovingKeepsInv(cfg, s, t, if fate.Go? then Stamping(o) else Finished);
    case Stamping(o) =>
      CompletingKeepsInv(cfg, s, t, s.side[o := cfg.jobs[t].cid]);
    case Mutating =>
      CompletingKeepsInv(cfg, s, t, s.side);
      GivingUpKeepsInv(cfg, s, t);
  }

  lemma AdvancingKeepsInv(cfg: Config, s: State, t: Tid, fate: Fate)
    requires cfg.fused && Inv(cfg, s) && t in cfg.jobs
    ensures Inv(cfg, Advanced(cfg, s, t, fate))
  {
    assert ThreadOk(cfg, s, t);
    if s.at[t].Sending? {
      SendStepKeepsInv(cfg, s, t, fate);
    } else if AfterVenue(s.at[t]) || s.at[t].Mutating? {
      LateStepKeepsInv(cfg, s, t, fate);
    } else if s.at[t].Finished? {
      MovingKeepsInv(cfg, s, t, Finished);
    } else {
      EarlyStepKeepsInv(cfg, s, t, fate);
    }
  }

  lemma {:induction false} RunKeepsInv(cfg: Config, actions: seq<Action>)
    requires cfg.fused
    ensures Inv(cfg, Run(cfg, actions))
  {
    if actions != [] {
      var before, a := Run(cfg, actions[..|actions| - 1]), actions[|actions| - 1];
      RunKeepsInv(cfg, actions[..|actions| - 1]);
      if a.Advance? {
        if a.t in cfg.jobs {
          AdvancingKeepsInv(cfg, before, a.t, a.fate);
        }
      } else {
        CancellingKeepsInv(cfg, before, a);
      }
    }
  }

  /** However submits, retries, cancels, modifies and halts interleave, and whatever
      the store and the venue do, the venue takes at most one order per correlation
      id, and a key that is free again never had one. */
  lemma VenueTakesAtMostOne(cfg: Config, actions: seq<Action>, cid: Cid)
    requires cfg.fused
    ensures var s := Run(cfg, actions);
      AtMostOnce(s) && (cid !in s.guard ==> Untaken(s, cid))
  {
    RunKeepsInv(cfg, actions);
  }

  /** Whether or not the span is fused: a reserved key's owner is at work, or finished after
      its request may have reached the venue. */
  ghost predicate Worked(cfg: Config, s: State, cid: Cid)
    requires s.at.Keys == cfg.jobs.Keys
  {
    cid in s.guard && s.guard[cid].Reserved? ==>
      var t := s.guard[cid].owner;
      && t in cfg.jobs && cfg.jobs[t].cid == cid
      && (OwnsKey(s.at[t]) || s.at[t].Completing? || (s.at[t].Finished? && t in s.sent))
  }

  ghost predicate AllWorked(cfg: Config, s: State) {
    && s.at.Keys == cfg.jobs.Keys
    && (forall t :: t in cfg.jobs && (AfterVenue(s.at[t]) || s.at[t].Completing?) ==> t in s.sent)
    && (forall cid :: Worked(cfg, s, cid))
  }

  predicate Early(p: Phase) {
    p.Intake? || p.Reserving? || p.Vetting? || p.Intent? || p.Mutating?
  }

  /** One step, as one key sees it. */
  lemma EarlyStepKeepsKey(cfg: Config, s: State, t: Tid, fate: Fate, cid: Cid)
    requires s.at.Keys == cfg.jobs.Keys && t in cfg.jobs && Worked(cfg, s, cid) && Early(s.at[t])
    ensures var s' := Advanced(cfg, s, t, fate); s'.at.Keys == cfg.jobs.Keys && Worked(cfg, s', cid)
  {
    AdvancedMoves(cfg, s, t, fate);
  }

  lemma LateStepKeepsKey(cfg: Config, s: State, t: Tid, fate: Fate, cid: Cid)
    requires s.at.Keys == cfg.jobs.Keys && t in cfg.jobs && Worked(cfg, s, cid) && !Early(s.at[t])
    requires AfterVenue(s.at[t]) || s.at[t].Completing? ==> t in s.sent
    ensures var s' := Advanced(cfg, s, t, fate); s'.at.Keys == cfg.jobs.Keys && Worked(cfg, s', cid)
  {
    AdvancedMoves(cfg, s, t, fate);
  }

  lemma AdvancingKeepsSent(cfg: Config, s: State, t: Tid, fate: Fate)
    requires s.at.Keys == cfg.jobs.Keys && t in cfg.jobs
    requires AfterVenue(s.at[t]) || s.at[t].Completing? ==> t in s.sent
    ensures var s' := Advanced(cfg, s, t, fate);
      && s'.at == s.at[t := NextPhase(cfg, s, t, fate)] && s.sent <= s'.sent
      && (AfterVenue(s'.at[t]) || s'.at[t].Completing? ==> t in s'.sent)
  {
    AdvancedMoves(cfg, s, t, fate);
  }

  lemma AdvancingKeepsWorked(cfg: Config, s: State, t: Tid, fate: Fate)
    requires AllWorked(cfg, s) && t in cfg.jobs
    ensures AllWorked(cfg, Advanced(cfg, s, t, fate))
  {
    AdvancingKeepsSent(cfg, s, t, fate);
    var s' := Advanced(cfg, s, t, fate);
    forall cid ensures Worked(cfg, s', cid) {
      if Early(s.at[t]) {
        EarlyStepKeepsKey(cfg, s, t, fate, cid);
      } else {
        LateStepKeepsKey(cfg, s, t, fate, cid);
      }
    }
  }

  lemma {:induction false} RunKeepsWorked(cfg: Config, actions: seq<Action>)
    ensures AllWorked(cfg, Run(cfg, actions))
  {
    if actions != [] {
      var init, a := actions[..|actions| - 1], actions[|actions| - 1];
      RunKeepsWorked(cfg, init);
      var s := Run(cfg, init);
      if a.Advance? && a.t in cfg.jobs {
        AdvancingKeepsWorked(cfg, s, a.t, a.fate);
      } else {
        forall cid ensures Worked(cfg, Run(cfg, actions), cid) {
          assert Worked(cfg, s, cid);
        }
      }
    }
  }

  /** A key stays reserved only while its request is at work, or because that
      request may have reached the venue; and no key is ever lost to a request that
      stopped before. This needs no fused span. */
  lemma NoKeyIsStranded(cfg: Config, actions: seq<Action>, cid: Cid)
    ensures var s := Run(cfg, actions);
      cid in s.guard && s.guard[cid].Reserved? ==>
        var t := s.guard[cid].owner;
        && t in cfg.jobs && t in s.at && cfg.jobs[t].cid == cid
        && (!s.at[t].Finished? || t in s.sent)
  {
    RunKeepsWorked(cfg, actions);
    assert Worked(cfg, Run(cfg, actions), cid);
  }

  // ---- why the span has to be fused ---------------------------------------

  lemma RunAppends(cfg: Config, actions: seq<Action>, a: Action)
    ensures Run(cfg, actions + [a]) == Step(cfg, Run(cfg, actions), a)
  {
    assert (actions + [a])[..|actions|] == actions;
  }

  /** Without that, a cancel landing between the side-table stamp and the completion
      hands back a key whose order is live, and a retry puts a second order at the
      venue under the same correlation id. */
  lemma SplitSpanAllowsTwo(cfg: Config, t: Tid, u: Tid) returns (actions: seq<Action>)
    requires !cfg.fused && t != u && Rivals(cfg, t, u)
    ensures !AtMostOnce(Run(cfg, actions))
  {
    var cid := cfg.jobs[t].cid;
    actions := Sent(cfg, [], t, 7);
    actions := Stamped(cfg, actions, t, 7);
    RunAppends(cfg, actions, Pop(7));
    actions := actions + [Pop(7)];
    RunAppends(cfg, actions, Hand(cid));
    actions := actions + [Hand(cid)];
    actions := Sent(cfg, actions, u, 8);
    assert Run(cfg, actions).accepted[7] == Run(cfg, actions).accepted[8];
  }

  /** Two submits under one correlation id. */
  ghost predicate Rivals(cfg: Config, t: Tid, u: Tid) {
    && t in cfg.jobs && u in cfg.jobs
    && cfg.jobs[t].Submit? && cfg.jobs[u].Submit? && cfg.jobs[t].cid == cfg.jobs[u].cid
  }

  ghost predicate NoRetries(cfg: Config) {
    forall t, u :: Rivals(cfg, t, u) ==> t == u
  }

  predicate Unsent(p: Phase) {
    p.Intake? || p.Reserving? || BeforeVenue(p)
  }

  /** A submit that has not sent yet has no order at the venue. */
  ghost predicate OneShot(cfg: Config, s: State) {
    && s.at.Keys == cfg.jobs.Keys
    && AtMostOnce(s)
    && (forall t :: t in cfg.jobs && cfg.jobs[t].Submit? && Unsent(s.at[t]) ==> Untaken(s, cfg.jobs[t].cid))
    && (forall t :: t in cfg.jobs && cfg.jobs[t].Mutate? ==> !BeforeVenue(s.at[t]))
  }

  /** Only the step that sends adds an order, under the sender's own key. */
  lemma OnlySendingTakes(cfg: Config, s: State, t: Tid, fate: Fate)
    requires t in cfg.jobs && t in s.at && s.at[t].Sending?
    ensures var s' := Advanced(cfg, s, t, fate);
      s'.accepted == s.accepted
      || (&& fate.order !in s.accepted
          && s'.accepted == s.accepted[fate.order := cfg.jobs[t].cid])
  {
  }

  lemma NobodyElseTakes(cfg: Config, s: State, t: Tid, fate: Fate)
    requires t in cfg.jobs && t in s.at && !s.at[t].Sending?
    ensures Advanced(cfg, s, t, fate).accepted == s.accepted
  {
  }

  lemma StepKeepsOneShot(cfg: Config, s: State, a: Action)
    requires NoRetries(cfg) && OneShot(cfg, s)
    ensures OneShot(cfg, Step(cfg, s, a))
  {
    if a.Advance? && a.t in cfg.jobs {
      AdvancedMoves(cfg, s, a.t, a.fate);
      if s.at[a.t].Sending? {
        OnlySendingTakes(cfg, s, a.t, a.fate);
      } else {
        NobodyElseTakes(cfg, s, a.t, a.fate);
      }
      var s' := Step(cfg, s, a);
      forall t | t in cfg.jobs && cfg.jobs[t].Submit? && Unsent(s'.at[t])
        ensures Untaken(s', cfg.jobs[t].cid)
      {
        assert Untaken(s, cfg.jobs[t].cid);
        assert Rivals(cfg, t, a.t) ==> t == a.t;
      }
    }
  }

  lemma {:induction false} RunKeepsOneShot(cfg: Config, actions: seq<Action>)
    requires NoRetries(cfg)
    ensures OneShot(cfg, Run(cfg, actions))
  {
    if actions != [] {
      RunKeepsOneShot(cfg, actions[..|actions| - 1]);
      StepKeepsOneShot(cfg, Run(cfg, actions[..|actions| - 1]), actions[|actions| - 1]);
    }
  }

  /** At most one order per correlation id, over every run, exactly when the span is
      fused or no correlation id is ever submitted twice. */
  lemma AtMostOnceExactlyWhen(cfg: Config)
    ensures (forall actions :: AtMostOnce(Run(cfg, actions))) <==> cfg.fused || NoRetries(cfg)
  {
    if cfg.fused {
      forall actions
        ensures AtMostOnce(Run(cfg, actions))
      {
        RunKeepsInv(cfg, actions);
      }
    } else if NoRetries(cfg) {
      forall actions
        ensures AtMostOnce(Run(cfg, actions))
      {
        RunKeepsOneShot(cfg, actions);
      }
    } else {
      var t, u :| Rivals(cfg, t, u) && t != u;
      var actions := SplitSpanAllowsTwo(cfg, t, u);
    }
  }

  /** Let thread `t` take one step. */
  lemma Walk(cfg: Config, actions: seq<Action>, t: Tid, fate: Fate) returns (longer: seq<Action>)
    requires t in cfg.jobs && t in Run(cfg, actions).at
    ensures Run(cfg, longer) == Advanced(cfg, Run(cfg, actions), t, fate)
  {
    longer := actions + [Advance(t, fate)];
    RunAppends(cfg, actions, Advance(t, fate));
  }

  /** An unobstructed submit reaches the venue and is accepted as order `o`. */
  lemma Sent(cfg: Config, before: seq<Action>, t: Tid, o: OrderId) returns (actions: seq<Action>)
    requires t in cfg.jobs && cfg.jobs[t].Submit?
    requires var s := Run(cfg, before);
      t in s.at && s.at[t].Intake? && !s.halted && cfg.jobs[t].cid !in s.guard && o !in s.accepted
    ensures var s, s' := Run(cfg, before), Run(cfg, actions);
      s' == s.(at := s.at[t := Placing(o)],
               guard := s.guard[cfg.jobs[t].cid := Reserved(cfg.jobs[t].hash, t)],
               accepted := s.accepted[o := cfg.jobs[t].cid],
               sent := s.sent + {t})
  {
    actions := Walk(cfg, before, t, Go);
    actions := Walk(cfg, actions, t, Go);
    actions := Walk(cfg, actions, t, Go);
    actions := Walk(cfg, actions, t, Go);
    actions := Walk(cfg, actions, t, Accept(o));
    var s := Run(cfg, before);
    assert s.at[t := Reserving][t := Vetting][t := Intent][t := Sending][t := Placing(o)]
        == s.at[t := Placing(o)];
  }

  lemma Stamped(cfg: Config, before: seq<Action>, t: Tid, o: OrderId) returns (actions: seq<Action>)
    requires t in cfg.jobs && !cfg.fused
    requires var s := Run(cfg, before);
      t in s.at && s.at[t] == Placing(o)
    ensures var s, s' := Run(cfg, before), Run(cfg, actions);
      s' == s.(at := s.at[t := Completing], side := s.side[o := cfg.jobs[t].cid])
  {
    actions := Walk(cfg, before, t, Go);
    actions := Walk(cfg, actions, t, Go);
    actions := Walk(cfg, actions, t, Go);
    var s := Run(cfg, before);
    assert s.at[t := Acking(o)][t := Stamping(o)][t := Completing] == s.at[t := Completing];
  }
}
