/** Whole sessions: what any run of submits, cancels, modifies, inbound fills, halts and
    resumes keeps. */
module Sessions {
  import opened Domain
  import opened Orders
  import opened Book
  import opened Spine
  import opened Booking
  import opened Submission
  import opened Endings
  import FA = FeeAccrual

  datatype Call =
    | DoSubmit(request: Request, env: Env)
    | DoCancel(id: string, key: Option<string>)
    | DoModify(id: string, request: Request, risk: Verdict)
    | Receive(fill: Fill, fee: Option<int>)
    | Halt | Resume

  /** A call and how it ended. */
  datatype Step =
    | Submitting(request: Request, env: Env, out: Outcome)
    | Cancelling(id: string, key: Option<string>, change: Mutation)
    | Modifying(id: string, request: Request, risk: Verdict, change: Mutation)
    | Receiving(fill: Fill, fee: Option<int>, got: Inbound)
    | Halted | Resumed

  /** The engine's memory and what the venue was sent. */
  datatype Node = Node(state: Spine, sent: seq<Sent>)

  ghost predicate Performs(cfg: Config, n: Node, step: Step, m: Node) {
    match step
    case Submitting(request, env, out) =>
      && SubmitEnds(cfg, n.state, m.state, request, env, out)
      && Sends(n.state, n.sent, m.sent, request, env, out)
    case Cancelling(id, key, change) =>
      && m.sent == n.sent
      && MutationEnds(n.state, m.state, key, CancelHash(id), NotCancellable(n.state.orders, id), change)
    case Modifying(id, request, risk, change) =>
      && m.sent == n.sent
      && MutationEnds(n.state, m.state, request.cid, ModifyHash(id, request),
                      NotModifiable(n.state.orders, id, request, risk), change)
    case Receiving(fill, fee, got) =>
      m.sent == n.sent && Received(cfg, n.state, m.state, fill, fee, got)
    case Halted => m.sent == n.sent && OnlyCancels(n.state, m.state) && m.state.killed
    case Resumed => m == n.(state := n.state.(killed := false))
  }

  ghost predicate IsRun(cfg: Config, nodes: seq<Node>, steps: seq<Step>) {
    && |nodes| == |steps| + 1
    && forall i :: 0 <= i < |steps| ==> PerformsAt(cfg, nodes, steps, i)
  }

  ghost predicate PerformsAt(cfg: Config, nodes: seq<Node>, steps: seq<Step>, i: int) {
    && 0 <= i < |steps| && i + 1 < |nodes|
    && Performs(cfg, nodes[i], steps[i], nodes[i + 1])
    && Upholds(nodes[i], steps[i], nodes[i + 1]) && Mirrors(nodes[i], steps[i], nodes[i + 1])
  }

  lemma StepAt(cfg: Config, nodes: seq<Node>, steps: seq<Step>, i: nat)
    requires IsRun(cfg, nodes, steps) && i < |steps|
    ensures Performs(cfg, nodes[i], steps[i], nodes[i + 1])
  {
    assert PerformsAt(cfg, nodes, steps, i);
  }

  lemma StepUpholds(cfg: Config, nodes: seq<Node>, steps: seq<Step>, i: nat)
    requires IsRun(cfg, nodes, steps) && i < |steps|
    ensures Upholds(nodes[i], steps[i], nodes[i + 1])
  {
    assert PerformsAt(cfg, nodes, steps, i);
  }

  lemma StepMirrors(cfg: Config, nodes: seq<Node>, steps: seq<Step>, i: nat)
    requires IsRun(cfg, nodes, steps) && i < |steps|
    ensures Mirrors(nodes[i], steps[i], nodes[i + 1])
  {
    assert PerformsAt(cfg, nodes, steps, i);
  }

  function Asked(step: Step): Call {
    match step
    case Submitting(request, env, _) => DoSubmit(request, env)
    case Cancelling(id, key, _) => DoCancel(id, key)
    case Modifying(id, request, risk, _) => DoModify(id, request, risk)
    case Receiving(fill, fee, _) => Receive(fill, fee)
    case Halted => Halt
    case Resumed => Resume
  }

  /** The step is how the call ended. */
  predicate Answers(call: Call, step: Step) {
    Asked(step) == call
  }

  /** What the call meets can leave sound orders sound and final ones final. */
  ghost predicate Meets(orders: map<string, Order>, call: Call) {
    match call
    case DoSubmit(request, env) => Proper(orders, request, env)
    case Receive(fill, _) => fill.qty > 0
    case _ => true
  }

  ghost predicate Clean(orders: map<string, Order>, call: Call) {
    Upheld(orders, orders) && Meets(orders, call)
  }

  /** A step from sound orders that met nothing improper leaves sound orders, and final ones alone. */
  ghost predicate Upholds(n: Node, step: Step, m: Node) {
    Clean(n.state.orders, Asked(step)) ==> Upheld(n.state.orders, m.state.orders)
  }

  /** An immediate fill is one of the order it is answered with. */
  predicate Belongs(call: Call) {
    call.DoSubmit? && call.env.answer.Took? && call.env.answer.fill.Some? ==>
      call.env.answer.fill.value.orderId == call.env.answer.order.id
  }

  /** No logged fill was left unbooked, so each one reached its order. */
  predicate Projects(step: Step) {
    match step
    case Submitting(_, _, out) => out !in {Raised(FillUnaffordable), Raised(FillHalfApplied)}
    case Receiving(_, _, got) => got != HalfApplied
    case _ => true
  }

  /** A step during which the store took every write leaves the orders as the log tells them. */
  ghost predicate Mirrors(n: Node, step: Step, m: Node) {
    Belongs(Asked(step)) && Projects(step) ==> Echoes(n.state, m.state)
  }

  lemma RunExtends(cfg: Config, nodes: seq<Node>, steps: seq<Step>, step: Step, m: Node)
    requires IsRun(cfg, nodes, steps) && Performs(cfg, nodes[|steps|], step, m)
    requires Upholds(nodes[|steps|], step, m) && Mirrors(nodes[|steps|], step, m)
    ensures IsRun(cfg, nodes + [m], steps + [step])
  {
    var ns, ss := nodes + [m], steps + [step];
    forall i | 0 <= i < |ss| ensures PerformsAt(cfg, ns, ss, i) {
      if i < |steps| {
        assert PerformsAt(cfg, nodes, steps, i);
      }
    }
  }

  // ---- completed keys ------------------------------------------------------------------

  ghost predicate KeepsCompleted(s: Spine, t: Spine) {
    forall c :: c in s.guard && s.guard[c].Completed? ==> c in t.guard && t.guard[c] == s.guard[c]
  }

  /** Nothing an engine does ever loses or changes a completed key. */
  lemma StepKeepsCompleted(cfg: Config, n: Node, step: Step, m: Node)
    requires Performs(cfg, n, step, m)
    ensures KeepsCompleted(n.state, m.state)
  {
    match step {
      case Submitting(request, env, out) => SubmitKeepsCompleted(cfg, n.state, m.state, request, env, out);
      case Cancelling(id, key, change) =>
        MutationKeepsCompleted(n.state, m.state, key, CancelHash(id), NotCancellable(n.state.orders, id), change);
      case Modifying(id, request, risk, change) =>
        MutationKeepsCompleted(n.state, m.state, request.cid, ModifyHash(id, request),
                               NotModifiable(n.state.orders, id, request, risk), change);
      case Receiving(f, fee, got) => ReceivingKeepsCompleted(cfg, n.state, m.state, f, fee, got);
      case Halted =>
      case Resumed =>
    }
  }

  lemma MutationKeepsCompleted(s: Spine, t: Spine, key: Option<string>, hash: Hash, barred: bool, change: Mutation)
    requires MutationEnds(s, t, key, hash, barred, change)
    ensures KeepsCompleted(s, t)
  {
  }

  lemma ReceivingKeepsCompleted(cfg: Config, s: Spine, t: Spine, f: Fill, fee: Option<int>, got: Inbound)
    requires Received(cfg, s, t, f, fee, got)
    ensures KeepsCompleted(s, t)
  {
  }

  lemma SubmitKeepsCompleted(cfg: Config, s: Spine, t: Spine, request: Request, env: Env, out: Outcome)
    requires SubmitEnds(cfg, s, t, request, env, out)
    ensures KeepsCompleted(s, t)
  {
    if s.killed || env.gate.Some? {
      assert Aside(s, t, None, None);
    } else if request.cid.None? || request.cid.value !in s.guard {
      var stamp := OwnerIsAside(cfg, s, t, request, env, out);
    }
  }

  /** Whatever becomes of a submit, beside its key and its order it is aside. */
  lemma OwnerIsAside(cfg: Config, s: Spine, t: Spine, request: Request, env: Env, out: Outcome)
    returns (stamp: Option<string>)
    requires OwnerEnds(cfg, s, t, request, env, request.cid.Some? ==> request.cid.value !in s.side.Values, out)
    ensures Aside(s, t, request.cid, stamp)
    ensures stamp.Some? ==> env.answer.Took? && stamp == StampOf(env.answer.order, request.cid)
  {
    if Aside(s, t, request.cid, None) {
      stamp := None;
    } else {
      stamp := StampOf(env.answer.order, request.cid);
    }
  }

  lemma CompletedStaysKept(s: Spine, t: Spine, u: Spine)
    requires KeepsCompleted(s, t) && KeepsCompleted(t, u)
    ensures KeepsCompleted(s, u)
  {
  }

  lemma {:induction false} RunKeepsCompleted(cfg: Config, nodes: seq<Node>, steps: seq<Step>, i: nat, j: nat)
    requires IsRun(cfg, nodes, steps) && i <= j < |nodes|
    ensures KeepsCompleted(nodes[i].state, nodes[j].state)
    decreases j - i
  {
    if i < j {
      RunKeepsCompleted(cfg, nodes, steps, i, j - 1);
      StepAt(cfg, nodes, steps, j - 1);
      StepKeepsCompleted(cfg, nodes[j - 1], steps[j - 1], nodes[j]);
      CompletedStaysKept(nodes[i].state, nodes[j - 1].state, nodes[j].state);
    }
  }

  lemma ReceiptCompletesKey(cfg: Config, s: Spine, t: Spine, request: Request, env: Env, out: Outcome)
    requires SubmitEnds(cfg, s, t, request, env, out) && out.Receipted? && request.cid.Some?
    ensures var key := request.cid.value;
      && key in t.guard && t.guard[key].Completed?
      && CheckKey(t.guard, key, SubmitHash(request)) == Replay(Placed(out.receipt))
  {
  }

  lemma CompletedKeyAnswers(cfg: Config, n: Node, m: Node, request: Request, env: Env, out: Outcome, r: KeyResult)
    requires Performs(cfg, n, Submitting(request, env, out), m)
    requires !n.state.killed && env.gate.None? && request.cid.Some?
    requires CheckKey(n.state.guard, request.cid.value, SubmitHash(request)) == Replay(r)
    ensures out == Replayed(r) && m == n
  {
  }

  /** A receipt stays on its key. */
  lemma ReceiptStays(cfg: Config, nodes: seq<Node>, steps: seq<Step>, i: nat, j: nat)
    requires IsRun(cfg, nodes, steps) && i < j < |nodes|
    requires steps[i].Submitting? && steps[i].out.Receipted? && steps[i].request.cid.Some?
    ensures var request := steps[i].request;
      CheckKey(nodes[j].state.guard, request.cid.value, SubmitHash(request)) == Replay(Placed(steps[i].out.receipt))
  {
    StepAt(cfg, nodes, steps, i);
    ReceiptCompletesKey(cfg, nodes[i].state, nodes[i + 1].state, steps[i].request, steps[i].env, steps[i].out);
    RunKeepsCompleted(cfg, nodes, steps, i + 1, j);
  }

  /** A request that got its receipt is answered with it ever after: whatever happened in
      between, a retry returns the same receipt, reaches no venue and changes nothing. */
  lemma RetryIsReplayed(cfg: Config, nodes: seq<Node>, steps: seq<Step>, i: nat, j: nat)
    requires IsRun(cfg, nodes, steps) && i < j < |steps|
    requires steps[i].Submitting? && steps[i].out.Receipted? && steps[i].request.cid.Some?
    requires steps[j].Submitting? && steps[j].request == steps[i].request
    requires !nodes[j].state.killed && steps[j].env.gate.None?
    ensures steps[j].out == Replayed(Placed(steps[i].out.receipt)) && nodes[j + 1] == nodes[j]
  {
    StepAt(cfg, nodes, steps, j);
    ReceiptStays(cfg, nodes, steps, i, j);
    CompletedKeyAnswers(cfg, nodes[j], nodes[j + 1], steps[j].request, steps[j].env, steps[j].out,
                        Placed(steps[i].out.receipt));
  }

  /** While a key is reserved, its own request is told to wait and any other is refused; nothing
      changes. */
  lemma ReservedKeyAnswers(cfg: Config, n: Node, m: Node, request: Request, env: Env, out: Outcome, hash: Hash)
    requires Performs(cfg, n, Submitting(request, env, out), m)
    requires !n.state.killed && env.gate.None? && request.cid.Some?
    requires request.cid.value in n.state.guard && n.state.guard[request.cid.value] == Reserved(hash)
    ensures out == (if hash == SubmitHash(request) then Busy else Raised(KeyMismatch)) && m == n
  {
  }

  /** A receipted submit binds its key ever after. */
  lemma ReceiptBindsEverAfter(cfg: Config, nodes: seq<Node>, steps: seq<Step>, i: nat, j: nat)
    requires IsRun(cfg, nodes, steps) && i < j < |steps|
    requires steps[i].Submitting? && steps[i].out.Receipted? && steps[i].request.cid.Some?
    requires steps[i].request.cid.value !in nodes[i].state.side.Values
    ensures var key, guard := steps[i].request.cid.value, nodes[j].state.guard;
      key in guard && guard[key] == Completed(Some(SubmitHash(steps[i].request)), Placed(steps[i].out.receipt))
  {
    StepAt(cfg, nodes, steps, i);
    ReceiptBindsKey(cfg, nodes[i].state, nodes[i + 1].state, steps[i].request, steps[i].env, steps[i].out);
    RunKeepsCompleted(cfg, nodes, steps, i + 1, j);
  }

  /** A different request under that key is refused ever after, and changes nothing. */
  lemma OtherRequestIsRefused(cfg: Config, nodes: seq<Node>, steps: seq<Step>, i: nat, j: nat)
    requires IsRun(cfg, nodes, steps) && i < j < |steps|
    requires steps[i].Submitting? && steps[i].out.Receipted? && steps[i].request.cid.Some?
    requires steps[i].request.cid.value !in nodes[i].state.side.Values
    requires steps[j].Submitting?
    requires steps[j].request.cid == steps[i].request.cid && steps[j].request != steps[i].request
    requires !nodes[j].state.killed && steps[j].env.gate.None?
    ensures steps[j].out == Raised(KeyMismatch) && nodes[j + 1] == nodes[j]
  {
    ReceiptBindsEverAfter(cfg, nodes, steps, i, j);
    StepAt(cfg, nodes, steps, j);
    BoundKeyRefuses(cfg, nodes[j], nodes[j + 1], steps[i].request, steps[j].request, steps[j].env, steps[j].out);
  }

  lemma BoundKeyRefuses(cfg: Config, n: Node, m: Node, bound: Request, request: Request, env: Env, out: Outcome)
    requires Performs(cfg, n, Submitting(request, env, out), m)
    requires !n.state.killed && env.gate.None? && request.cid.Some? && request != bound
    requires request.cid.value in n.state.guard && n.state.guard[request.cid.value].Completed?
    requires n.state.guard[request.cid.value].bound == Some(SubmitHash(bound))
    ensures out == Raised(KeyMismatch) && m == n
  {
  }

  lemma ReceiptBindsKey(cfg: Config, s: Spine, t: Spine, request: Request, env: Env, out: Outcome)
    requires SubmitEnds(cfg, s, t, request, env, out) && out.Receipted? && request.cid.Some?
    requires request.cid.value !in s.side.Values
    ensures var key := request.cid.value;
      key in t.guard && t.guard[key] == Completed(Some(SubmitHash(request)), Placed(out.receipt))
  {
  }

  // ---- orders -------------------------------------------------------------------------------

  /** Over any stretch of a run that starts with sound orders and meets nothing improper,
      every cached order is sound, and FILLED and REJECTED ones never change again. */
  lemma {:induction false} RunUpholdsOrders(cfg: Config, nodes: seq<Node>, steps: seq<Step>, i: nat, j: nat)
    requires IsRun(cfg, nodes, steps) && i <= j < |nodes|
    requires Upheld(nodes[i].state.orders, nodes[i].state.orders)
    requires forall k :: i <= k < j ==> Meets(nodes[k].state.orders, Asked(steps[k]))
    ensures Upheld(nodes[i].state.orders, nodes[j].state.orders)
    decreases j - i
  {
    if i < j {
      RunUpholdsOrders(cfg, nodes, steps, i, j - 1);
      StepUpholds(cfg, nodes, steps, j - 1);
      UpheldTransitive(nodes[i].state.orders, nodes[j - 1].state.orders, nodes[j].state.orders);
    }
  }

  /** Over any run in which the store took every write, the orders are what the log says. */
  lemma {:induction false} RunMirrorsOrders(cfg: Config, nodes: seq<Node>, steps: seq<Step>, k: nat)
    requires IsRun(cfg, nodes, steps) && k < |nodes| && Mirrored(nodes[0].state)
    requires forall i :: 0 <= i < k ==>
      Belongs(Asked(steps[i])) && Projects(steps[i]) && nodes[i + 1].state.refused == nodes[i].state.refused
    ensures Mirrored(nodes[k].state)
  {
    if k > 0 {
      RunMirrorsOrders(cfg, nodes, steps, k - 1);
      StepMirrors(cfg, nodes, steps, k - 1);
    }
  }

  // ---- orderly sessions ------------------------------------------------------------------

  /** The book is the fold of the log, every stamped order's key is completed, the venue may
      hold at most one order under any key and none under a free one, and no order has
      accrued more than its cap. */
  ghost predicate Orderly(cfg: Config, n: Node, opening: Book) {
    Settled(cfg, n.state, opening) && AtMostOnce(n.sent, n.state.guard)
  }

  ghost predicate Settled(cfg: Config, s: Spine, opening: Book) {
    (cfg.owned || Folded(s, opening)) && SideSettled(s) && FA.WithinCap(s.accrued)
  }

  /** A fill the engine can take on the spot: sized, priced, paid for, and legal for its order. */
  ghost predicate Takes(cfg: Config, s: Spine, order: Order, fill: Fill) {
    && Executed(fill)
    && FeeFor(cfg, s, fill, None).Ok? && Affordable(cfg, s, Charge(fill, FeeFor(cfg, s, fill, None).value))
    && OnFilled(order, fill.qty).Moved?
  }

  /** What the step met was in order: an immediate fill that can be taken and whose write went
      through, and an inbound one with a size, a price and no negative fee. */
  ghost predicate Fit(cfg: Config, s: Spine, step: Step) {
    match step
    case Submitting(_, env, out) =>
      env.answer.Took? && env.answer.fill.Some? ==>
        Takes(cfg, s, env.answer.order, env.answer.fill.value) && out != Raised(FillNotDurable)
    case Receiving(fill, fee, _) => Executed(fill) && (fee.Some? ==> fee.value >= 0)
    case _ => true
  }

  /** A venue that only acknowledges makes every submit fit. */
  ghost predicate AcknowledgeOnly(a: Answer) {
    a.Took? ==> a.fill.None?
  }

  lemma QuotingStaysWithinCap(cfg: Config, s: Spine, f: Fill, recorded: Option<int>)
    requires FA.WithinCap(s.accrued)
    ensures FA.WithinCap(Quoted(cfg, s, f, recorded).accrued)
  {
    FA.AccrualStaysWithinCap(s.accrued, f);
  }

  /** A fill that can be taken, once logged, is booked and completed. */
  lemma TakenFillSucceeds(cfg: Config, s: Spine, t: Spine, order: Order, fill: Fill,
                          key: Option<string>, hash: Hash, clean: bool, out: Outcome)
    requires FillSettles(cfg, s, t, order, fill, key, hash, clean, out) && FA.WithinCap(s.accrued)
    requires Takes(cfg, s, order, fill) && out != Raised(FillNotDurable)
    ensures out.Receipted?
  {
    NeverHalfApplied(cfg, s, t, order, fill, key, hash, clean, out);
  }

  lemma TakenFillIsSettled(cfg: Config, s: Spine, t: Spine, order: Order, fill: Fill,
                           key: Option<string>, hash: Hash, clean: bool, out: Outcome, opening: Book)
    requires FillSettles(cfg, s, t, order, fill, key, hash, clean, out) && FA.WithinCap(s.accrued)
    requires Takes(cfg, s, order, fill) && out != Raised(FillNotDurable) && (cfg.owned || Folded(s, opening))
    ensures out.Receipted? && KeyCompleted(t, key, hash, clean, Placed(out.receipt))
    ensures (cfg.owned || Folded(t, opening)) && FA.WithinCap(t.accrued)
  {
    var c := Charge(fill, FeeFor(cfg, s, fill, None).value);
    TakenFillSucceeds(cfg, s, t, order, fill, key, hash, clean, out);
    BookRunAppends(opening, FillsIn(s.log), c);
    QuotingStaysWithinCap(cfg, s, fill, None);
  }

  /** A settled state has no stale stamp, so a request's key is its own. */
  lemma SettledIsClean(s: Spine, key: Option<string>)
    requires SideSettled(s) && (key.Some? ==> key.value !in s.guard)
    ensures key.Some? ==> key.value !in s.side.Values
  {
    assert forall c :: c in s.side.Values ==> c in s.guard;
  }

  lemma OwnerIsSettled(cfg: Config, s: Spine, t: Spine, request: Request, env: Env, out: Outcome, opening: Book)
    requires OwnerEnds(cfg, s, t, request, env, true, out)
    requires Fit(cfg, s, Submitting(request, env, out)) && Settled(cfg, s, opening)
    requires request.cid.Some? ==> request.cid.value !in s.guard
    ensures Settled(cfg, t, opening)
    ensures request.cid.Some? && Crossed(out) ==> request.cid.value in t.guard
    ensures forall c :: c in s.guard ==> c in t.guard
  {
    var key, hash := request.cid, SubmitHash(request);
    if env.answer.Took? && env.answer.fill.Some?
       && FillSettles(cfg, s, t, env.answer.order, env.answer.fill.value, key, hash, true, out) {
      var stamp := StampOf(env.answer.order, key);
      TakenFillIsSettled(cfg, s, t, env.answer.order, env.answer.fill.value, key, hash, true, out, opening);
      AsideKeepsKeys(s, t, key, stamp);
      AsideKeepsSettled(s, t, key, stamp);
    } else {
      UnfilledIsSettled(cfg, s, t, request, env, out, opening);
    }
  }

  /** A submit that tries no fill moves neither book nor log nor accrual. */
  lemma UnfilledIsSettled(cfg: Config, s: Spine, t: Spine, request: Request, env: Env, out: Outcome, opening: Book)
    requires OwnerEnds(cfg, s, t, request, env, true, out) && Settled(cfg, s, opening)
    requires !(&& env.answer.Took? && env.answer.fill.Some?
               && FillSettles(cfg, s, t, env.answer.order, env.answer.fill.value, request.cid,
                              SubmitHash(request), true, out))
    requires request.cid.Some? ==> request.cid.value !in s.guard
    ensures Settled(cfg, t, opening)
    ensures request.cid.Some? && Crossed(out) ==> request.cid.value in t.guard
    ensures forall c :: c in s.guard ==> c in t.guard
  {
    var stamp := if out.Receipted? then StampOf(env.answer.order, request.cid) else None;
    assert SparesBut(s, t, request.cid, stamp);
    AsideKeepsKeys(s, t, request.cid, stamp);
    AsideKeepsSettled(s, t, request.cid, stamp);
  }

  lemma SubmitIsOrderly(cfg: Config, n: Node, m: Node, request: Request, env: Env, out: Outcome, opening: Book)
    requires Performs(cfg, n, Submitting(request, env, out), m) && Fit(cfg, n.state, Submitting(request, env, out))
    requires Orderly(cfg, n, opening)
    ensures Orderly(cfg, m, opening)
  {
    var s, t := n.state, m.state;
    if s.killed || env.gate.Some? {
      AsideKeepsSettled(s, t, None, None);
      AsideKeepsKeys(s, t, None, None);
    } else if request.cid.None? || request.cid.value !in s.guard {
      SettledIsClean(s, request.cid);
      OwnerIsSettled(cfg, s, t, request, env, out, opening);
      if m.sent != n.sent {
        SendingIsAtMostOnce(n.sent, m.sent, s, t, request, env);
      }
    }
  }

  lemma MutationIsOrderly(cfg: Config, n: Node, m: Node, key: Option<string>, hash: Hash, barred: bool,
                          change: Mutation, opening: Book)
    requires m.sent == n.sent && MutationEnds(n.state, m.state, key, hash, barred, change) && Orderly(cfg, n, opening)
    ensures Orderly(cfg, m, opening)
  {
    if key.None? || key.value !in n.state.guard {
      AsideKeepsSettled(n.state, m.state, key, None);
      AsideKeepsKeys(n.state, m.state, key, None);
    }
  }

  lemma ReceivingIsOrderly(cfg: Config, n: Node, m: Node, f: Fill, fee: Option<int>, got: Inbound, opening: Book)
    requires Performs(cfg, n, Receiving(f, fee, got), m) && Fit(cfg, n.state, Receiving(f, fee, got))
    requires Orderly(cfg, n, opening)
    ensures Orderly(cfg, m, opening)
  {
    var s, t := n.state, m.state;
    InboundNeverHalfApplied(cfg, s, t, f, fee, got);
    if !cfg.owned {
      ReceivingFolds(cfg, s, t, f, fee, got, opening);
    }
    ReceivingKeepsKeys(cfg, s, t, f, fee, got);
    QuotingStaysWithinCap(cfg, s, f, fee);
  }

  lemma InboundNeverHalfApplied(cfg: Config, s: Spine, t: Spine, f: Fill, fee: Option<int>, got: Inbound)
    requires Received(cfg, s, t, f, fee, got) && FA.WithinCap(s.accrued)
    requires Executed(f) && (fee.Some? ==> fee.value >= 0)
    ensures !got.HalfApplied?
  {
    FA.AccrualStaysWithinCap(s.accrued, f);
    if got.HalfApplied? {
      HalfBookedIsNegative(cfg, s, t, Charge(f, FeeFor(cfg, s, f, fee).value));
    }
  }

  lemma ReceivingKeepsKeys(cfg: Config, s: Spine, t: Spine, f: Fill, fee: Option<int>, got: Inbound)
    requires Received(cfg, s, t, f, fee, got) && SideSettled(s)
    ensures SideSettled(t) && t.guard == s.guard
    ensures t.accrued in {s.accrued, Quoted(cfg, s, f, fee).accrued}
  {
    if got.NotDurable? {
      CancelsKeepSettled(Quoted(cfg, s, f, fee), t);
    }
  }

  lemma StepIsOrderly(cfg: Config, n: Node, step: Step, m: Node, opening: Book)
    requires Performs(cfg, n, step, m) && Fit(cfg, n.state, step) && Orderly(cfg, n, opening)
    ensures Orderly(cfg, m, opening)
  {
    match step {
      case Submitting(request, env, out) => SubmitIsOrderly(cfg, n, m, request, env, out, opening);
      case Cancelling(id, key, change) =>
        MutationIsOrderly(cfg, n, m, key, CancelHash(id), NotCancellable(n.state.orders, id), change, opening);
      case Modifying(id, request, risk, change) =>
        MutationIsOrderly(cfg, n, m, request.cid, ModifyHash(id, request),
                          NotModifiable(n.state.orders, id, request, risk), change, opening);
      case Receiving(f, fee, got) => ReceivingIsOrderly(cfg, n, m, f, fee, got, opening);
      case Halted => CancelsKeepSettled(n.state, m.state);
      case Resumed =>
    }
  }

  /** Every run whose fills fit, from an orderly start, is orderly at every point. */
  lemma {:induction false} RunIsOrderly(cfg: Config, nodes: seq<Node>, steps: seq<Step>, k: nat, opening: Book)
    requires IsRun(cfg, nodes, steps) && k < |nodes| && Orderly(cfg, nodes[0], opening)
    requires forall i :: 0 <= i < k ==> Fit(cfg, nodes[i].state, steps[i])
    ensures Orderly(cfg, nodes[k], opening)
  {
    if k > 0 {
      RunIsOrderly(cfg, nodes, steps, k - 1, opening);
      StepAt(cfg, nodes, steps, k - 1);
      StepIsOrderly(cfg, nodes[k - 1], steps[k - 1], nodes[k], opening);
    }
  }

  // ---- fills logged once -------------------------------------------------------------------

  /** An immediate fill the step met is not one the engine remembers. */
  ghost predicate FirstSeen(s: Spine, step: Step) {
    step.Submitting? && step.env.answer.Took? && step.env.answer.fill.Some? ==>
      FingerprintOf(step.env.answer.fill.value) !in s.applied
  }

  /** A fitting submit keeps the log tracked if its fill, if any, was first seen. */
  lemma SubmitIsTracked(cfg: Config, s: Spine, t: Spine, request: Request, env: Env, out: Outcome)
    requires SubmitEnds(cfg, s, t, request, env, out) && Tracked(cfg, s) && FA.WithinCap(s.accrued)
    requires Fit(cfg, s, Submitting(request, env, out)) && FirstSeen(s, Submitting(request, env, out))
    ensures Tracked(cfg, t)
  {
    var key, hash := request.cid, SubmitHash(request);
    var clean := key.Some? ==> key.value !in s.side.Values;
    if t.applied != s.applied || FillsIn(t.log) != FillsIn(s.log) {
      var order, fill := env.answer.order, env.answer.fill.value;
      TakenFillSucceeds(cfg, s, t, order, fill, key, hash, clean, out);
      AbsorbedIsTracked(cfg, s, t, Charge(fill, FeeFor(cfg, s, fill, None).value));
    }
  }

  lemma StepIsTracked(cfg: Config, n: Node, step: Step, m: Node)
    requires Performs(cfg, n, step, m) && Fit(cfg, n.state, step) && FirstSeen(n.state, step)
    requires Tracked(cfg, n.state) && FA.WithinCap(n.state.accrued)
    ensures Tracked(cfg, m.state)
  {
    match step {
      case Submitting(request, env, out) => SubmitIsTracked(cfg, n.state, m.state, request, env, out);
      case Receiving(f, fee, got) => ReceivingTracks(cfg, n.state, m.state, f, fee, got);
      case _ => assert FillsIn(m.state.log) == FillsIn(n.state.log) && m.state.applied == n.state.applied;
    }
  }

  /** Until the table overflows, a run whose fills fit logs none twice as long as each
      immediate one was first seen when it was answered. */
  lemma {:induction false} RunIsTracked(cfg: Config, nodes: seq<Node>, steps: seq<Step>, k: nat, opening: Book)
    requires IsRun(cfg, nodes, steps) && k < |nodes| && Orderly(cfg, nodes[0], opening) && Tracked(cfg, nodes[0].state)
    requires forall i :: 0 <= i < k ==> Fit(cfg, nodes[i].state, steps[i]) && FirstSeen(nodes[i].state, steps[i])
    ensures Tracked(cfg, nodes[k].state)
  {
    if k > 0 {
      RunIsTracked(cfg, nodes, steps, k - 1, opening);
      RunIsOrderly(cfg, nodes, steps, k - 1, opening);
      StepAt(cfg, nodes, steps, k - 1);
      StepIsTracked(cfg, nodes[k - 1], steps[k - 1], nodes[k]);
    }
  }

  /** Nothing here depends on what the store, the venue's cancels or the risk manager do:
      every run against a venue that only acknowledges is orderly and tracked. */
  lemma AcknowledgedRunIsOrderly(cfg: Config, nodes: seq<Node>, steps: seq<Step>, opening: Book)
    requires IsRun(cfg, nodes, steps) && Orderly(cfg, nodes[0], opening) && Tracked(cfg, nodes[0].state)
    requires forall step :: step in steps && step.Submitting? ==> AcknowledgeOnly(step.env.answer)
    requires forall step :: step in steps && step.Receiving? ==>
      Executed(step.fill) && (step.fee.Some? ==> step.fee.value >= 0)
    ensures Orderly(cfg, nodes[|steps|], opening) && Tracked(cfg, nodes[|steps|].state)
  {
    forall i | 0 <= i < |steps| ensures Fit(cfg, nodes[i].state, steps[i]) && FirstSeen(nodes[i].state, steps[i]) {
      assert steps[i] in steps;
    }
    RunIsOrderly(cfg, nodes, steps, |steps|, opening);
    RunIsTracked(cfg, nodes, steps, |steps|, opening);
  }
}
