/** The token bucket and the rolling-window counter, against a clock that never
    runs backwards. */
module RateLimiting {
  import opened Domain

  // ---- the token bucket, on values ----------------------------------------------

  datatype Bucket = Bucket(
    rate: real,
    burst: real,
    minInterval: real,
    cooldown: real,
    tokens: real,
    lastRefill: real,
    lastAcquire: real,
    coolUntil: real)

  function Lesser(x: real, y: real): real {
    if x <= y then x else y
  }

  function Product(x: real, y: real): real {
    x * y
  }

  /** Tokens on hand if refilled at `t`. */
  function Available(b: Bucket, t: real): real {
    Lesser(b.burst, b.tokens + Product(t - b.lastRefill, b.rate))
  }

  predicate Spaced(b: Bucket, now: real) {
    b.minInterval <= 0.0 || now - b.lastAcquire >= b.minInterval
  }

  predicate Open(b: Bucket, now: real) {
    now >= b.coolUntil && Spaced(b, now)
  }

  /** Anything that happens to a bucket. An attempt reads the clock twice: once for
      the cooldown and the spacing, once for the refill. */
  datatype Op =
    | Attempt(now: real, refill: real, tokens: nat)
    | Reduce(factor: real)
    | Cool(now: real)

  predicate Grants(b: Bucket, op: Op) {
    op.Attempt? && Open(b, op.now) && Available(b, op.refill) >= op.tokens as real
  }

  function Taken(b: Bucket, op: Op): real {
    if Grants(b, op) then op.tokens as real else 0.0
  }

  function Apply(b: Bucket, op: Op): Bucket {
    match op
    case Reduce(factor) => b.(rate := b.rate * factor)
    case Cool(now) => b.(coolUntil := now + b.cooldown)
    case Attempt(now, refill, n) =>
      if !Open(b, now) then b
      else
        var refilled := b.(tokens := Available(b, refill), lastRefill := refill);
        if refilled.tokens < n as real then refilled
        else refilled.(tokens := refilled.tokens - n as real, lastAcquire := now)
  }

  function Run(b: Bucket, ops: seq<Op>): Bucket {
    if ops == [] then b else Apply(Run(b, ops[..|ops| - 1]), ops[|ops| - 1])
  }

  /** Tokens handed out by a run. */
  function Granted(b: Bucket, ops: seq<Op>): real {
    if ops == [] then 0.0
    else
      var init, op := ops[..|ops| - 1], ops[|ops| - 1];
      Granted(b, init) + Taken(Run(b, init), op)
  }

  ghost predicate Sound(b: Bucket) {
    b.rate >= 0.0 && 0.0 <= b.tokens <= b.burst
  }

  /** Clock readings of one run lie between `from` and `to` and never go back;
      reductions do not raise the rate. */
  ghost predicate Timely(ops: seq<Op>, from: real, to: real) {
    && from <= to
    && (ops != [] ==>
          var op := ops[|ops| - 1];
          match op
          case Reduce(factor) => 0.0 <= factor <= 1.0 && Timely(ops[..|ops| - 1], from, to)
          case Cool(now) => now <= to && Timely(ops[..|ops| - 1], from, now)
          case Attempt(now, refill, _) => now <= refill <= to && Timely(ops[..|ops| - 1], from, now))
  }

  // ---- the envelope ----------------------------------------------------------------

  lemma RefillOverTime(rate: real, top: real, s: real, t: real)
    requires 0.0 <= rate <= top && s <= t
    ensures 0.0 <= Product(t - s, rate) <= Product(t - s, top)
  {
  }

  lemma AvailableGrows(b: Bucket, s: real, t: real)
    requires Sound(b) && b.lastRefill <= s <= t
    ensures 0.0 <= Available(b, s) <= Available(b, t) <= Available(b, s) + Product(t - s, b.rate)
    ensures Available(b, t) <= b.burst
  {
    RefillOverTime(b.rate, b.rate, b.lastRefill, s);
    RefillOverTime(b.rate, b.rate, s, t);
    Chain(b.rate, b.lastRefill, s, t);
  }

  /** One operation: what it grants is paid for out of what was available. */
  lemma ApplyingPays(b: Bucket, op: Op, t: real)
    requires Sound(b) && b.lastRefill <= t
    requires match op
      case Reduce(factor) => 0.0 <= factor <= 1.0
      case Cool(now) => now == t
      case Attempt(now, refill, _) => now <= refill == t
    ensures var c := Apply(b, op);
      && Sound(c) && c.rate <= b.rate && c.burst == b.burst && c.lastRefill <= t
      && Available(c, t) + Taken(b, op) <= Available(b, t)
  {
    AvailableGrows(b, t, t);
    if op.Reduce? {
      var reduced := Apply(b, op).rate;
      Shrinks(b.rate, op.factor, reduced);
      RefillOverTime(reduced, b.rate, b.lastRefill, t);
    }
  }

  lemma Shrinks(rate: real, factor: real, reduced: real)
    requires rate >= 0.0 && 0.0 <= factor <= 1.0 && reduced == rate * factor
    ensures 0.0 <= reduced <= rate
  {
  }

  /** Time passes, the operation is paid for, and time passes again. */
  lemma EnvelopeStep(m: Bucket, op: Op, top: real, before: real, at: real, to: real)
    requires Sound(m) && m.rate <= top && m.lastRefill <= before <= at <= to
    requires match op
      case Reduce(factor) => 0.0 <= factor <= 1.0
      case Cool(now) => now == at
      case Attempt(now, refill, _) => now <= refill == at
    ensures var c := Apply(m, op);
      && Sound(c) && c.rate <= m.rate && c.burst == m.burst && c.lastRefill <= to
      && Available(c, to) + Taken(m, op) <= Available(m, before) + Product(to - before, top)
  {
    var c := Apply(m, op);
    AvailableGrows(m, before, at);
    ApplyingPays(m, op, at);
    AvailableGrows(c, at, to);
    RefillOverTime(m.rate, top, before, at);
    RefillOverTime(c.rate, top, at, to);
    Chain(top, before, at, to);
    AddUp(Taken(m, op), Available(m, before), Available(m, at), Available(c, at), Available(c, to),
          Product(at - before, m.rate), Product(to - at, c.rate), Product(at - before, top), Product(to - at, top));
  }

  lemma AddUp(g: real, m0: real, m1: real, c1: real, c2: real, p: real, q: real, ptop: real, qtop: real)
    requires m1 <= m0 + p && c1 + g <= m1 && c2 <= c1 + q && p <= ptop && q <= qtop
    ensures c2 + g <= m0 + (ptop + qtop)
  {
  }

  ghost predicate WithinEnvelope(b: Bucket, c: Bucket, granted: real, from: real, to: real) {
    && Sound(c) && c.rate <= b.rate && c.burst == b.burst && c.lastRefill <= to
    && granted + Available(c, to) <= Available(b, from) + Product(to - from, b.rate)
  }

  lemma EnvelopeExtends(b: Bucket, m: Bucket, c: Bucket, granted: real, taken: real, from: real, before: real, to: real)
    requires WithinEnvelope(b, m, granted, from, before)
    requires Sound(c) && c.rate <= m.rate && c.burst == m.burst && c.lastRefill <= to
    requires Available(c, to) + taken <= Available(m, before) + Product(to - before, b.rate)
    ensures WithinEnvelope(b, c, granted + taken, from, to)
  {
    Chain(b.rate, from, before, to);
  }

  /** Between any two instants a bucket hands out at most what was available at the
      first plus the refill in between, hence at most its burst plus rate times
      elapsed, whatever attempts, cooldowns and rate reductions the run holds. */
  lemma {:induction false} Envelope(b: Bucket, ops: seq<Op>, from: real, to: real)
    requires Sound(b) && b.lastRefill <= from && Timely(ops, from, to)
    ensures WithinEnvelope(b, Run(b, ops), Granted(b, ops), from, to)
  {
    if ops == [] {
      AvailableGrows(b, from, to);
    } else {
      var init, op := ops[..|ops| - 1], ops[|ops| - 1];
      var before := if op.Reduce? then to else op.now;
      var m := Run(b, init);
      Envelope(b, init, from, before);
      EnvelopeStep(m, op, b.rate, before, if op.Attempt? then op.refill else before, to);
      EnvelopeExtends(b, m, Apply(m, op), Granted(b, init), Taken(m, op), from, before, to);
    }
  }

  lemma GrantedIsBounded(b: Bucket, ops: seq<Op>, from: real, to: real)
    requires Sound(b) && b.lastRefill <= from && Timely(ops, from, to)
    ensures Granted(b, ops) <= b.burst + Product(to - from, b.rate)
  {
    Envelope(b, ops, from, to);
    AvailableGrows(b, from, from);
    AvailableGrows(Run(b, ops), to, to);
  }

  /** From a reduction on, the reduced rate is what bounds the grants. */
  lemma ReducedRateBinds(b: Bucket, factor: real, reduced: real, ops: seq<Op>, from: real, to: real)
    requires Sound(b) && 0.0 <= factor <= 1.0 && reduced == b.rate * factor
    requires b.lastRefill <= from && Timely(ops, from, to)
    ensures Granted(Apply(b, Reduce(factor)), ops) <= b.burst + Product(to - from, reduced)
  {
    Shrinks(b.rate, factor, reduced);
    var c := b.(rate := reduced);
    assert Apply(b, Reduce(factor)) == c;
    GrantedIsBounded(c, ops, from, to);
  }

  lemma Chain(rate: real, s: real, t: real, u: real)
    ensures Product(t - s, rate) + Product(u - t, rate) == Product(u - s, rate)
  {
  }

  // ---- when a token is granted -------------------------------------------------------

  /** An attempt is granted exactly when the cooldown is over, the last grant is far enough
      back, and the burst and what has flowed in since the last refill both reach. */
  lemma WhenGranted(b: Bucket, now: real, refill: real, n: nat)
    ensures Grants(b, Attempt(now, refill, n)) <==>
      && now >= b.coolUntil && (b.minInterval > 0.0 ==> now - b.lastAcquire >= b.minInterval)
      && n as real <= b.burst && n as real <= b.tokens + (refill - b.lastRefill) * b.rate
  {
  }

  /** What an attempt leaves: as many tokens as flowed in, up to the burst, less those granted. */
  lemma WhatAnAttemptLeaves(b: Bucket, now: real, refill: real, n: nat)
    requires Open(b, now)
    ensures var c, full := Apply(b, Attempt(now, refill, n)), b.tokens + (refill - b.lastRefill) * b.rate;
      && c.tokens == (if full < b.burst then full else b.burst) - Taken(b, Attempt(now, refill, n))
      && c.lastRefill == refill
      && c.lastAcquire == if Grants(b, Attempt(now, refill, n)) then now else b.lastAcquire
  {
    var inflow := (refill - b.lastRefill) * b.rate;
    assert Product(refill - b.lastRefill, b.rate) == inflow;
    assert Available(b, refill) == if b.tokens + inflow < b.burst then b.tokens + inflow else b.burst;
  }

  /** A bucket left alone long enough grants whatever its burst allows. */
  lemma IdleBucketGrants(b: Bucket, now: real, refill: real, n: nat)
    requires b.rate > 0.0 && n as real <= b.burst && Open(b, now)
    requires refill >= b.lastRefill + (n as real - b.tokens) / b.rate
    ensures Grants(b, Attempt(now, refill, n))
  {
    var need, idle := n as real - b.tokens, refill - b.lastRefill;
    assert need / b.rate * b.rate == need;
    Outpaces(need / b.rate, idle, b.rate);
  }

  lemma Outpaces(x: real, y: real, rate: real)
    requires x <= y && rate > 0.0
    ensures x * rate <= y * rate
  {
  }

  // ---- spacing and cooldowns -----------------------------------------------------

  /** What a run leaves behind for the next attempt: it stays at least the minimum
      interval after every grant, and outside every cooldown. */
  lemma {:induction false} GrantsAreSpaced(b: Bucket, ops: seq<Op>, i: nat, j: nat, from: real, to: real)
    requires Timely(ops, from, to) && i < j < |ops|
    requires Grants(Run(b, ops[..j]), ops[j])
    ensures Grants(Run(b, ops[..i]), ops[i]) && b.minInterval > 0.0 ==> ops[j].now - ops[i].now >= b.minInterval
    ensures ops[i].Cool? ==> ops[j].now >= ops[i].now + b.cooldown
  {
    TimelyPrefix(ops, from, to, j);
    if Grants(Run(b, ops[..i]), ops[i]) || ops[i].Cool? {
      LastingEffect(b, ops[..j], i, from, ops[j].now);
      assert ops[..j][..i] == ops[..i];
    }
  }

  lemma {:induction false} TimelyPrefix(ops: seq<Op>, from: real, to: real, j: nat)
    requires Timely(ops, from, to) && j < |ops| && ops[j].Attempt?
    ensures Timely(ops[..j], from, ops[j].now) && ops[j].now <= to
  {
    if j < |ops| - 1 {
      var init, op := ops[..|ops| - 1], ops[|ops| - 1];
      TimelyPrefix(init, from, if op.Reduce? then to else op.now, j);
      assert init[..j] == ops[..j];
    }
  }

  /** A grant keeps holding back later ones, and so does a cooldown. */
  lemma {:induction false} LastingEffect(b: Bucket, ops: seq<Op>, i: nat, from: real, to: real)
    requires Timely(ops, from, to) && i < |ops|
    ensures Grants(Run(b, ops[..i]), ops[i]) ==> ops[i].now <= Run(b, ops).lastAcquire <= to
    ensures ops[i].Cool? ==> Run(b, ops).coolUntil >= ops[i].now + b.cooldown
    ensures Run(b, ops).minInterval == b.minInterval && Run(b, ops).cooldown == b.cooldown
  {
    var init, op := ops[..|ops| - 1], ops[|ops| - 1];
    var before := if op.Reduce? then to else op.now;
    if i < |init| {
      LastingEffect(b, init, i, from, before);
      assert init[..i] == ops[..i];
      if ops[i].Cool? {
        CoolsBefore(init, i, from, before);
      }
    } else {
      SettingsStay(b, init);
    }
  }

  lemma {:induction false} SettingsStay(b: Bucket, ops: seq<Op>)
    ensures Run(b, ops).minInterval == b.minInterval && Run(b, ops).cooldown == b.cooldown
  {
    if ops != [] {
      SettingsStay(b, ops[..|ops| - 1]);
    }
  }

  lemma {:induction false} CoolsBefore(ops: seq<Op>, i: nat, from: real, to: real)
    requires Timely(ops, from, to) && i < |ops| && ops[i].Cool?
    ensures ops[i].now <= to
  {
    var init, op := ops[..|ops| - 1], ops[|ops| - 1];
    if i < |init| {
      CoolsBefore(init, i, from, if op.Reduce? then to else op.now);
    }
  }

  // ---- the limiter object --------------------------------------------------------

  /** One turn of a blocking acquire: two clock readings and, if it has to wait, a third. */
  datatype Poll = Poll(now: real, refill: real, check: real)

  datatype Outcome = Acquired | TimedOut | Cooling | StillWaiting

  function Attempts(polls: seq<Poll>, n: nat): seq<Op> {
    if polls == [] then []
    else Attempts(polls[..|polls| - 1], n) + [Attempt(polls[|polls| - 1].now, polls[|polls| - 1].refill, n)]
  }

  /** From `b` the polls led to `c` and were granted this much. */
  ghost predicate Polled(b: Bucket, c: Bucket, polls: seq<Poll>, n: nat, granted: real) {
    c == Run(b, Attempts(polls, n)) && Granted(b, Attempts(polls, n)) == granted
  }

  lemma PollingExtends(b: Bucket, c: Bucket, d: Bucket, polls: seq<Poll>, p: Poll, n: nat)
    requires Polled(b, c, polls, n, 0.0) && d == Apply(c, Attempt(p.now, p.refill, n))
    ensures Polled(b, d, polls + [p], n, Taken(c, Attempt(p.now, p.refill, n)))
  {
    assert (polls + [p])[..|polls|] == polls;
    var ops := Attempts(polls, n);
    assert (ops + [Attempt(p.now, p.refill, n)])[..|ops|] == ops;
  }

  class TokenBucketRateLimiter {
    const burst: real
    const minInterval: real
    const cooldown: real
    const waitCooldown: bool
    var rate: real
    var tokens: real
    var lastRefill: real
    var lastAcquire: real
    var coolUntil: real

    function View(): Bucket
      reads this
    {
      Bucket(rate, burst, minInterval, cooldown, tokens, lastRefill, lastAcquire, coolUntil)
    }

    constructor (rate: real, burst: nat, minInterval: real, cooldown: real, waitCooldown: bool, now: real)
      ensures View() == Bucket(rate, burst as real, minInterval, cooldown, burst as real, now, 0.0, 0.0)
      ensures (rate >= 0.0 ==> Sound(View())) && this.waitCooldown == waitCooldown
    {
      this.rate, this.burst, this.minInterval, this.cooldown := rate, burst as real, minInterval, cooldown;
      this.waitCooldown := waitCooldown;
      tokens, lastRefill, lastAcquire, coolUntil := burst as real, now, 0.0, 0.0;
    }

    method Refill(now: real)
      modifies this`tokens, this`lastRefill
      ensures tokens == Available(old(View()), now) && lastRefill == now
    {
      var filled := tokens + (now - lastRefill) * rate;
      tokens := if burst <= filled then burst else filled;
      lastRefill := now;
    }

    method TryAcquire(now: real, refill: real, n: nat) returns (granted: bool)
      modifies this`tokens, this`lastRefill, this`lastAcquire
      ensures granted == Grants(old(View()), Attempt(now, refill, n))
      ensures View() == Apply(old(View()), Attempt(now, refill, n))
    {
      if now < coolUntil || !(minInterval <= 0.0 || now - lastAcquire >= minInterval) {
        return false;
      }
      Refill(refill);
      if tokens < n as real {
        return false;
      }
      tokens := tokens - n as real;
      lastAcquire := now;
      return true;
    }

    /** Polls until it is granted, gives up at the deadline, or fails fast while cooling:
        a run of attempts of which only the last may be granted. */
    method Acquire(n: nat, deadline: Option<real>, polls: seq<Poll>) returns (r: Outcome, used: nat)
      modifies this`tokens, this`lastRefill, this`lastAcquire
      ensures used <= |polls|
      ensures Polled(old(View()), View(), polls[..used], n, if r.Acquired? then n as real else 0.0)
      ensures r.Cooling? ==> used > 0 && !waitCooldown && polls[used - 1].now < coolUntil
      ensures r.TimedOut? ==> used > 0 && deadline.Some? && polls[used - 1].check >= deadline.value
      ensures r.StillWaiting? ==> used == |polls|
    {
      used, r := 0, StillWaiting;
      while used < |polls| && r.StillWaiting?
        invariant used <= |polls|
        invariant Polled(old(View()), View(), polls[..used], n, if r.Acquired? then n as real else 0.0)
        invariant r.Cooling? ==> used > 0 && !waitCooldown && polls[used - 1].now < coolUntil
        invariant r.TimedOut? ==> used > 0 && deadline.Some? && polls[used - 1].check >= deadline.value
        decreases |polls| - used
      {
        assert polls[..used + 1] == polls[..used] + [polls[used]];
        r := Turn(n, deadline, polls[used], old(View()), polls[..used]);
        used := used + 1;
      }
    }

    /** One turn of the loop: granted, given up, or still waiting. */
    method Turn(n: nat, deadline: Option<real>, p: Poll, ghost b: Bucket, ghost polls: seq<Poll>) returns (r: Outcome)
      requires Polled(b, View(), polls, n, 0.0)
      modifies this`tokens, this`lastRefill, this`lastAcquire
      ensures Polled(b, View(), polls + [p], n, if r.Acquired? then n as real else 0.0)
      ensures r.Cooling? ==> !waitCooldown && p.now < coolUntil
      ensures r.TimedOut? ==> deadline.Some? && p.check >= deadline.value
    {
      ghost var c := View();
      var granted := TryAcquire(p.now, p.refill, n);
      PollingExtends(b, c, View(), polls, p, n);
      if granted {
        return Acquired;
      }
      if p.now < coolUntil && !waitCooldown {
        return Cooling;
      }
      return if deadline.Some? && p.check >= deadline.value then TimedOut else StillWaiting;
    }

    method ReduceRate(factor: real)
      modifies this`rate
      ensures View() == Apply(old(View()), Reduce(factor))
    {
      rate := rate * factor;
    }

    method TriggerCooldown(now: real)
      modifies this`coolUntil
      ensures View() == Apply(old(View()), Cool(now))
    {
      coolUntil := now + cooldown;
    }
  }

  // ---- the rolling window ----------------------------------------------------------

  function After(ts: seq<real>, cutoff: real): seq<real> {
    if ts == [] then []
    else After(ts[..|ts| - 1], cutoff) + (if ts[|ts| - 1] > cutoff then [ts[|ts| - 1]] else [])
  }

  /** Stamps in order, none after `bound`. */
  ghost predicate Orderly(ts: seq<real>, bound: real) {
    ts == [] || (ts[|ts| - 1] <= bound && Orderly(ts[..|ts| - 1], ts[|ts| - 1]))
  }

  lemma {:induction false} AfterShrinks(ts: seq<real>, early: real, late: real)
    requires early <= late
    ensures After(After(ts, early), late) == After(ts, late)
  {
    if ts != [] {
      var init, t := ts[..|ts| - 1], ts[|ts| - 1];
      AfterShrinks(init, early, late);
      assert (After(init, early) + [t])[..|After(init, early)|] == After(init, early);
      assert After(init, early) + [] == After(init, early);
    }
  }

  lemma {:induction false} LaterHoldsLess(ts: seq<real>, early: real, late: real)
    requires early <= late
    ensures |After(ts, late)| <= |After(ts, early)|
  {
    if ts != [] {
      LaterHoldsLess(ts[..|ts| - 1], early, late);
    }
  }

  lemma OrderlyLater(ts: seq<real>, last: real, t: real)
    requires Orderly(ts, last) && last <= t
    ensures Orderly(ts, t)
  {
  }

  lemma {:induction false} FirstIsLeast(ts: seq<real>, bound: real)
    requires Orderly(ts, bound) && ts != []
    ensures ts[0] <= bound && Orderly(ts[1..], bound)
  {
    if |ts| > 1 {
      FirstIsLeast(ts[..|ts| - 1], ts[|ts| - 1]);
      assert ts[1..][..|ts| - 2] == ts[..|ts| - 1][1..];
    }
  }

  /** On ordered stamps, dropping an expired front is filtering. */
  lemma {:induction false} DroppingIsFiltering(ts: seq<real>, cutoff: real)
    requires ts != [] && ts[0] <= cutoff
    ensures After(ts, cutoff) == After(ts[1..], cutoff)
  {
    if |ts| > 1 {
      DroppingIsFiltering(ts[..|ts| - 1], cutoff);
      assert ts[1..][..|ts| - 2] == ts[..|ts| - 1][1..];
    } else {
      assert ts[..0] == [] && After(ts[..0], cutoff) == [];
    }
  }

  /** Once the front is in the window, so is everything behind it. */
  lemma {:induction false} NothingToDrop(ts: seq<real>, bound: real, cutoff: real)
    requires Orderly(ts, bound) && (ts != [] ==> ts[0] > cutoff)
    ensures After(ts, cutoff) == ts
  {
    if ts != [] {
      var init, t := ts[..|ts| - 1], ts[|ts| - 1];
      NothingToDrop(init, t, cutoff);
      if init != [] {
        FirstIsLeast(init, t);
      }
      assert init + [t] == ts;
    }
  }

  /** How many accepted stamps lie in the window that ends at `t`. */
  function Within(ts: seq<real>, t: real, window: real): nat {
    if ts == [] then 0
    else Within(ts[..|ts| - 1], t, window) + (if t - window < ts[|ts| - 1] <= t then 1 else 0)
  }

  /** Each stamp was accepted with room in its own window. */
  ghost predicate Paced(ts: seq<real>, max: nat, window: real) {
    ts == [] || (Paced(ts[..|ts| - 1], max, window) && |After(ts, ts[|ts| - 1] - window)| <= max)
  }

  lemma {:induction false} WithinIsAfter(ts: seq<real>, t: real, window: real)
    requires Orderly(ts, t)
    ensures Within(ts, t, window) == |After(ts, t - window)|
  {
    if ts != [] {
      WithinIsAfter(ts[..|ts| - 1], t, window);
    }
  }

  /** A window that ends after the last stamp holds no more than the last stamp's own. */
  lemma LaterWindowHoldsLess(ts: seq<real>, last: real, window: real, t: real)
    requires last <= t && Orderly(ts, last)
    ensures Within(ts, t, window) <= |After(ts, last - window)|
  {
    OrderlyLater(ts, last, t);
    WithinIsAfter(ts, t, window);
    LaterHoldsLess(ts, last - window, t - window);
  }

  /** No window, wherever it ends, holds more than the limit. */
  lemma {:induction false} NoWindowOverflows(ts: seq<real>, clock: real, max: nat, window: real, t: real)
    requires Orderly(ts, clock) && Paced(ts, max, window)
    ensures Within(ts, t, window) <= max
  {
    if ts != [] {
      var last := ts[|ts| - 1];
      if last > t {
        NoWindowOverflows(ts[..|ts| - 1], last, max, window, t);
      } else {
        LaterWindowHoldsLess(ts, last, window, t);
      }
    }
  }

  lemma {:induction false} FilteringKeepsOrder(ts: seq<real>, bound: real, cutoff: real)
    requires Orderly(ts, bound)
    ensures Orderly(After(ts, cutoff), bound)
  {
    if ts != [] {
      var init, t := ts[..|ts| - 1], ts[|ts| - 1];
      FilteringKeepsOrder(init, t, cutoff);
      var kept := After(init, cutoff);
      assert (kept + [t])[..|kept|] == kept;
      assert kept + [] == kept;
    }
  }

  lemma AfterAppends(ts: seq<real>, now: real, cutoff: real)
    requires now > cutoff
    ensures After(ts + [now], cutoff) == After(ts, cutoff) + [now]
  {
    assert (ts + [now])[..|ts|] == ts;
  }

  /** The deque is the accepted history filtered to the window, and paced. */
  ghost predicate Kept(deque: seq<real>, ts: seq<real>, clock: real, max: nat, window: real) {
    Orderly(ts, clock) && Paced(ts, max, window) && deque == After(ts, clock - window)
  }

  /** What `_prune` leaves: stamps are dropped from the front while they are expired. */
  function Pruned(deque: seq<real>, cutoff: real): seq<real> {
    if deque != [] && deque[0] <= cutoff then Pruned(deque[1..], cutoff) else deque
  }

  /** There is room once the front has been pruned. */
  predicate Admits(deque: seq<real>, now: real, max: nat, window: real) {
    |Pruned(deque, now - window)| < max
  }

  /** On ordered stamps pruning is filtering. */
  lemma {:induction false} PruningIsFiltering(deque: seq<real>, bound: real, cutoff: real)
    requires Orderly(deque, bound)
    ensures Pruned(deque, cutoff) == After(deque, cutoff)
  {
    if deque != [] && deque[0] <= cutoff {
      FirstIsLeast(deque, bound);
      PruningIsFiltering(deque[1..], bound, cutoff);
      DroppingIsFiltering(deque, cutoff);
    } else {
      NothingToDrop(deque, bound, cutoff);
    }
  }

  /** Pruning what was retained is filtering the history. */
  lemma PruningRetained(ts: seq<real>, clock: real, early: real, late: real)
    requires Orderly(ts, clock) && early <= late
    ensures Pruned(After(ts, early), late) == After(ts, late)
  {
    FilteringKeepsOrder(ts, clock, early);
    PruningIsFiltering(After(ts, early), clock, late);
    AfterShrinks(ts, early, late);
  }

  /** Moving the clock on: there is room exactly while the window that ends now has room. */
  lemma KeptAdvances(deque: seq<real>, ts: seq<real>, clock: real, now: real, max: nat, window: real)
    requires Kept(deque, ts, clock, max, window) && clock <= now
    ensures Kept(Pruned(deque, now - window), ts, now, max, window)
    ensures Admits(deque, now, max, window) <==> Within(ts, now, window) < max
  {
    PruningRetained(ts, clock, clock - window, now - window);
    OrderlyLater(ts, clock, now);
    WithinIsAfter(ts, now, window);
  }

  lemma KeptAccepts(deque: seq<real>, ts: seq<real>, now: real, max: nat, window: real)
    requires Kept(deque, ts, now, max, window) && |deque| < max && window > 0.0
    ensures Kept(deque + [now], ts + [now], now, max, window)
  {
    OrderlyAppends(ts, now);
    AcceptingIsPaced(ts, max, window, now);
  }

  lemma OrderlyAppends(ts: seq<real>, now: real)
    requires Orderly(ts, now)
    ensures Orderly(ts + [now], now)
  {
    assert (ts + [now])[..|ts|] == ts;
  }

  /** Accepting with room keeps the history paced. */
  lemma AcceptingIsPaced(ts: seq<real>, max: nat, window: real, now: real)
    requires Paced(ts, max, window) && |After(ts, now - window)| < max && window > 0.0
    ensures After(ts + [now], now - window) == After(ts, now - window) + [now]
    ensures Paced(ts + [now], max, window)
  {
    AfterAppends(ts, now, now - window);
    assert (ts + [now])[..|ts|] == ts;
  }

  // ---- calls in clock order, and a late one --------------------------------------------

  /** The deque and everything ever accepted. */
  datatype Counter = Counter(deque: seq<real>, accepted: seq<real>)

  function Recorded(c: Counter, now: real, max: nat, window: real): Counter {
    var kept := Pruned(c.deque, now - window);
    if |kept| < max then Counter(kept + [now], c.accepted + [now]) else c.(deque := kept)
  }

  function RecordRun(times: seq<real>, max: nat, window: real): Counter {
    if times == [] then Counter([], [])
    else Recorded(RecordRun(times[..|times| - 1], max, window), times[|times| - 1], max, window)
  }

  lemma RecordingKeeps(c: Counter, clock: real, now: real, max: nat, window: real)
    requires Kept(c.deque, c.accepted, clock, max, window) && clock <= now && window > 0.0
    ensures var d := Recorded(c, now, max, window); Kept(d.deque, d.accepted, now, max, window)
  {
    KeptAdvances(c.deque, c.accepted, clock, now, max, window);
    if Admits(c.deque, now, max, window) {
      KeptAccepts(Pruned(c.deque, now - window), c.accepted, now, max, window);
    }
  }

  /** Called in clock order, the deque is always the accepted history filtered to the window
      that ends with the last call. */
  lemma {:induction false} InOrderIsKept(times: seq<real>, clock: real, max: nat, window: real)
    requires Orderly(times, clock) && times != [] && window > 0.0
    ensures var c := RecordRun(times, max, window); Kept(c.deque, c.accepted, times[|times| - 1], max, window)
  {
    var init, now := times[..|times| - 1], times[|times| - 1];
    if init == [] {
      RecordingKeeps(Counter([], []), now, now, max, window);
    } else {
      InOrderIsKept(init, now, max, window);
      RecordingKeeps(RecordRun(init, max, window), init[|init| - 1], now, max, window);
    }
  }

  /** And no window, wherever it ends, ever holds more than the limit. */
  lemma InOrderNeverOverflows(times: seq<real>, clock: real, max: nat, window: real, t: real)
    requires Orderly(times, clock) && window > 0.0
    ensures Within(RecordRun(times, max, window).accepted, t, window) <= max
  {
    if times != [] {
      InOrderIsKept(times, clock, max, window);
      NoWindowOverflows(RecordRun(times, max, window).accepted, times[|times| - 1], max, window, t);
    }
  }

  lemma {:induction false} AfterStartsLate(ts: seq<real>, cutoff: real)
    ensures After(ts, cutoff) != [] ==> After(ts, cutoff)[0] > cutoff
  {
    if ts != [] {
      AfterStartsLate(ts[..|ts| - 1], cutoff);
    }
  }

  lemma WithinAppends(ts: seq<real>, now: real, t: real, window: real)
    ensures Within(ts + [now], t, window) == Within(ts, t, window) + (if t - window < now <= t then 1 else 0)
  {
    assert (ts + [now])[..|ts|] == ts;
  }

  /** A call whose clock reading is older than the last one recorded prunes nothing. */
  lemma LateCallPrunesNothing(deque: seq<real>, ts: seq<real>, clock: real, now: real, window: real)
    requires deque == After(ts, clock - window) && now < clock
    ensures Pruned(deque, now - window) == deque
  {
    AfterStartsLate(ts, clock - window);
  }

  lemma AcceptingIntoAFullWindow(ts: seq<real>, clock: real, now: real, max: nat, window: real, t: real)
    requires Orderly(ts, clock) && Paced(ts, max, window)
    ensures Within(ts, t, window) <= max
    ensures Within(ts + [now], t, window) > max <==> max <= Within(ts, t, window) && t - window < now <= t
  {
    NoWindowOverflows(ts, clock, max, window, t);
    WithinAppends(ts, now, t, window);
  }

  /** After a late call a window overflows if and only if the call was accepted into it while it
      was full; the window that ends with the call itself, if and only if the retained
      stamps left room although those of its own time did not. */
  lemma LateCallOverflows(c: Counter, clock: real, now: real, max: nat, window: real, t: real)
    requires Kept(c.deque, c.accepted, clock, max, window) && now < clock && window > 0.0
    ensures var d := Recorded(c, now, max, window);
      && (Within(d.accepted, t, window) > max <==>
            |After(c.accepted, clock - window)| < max <= Within(c.accepted, t, window) && t - window < now <= t)
      && (Within(d.accepted, now, window) > max <==>
            |After(c.accepted, clock - window)| < max <= Within(c.accepted, now, window))
  {
    LateCallPrunesNothing(c.deque, c.accepted, clock, now, window);
    AcceptingIntoAFullWindow(c.accepted, clock, now, max, window, t);
    AcceptingIntoAFullWindow(c.accepted, clock, now, max, window, now);
  }

  /** So a late call overfills some window if and only if the retained stamps leave room while
      some window that the call falls into is full. */
  lemma WhenLateCallOverfills(c: Counter, clock: real, now: real, max: nat, window: real)
    requires Kept(c.deque, c.accepted, clock, max, window) && now < clock && window > 0.0
    ensures (exists t :: Within(Recorded(c, now, max, window).accepted, t, window) > max) <==>
      && |After(c.accepted, clock - window)| < max
      && exists t :: now <= t < now + window && max <= Within(c.accepted, t, window)
  {
    var d := Recorded(c, now, max, window);
    if t: real :| Within(d.accepted, t, window) > max {
      LateCallOverflows(c, clock, now, max, window, t);
      assert now <= t < now + window && max <= Within(c.accepted, t, window);
    }
    if t: real :| now <= t < now + window && max <= Within(c.accepted, t, window) {
      LateCallOverflows(c, clock, now, max, window, t);
    }
  }

  /** At most 2 in a window, with two calls in one window, a third a window later and then a
      reading from the first window: three stamps within one window are accepted. For
      instance 4, 5, 100 and 6 seconds with a window of 10. */
  lemma LateCallOverfills(a: real, b: real, c: real, d: real, window: real)
    requires window > 0.0 && a <= b <= d < a + window && b <= c - window && d < c
    ensures var full := Recorded(Recorded(Counter([], []), a, 2, window), b, 2, window);
      var moved := Recorded(full, c, 2, window);
      Within(Recorded(moved, d, 2, window).accepted, d, window) == 3
  {
    assert Recorded(Counter([], []), a, 2, window) == Counter([a], [a]);
    assert Recorded(Counter([a], [a]), b, 2, window) == Counter([a, b], [a, b]);
    assert [a, b][1..] == [b] && [b][1..] == [];
    assert Pruned([b], c - window) == [];
    assert Recorded(Counter([a, b], [a, b]), c, 2, window) == Counter([c], [a, b, c]);
    assert Recorded(Counter([c], [a, b, c]), d, 2, window) == Counter([c, d], [a, b, c, d]);
    FourStamps(a, b, c, d, window);
  }

  lemma FourStamps(a: real, b: real, c: real, d: real, window: real)
    requires window > 0.0 && a <= b <= d < a + window && d < c
    ensures Within([a, b, c, d], d, window) == 3
  {
    WithinAppends([], a, d, window);
    WithinAppends([a], b, d, window);
    WithinAppends([a, b], c, d, window);
    WithinAppends([a, b, c], d, d, window);
    assert [] + [a] == [a] && [a] + [b] == [a, b] && [a, b] + [c] == [a, b, c] && [a, b, c] + [d] == [a, b, c, d];
  }

  // ---- calls in any order ------------------------------------------------------------------

  ghost predicate NoneAfter(times: seq<real>, t: real) {
    forall i :: 0 <= i < |times| ==> times[i] <= t
  }

  lemma {:induction false} WithinFromFront(ts: seq<real>, t: real, window: real)
    requires ts != []
    ensures Within(ts, t, window) == Within(ts[1..], t, window) + (if t - window < ts[0] <= t then 1 else 0)
  {
    if |ts| > 1 {
      WithinFromFront(ts[..|ts| - 1], t, window);
      assert ts[1..][..|ts| - 2] == ts[..|ts| - 1][1..];
    } else {
      assert ts[..0] == ts[1..] == [];
    }
  }

  /** Pruning up to the start of a window drops nothing from it. */
  lemma {:induction false} PruningSparesWindow(deque: seq<real>, cutoff: real, t: real, window: real)
    requires cutoff <= t - window
    ensures Within(Pruned(deque, cutoff), t, window) == Within(deque, t, window)
    ensures |Pruned(deque, cutoff)| <= |deque|
  {
    if deque != [] && deque[0] <= cutoff {
      WithinFromFront(deque, t, window);
      PruningSparesWindow(deque[1..], cutoff, t, window);
    }
  }

  lemma {:induction false} WithinIsPart(ts: seq<real>, t: real, window: real)
    ensures Within(ts, t, window) <= |ts|
  {
    if ts != [] {
      WithinIsPart(ts[..|ts| - 1], t, window);
    }
  }

  /** Whatever order the readings come in, the deque never outgrows the limit and holds every
      accepted stamp of a window that ends no earlier than the newest of them. */
  lemma {:induction false} NewestWindowIsRetained(times: seq<real>, max: nat, window: real, t: real)
    requires NoneAfter(times, t)
    ensures var c := RecordRun(times, max, window);
      |c.deque| <= max && Within(c.accepted, t, window) == Within(c.deque, t, window)
  {
    if times != [] {
      var init, now := times[..|times| - 1], times[|times| - 1];
      NewestWindowIsRetained(init, max, window, t);
      var c := RecordRun(init, max, window);
      var kept := Pruned(c.deque, now - window);
      PruningSparesWindow(c.deque, now - window, t, window);
      WithinAppends(kept, now, t, window);
      WithinAppends(c.accepted, now, t, window);
    }
  }

  /** So a window that ends no earlier than any reading taken so far never overflows: a call
      overfills only windows that end before a reading taken earlier. */
  lemma NewestWindowNeverOverflows(times: seq<real>, max: nat, window: real, t: real)
    requires NoneAfter(times, t)
    ensures Within(RecordRun(times, max, window).accepted, t, window) <= max
  {
    NewestWindowIsRetained(times, max, window, t);
    WithinIsPart(RecordRun(times, max, window).deque, t, window);
  }

  class RollingWindowCounter {
    const max: nat
    const window: real
    var timestamps: seq<real>
    /** Everything ever accepted. */
    ghost var accepted: seq<real>

    ghost function View(): Counter
      reads this
    {
      Counter(timestamps, accepted)
    }

    constructor (max: nat, window: real)
      requires max >= 1 && window > 0.0
      ensures this.max == max && this.window == window && View() == RecordRun([], max, window)
    {
      this.max, this.window := max, window;
      timestamps, accepted := [], [];
    }

    method Prune(now: real)
      modifies this`timestamps
      ensures timestamps == Pruned(old(timestamps), now - window)
    {
      var cutoff := now - window;
      while timestamps != [] && timestamps[0] <= cutoff
        invariant Pruned(timestamps, cutoff) == Pruned(old(timestamps), cutoff)
        decreases |timestamps|
      {
        timestamps := timestamps[1..];
      }
    }

    /** One call, with a clock reading taken before the lock and so of any age. */
    method Record(now: real) returns (ok: bool)
      modifies this
      ensures ok == Admits(old(timestamps), now, max, window)
      ensures View() == Recorded(old(View()), now, max, window)
      ensures accepted == if ok then old(accepted) + [now] else old(accepted)
    {
      Prune(now);
      if |timestamps| >= max {
        return false;
      }
      timestamps, accepted := timestamps + [now], accepted + [now];
      return true;
    }
  }
}
