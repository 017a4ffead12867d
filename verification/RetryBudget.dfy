/** The token bucket that pays for retries, and how far it can amplify load. Time is in seconds. */
module RetryBudgets {
  import opened Common

  datatype Budget = Budget(capacity: int, refill: real, tokens: real, updatedAt: real)
  {
    predicate Valid() {
      1 <= capacity && 0.0 < refill && 0.0 <= tokens <= capacity as real
    }
  }

  function Capped(tokens: real, capacity: int): real {
    if tokens > capacity as real then capacity as real else tokens
  }

  function Refilled(b: Budget, now: real): Budget {
    b.(tokens := Capped(b.tokens + Accrued(b.refill, b.updatedAt, now), b.capacity), updatedAt := now)
  }

  function Spend(b: Budget, now: real): (Budget, bool) {
    var r := Refilled(b, now);
    if r.tokens < 1.0 then (r, false) else (r.(tokens := r.tokens - 1.0), true)
  }

  function ClampedCapacity(capacity: int): int { if capacity < 1 then 1 else capacity }

  function ClampedRefill(refill: real): real { if refill <= 0.0 then 1.0 else refill }

  /** A new policy never adds tokens beyond those already refilled; the clock is read again at the end. */
  function Reconfigured(b: Budget, capacity: int, refill: real, now: real, later: real): Budget {
    var r := Refilled(b, now);
    var c := ClampedCapacity(capacity);
    Budget(c, ClampedRefill(refill), Capped(r.tokens, c), later)
  }

  function LeastOf(a: real, b: real): real { if a < b then a else b }

  /** What the bucket holds at `now`: what it held, and all it has earned since, up to its capacity. */
  function Standing(b: Budget, now: real): real {
    LeastOf(b.capacity as real, b.tokens + (now - b.updatedAt) * b.refill)
  }

  lemma RefillIsStanding(b: Budget, now: real)
    ensures Refilled(b, now) == b.(tokens := Standing(b, now), updatedAt := now)
  {}

  class RetryBudget {
    var capacity: int
    var refill: real
    var tokens: real
    var updatedAt: real

    function View(): Budget
      reads this
    {
      Budget(capacity, refill, tokens, updatedAt)
    }

    /** The first `Update` fills the bucket. */
    constructor (capacity: int, refill: real, now: real)
      ensures View().Valid() && updatedAt == now && tokens == this.capacity as real
      ensures this.capacity == Max(1, capacity) && this.refill == if refill > 0.0 then refill else 1.0
    {
      this.capacity := ClampedCapacity(capacity);
      this.refill := ClampedRefill(refill);
      this.tokens := ClampedCapacity(capacity) as real;
      this.updatedAt := now;
    }

    method RefillLocked(now: real)
      requires View().Valid() && updatedAt <= now
      modifies this
      ensures View() == Refilled(old(View()), now) && View().Valid()
    {
      RefillAdds(View(), now);
      tokens := tokens + Accrued(refill, updatedAt, now);
      if tokens > capacity as real {
        tokens := capacity as real;
      }
      updatedAt := now;
    }

    method Update(capacity: int, refill: real, now: real, later: real)
      requires View().Valid() && updatedAt <= now
      modifies this
      ensures View() == Reconfigured(old(View()), capacity, refill, now, later) && View().Valid()
      ensures this.capacity == Max(1, capacity) && (this.refill == if refill > 0.0 then refill else 1.0) && updatedAt == later
      ensures tokens == LeastOf(this.capacity as real, Standing(old(View()), now))
    {
      ReconfiguredBounds(View(), capacity, refill, now, later);
      RefillIsStanding(View(), now);
      RefillLocked(now);
      this.capacity := ClampedCapacity(capacity);
      this.refill := ClampedRefill(refill);
      if tokens > this.capacity as real {
        tokens := this.capacity as real;
      }
      updatedAt := later;
    }

    method Allow(now: real) returns (allowed: bool)
      requires View().Valid() && updatedAt <= now
      modifies this
      ensures (View(), allowed) == Spend(old(View()), now) && View().Valid()
      ensures allowed <==> Standing(old(View()), now) >= 1.0
      ensures tokens == Standing(old(View()), now) - (if allowed then 1.0 else 0.0)
      ensures capacity == old(capacity) && refill == old(refill) && updatedAt == now
    {
      RefillIsStanding(View(), now);
      RefillLocked(now);
      allowed := tokens >= 1.0;
      if allowed {
        tokens := tokens - 1.0;
      }
    }
  }

  lemma CappedBounds(tokens: real, capacity: int)
    requires 0.0 <= tokens && 1 <= capacity
    ensures 0.0 <= Capped(tokens, capacity) <= capacity as real && Capped(tokens, capacity) <= tokens
  {
    assert capacity as real >= 1.0;
  }

  lemma RefillAdds(b: Budget, now: real)
    requires b.Valid() && b.updatedAt <= now
    ensures 0.0 <= Accrued(b.refill, b.updatedAt, now)
    ensures Refilled(b, now).Valid()
    ensures Refilled(b, now).tokens <= b.tokens + Accrued(b.refill, b.updatedAt, now)
  {
    AccruedGrows(b.refill, b.updatedAt, now);
    CappedBounds(b.tokens + Accrued(b.refill, b.updatedAt, now), b.capacity);
  }

  lemma ReconfiguredBounds(b: Budget, capacity: int, refill: real, now: real, later: real)
    requires b.Valid() && b.updatedAt <= now
    ensures Reconfigured(b, capacity, refill, now, later).Valid()
    ensures Reconfigured(b, capacity, refill, now, later).tokens <= b.tokens + Accrued(b.refill, b.updatedAt, now)
  {
    RefillAdds(b, now);
    CappedBounds(Refilled(b, now).tokens, ClampedCapacity(capacity));
  }

  // ------------------------------------------------------------ all requests on one transport

  /** What reaches the budget, in the order its mutex admits it, and the requests around it. */
  datatype Event =
    | Begin(found: bool)                            // a request starts, with or without a backend to try
    | Retry(now: real)                              // an attempt failed and another backend holds a slot
    | Update(capacity: int, refill: real, now: real, later: real)
    | Peek(now: real)

  /** `started` counts requests, `attempts` what was sent upstream. */
  datatype Load = Load(budget: Budget, started: nat, attempts: nat)

  predicate InOrder(load: Load, ev: Event) {
    ev.Begin? || load.budget.updatedAt <= ev.now
  }

  function Step(load: Load, ev: Event): Load {
    match ev
    case Begin(found) => Load(load.budget, load.started + 1, load.attempts + if found then 1 else 0)
    case Retry(now) =>
      var (b, allowed) := Spend(load.budget, now);
      Load(b, load.started, load.attempts + if allowed then 1 else 0)
    case Update(capacity, refill, now, later) =>
      load.(budget := Reconfigured(load.budget, capacity, refill, now, later))
    case Peek(now) => load.(budget := Refilled(load.budget, now))
  }

  predicate Run(load: Load, es: seq<Event>)
    decreases |es|
  {
    es == [] || (InOrder(load, es[0]) && Run(Step(load, es[0]), es[1..]))
  }

  function Final(load: Load, es: seq<Event>): Load
    decreases |es|
  {
    if es == [] then load else Final(Step(load, es[0]), es[1..])
  }

  /** Tokens earned up to the event, at the rate then in force. */
  function Gain(load: Load, ev: Event): real {
    if ev.Begin? then 0.0 else Accrued(load.budget.refill, load.budget.updatedAt, ev.now)
  }

  function Earned(load: Load, es: seq<Event>): real
    decreases |es|
  {
    if es == [] then 0.0 else Gain(load, es[0]) + Earned(Step(load, es[0]), es[1..])
  }

  /** From `a` to `b`, what was sent and what is left is paid for by requests, tokens at hand and `gain`. */
  predicate Paid(a: Load, b: Load, gain: real) {
    b.attempts as real + b.budget.tokens + a.started as real
    <= b.started as real + a.budget.tokens + a.attempts as real + gain
  }

  lemma StepSpends(load: Load, ev: Event)
    requires load.budget.Valid() && InOrder(load, ev)
    ensures Step(load, ev).budget.Valid() && Paid(load, Step(load, ev), Gain(load, ev))
  {
    match ev {
      case Begin(_) =>
      case Retry(now) => RefillAdds(load.budget, now);
      case Update(capacity, refill, now, later) => ReconfiguredBounds(load.budget, capacity, refill, now, later);
      case Peek(now) => RefillAdds(load.budget, now);
    }
  }

  lemma PaidTransitive(a: Load, b: Load, c: Load, g: real, h: real)
    requires Paid(a, b, g) && Paid(b, c, h)
    ensures Paid(a, c, g + h)
  {}

  /**
   For any interleaving of requests and reconfigurations: what goes upstream is bounded by the requests,
   the tokens at hand and the tokens earned, and the bucket never leaves its bounds.
   */
  lemma {:induction false} AmplificationBound(load: Load, es: seq<Event>)
    requires load.budget.Valid() && Run(load, es)
    ensures Final(load, es).budget.Valid() && Paid(load, Final(load, es), Earned(load, es))
    decreases |es|
  {
    if es != [] {
      var next := Step(load, es[0]);
      StepSpends(load, es[0]);
      AmplificationBound(next, es[1..]);
      PaidTransitive(load, next, Final(next, es[1..]), Gain(load, es[0]), Earned(next, es[1..]));
    }
  }

  predicate FixedPolicy(es: seq<Event>) {
    forall k | 0 <= k < |es| :: !es[k].Update?
  }

  lemma StepAccrues(load: Load, ev: Event)
    requires !ev.Update?
    ensures Step(load, ev).budget.refill == load.budget.refill
    ensures Gain(load, ev) == Accrued(load.budget.refill, load.budget.updatedAt, Step(load, ev).budget.updatedAt)
  {
    AccruedNothing(load.budget.refill, load.budget.updatedAt);
  }

  lemma {:induction false} EarnedAtFixedRate(load: Load, es: seq<Event>)
    requires Run(load, es) && FixedPolicy(es)
    ensures Final(load, es).budget.refill == load.budget.refill
    ensures Earned(load, es) ==
            Accrued(load.budget.refill, load.budget.updatedAt, Final(load, es).budget.updatedAt)
    decreases |es|
  {
    if es != [] {
      var next := Step(load, es[0]);
      StepAccrues(load, es[0]);
      EarnedAtFixedRate(next, es[1..]);
      AccruedAdds(load.budget.refill, load.budget.updatedAt, next.budget.updatedAt, Final(load, es).budget.updatedAt);
    }
  }

  /** Under one policy: attempts never exceed requests + capacity + refill * elapsed. */
  lemma FixedPolicyBound(load: Load, es: seq<Event>)
    requires load.budget.Valid() && Run(load, es) && FixedPolicy(es)
    ensures var end := Final(load, es);
            end.attempts as real - load.attempts as real
            <= end.started as real - load.started as real + load.budget.capacity as real
               + Accrued(load.budget.refill, load.budget.updatedAt, end.budget.updatedAt)
  {
    AmplificationBound(load, es);
    EarnedAtFixedRate(load, es);
  }

  // ------------------------------------------------------------ and no retry is refused without need

  /** A retry at any point of a run is refused exactly if, with all it has earned since, the bucket holds less than a token. */
  lemma RefusedIffEmpty(load: Load, es: seq<Event>, now: real)
    requires load.budget.Valid() && Run(load, es) && InOrder(Final(load, es), Retry(now))
    ensures Run(load, es + [Retry(now)])
    ensures Final(load, es + [Retry(now)]).attempts ==
            Final(load, es).attempts + if Standing(Final(load, es).budget, now) < 1.0 then 0 else 1
    ensures Final(load, es + [Retry(now)]).budget.tokens ==
            Standing(Final(load, es).budget, now) - if Standing(Final(load, es).budget, now) < 1.0 then 0.0 else 1.0
  {
    RunAppends(load, es, Retry(now));
    RefillIsStanding(Final(load, es).budget, now);
  }

  lemma OneTokenEarned(elapsed: real, refill: real)
    requires refill > 0.0 && elapsed >= 1.0 / refill
    ensures elapsed * refill >= 1.0
  {
    var least := 1.0 / refill;
    assert least * refill == 1.0;
    ProductNonNegative(elapsed - least, refill);
    assert elapsed * refill == (elapsed - least) * refill + least * refill;
  }

  /** Left alone for `1 / refill` seconds, the budget pays for the next retry, whatever happened before. */
  lemma IdleEarnsARetry(load: Load, es: seq<Event>, now: real)
    requires load.budget.Valid() && Run(load, es) && Final(load, es).budget.Valid()
    requires now - Final(load, es).budget.updatedAt >= 1.0 / Final(load, es).budget.refill
    ensures Run(load, es + [Retry(now)])
    ensures Final(load, es + [Retry(now)]).attempts == Final(load, es).attempts + 1
  {
    var b := Final(load, es).budget;
    EarnedIsEnough(b, now);
    RefusedIffEmpty(load, es, now);
  }

  lemma EarnedIsEnough(b: Budget, now: real)
    requires b.Valid() && now - b.updatedAt >= 1.0 / b.refill
    ensures b.updatedAt <= now && Standing(b, now) >= 1.0
  {
    OneTokenEarned(now - b.updatedAt, b.refill);
    WaitIsPositive(b.refill);
    EnoughIsKept(b.capacity, b.tokens, (now - b.updatedAt) * b.refill);
  }

  lemma WaitIsPositive(refill: real)
    requires refill > 0.0
    ensures 1.0 / refill > 0.0
  {}

  lemma EnoughIsKept(capacity: int, tokens: real, gain: real)
    requires 1 <= capacity && 0.0 <= tokens && 1.0 <= gain
    ensures LeastOf(capacity as real, tokens + gain) >= 1.0
  {
    assert capacity as real >= 1.0;
  }

  // ------------------------------------------------------------ the budget as one request sees it

  /** What one party has contributed: requests started, attempts sent, retries refused. */
  datatype Tally = Tally(started: nat, attempts: nat, refused: nat)

  function Counted(t: Tally, load: Load, ev: Event): Tally {
    var next := Step(load, ev);
    Tally(t.started + (next.started - load.started), t.attempts + (next.attempts - load.attempts),
          t.refused + if ev.Retry? && next.attempts == load.attempts then 1 else 0)
  }

  lemma {:induction false} RunAppends(load: Load, es: seq<Event>, ev: Event)
    requires Run(load, es) && InOrder(Final(load, es), ev)
    ensures Run(load, es + [ev]) && Final(load, es + [ev]) == Step(Final(load, es), ev)
    decreases |es|
  {
    if es == [] {
      assert [ev][1..] == [] && es + [ev] == [ev];
    } else {
      assert (es + [ev])[1..] == es[1..] + [ev];
      RunAppends(Step(load, es[0]), es[1..], ev);
    }
  }

  function RealMax(a: real, b: real): real { if a < b then b else a }

  /** The budget with the history of everything that reached it, split into this request's part and the rest. */
  class Meter {
    const budget: RetryBudget
    const schedule: nat -> seq<Event>
    var turn: nat
    ghost const start: Load
    ghost var log: seq<Event>
    ghost var mine: Tally
    ghost var theirs: Tally

    ghost function Total(): Load
      requires Run(start, log)
      reads this
    {
      Final(start, log)
    }

    ghost predicate Valid()
      reads this, budget
    {
      && start.budget.Valid() && Run(start, log) && Total().budget == budget.View() && budget.View().Valid()
      && Total().started == start.started + mine.started + theirs.started
      && Total().attempts == start.attempts + mine.attempts + theirs.attempts
    }

    constructor (budget: RetryBudget, schedule: nat -> seq<Event>)
      requires budget.View().Valid()
      ensures Valid() && this.budget == budget && mine == Tally(0, 0, 0)
    {
      this.budget, this.schedule, this.turn := budget, schedule, 0;
      start, log := Load(budget.View(), 0, 0), [];
      mine, theirs := Tally(0, 0, 0), Tally(0, 0, 0);
    }

    /** Other requests start, retry and are reconfigured as they please. */
    method Others()
      requires Valid()
      modifies this`turn, this`log, this`theirs, budget
      ensures Valid()
    {
      var batch := schedule(turn);
      turn := turn + 1;
      for k := 0 to |batch|
        invariant Valid()
      {
        if batch[k].Begin? || budget.updatedAt <= batch[k].now {
          Other(batch[k]);
        }
      }
    }

    method Other(ev: Event)
      requires Valid() && InOrder(Total(), ev)
      modifies this`log, this`theirs, budget
      ensures Valid()
    {
      StepSpends(Total(), ev);
      RunAppends(start, log, ev);
      theirs := Counted(theirs, Total(), ev);
      log := log + [ev];
      match ev {
        case Begin(_) =>
        case Retry(now) => var _ := budget.Allow(now);
        case Update(capacity, refill, now, later) => budget.Update(capacity, refill, now, later);
        case Peek(now) => budget.RefillLocked(now);
      }
    }

    /** The request starts; `found` says whether a first attempt will be sent. */
    method Begin(found: bool)
      requires Valid()
      modifies this, budget
      ensures Valid()
      ensures mine == old(mine).(started := old(mine).started + 1, attempts := old(mine).attempts + if found then 1 else 0)
    {
      Others();
      RunAppends(start, log, Event.Begin(found));
      mine := Counted(mine, Total(), Event.Begin(found));
      log := log + [Event.Begin(found)];
    }

    /** `Allow`, asked by the request: a further attempt is sent exactly if a token was there. */
    method Allow(reading: real) returns (ok: bool)
      requires Valid()
      modifies this, budget
      ensures Valid()
      ensures mine == if ok then old(mine).(attempts := old(mine).attempts + 1)
                      else old(mine).(refused := old(mine).refused + 1)
    {
      Others();
      var now := RealMax(reading, budget.updatedAt);
      StepSpends(Total(), Event.Retry(now));
      RunAppends(start, log, Event.Retry(now));
      mine := Counted(mine, Total(), Event.Retry(now));
      log := log + [Event.Retry(now)];
      ok := budget.Allow(now);
    }
  }

  /**
   What the bound says of real requests: as long as nobody reconfigures the budget, the attempts of this
   request and of all others are within their number, the capacity and the refill.
   */
  lemma MeteredAttemptsAreBounded(start: Load, log: seq<Event>, mine: Tally, theirs: Tally)
    requires start.budget.Valid() && Run(start, log) && FixedPolicy(log)
    requires Final(start, log).started == start.started + mine.started + theirs.started
    requires Final(start, log).attempts == start.attempts + mine.attempts + theirs.attempts
    ensures (mine.attempts + theirs.attempts) as real <=
            (mine.started + theirs.started) as real + start.budget.capacity as real
            + Accrued(start.budget.refill, start.budget.updatedAt, Final(start, log).budget.updatedAt)
  {
    FixedPolicyBound(start, log);
  }
}
