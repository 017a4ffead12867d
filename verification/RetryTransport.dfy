/**
 The retry loop of `internal/balancer/retry.go`, on the shared world and the shared budget.

 Slots are granted and given back by steps of the world, tokens spent by events of the budget, with any
 steps of others in between. The strategy and the network may answer anything; only the strategy is held
 to its contract of naming a backend that is not excluded.
 */
module RetryTransport {
  import opened Common
  import opened Endpoints
  import opened Generations
  import opened SharedPools
  import opened RetryBudgets

  /** A backend of the pool, by position. */
  type Id = Slot

  /** What one attempt met with. A timed-out attempt can carry a response and an error. */
  datatype Outcome = Outcome(cloneFails: bool, status: Option<int>, failed: bool, timedOut: bool, clientGone: bool)

  /** The answers of the strategy, the network and the clock, numbered in the order they are asked. */
  datatype Environment = Environment(
    pick: (nat, set<Id>) -> Option<Id>,
    network: nat -> Outcome,
    reading: nat -> real)

  datatype Policy = Policy(maxAttempts: int, statuses: set<int>)

  datatype Reason = NoBackend | CloneFailed | Succeeded | LastAttempt | ClientGone | NoneLeft | BudgetExhausted

  /** `pick` returns a backend of the pool that is not excluded, or none. */
  ghost predicate Sane(env: Environment, pool: set<Id>) {
    forall n, excluded :: env.pick(n, excluded).Some? ==>
      env.pick(n, excluded).value in pool && env.pick(n, excluded).value !in excluded
  }

  predicate Errs(o: Outcome) { o.failed || o.timedOut }

  predicate Fails(o: Outcome, policy: Policy) {
    Errs(o) || (o.status.Some? && o.status.value in policy.statuses)
  }

  predicate Aborted(o: Outcome) { o.clientGone && !o.timedOut }

  /** A response body: it owns the slot of the backend that answered. */
  class AttemptBody {
    const backend: Id
    var once: bool

    constructor (backend: Id)
      ensures this.backend == backend && !once
    {
      this.backend := backend;
      once := false;
    }

    /** However often the body is closed, its slot goes back once. */
    method Close(slots: SharedPool, ghost rest: multiset<Id>)
      requires slots.Valid() && slots.held == if once then rest else rest + multiset{backend}
      modifies this, slots
      ensures once && slots.Valid() && slots.held == rest && slots.refused == old(slots.refused)
      ensures slots.blamed == old(slots.blamed) && slots.praised == old(slots.praised)
    {
      if !once {
        once := true;
        slots.GiveBack(backend, rest);
      }
    }
  }

  lemma ExcludingShrinks(pool: set<Id>, excluded: set<Id>, id: Id)
    requires id in pool && id !in excluded
    ensures |pool - (excluded + {id})| < |pool - excluded|
  {
    assert pool - excluded == (pool - (excluded + {id})) + {id};
  }

  /** Distinct members of a set are no more than the set has. */
  lemma {:induction false} DistinctFit(ids: seq<Id>, pool: set<Id>)
    requires Distinct(ids) && forall i | 0 <= i < |ids| :: ids[i] in pool
    ensures |ids| <= |pool|
  {
    if ids != [] {
      var last := ids[|ids| - 1];
      DistinctFit(ids[..|ids| - 1], pool - {last});
    }
  }

  /** The backends tried and those that refused. */
  function Excluded(tried: seq<Id>, refused: set<Id>): set<Id> { (set x | x in tried) + refused }

  /** The strategy names none but backends that were tried or have refused. */
  ghost predicate Barren(env: Environment, tried: seq<Id>, refused: set<Id>) {
    exists n: nat :: env.pick(n, Excluded(tried, refused)).None?
  }

  /**
   `nextAvailableBackend`: skips backends that refuse, and takes exactly one slot if it finds one. It excludes
   those that refused and no others, and finds none only when the strategy names none besides.
   */
  method NextAvailableBackend(env: Environment, excluded0: set<Id>, slots: SharedPool, asked0: nat)
    returns (backend: Option<Id>, excluded: set<Id>, asked: nat)
    requires slots.Valid() && Sane(env, slots.Names()) && slots.refused <= excluded0
    modifies slots
    ensures slots.Valid() && slots.blamed == old(slots.blamed) && slots.praised == old(slots.praised)
    ensures excluded == excluded0 + slots.refused && old(slots.refused) <= slots.refused
    ensures backend.Some? ==>
              && backend.value in slots.Names() && backend.value !in excluded
              && slots.held == old(slots.held) + multiset{backend.value}
    ensures backend.None? ==> slots.held == old(slots.held) && asked0 < asked && env.pick(asked - 1, excluded).None?
  {
    excluded, asked := excluded0, asked0;
    while true
      invariant slots.Valid() && slots.blamed == old(slots.blamed) && slots.praised == old(slots.praised)
      invariant excluded == excluded0 + slots.refused && old(slots.refused) <= slots.refused
      invariant slots.held == old(slots.held) && asked0 <= asked
      decreases |slots.Names() - excluded|
    {
      backend := env.pick(asked, excluded);
      asked := asked + 1;
      if backend.None? {
        return;
      }
      ghost var before;
      var acquired;
      acquired, before := slots.TryAcquire(backend.value);
      if acquired {
        return;
      }
      ExcludingShrinks(slots.Names(), excluded, backend.value);
      excluded := excluded + {backend.value};
    }
  }

  /** A further attempt needs a copy of the request, which can fail. */
  predicate Uncloned(env: Environment, attempt: nat) { attempt > 1 && env.network(attempt).cloneFails }

  /** Why the loop may stop after the attempts made so far. */
  predicate Stops(reason: Reason, env: Environment, policy: Policy, attempts: nat, maxAttempts: int) {
    var o := env.network(attempts);
    if reason == CloneFailed || Uncloned(env, attempts) then reason == CloneFailed && Uncloned(env, attempts)
    else
      match reason
      case Succeeded => !Fails(o, policy)
      case LastAttempt => Fails(o, policy) && attempts == maxAttempts
      case ClientGone => Fails(o, policy) && Aborted(o) && attempts < maxAttempts
      case NoneLeft => Fails(o, policy) && !Aborted(o) && attempts < maxAttempts
      case BudgetExhausted => Fails(o, policy) && !Aborted(o) && attempts < maxAttempts
      case _ => false
  }

  /** What the request holds besides `rest`: the slot of its response, if it has one. */
  function With(rest: multiset<Id>, backend: Id, response: AttemptBody?): multiset<Id> {
    if response == null then rest else rest + multiset{backend}
  }

  function WithFirst(rest: multiset<Id>, first: Option<Id>): multiset<Id> {
    if first.Some? then rest + multiset{first.value} else rest
  }

  /** An open response owns the slot of its backend. */
  ghost predicate Owns(response: AttemptBody?, backend: Id)
    reads response
  {
    response != null ==> !response.once && response.backend == backend
  }

  /** One attempt on a backend whose slot is held: the slot passes to the response body, or goes back. */
  method Attempt(o: Outcome, policy: Policy, backend: Id, slots: SharedPool, ghost rest: multiset<Id>)
    returns (response: AttemptBody?)
    requires slots.Valid() && slots.held == rest + multiset{backend} && backend in slots.Names()
    modifies slots
    ensures slots.Valid() && (response != null <==> o.status.Some?) && slots.refused == old(slots.refused)
    ensures (response != null ==> fresh(response)) && Owns(response, backend) && slots.held == With(rest, backend, response)
    ensures slots.blamed == old(slots.blamed) + (if Fails(o, policy) && !Aborted(o) then [backend] else [])
    ensures slots.praised == old(slots.praised) + (if Fails(o, policy) then [] else [backend])
  {
    response := null;
    if o.status.Some? {
      response := new AttemptBody(backend);
    } else {
      slots.GiveBack(backend, rest);
    }
    if Fails(o, policy) && !Aborted(o) {
      slots.Report(backend, true);
    } else if !Fails(o, policy) {
      slots.Report(backend, false);
    }
  }

  /**
   Between two attempts: find another backend, pay for it, and only then drop the response in hand.
   If either fails the response is kept and no other slot is.
   */
  method MoveOn(env: Environment, excluded0: set<Id>, asked0: nat, attempt: nat, backend: Id, response: AttemptBody?,
                slots: SharedPool, meter: Meter, ghost rest: multiset<Id>)
    returns (next: Option<Id>, reason: Reason, excluded: set<Id>, asked: nat)
    requires slots.Valid() && meter.Valid() && Sane(env, slots.Names())
    requires Owns(response, backend) && slots.held == With(rest, backend, response) && slots.refused <= excluded0
    modifies slots, response, meter, meter.budget
    ensures slots.Valid() && meter.Valid() && excluded == excluded0 + slots.refused && old(slots.refused) <= slots.refused
    ensures slots.blamed == old(slots.blamed) && slots.praised == old(slots.praised)
    ensures next.Some? ==>
              && next.value in slots.Names() && next.value !in excluded
              && slots.held == rest + multiset{next.value}
              && meter.mine == old(meter.mine).(attempts := old(meter.mine).attempts + 1)
    ensures next.None? ==>
              && Owns(response, backend) && slots.held == With(rest, backend, response)
              && (reason == NoneLeft || reason == BudgetExhausted)
              && (reason == NoneLeft ==> asked0 < asked && env.pick(asked - 1, excluded).None?)
              && meter.mine == old(meter.mine).(refused := old(meter.mine).refused + if reason == BudgetExhausted then 1 else 0)
  {
    next, excluded, asked := NextAvailableBackend(env, excluded0, slots, asked0);
    reason := NoneLeft;
    if next.Some? {
      var allowed := meter.Allow(env.reading(attempt));
      Swap(allowed, next.value, backend, response, slots, rest);
      if !allowed {
        next, reason := None, BudgetExhausted;
      }
    }
  }

  /** With both slots held: keep the new one if it is paid for, and the one of the response otherwise. */
  method Swap(allowed: bool, next: Id, backend: Id, response: AttemptBody?, slots: SharedPool, ghost rest: multiset<Id>)
    requires slots.Valid() && Owns(response, backend) && slots.held == With(rest, backend, response) + multiset{next}
    modifies slots, response
    ensures slots.Valid() && slots.blamed == old(slots.blamed) && slots.praised == old(slots.praised)
    ensures slots.refused == old(slots.refused)
    ensures allowed ==> slots.held == rest + multiset{next}
    ensures !allowed ==> Owns(response, backend) && slots.held == With(rest, backend, response)
  {
    if !allowed {
      slots.GiveBack(next, With(rest, backend, response));
    } else if response != null {
      assert rest + multiset{backend} + multiset{next} == rest + multiset{next} + multiset{backend};
      response.Close(slots, rest + multiset{next});
    }
  }

  /** Attempt `k` failed while the client was still there. */
  predicate Retried(env: Environment, policy: Policy, k: nat) {
    !Uncloned(env, k) && Fails(env.network(k), policy) && !Aborted(env.network(k))
  }

  /** Attempts that count against their backend: all that failed, except when the client had gone. */
  function Blame(env: Environment, policy: Policy, tried: seq<Id>, reason: Reason): seq<Id> {
    if tried == [] then []
    else
      var o := env.network(|tried|);
      if reason == CloneFailed || !Fails(o, policy) || Aborted(o) then tried[..|tried| - 1] else tried
  }

  /** Everything a finished round trip says about its attempts, the first of which was to be on `first`. */
  ghost predicate Finished(env: Environment, pool: set<Id>, policy: Policy, maxAttempts: int, first: Option<Id>,
                           refused: set<Id>, tried: seq<Id>, reason: Reason, blamed: seq<Id>)
  {
    && |tried| <= Max(0, maxAttempts) && |tried| <= |pool|
    && Distinct(tried) && (forall i | 0 <= i < |tried| :: tried[i] in pool)
    && blamed == Blame(env, policy, tried, reason)
    && (if first.Some? && maxAttempts >= 1 then tried != [] && tried[0] == first.value else tried == [])
    && (tried == [] <==> reason == NoBackend)
    && (tried != [] ==> Stops(reason, env, policy, |tried|, maxAttempts))
    && (first.None? || reason == NoneLeft ==> Barren(env, tried, refused))
    && (forall k | 1 <= k < |tried| :: Retried(env, policy, k))
  }

  /**
   How the last answer decides: the request succeeded exactly if the copy could be made and the attempt neither
   failed nor timed out nor came back with a status to retry; its backend is blamed exactly if one of these
   happened while the client was there, a timeout counting even if it is gone.
   */
  lemma LastAnswerDecides(env: Environment, pool: set<Id>, policy: Policy, maxAttempts: int, first: Option<Id>,
                          refused: set<Id>, tried: seq<Id>, reason: Reason, blamed: seq<Id>)
    requires Finished(env, pool, policy, maxAttempts, first, refused, tried, reason, blamed) && tried != []
    ensures var o := env.network(|tried|);
            var sent := |tried| == 1 || !o.cloneFails;
            var bad := o.failed || o.timedOut || (o.status.Some? && o.status.value in policy.statuses);
            && (reason == CloneFailed <==> !sent) && (reason == Succeeded <==> sent && !bad)
            && (reason == LastAttempt <==> sent && bad && |tried| == maxAttempts)
            && (reason == ClientGone <==> sent && bad && |tried| < maxAttempts && o.clientGone && !o.timedOut)
            && (blamed == tried <==> sent && bad && (o.timedOut || !o.clientGone))
            && (blamed != tried ==> blamed == tried[..|tried| - 1])
  {
    assert |tried[..|tried| - 1]| < |tried|;
  }

  /** The state at the head of the loop: `tried` attempts made and blamed, and one slot held for the next. */
  ghost predicate Trying(env: Environment, pool: set<Id>, policy: Policy, first: Id, refused: set<Id>, tried: seq<Id>, backend: Id) {
    && backend in pool && backend !in Excluded(tried, refused)
    && (if tried == [] then backend else tried[0]) == first
    && (forall i | 0 <= i < |tried| :: tried[i] in pool)
    && Distinct(tried)
    && (forall k | 1 <= k <= |tried| :: Retried(env, policy, k))
  }

  lemma OneMoreTried(env: Environment, pool: set<Id>, policy: Policy, first: Id, refused: set<Id>, tried: seq<Id>, backend: Id)
    requires Trying(env, pool, policy, first, refused, tried, backend)
    ensures Distinct(tried + [backend]) && |tried| + 1 <= |pool| && (tried + [backend])[0] == first
    ensures forall i | 0 <= i < |tried| + 1 :: (tried + [backend])[i] in pool
  {
    DistinctFit(tried + [backend], pool);
  }

  /** The result of an attempt after which the loop returns, or the backend it goes on with. */
  datatype Turn = Return(reason: Reason) | Continue(next: Id)

  lemma GoesOn(env: Environment, pool: set<Id>, policy: Policy, first: Id, refused: set<Id>, tried: seq<Id>, backend: Id,
               refused': set<Id>, next: Id)
    requires Trying(env, pool, policy, first, refused, tried, backend)
    requires next in pool && next !in Excluded(tried + [backend], refused') && Retried(env, policy, |tried| + 1)
    ensures Trying(env, pool, policy, first, refused', tried + [backend], next)
  {
    OneMoreTried(env, pool, policy, first, refused, tried, backend);
  }

  /** What an iteration adds to the request's tally: one more attempt paid for, or a refusal. */
  function Paid(before: Tally, turn: Turn): Tally {
    if turn.Continue? then before.(attempts := before.attempts + 1)
    else if turn.reason == BudgetExhausted then before.(refused := before.refused + 1)
    else before
  }

  /** Why an iteration goes on or returns, and whether its attempt counts against the backend. */
  predicate Justified(env: Environment, policy: Policy, maxAttempts: int, attempt: nat, turn: Turn, blame: bool) {
    var o := env.network(attempt);
    match turn
    case Continue(_) => attempt < maxAttempts && blame && Retried(env, policy, attempt)
    case Return(reason) =>
      && Stops(reason, env, policy, attempt, maxAttempts)
      && (blame <==> reason != CloneFailed && Fails(o, policy) && !Aborted(o))
  }

  /** One iteration of the retry loop. */
  method TakeTurn(env: Environment, policy: Policy, maxAttempts: int, attempt: nat, backend: Id,
                  excluded0: set<Id>, asked0: nat, slots: SharedPool, meter: Meter, ghost rest: multiset<Id>)
    returns (turn: Turn, body: AttemptBody?, blame: bool, excluded: set<Id>, asked: nat)
    requires slots.Valid() && meter.Valid() && Sane(env, slots.Names()) && slots.held == rest + multiset{backend}
    requires backend in slots.Names() && 1 <= attempt <= maxAttempts && slots.refused <= excluded0
    modifies slots, meter, meter.budget
    ensures slots.Valid() && meter.Valid() && meter.mine == Paid(old(meter.mine), turn) && old(slots.refused) <= slots.refused
    ensures slots.blamed == old(slots.blamed) + (if blame then [backend] else [])
    ensures slots.praised == old(slots.praised) + (if turn == Return(Succeeded) then [backend] else [])
    ensures Justified(env, policy, maxAttempts, attempt, turn, blame) && excluded == excluded0 + {backend} + slots.refused
    ensures turn == Return(NoneLeft) ==> 0 < asked && env.pick(asked - 1, excluded).None?
    ensures turn.Continue? ==>
              && body == null && turn.next in slots.Names() && turn.next !in excluded
              && slots.held == rest + multiset{turn.next}
    ensures turn.Return? ==>
              && (body != null <==> turn.reason != CloneFailed && env.network(attempt).status.Some?)
              && (body != null ==> fresh(body)) && Owns(body, backend) && slots.held == With(rest, backend, body)
  {
    var o := env.network(attempt);
    if Uncloned(env, attempt) {
      excluded, asked, body, blame, turn := excluded0 + {backend}, asked0, null, false, Return(CloneFailed);
      slots.GiveBack(backend, rest);
    } else {
      var response := Attempt(o, policy, backend, slots, rest);
      turn, body, blame, excluded, asked :=
        Decide(env, policy, maxAttempts, attempt, backend, response, excluded0 + {backend}, asked0, slots, meter, rest);
    }
  }

  /** After the attempt: return what there is, or move on. */
  method Decide(env: Environment, policy: Policy, maxAttempts: int, attempt: nat, backend: Id, response: AttemptBody?,
                excluded0: set<Id>, asked0: nat, slots: SharedPool, meter: Meter, ghost rest: multiset<Id>)
    returns (turn: Turn, body: AttemptBody?, blame: bool, excluded: set<Id>, asked: nat)
    requires slots.Valid() && meter.Valid() && Sane(env, slots.Names()) && 1 <= attempt <= maxAttempts
    requires Owns(response, backend) && slots.held == With(rest, backend, response)
    requires slots.refused <= excluded0 && !Uncloned(env, attempt)
    modifies slots, response, meter, meter.budget
    ensures slots.Valid() && meter.Valid() && meter.mine == Paid(old(meter.mine), turn) && old(slots.refused) <= slots.refused
    ensures slots.blamed == old(slots.blamed) && slots.praised == old(slots.praised)
    ensures turn == Return(Succeeded) <==> !Fails(env.network(attempt), policy)
    ensures blame <==> Fails(env.network(attempt), policy) && !Aborted(env.network(attempt))
    ensures Justified(env, policy, maxAttempts, attempt, turn, blame) && excluded == excluded0 + slots.refused
    ensures turn == Return(NoneLeft) ==> 0 < asked && env.pick(asked - 1, excluded).None?
    ensures turn.Continue? ==>
              && body == null && turn.next in slots.Names() && turn.next !in excluded
              && slots.held == rest + multiset{turn.next}
    ensures turn.Return? ==>
              turn.reason != CloneFailed && body == response && Owns(body, backend) && slots.held == With(rest, backend, body)
  {
    var o := env.network(attempt);
    excluded, asked, body, blame := excluded0, asked0, response, Fails(o, policy) && !Aborted(o);
    if !Fails(o, policy) || attempt == maxAttempts || Aborted(o) {
      turn := Return(if !Fails(o, policy) then Succeeded else if attempt == maxAttempts then LastAttempt else ClientGone);
    } else {
      var next, reason;
      next, reason, excluded, asked := MoveOn(env, excluded, asked, attempt, backend, response, slots, meter, rest);
      turn := Return(reason);
      if next.Some? {
        turn, body := Continue(next.value), null;
      }
    }
  }

  /** An iteration that returns finishes the round trip. */
  lemma TurnFinishes(env: Environment, pool: set<Id>, policy: Policy, maxAttempts: int, first: Id, refused: set<Id>, tried: seq<Id>,
                     backend: Id, refused': set<Id>, turn: Turn, blame: bool)
    requires Trying(env, pool, policy, first, refused, tried, backend) && |tried| < maxAttempts
    requires turn.Return? && Justified(env, policy, maxAttempts, |tried| + 1, turn, blame)
    requires turn.reason == NoneLeft ==> Barren(env, tried + [backend], refused')
    ensures Finished(env, pool, policy, maxAttempts, Some(first), refused', tried + [backend], turn.reason,
                     if blame then tried + [backend] else tried)
  {
    OneMoreTried(env, pool, policy, first, refused, tried, backend);
    assert (tried + [backend])[..|tried|] == tried;
  }

  /** The tally after `n` attempts, the first of which was counted at the start and the others paid for. */
  function PaidFor(before: Tally, n: nat, reason: Reason): Tally {
    before.(attempts := before.attempts + (if n == 0 then 0 else n - 1), refused := before.refused + if reason == BudgetExhausted then 1 else 0)
  }

  lemma OneMorePaid(tally: Tally, n: nat, turn: Turn)
    ensures Paid(PaidFor(tally, n + 1, NoBackend), turn) ==
            if turn.Continue? then PaidFor(tally, n + 2, NoBackend) else PaidFor(tally, n + 1, turn.reason)
  {}

  /** The same iteration, added to the attempts made before it. */
  method NextTurn(env: Environment, policy: Policy, maxAttempts: int, ghost first: Id, before: seq<Id>, backend: Id,
                  excluded0: set<Id>, asked0: nat, slots: SharedPool, meter: Meter, ghost rest: multiset<Id>, ghost base: seq<Id>, ghost tally: Tally)
    returns (turn: Turn, body: AttemptBody?, tried: seq<Id>, blamed: seq<Id>, excluded: set<Id>, asked: nat)
    requires slots.Valid() && meter.Valid() && Sane(env, slots.Names()) && slots.held == rest + multiset{backend}
    requires slots.blamed == base + before && meter.mine == PaidFor(tally, |before| + 1, NoBackend) && excluded0 == Excluded(before, slots.refused)
    requires Trying(env, slots.Names(), policy, first, slots.refused, before, backend) && |before| < maxAttempts
    modifies slots, meter, meter.budget
    ensures slots.Valid() && meter.Valid() && tried == before + [backend]
    ensures meter.mine == if turn.Continue? then PaidFor(tally, |tried| + 1, NoBackend) else PaidFor(tally, |tried|, turn.reason)
    ensures slots.blamed == base + blamed
    ensures slots.praised == old(slots.praised) + (if turn == Return(Succeeded) then [backend] else [])
    ensures turn.Continue? ==>
              && body == null && blamed == tried && |tried| < maxAttempts && excluded == Excluded(tried, slots.refused)
              && Trying(env, slots.Names(), policy, first, slots.refused, tried, turn.next)
              && slots.held == rest + multiset{turn.next}
    ensures turn.Return? ==>
              && Finished(env, slots.Names(), policy, maxAttempts, Some(first), slots.refused, tried, turn.reason, blamed)
              && (body != null <==> turn.reason != CloneFailed && env.network(|tried|).status.Some?)
              && (body != null ==> fresh(body)) && Owns(body, backend) && slots.held == With(rest, backend, body)
  {
    var blame;
    ghost var refused := slots.refused;
    turn, body, blame, excluded, asked :=
      TakeTurn(env, policy, maxAttempts, |before| + 1, backend, excluded0, asked0, slots, meter, rest);
    tried := before + [backend];
    OneMorePaid(tally, |before|, turn);
    blamed := if blame then tried else before;
    assert base + before + [backend] == base + tried;
    assert excluded == Excluded(tried, slots.refused);
    if turn.Return? {
      TurnFinishes(env, slots.Names(), policy, maxAttempts, first, refused, before, backend, slots.refused, turn, blame);
    } else {
      GoesOn(env, slots.Names(), policy, first, refused, before, backend, slots.refused, turn.next);
    }
  }

  /** The loop of `RoundTrip`, entered with a slot on `first`. It ends by returning, never by running out. */
  method RetryLoop(env: Environment, policy: Policy, maxAttempts: int, first: Id, excluded0: set<Id>,
                   asked0: nat, slots: SharedPool, meter: Meter, ghost rest: multiset<Id>, ghost base: seq<Id>)
    returns (body: AttemptBody?, reason: Reason, tried: seq<Id>, blamed: seq<Id>)
    requires slots.Valid() && meter.Valid() && Sane(env, slots.Names()) && slots.held == rest + multiset{first}
    requires slots.blamed == base && excluded0 == Excluded([], slots.refused) && maxAttempts >= 1
    requires Trying(env, slots.Names(), policy, first, slots.refused, [], first)
    modifies slots, meter, meter.budget
    ensures slots.Valid() && meter.Valid() && tried != []
    ensures Finished(env, slots.Names(), policy, maxAttempts, Some(first), slots.refused, tried, reason, blamed)
    ensures slots.blamed == base + blamed
    ensures slots.praised == old(slots.praised) + (if reason == Succeeded then [tried[|tried| - 1]] else [])
    ensures meter.mine == PaidFor(old(meter.mine), |tried|, reason)
    ensures body != null <==> reason != CloneFailed && env.network(|tried|).status.Some?
    ensures body != null ==> fresh(body)
    ensures Owns(body, tried[|tried| - 1]) && slots.held == With(rest, tried[|tried| - 1], body)
  {
    var backend, excluded, asked := first, excluded0, asked0;
    tried, blamed := [], [];
    while true
      invariant slots.Valid() && meter.Valid()
      invariant |tried| < maxAttempts && blamed == tried && excluded == Excluded(tried, slots.refused)
      invariant slots.blamed == base + blamed && slots.praised == old(slots.praised)
      invariant meter.mine == PaidFor(old(meter.mine), |tried| + 1, NoBackend)
      invariant Trying(env, slots.Names(), policy, first, slots.refused, tried, backend)
      invariant slots.held == rest + multiset{backend}
      decreases maxAttempts - |tried|
    {
      var turn;
      turn, body, tried, blamed, excluded, asked :=
        NextTurn(env, policy, maxAttempts, first, tried, backend, excluded, asked, slots, meter, rest, base, old(meter.mine));
      if turn.Return? {
        reason := turn.reason;
        return;
      }
      backend := turn.next;
    }
  }

  /**
   `RoundTrip`. `tried` lists the backends in the order they were attempted. The passive failures the request
   recorded are, in order, those on `blamed`, and it recorded one success, on the last backend, exactly if it
   succeeded.

   With at least one attempt allowed, the request ends up holding exactly the slot of the response it
   returns, whatever others did to the shared endpoints meanwhile. With none allowed, nothing is tried and the
   slot taken before the loop is never given back. To the budget the request is one start and one paid retry per further
   attempt.
   */
  method RoundTrip(env: Environment, policy: Policy, replayable: bool, slots: SharedPool, meter: Meter)
    returns (body: AttemptBody?, reason: Reason, tried: seq<Id>, blamed: seq<Id>, ghost first: Option<Id>)
    requires slots.Valid() && meter.Valid() && Sane(env, slots.Names())
    modifies slots, meter, meter.budget
    ensures slots.Valid() && meter.Valid()
    ensures Finished(env, slots.Names(), policy, if replayable then policy.maxAttempts else 1, first, slots.refused, tried, reason, blamed)
    ensures slots.blamed == old(slots.blamed) + blamed
    ensures slots.praised == old(slots.praised) + (if reason == Succeeded then [tried[|tried| - 1]] else [])
    ensures meter.mine == PaidFor(Started(old(meter.mine), tried != []), |tried|, reason)
    ensures body != null <==> tried != [] && reason != CloneFailed && env.network(|tried|).status.Some?
    ensures body != null ==> fresh(body) && Owns(body, tried[|tried| - 1])
    ensures slots.held == if tried == [] then WithFirst(old(slots.held), first) else With(old(slots.held), tried[|tried| - 1], body)
  {
    var maxAttempts := if replayable then policy.maxAttempts else 1;
    body, reason, tried, blamed := null, NoBackend, [], [];
    var found, excluded, asked := Start(env, policy, maxAttempts, slots, meter);
    first := found;
    if found.Some? && 1 <= maxAttempts {
      body, reason, tried, blamed :=
        RetryLoop(env, policy, maxAttempts, found.value, excluded, asked, slots, meter, old(slots.held), old(slots.blamed));
    } else {
      NotSent(env, slots.Names(), policy, maxAttempts, found, slots.refused);
    }
  }

  lemma NotSent(env: Environment, pool: set<Id>, policy: Policy, maxAttempts: int, first: Option<Id>, refused: set<Id>)
    requires if first.None? then Barren(env, [], refused) else maxAttempts < 1
    ensures Finished(env, pool, policy, maxAttempts, first, refused, [], NoBackend, [])
  {}

  /** The first backend, and the request's entry in the books of the budget. */
  method Start(env: Environment, policy: Policy, maxAttempts: int, slots: SharedPool, meter: Meter)
    returns (found: Option<Id>, excluded: set<Id>, asked: nat)
    requires slots.Valid() && meter.Valid() && Sane(env, slots.Names())
    modifies slots, meter, meter.budget
    ensures slots.Valid() && meter.Valid()
    ensures slots.blamed == old(slots.blamed) && slots.praised == old(slots.praised)
    ensures meter.mine == Started(old(meter.mine), found.Some? && 1 <= maxAttempts)
    ensures excluded == Excluded([], slots.refused)
    ensures if found.Some? then Trying(env, slots.Names(), policy, found.value, slots.refused, [], found.value) else Barren(env, [], slots.refused)
    ensures slots.held == WithFirst(old(slots.held), found)
  {
    slots.refused := {};
    found, excluded, asked := NextAvailableBackend(env, {}, slots, 0);
    meter.Begin(found.Some? && 1 <= maxAttempts);
  }

  function Started(before: Tally, sent: bool): Tally {
    before.(started := before.started + 1, attempts := before.attempts + if sent then 1 else 0)
  }
}
