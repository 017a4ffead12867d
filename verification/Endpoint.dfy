/**
 The state of one upstream endpoint (`backendState`) and everything that may happen to it.

 Each `Event` is one critical section under the endpoint's `stateMu`. Events carry the values a
 caller read before it took the lock; the clock is an argument. `Bumps` says whether the caller
 goes on to invalidate the availability caches in a second critical section.
 */
module Endpoints {
  import opened Common

  type PoolId = nat

  /** The backend at position `index` of pool `pool`, as held by a request. */
  datatype Slot = Slot(pool: PoolId, index: nat)

  datatype PassivePolicy = PassivePolicy(failureThreshold: int, cooldown: int, maxConcurrent: int)

  /** `holders` is a history variable: the slots granted here and not yet given back. */
  datatype Endpoint = Endpoint(
    pools: set<PoolId>,
    healthOwner: Option<PoolId>,
    configuredDisabled: bool,
    maxConcurrent: int,
    healthy: bool,
    enabled: bool,
    draining: bool,
    passiveFailures: int,
    consecutiveSuccess: int,
    consecutiveFailure: int,
    ejectedUntil: int,
    inflight: int,
    holders: multiset<Slot>)
  {
    predicate IsEjected(now: int) {
      ejectedUntil > 0 && now < ejectedUntil
    }

    predicate IsAlive(now: int) {
      healthy && enabled && !draining && !IsEjected(now)
    }

    /** `IsAlive` without the clock. `SoundIsTimeless` shows the two agree. */
    predicate Live() {
      healthy && enabled && !draining
    }

    /** What `AvailableBackends` promises: usable now, or past the end of its cooldown. */
    predicate Eligible(now: int) {
      enabled && !draining && (healthy || (ejectedUntil != 0 && ejectedUntil <= now))
    }

    function Limit(): (limit: int)
      ensures limit >= 1
    {
      Max(1, maxConcurrent)
    }

    /** The inductive fact that makes liveness independent of the clock, and slot accounting. */
    predicate Sound() {
      && (healthy ==> ejectedUntil == 0)
      && ejectedUntil >= 0
      && inflight == |holders|
    }
  }

  datatype Event =
    | Probe(from: PoolId, success: bool, successThreshold: int, failureThreshold: int)
    | Alive(alive: bool)
    | Fail(policy: PassivePolicy)
    | Succeed
    | Recover(asOf: int)
    | Enable(enable: bool)
    | Drain
    | Acquire(slot: Slot)
    | Release(slot: Slot)
    | Activate(pool: PoolId, refresh: bool, warmed: bool, disabled: bool, limit: int)
    | Detach(pool: PoolId)

  function SetAlive(e: Endpoint, alive: bool): Endpoint {
    if alive then e.(healthy := true, passiveFailures := 0, ejectedUntil := 0)
    else e.(healthy := false)
  }

  function RecordProbe(e: Endpoint, from: PoolId, success: bool, successThreshold: int, failureThreshold: int,
                       now: int): Endpoint
  {
    if e.healthOwner.Some? && e.healthOwner.value != from then e
    else if success then
      var cleared := e.(consecutiveFailure := 0);
      if e.ejectedUntil > now then cleared.(consecutiveSuccess := 0)
      else
        var counted := cleared.(consecutiveSuccess := e.consecutiveSuccess + 1);
        if counted.consecutiveSuccess >= successThreshold then SetAlive(counted, true) else counted
    else
      var counted := e.(consecutiveSuccess := 0, consecutiveFailure := e.consecutiveFailure + 1);
      if counted.consecutiveFailure >= failureThreshold then SetAlive(counted, false) else counted
  }

  /** Whether one more passive failure under `policy` ejects the endpoint. */
  predicate Ejects(e: Endpoint, policy: PassivePolicy) {
    1 <= policy.failureThreshold <= e.passiveFailures + 1
  }

  function RecordPassiveFailure(e: Endpoint, policy: PassivePolicy, now: int): Endpoint {
    if policy.failureThreshold < 1 then e
    else
      var counted := e.(passiveFailures := e.passiveFailures + 1);
      if counted.passiveFailures < policy.failureThreshold then counted
      else SetAlive(counted.(ejectedUntil := now + policy.cooldown), false)
  }

  /** An expired ejection makes the endpoint healthy again whatever active probes have said. */
  function RecoverExpired(e: Endpoint, asOf: int): Endpoint {
    if e.ejectedUntil == 0 || asOf < e.ejectedUntil then e
    else SetAlive(e.(ejectedUntil := 0, passiveFailures := 0), true)
  }

  predicate Grants(e: Endpoint, now: int) {
    e.IsAlive(now) && e.inflight < e.Limit()
  }

  function Activated(e: Endpoint, pool: PoolId, refresh: bool, warmed: bool, disabled: bool, limit: int,
                     now: int): Endpoint
  {
    var owned := e.(pools := e.pools + {pool}, healthOwner := Some(pool));
    var warm := if refresh && !owned.IsEjected(now) then SetAlive(owned, warmed) else owned;
    var declared :=
      if warm.configuredDisabled != disabled
      then warm.(configuredDisabled := disabled, enabled := !disabled, draining := false)
      else warm;
    declared.(maxConcurrent := limit)
  }

  function Apply(e: Endpoint, ev: Event, now: int): Endpoint {
    match ev
    case Probe(from, success, st, ft) => RecordProbe(e, from, success, st, ft, now)
    case Alive(alive) => SetAlive(e, alive)
    case Fail(policy) => RecordPassiveFailure(e, policy, now)
    case Succeed => e.(passiveFailures := 0)
    case Recover(asOf) => RecoverExpired(e, asOf)
    case Enable(enable) => e.(enabled := enable, draining := if enable then false else e.draining)
    case Drain => e.(draining := true, enabled := false)
    case Acquire(slot) =>
      if Grants(e, now) then e.(inflight := e.inflight + 1, holders := e.holders + multiset{slot}) else e
    case Release(slot) =>
      e.(inflight := Max(0, e.inflight - 1), holders := e.holders - multiset{slot})
    case Activate(pool, refresh, warmed, disabled, limit) =>
      Activated(e, pool, refresh, warmed, disabled, limit, now)
    case Detach(pool) => e.(pools := e.pools - {pool})
  }

  /** Whether the caller invalidates the caches in a later, separate critical section. */
  predicate Bumps(e: Endpoint, ev: Event, now: int) {
    match ev
    case Probe(_, _, _, _) => Apply(e, ev, now).healthy != e.healthy
    case Alive(alive) => e.healthy != alive
    case Fail(policy) => Ejects(e, policy)
    case Enable(enable) => e.enabled != enable || e.draining
    case Drain => true
    case _ => false
  }

  /** What the callers guarantee: a slot is released only by its holder, and deadlines lie after the epoch. */
  predicate Allowed(e: Endpoint, ev: Event, now: int) {
    match ev
    case Release(slot) => slot in e.holders
    case Fail(policy) => now + policy.cooldown > 0
    case _ => true
  }

  lemma SoundIsTimeless(e: Endpoint, now: int)
    requires e.Sound()
    ensures e.IsAlive(now) == e.Live()
    ensures e.Eligible(now) == RecoverExpired(e, now).Live()
  {}

  lemma AcquireKeepsSound(e: Endpoint, slot: Slot, now: int)
    requires e.Sound()
    ensures Apply(e, Acquire(slot), now).Sound()
  {
    assert |e.holders + multiset{slot}| == |e.holders| + 1;
  }

  lemma ProbeKeepsSound(e: Endpoint, from: PoolId, success: bool, st: int, ft: int, now: int)
    requires e.Sound()
    ensures RecordProbe(e, from, success, st, ft, now).Sound()
  {}

  lemma ActivateKeepsSound(e: Endpoint, pool: PoolId, refresh: bool, warmed: bool, disabled: bool, limit: int, now: int)
    requires e.Sound()
    ensures Activated(e, pool, refresh, warmed, disabled, limit, now).Sound()
  {}

  /** Every event keeps the endpoint sound. */
  lemma ApplyKeepsSound(e: Endpoint, ev: Event, now: int)
    requires e.Sound() && Allowed(e, ev, now)
    ensures Apply(e, ev, now).Sound()
  {
    match ev
    case Release(slot) => ReleaseNeverClamps(e, slot);
    case Acquire(slot) => AcquireKeepsSound(e, slot, now);
    case Probe(from, success, st, ft) => ProbeKeepsSound(e, from, success, st, ft, now);
    case Activate(pool, refresh, warmed, disabled, limit) =>
      ActivateKeepsSound(e, pool, refresh, warmed, disabled, limit, now);
    case _ =>
  }

  /** The clamp in `Release` never fires: a holder's release always finds a positive count. */
  lemma ReleaseNeverClamps(e: Endpoint, slot: Slot)
    requires e.Sound() && slot in e.holders
    ensures e.inflight >= 1
    ensures Apply(e, Release(slot), 0).inflight == e.inflight - 1
  {
    assert |e.holders| == |e.holders - multiset{slot}| + 1;
  }

  /** A grant never takes the count over the limit in force. */
  lemma GrantRespectsLimit(e: Endpoint, slot: Slot, now: int)
    ensures var e' := Apply(e, Acquire(slot), now);
            e' != e ==> e'.inflight == e.inflight + 1 <= e'.Limit() && e.IsAlive(now)
  {}

  /** A slot is granted exactly if the endpoint is healthy, enabled, not draining, not ejected and has room. */
  lemma GrantsIff(e: Endpoint, slot: Slot, now: int)
    ensures var roomy := e.healthy && e.enabled && !e.draining && !(e.ejectedUntil > 0 && now < e.ejectedUntil)
                         && (e.inflight < e.maxConcurrent || e.inflight < 1);
            && (Grants(e, now) <==> roomy)
            && Apply(e, Acquire(slot), now) ==
               if roomy then e.(inflight := e.inflight + 1, holders := e.holders + multiset{slot}) else e
  {}

  /** An event that does not invalidate caches changes neither liveness nor the ejection deadline. */
  lemma SilentEventsPreserveLiveness(e: Endpoint, ev: Event, now: int)
    requires e.Sound()
    requires !Bumps(e, ev, now) && !ev.Recover? && !ev.Activate?
    ensures Apply(e, ev, now).Live() == e.Live()
    ensures Apply(e, ev, now).ejectedUntil == e.ejectedUntil
  {}

  /** Probe results from any pool but the last one activated change nothing. */
  lemma ForeignProbeIgnored(e: Endpoint, ev: Event, now: int)
    requires ev.Probe? && e.healthOwner.Some? && e.healthOwner.value != ev.from
    ensures Apply(e, ev, now) == e && !Bumps(e, ev, now)
  {}
}
