/**
 Whole histories of one endpoint: passive cooldown and operator overrides.

 A history is any sequence of timed events. `GenerationRuns` shows that what happens to an endpoint
 in any run of the gateway, across all generations that share it, is such a history.
 */
module EndpointTraces {
  import opened Common
  import opened Endpoints

  datatype Timed = Timed(now: int, ev: Event)

  function After(e: Endpoint, es: seq<Timed>): Endpoint
    decreases |es|
  {
    if es == [] then e else After(Apply(e, es[0].ev, es[0].now), es[1..])
  }

  lemma {:induction false} AfterConcat(e: Endpoint, es: seq<Timed>, fs: seq<Timed>)
    ensures After(e, es + fs) == After(After(e, es), fs)
    decreases |es|
  {
    if es == [] {
      assert es + fs == fs;
    } else {
      assert (es + fs)[0] == es[0] && (es + fs)[1..] == es[1..] + fs;
      AfterConcat(Apply(e, es[0].ev, es[0].now), es[1..], fs);
    }
  }

  // ---------------------------------------------------------------- cooldown

  /** Ejected, with no deadline before `until`. */
  predicate Cooling(e: Endpoint, until: int) {
    !e.healthy && 0 < until <= e.ejectedUntil
  }

  /** The endpoint is not usable at the time of any event of the history. */
  ghost predicate NeverAlive(e: Endpoint, es: seq<Timed>) {
    forall k | 0 <= k < |es| :: !After(e, es[..k]).IsAlive(es[k].now)
  }

  /** An event a published endpoint can see before `until`. */
  predicate Timely(t: Timed, until: int) {
    t.now < until && !t.ev.Alive? && (t.ev.Recover? ==> t.ev.asOf <= t.now)
  }

  /** A failure that ejects does not set a deadline before `until`; one below the threshold may have any policy. */
  predicate Lasts(e: Endpoint, t: Timed, until: int) {
    t.ev.Fail? && Ejects(e, t.ev.policy) ==> until <= t.now + t.ev.policy.cooldown
  }

  predicate EjectionsLast(e: Endpoint, es: seq<Timed>, until: int)
    decreases |es|
  {
    es == [] || (Lasts(e, es[0], until) && EjectionsLast(Apply(e, es[0].ev, es[0].now), es[1..], until))
  }

  lemma CoolingStep(e: Endpoint, t: Timed, until: int)
    requires Cooling(e, until) && Timely(t, until) && Lasts(e, t, until)
    ensures Cooling(Apply(e, t.ev, t.now), until)
    ensures !e.IsAlive(t.now)
    ensures Apply(e, t.ev, t.now).holders <= e.holders
  {
    match t.ev
    case Release(slot) =>
    case _ =>
  }

  /** Before the deadline no sequence of probes, warmups, activations, enables or recoveries grants a slot. */
  lemma {:induction false} CooldownHolds(e: Endpoint, es: seq<Timed>, until: int)
    requires Cooling(e, until)
    requires (forall k | 0 <= k < |es| :: Timely(es[k], until)) && EjectionsLast(e, es, until)
    ensures Cooling(After(e, es), until)
    ensures NeverAlive(e, es)
    ensures After(e, es).holders <= e.holders
    decreases |es|
  {
    if es != [] {
      var e' := Apply(e, es[0].ev, es[0].now);
      CoolingStep(e, es[0], until);
      CooldownHolds(e', es[1..], until);
      forall k | 0 <= k < |es|
        ensures !After(e, es[..k]).IsAlive(es[k].now)
      {
        if k > 0 {
          assert es[..k][0] == es[0] && es[..k][1..] == es[1..][..k - 1];
          assert es[k] == es[1..][k - 1];
        }
      }
    }
  }

  /** Enough for that: every failure of the history, ejecting or not, comes with a cooldown that lasts. */
  lemma {:induction false} LongFailuresLast(e: Endpoint, es: seq<Timed>, until: int)
    requires forall k | 0 <= k < |es| :: es[k].ev.Fail? ==> until <= es[k].now + es[k].ev.policy.cooldown
    ensures EjectionsLast(e, es, until)
    decreases |es|
  {
    if es != [] {
      LongFailuresLast(Apply(e, es[0].ev, es[0].now), es[1..], until);
    }
  }

  /** Nothing in the history comes from a policy with another cooldown, and the clock does not go back. */
  predicate OneCooldown(es: seq<Timed>, from: int, cooldown: int) {
    forall k | 0 <= k < |es| ::
      && from <= es[k].now < from + cooldown
      && !es[k].ev.Alive?
      && (es[k].ev.Recover? ==> es[k].ev.asOf <= es[k].now)
      && (es[k].ev.Fail? ==> es[k].ev.policy.cooldown == cooldown)
  }

  /** While the configured cooldown does not change, an ejection is always served in full. */
  lemma FixedCooldownIsServed(e: Endpoint, policy: PassivePolicy, now: int, es: seq<Timed>)
    requires Ejects(e, policy) && now + policy.cooldown > 0
    requires OneCooldown(es, now, policy.cooldown)
    ensures NeverAlive(Apply(e, Fail(policy), now), es)
    ensures After(Apply(e, Fail(policy), now), es).holders <= e.holders
  {
    LongFailuresLast(Apply(e, Fail(policy), now), es, now + policy.cooldown);
    CooldownHolds(Apply(e, Fail(policy), now), es, now + policy.cooldown);
  }

  /** A continuation up to (not including) `until` in which no further passive failure is recorded. */
  predicate FailureFree(es: seq<Timed>, from: int, until: int) {
    forall k | 0 <= k < |es| ::
      from <= es[k].now < until && !es[k].ev.Fail? && !es[k].ev.Alive?
      && (es[k].ev.Recover? ==> es[k].ev.asOf <= es[k].now)
  }

  /**
   A second failure can cut a cooldown short, because it overwrites the deadline. It does so exactly
   when the policy it is recorded under ends before the deadline already in force.
   */
  lemma CooldownHonouredIff(e: Endpoint, policy: PassivePolicy, now: int, until: int)
    requires Cooling(e, until) && now < until
    requires Ejects(e, policy) && now + policy.cooldown > 0
    ensures (forall es | FailureFree(es, now, until) :: NeverAlive(Apply(e, Fail(policy), now), es))
            <==> until <= now + policy.cooldown
  {
    var e' := Apply(e, Fail(policy), now);
    if until <= now + policy.cooldown {
      forall es | FailureFree(es, now, until) ensures NeverAlive(e', es) {
        LongFailuresLast(e', es, until);
        CooldownHolds(e', es, until);
      }
    } else {
      var t := Max(now, now + policy.cooldown);
      var es := [Timed(t, Recover(t)), Timed(t, Enable(true)), Timed(t, Succeed)];
      assert FailureFree(es, now, until);
      ShortenedCooldownRevives(e', t);
      assert !NeverAlive(e', es);
    }
  }

  lemma ShortenedCooldownRevives(e: Endpoint, t: int)
    requires 0 < e.ejectedUntil <= t
    ensures !NeverAlive(e, [Timed(t, Recover(t)), Timed(t, Enable(true)), Timed(t, Succeed)])
  {
    var es := [Timed(t, Recover(t)), Timed(t, Enable(true)), Timed(t, Succeed)];
    var e1 := Apply(e, Recover(t), t);
    var e2 := Apply(e1, Enable(true), t);
    assert es[..2][1..] == [Timed(t, Enable(true))];
    assert After(e1, [Timed(t, Enable(true))]) == After(e2, []);
    assert After(e, es[..2]) == e2;
    assert e2.IsAlive(t) && es[2].now == t;
  }

  // ---------------------------------------------------------------- passive failures

  /** The event forgives earlier passive failures: a success, a recovery, or anything that declares the endpoint alive. */
  predicate Forgives(e: Endpoint, t: Timed) {
    match t.ev
    case Succeed => true
    case Alive(alive) => alive
    case Recover(asOf) => 0 != e.ejectedUntil <= asOf
    case Activate(_, refresh, warmed, _, _) => refresh && warmed && !(e.ejectedUntil > 0 && t.now < e.ejectedUntil)
    case Probe(_, success, threshold, _) => success && Heard(e, t) && e.ejectedUntil <= t.now && threshold <= e.consecutiveSuccess + 1
    case _ => false
  }

  /** Passive failures in the history since the last event that forgave them, with `n` counted before it. */
  function FailuresSince(e: Endpoint, es: seq<Timed>, n: int): int
    decreases |es|
  {
    if es == [] then n
    else
      var next := if es[0].ev.Fail? && es[0].ev.policy.failureThreshold >= 1 then n + 1 else if Forgives(e, es[0]) then 0 else n;
      FailuresSince(Apply(e, es[0].ev, es[0].now), es[1..], next)
  }

  lemma CountsFailure(e: Endpoint, t: Timed)
    ensures Apply(e, t.ev, t.now).passiveFailures ==
            if t.ev.Fail? && t.ev.policy.failureThreshold >= 1 then e.passiveFailures + 1
            else if Forgives(e, t) then 0 else e.passiveFailures
  {
    match t.ev
    case Probe(_, _, _, _) =>
    case Activate(_, _, _, _, _) =>
    case _ =>
  }

  lemma {:induction false} FailuresAreCounted(e: Endpoint, es: seq<Timed>)
    ensures After(e, es).passiveFailures == FailuresSince(e, es, e.passiveFailures)
    decreases |es|
  {
    if es != [] {
      CountsFailure(e, es[0]);
      FailuresAreCounted(Apply(e, es[0].ev, es[0].now), es[1..]);
    }
  }

  /**
   A failure after any history ejects exactly if, with it, the policy's threshold of unforgiven failures is
   reached; then the endpoint is unhealthy until its own time plus the cooldown. No other failure changes
   health or deadline.
   */
  lemma FailureEjectsAtThreshold(e: Endpoint, es: seq<Timed>, policy: PassivePolicy, now: int)
    requires e.passiveFailures == 0
    ensures var before := After(e, es);
            var after := After(e, es + [Timed(now, Fail(policy))]);
            if 1 <= policy.failureThreshold <= FailuresSince(e, es, 0) + 1
            then !after.healthy && after.ejectedUntil == now + policy.cooldown
            else after.healthy == before.healthy && after.ejectedUntil == before.ejectedUntil
  {
    FailuresAreCounted(e, es);
    AfterConcat(e, es, [Timed(now, Fail(policy))]);
    AfterSingle(After(e, es), Timed(now, Fail(policy)));
  }

  lemma AfterSingle(e: Endpoint, t: Timed)
    ensures After(e, [t]) == Apply(e, t.ev, t.now)
  {
    assert [t][1..] == [];
  }

  /** Only failures, all under one policy. */
  predicate FailuresOnly(es: seq<Timed>, policy: PassivePolicy) {
    forall k | 0 <= k < |es| :: es[k].ev == Fail(policy)
  }

  lemma {:induction false} EveryFailureCounts(e: Endpoint, es: seq<Timed>, policy: PassivePolicy, n: int)
    requires FailuresOnly(es, policy) && policy.failureThreshold >= 1
    ensures FailuresSince(e, es, n) == n + |es|
    decreases |es|
  {
    if es != [] {
      EveryFailureCounts(Apply(e, es[0].ev, es[0].now), es[1..], policy, n + 1);
    }
  }

  /** From a clean count, the first failures leave the endpoint as it was and the one at the threshold ejects it. */
  lemma ThresholdInARow(e: Endpoint, es: seq<Timed>, policy: PassivePolicy)
    requires e.passiveFailures == 0 && policy.failureThreshold >= 1 && FailuresOnly(es, policy)
    requires 1 <= |es| <= policy.failureThreshold
    ensures |es| < policy.failureThreshold ==> After(e, es).healthy == e.healthy && After(e, es).ejectedUntil == e.ejectedUntil
    ensures |es| == policy.failureThreshold ==>
              !After(e, es).healthy && After(e, es).ejectedUntil == es[|es| - 1].now + policy.cooldown
    decreases |es|
  {
    var init, last := es[..|es| - 1], es[|es| - 1];
    assert es == init + [Timed(last.now, Fail(policy))];
    EveryFailureCounts(e, init, policy, 0);
    FailureEjectsAtThreshold(e, init, policy, last.now);
    if init != [] {
      ThresholdInARow(e, init, policy);
    }
  }

  // ---------------------------------------------------------------- active probes

  /** The probe comes from the pool that owns the endpoint's health, if one does. */
  predicate Heard(e: Endpoint, t: Timed) {
    t.ev.Probe? && (e.healthOwner == None || e.healthOwner == Some(t.ev.from))
  }

  /** Probes heard in a row up to the end of the history: passed while not ejected, or missed. */
  function PassedInARow(e: Endpoint, es: seq<Timed>, n: int): int
    decreases |es|
  {
    if es == [] then n
    else
      var next := if !Heard(e, es[0]) then n else if es[0].ev.success && e.ejectedUntil <= es[0].now then n + 1 else 0;
      PassedInARow(Apply(e, es[0].ev, es[0].now), es[1..], next)
  }

  function MissedInARow(e: Endpoint, es: seq<Timed>, n: int): int
    decreases |es|
  {
    if es == [] then n
    else
      var next := if !Heard(e, es[0]) then n else if es[0].ev.success then 0 else n + 1;
      MissedInARow(Apply(e, es[0].ev, es[0].now), es[1..], next)
  }

  lemma CountsProbe(e: Endpoint, t: Timed)
    ensures var e' := Apply(e, t.ev, t.now);
            && e'.consecutiveSuccess == (if !Heard(e, t) then e.consecutiveSuccess
                                         else if t.ev.success && e.ejectedUntil <= t.now then e.consecutiveSuccess + 1 else 0)
            && e'.consecutiveFailure == (if !Heard(e, t) then e.consecutiveFailure
                                         else if t.ev.success then 0 else e.consecutiveFailure + 1)
  {
    match t.ev
    case Activate(_, _, _, _, _) =>
    case _ =>
  }

  lemma {:induction false} ProbesAreCounted(e: Endpoint, es: seq<Timed>)
    ensures After(e, es).consecutiveSuccess == PassedInARow(e, es, e.consecutiveSuccess)
    ensures After(e, es).consecutiveFailure == MissedInARow(e, es, e.consecutiveFailure)
    decreases |es|
  {
    if es != [] {
      CountsProbe(e, es[0]);
      ProbesAreCounted(Apply(e, es[0].ev, es[0].now), es[1..]);
    }
  }

  /**
   A probe after any history: heard and passed outside an ejection, it revives the endpoint exactly if the
   success threshold is reached in a row; heard and missed, it takes it down exactly if the failure
   threshold is; in all other cases health and deadline stay.
   */
  lemma ProbeActsAtThreshold(e: Endpoint, es: seq<Timed>, t: Timed)
    requires e.consecutiveSuccess == 0 && e.consecutiveFailure == 0 && t.ev.Probe?
    ensures var before, after := After(e, es), After(e, es + [t]);
            if Heard(before, t) && t.ev.success && before.ejectedUntil <= t.now
               && t.ev.successThreshold <= PassedInARow(e, es, 0) + 1
            then after.healthy && after.ejectedUntil == 0 && after.passiveFailures == 0
            else if Heard(before, t) && !t.ev.success && t.ev.failureThreshold <= MissedInARow(e, es, 0) + 1
            then !after.healthy && after.ejectedUntil == before.ejectedUntil
            else after.healthy == before.healthy && after.ejectedUntil == before.ejectedUntil
                 && after.passiveFailures == before.passiveFailures
  {
    ProbesAreCounted(e, es);
    AfterConcat(e, es, [t]);
    AfterSingle(After(e, es), t);
  }

  /**
   What an activation decides: refreshed outside an ejection, health is what the warm-up found; otherwise
   health and deadline stay. The owner and the limit are always those of the new generation.
   */
  lemma ActivationDecides(e: Endpoint, pool: PoolId, refresh: bool, warmed: bool, disabled: bool, limit: int, now: int)
    ensures var after := Apply(e, Activate(pool, refresh, warmed, disabled, limit), now);
            && after.healthOwner == Some(pool) && after.maxConcurrent == limit && after.pools == e.pools + {pool}
            && after.inflight == e.inflight && after.holders == e.holders
            && (if refresh && !(e.ejectedUntil > 0 && now < e.ejectedUntil)
                then after.healthy == warmed && after.ejectedUntil == (if warmed then 0 else e.ejectedUntil)
                else after.healthy == e.healthy && after.ejectedUntil == e.ejectedUntil)
  {}

  // ------------------------------------------------------- operator overrides

  datatype Override = Override(enabled: bool, draining: bool, disabled: bool)

  datatype Command = SetEnabled(enable: bool) | StartDrain | Declare(disabled: bool)

  function OverrideOf(e: Endpoint): Override {
    Override(e.enabled, e.draining, e.configuredDisabled)
  }

  function CommandOf(ev: Event): Option<Command> {
    match ev
    case Enable(enable) => Some(SetEnabled(enable))
    case Drain => Some(StartDrain)
    case Activate(_, _, _, disabled, _) => Some(Declare(disabled))
    case _ => None
  }

  /** The operator commands and declarations in a history; everything else is dropped. */
  function Commands(es: seq<Timed>): seq<Command>
    decreases |es|
  {
    if es == [] then []
    else
      match CommandOf(es[0].ev)
      case Some(c) => [c] + Commands(es[1..])
      case None => Commands(es[1..])
  }

  /** A declaration counts only when it changes the declared flag. */
  function Obey(o: Override, c: Command): Override {
    match c
    case SetEnabled(enable) => Override(enable, o.draining && !enable, o.disabled)
    case StartDrain => Override(false, true, o.disabled)
    case Declare(disabled) => if disabled == o.disabled then o else Override(!disabled, false, disabled)
  }

  function Replay(o: Override, cs: seq<Command>): Override
    decreases |cs|
  {
    if cs == [] then o else Replay(Obey(o, cs[0]), cs[1..])
  }

  /** Health, probes, traffic and re-applied configurations never disturb what the operator set. */
  lemma {:induction false} OverrideIsReplay(e: Endpoint, es: seq<Timed>)
    ensures OverrideOf(After(e, es)) == Replay(OverrideOf(e), Commands(es))
    decreases |es|
  {
    if es != [] {
      OverrideIsReplay(Apply(e, es[0].ev, es[0].now), es[1..]);
      OverrideStep(e, es[0]);
      var rest := Commands(es[1..]);
      match CommandOf(es[0].ev)
      case Some(c) => assert ([c] + rest)[1..] == rest;
      case None =>
    }
  }

  lemma OverrideStep(e: Endpoint, t: Timed)
    ensures OverrideOf(Apply(e, t.ev, t.now)) ==
            match CommandOf(t.ev)
            case Some(c) => Obey(OverrideOf(e), c)
            case None => OverrideOf(e)
  {
    match t.ev
    case Probe(from, success, st, ft) => ProbeLeavesOverride(e, from, success, st, ft, t.now);
    case Activate(pool, refresh, warmed, disabled, limit) =>
      ActivationDeclares(e, pool, refresh, warmed, disabled, limit, t.now);
    case _ =>
  }

  lemma ProbeLeavesOverride(e: Endpoint, from: PoolId, success: bool, st: int, ft: int, now: int)
    ensures OverrideOf(RecordProbe(e, from, success, st, ft, now)) == OverrideOf(e)
  {}

  lemma ActivationDeclares(e: Endpoint, pool: PoolId, refresh: bool, warmed: bool, disabled: bool, limit: int, now: int)
    ensures OverrideOf(Activated(e, pool, refresh, warmed, disabled, limit, now)) == Obey(OverrideOf(e), Declare(disabled))
  {}

  /** Commands that end a drain: an enable, or a change of the declared `disabled` flag. */
  predicate EndsDrain(ev: Event, disabled: bool) {
    || (ev.Enable? && ev.enable)
    || (ev.Activate? && ev.disabled != disabled)
  }

  /** Until the operator or a changed declaration ends the drain, no slot is granted. */
  lemma {:induction false} DrainedNeverGrows(e: Endpoint, es: seq<Timed>)
    requires e.draining
    requires forall k | 0 <= k < |es| :: !EndsDrain(es[k].ev, e.configuredDisabled)
    ensures After(e, es).draining
    ensures NeverAlive(e, es)
    ensures After(e, es).holders <= e.holders
    decreases |es|
  {
    if es != [] {
      var e' := Apply(e, es[0].ev, es[0].now);
      OverrideStep(e, es[0]);
      DrainedStep(e, es[0]);
      assert !EndsDrain(es[0].ev, e.configuredDisabled);
      DrainedNeverGrows(e', es[1..]);
      forall k | 0 <= k < |es|
        ensures !After(e, es[..k]).IsAlive(es[k].now)
      {
        if k > 0 {
          assert es[..k][0] == es[0] && es[..k][1..] == es[1..][..k - 1];
          assert es[k] == es[1..][k - 1];
        }
      }
    }
  }

  lemma DrainedStep(e: Endpoint, t: Timed)
    requires e.draining
    ensures Apply(e, t.ev, t.now).holders <= e.holders
  {
    match t.ev
    case Release(slot) =>
    case _ =>
  }
}
