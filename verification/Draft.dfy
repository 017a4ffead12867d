/**
 A cluster under construction: what its plan asks for, what its parts may do to it, and what it is worth once
 it has been warmed up.
 */
module Drafts {
  import opened Common
  import opened Endpoints
  import opened Generations
  import opened Balancers
  import opened Candidates

  /** What a cluster's configuration asks for. */
  datatype ClusterPlan = ClusterPlan(
    id: string, specs: seq<BackendSpec>, policy: PassivePolicy, probed: bool, successThreshold: nat,
    failureThreshold: int, refresh: bool)

  /** How its parts fared. `probe(r, i)` is what round `r` reported of backend `i`, if it reported. */
  datatype Trouble = Trouble(
    pool: bool, transport: bool, strategy: bool, checker: bool, warmup: bool, probe: (nat, nat) -> Option<bool>)

  // ------------------------------------------------------------ when a cluster can be built

  /** Which backends found their identity registered when they were reserved. */
  function Reuse(w: World, p: PoolId): seq<bool> {
    if p in w.leases then Mapped((r: Reservation) => r.reused, w.leases[p].entries) else []
  }

  /** New backends are probed, and reused ones if the way of probing has changed. */
  predicate ToProbe(plan: ClusterPlan, reuse: seq<bool>, i: nat)
    requires i < |reuse|
  {
    !reuse[i] || plan.refresh
  }

  /** As many rounds as it takes were reported, and all of them as successes. */
  predicate Passed(plan: ClusterPlan, trouble: Trouble, i: nat) {
    plan.successThreshold >= 1 && forall r | 0 <= r < plan.successThreshold :: trouble.probe(r, i) == Some(true)
  }

  predicate SomeProbed(plan: ClusterPlan, reuse: seq<bool>) {
    exists i | 0 <= i < |reuse| :: ToProbe(plan, reuse, i)
  }

  predicate SomeEnabled(plan: ClusterPlan) {
    exists i | 0 <= i < |plan.specs| :: !plan.specs[i].disabled
  }

  /** An enabled backend that is carried over as it is, or one that has just passed. */
  predicate SomeUsable(plan: ClusterPlan, trouble: Trouble, reuse: seq<bool>)
    requires |reuse| == |plan.specs|
  {
    exists i | 0 <= i < |plan.specs| :: !plan.specs[i].disabled && (!ToProbe(plan, reuse, i) || Passed(plan, trouble, i))
  }

  /** After the reservation: no part fails, and if anything is probed, some enabled backend is usable. */
  predicate WarmsUp(plan: ClusterPlan, trouble: Trouble, reuse: seq<bool>)
    requires |reuse| == |plan.specs|
  {
    && !trouble.transport && !trouble.strategy
    && (plan.probed ==>
          && !trouble.checker
          && (SomeProbed(plan, reuse) ==> !trouble.warmup && (SomeEnabled(plan) ==> SomeUsable(plan, trouble, reuse))))
  }

  predicate Fit(plan: ClusterPlan, trouble: Trouble, reuse: seq<bool>) {
    !trouble.pool && ValidSpecs(plan.specs) && |reuse| == |plan.specs| && WarmsUp(plan, trouble, reuse)
  }

  // ------------------------------------------------------------ the pool under construction

  /** The pool lists the plan's backends in order, under its policy. */
  predicate Named(pool: Pool, plan: ClusterPlan) {
    && |pool.all| == |plan.specs| && pool.policy == plan.policy
    && forall i | 0 <= i < |plan.specs| ::
         && pool.all[i].id == plan.specs[i].id && pool.all[i].url == plan.specs[i].url
         && pool.all[i].weight == if plan.specs[i].weight < 1 then 1 else plan.specs[i].weight
  }

  lemma NamesStay(a: Pool, b: Pool, plan: ClusterPlan)
    requires Named(a, plan) && SameNames(a, b)
    ensures Named(b, plan)
  {
    assert forall i | 0 <= i < |a.all| :: SameName(a.all[i], b.all[i]);
  }

  /** A private state: seen by its own pool only, never ejected or drained, enabled unless declared disabled. */
  predicate Plain(e: Endpoint, p: PoolId, spec: BackendSpec) {
    && e.pools == {p} && e.healthOwner.None? && e.enabled == !spec.disabled && !e.draining && e.ejectedUntil == 0
  }

  /** Backend `i` points at its own private state `es[i]`, which is owed an invalidation if `i` is in `owed`. */
  ghost predicate Keeps(w: World, p: PoolId, plan: ClusterPlan, es: seq<Endpoint>, owed: set<nat>) {
    && p in w.pools && |w.pools[p].all| == |es| == |plan.specs|
    && forall i | 0 <= i < |es| :: KeepsAt(w, p, plan, es, owed, i)
  }

  predicate KeepsAt(w: World, p: PoolId, plan: ClusterPlan, es: seq<Endpoint>, owed: set<nat>, i: nat)
    requires p in w.pools && |w.pools[p].all| == |es| == |plan.specs| && i < |es|
  {
    && w.pools[p].all[i].state == StateId(p, i) && StateId(p, i) in w.endpoints && w.endpoints[StateId(p, i)] == es[i]
    && w.pending[StateId(p, i)] == (if i in owed then 1 else 0) && Plain(es[i], p, plan.specs[i])
  }

  /** Private, with a lease on the first `k` backends. */
  predicate Leased(w: World, p: PoolId, plan: ClusterPlan, entries: seq<Reservation>) {
    Unactivated(w, p) && w.leases[p].scope == plan.id && w.leases[p].entries == entries
  }

  /** The draft of a cluster: named by its plan, reserved in full, with private states `es`. */
  ghost predicate Drafted(w: World, p: PoolId, plan: ClusterPlan, entries: seq<Reservation>, es: seq<Endpoint>) {
    Leased(w, p, plan, entries) && |entries| == |plan.specs| && Named(w.pools[p], plan) && Keeps(w, p, plan, es, {})
  }

  /** Nobody else touches any of it. */
  lemma KeptStates(w: World, w': World, p: PoolId, plan: ClusterPlan, es: seq<Endpoint>, owed: set<nat>)
    requires Keeps(w, p, plan, es, owed) && Kept(w, w', p)
    ensures Keeps(w', p, plan, es, owed)
  {
    forall i | 0 <= i < |es| ensures KeepsAt(w', p, plan, es, owed, i) {
      assert KeepsAt(w, p, plan, es, owed, i) && SameStateAt(w, w', StateId(p, i));
    }
  }

  lemma KeptDraft(w: World, w': World, p: PoolId, plan: ClusterPlan, entries: seq<Reservation>, es: seq<Endpoint>)
    requires Drafted(w, p, plan, entries, es) && Kept(w, w', p)
    ensures Drafted(w', p, plan, entries, es) && w'.pools[p] == w.pools[p]
  {
    KeptStates(w, w', p, plan, es, {});
  }

  // ------------------------------------------------------------ creation and reservation

  function NewStates(p: PoolId, plan: ClusterPlan): seq<Endpoint> {
    seq(|plan.specs|, i requires 0 <= i < |plan.specs| => NewEndpoint(p, plan.specs[i], plan.policy))
  }

  /** A new endpoint starts enabled exactly if it is not declared disabled, with the pool's limit and nothing on its record. */
  lemma NewEndpointStarts(p: PoolId, spec: BackendSpec, policy: PassivePolicy)
    ensures var e := NewEndpoint(p, spec, policy);
            && (e.enabled <==> !spec.disabled) && (e.configuredDisabled <==> spec.disabled) && !e.healthy && !e.draining
            && e.maxConcurrent == policy.maxConcurrent && e.pools == {p} && e.healthOwner == None
            && e.passiveFailures == e.consecutiveSuccess == e.consecutiveFailure == e.ejectedUntil == e.inflight == 0
  {}

  lemma CreationKeeps(w: World, p: PoolId, plan: ClusterPlan)
    requires Inv(w) && OwedExist(w) && p !in w.pools && ValidSpecs(plan.specs)
    ensures var w' := CreatedPool(w, p, plan.specs, plan.policy);
            && p !in w.leases && p !in w'.leases && p in w'.pools && w'.pools[p].section.Free? && Named(w'.pools[p], plan)
            && Keeps(w', p, plan, NewStates(p, plan), {})
  {
    var w' := CreatedPool(w, p, plan.specs, plan.policy);
    assert p in w.leases ==> LeaseOk(w, p);
    forall i | 0 <= i < |plan.specs| ensures KeepsAt(w', p, plan, NewStates(p, plan), {}, i) {
      NewStateIsUnowed(w, p, i);
    }
  }

  lemma NewStateIsUnowed(w: World, p: PoolId, i: nat)
    requires Inv(w) && OwedExist(w) && p !in w.pools
    ensures StateId(p, i) !in w.endpoints && w.pending[StateId(p, i)] == 0
  {
    assert StateId(p, i) in w.endpoints ==> EndpointOk(w, StateId(p, i));
  }

  /** One more identity reserved. */
  lemma ReserveExtends(w: World, p: PoolId, plan: ClusterPlan, entries: seq<Reservation>, es: seq<Endpoint>)
    requires Leased(w, p, plan, entries) && |entries| < |w.pools[p].all| && Keeps(w, p, plan, es, {})
    ensures var w' := ReserveEntry(w, p);
            && p in w'.leases && Leased(w', p, plan, w'.leases[p].entries) && |w'.leases[p].entries| == |entries| + 1
            && w'.pools == w.pools && Keeps(w', p, plan, es, {})
  {
    var w' := ReserveEntry(w, p);
    forall i | 0 <= i < |es| ensures KeepsAt(w', p, plan, es, {}, i) {
      assert KeepsAt(w, p, plan, es, {}, i);
    }
  }

  // ------------------------------------------------------------ warming up

  function ActionEvent(p: PoolId, action: Action): Event
    requires action.MarkAlive? || action.ReportProbe?
  {
    if action.MarkAlive? then Alive(true) else Probe(p, action.success, action.successThreshold, action.failureThreshold)
  }

  /** What a report makes of a private state; the clock does not matter as it is never ejected. */
  function Touched(e: Endpoint, p: PoolId, action: Action): Endpoint
    requires action.MarkAlive? || action.ReportProbe?
  {
    Apply(e, ActionEvent(p, action), 1)
  }

  lemma TouchIgnoresClock(e: Endpoint, p: PoolId, spec: BackendSpec, action: Action, now: int)
    requires Plain(e, p, spec) && (action.MarkAlive? || action.ReportProbe?) && now >= 1
    ensures Apply(e, ActionEvent(p, action), now) == Touched(e, p, action) && Plain(Touched(e, p, action), p, spec)
    ensures Bumps(e, ActionEvent(p, action), now) <==> Bumps(e, ActionEvent(p, action), 1)
  {}

  lemma ActionKeeps(w: World, p: PoolId, plan: ClusterPlan, es: seq<Endpoint>, i: nat, action: Action)
    requires Keeps(w, p, plan, es, {}) && i < |es| && (action.MarkAlive? || action.ReportProbe?) && w.clock >= 1
    ensures Backed(w, p, i)
    ensures var e' := Touched(es[i], p, action);
            Keeps(Acted(w, p, i, action), p, plan, es[i := e'], if Bumps(es[i], ActionEvent(p, action), 1) then {i} else {})
  {
    assert KeepsAt(w, p, plan, es, {}, i);
    TouchIgnoresClock(es[i], p, plan.specs[i], action, w.clock);
    var e' := Touched(es[i], p, action);
    var owed: set<nat> := if Bumps(es[i], ActionEvent(p, action), 1) then {i} else {};
    var w', es' := Acted(w, p, i, action), es[i := e'];
    forall j | 0 <= j < |es'| ensures KeepsAt(w', p, plan, es', owed, j) {
      assert KeepsAt(w, p, plan, es, {}, j);
      if j != i { TouchLeavesOther(w, StateId(p, i), EventOf(w, p, i, action), StateId(p, j)); }
    }
  }

  lemma FlushKeeps(w: World, p: PoolId, plan: ClusterPlan, es: seq<Endpoint>, i: nat)
    requires Keeps(w, p, plan, es, {i}) && i < |es|
    ensures StateId(p, i) in w.endpoints && StateId(p, i) in w.pending
    ensures Keeps(Flushed(w, StateId(p, i)), p, plan, es, {})
    ensures Flushed(w, StateId(p, i)).pools[p].section == w.pools[p].section
    ensures SameNames(w.pools[p], Flushed(w, StateId(p, i)).pools[p])
  {
    assert KeepsAt(w, p, plan, es, {i}, i);
    var w' := Flushed(w, StateId(p, i));
    forall j | 0 <= j < |es| ensures KeepsAt(w', p, plan, es, {}, j) {
      assert KeepsAt(w, p, plan, es, {i}, j);
    }
  }

  lemma MoveDrafts(w: World, w': World, p: PoolId, plan: ClusterPlan, entries: seq<Reservation>, es: seq<Endpoint>, move: Move)
    requires Drafted(w, p, plan, entries, es) && MoveEnabled(w, p, move) && Kept(PutPool(w, p, Moved(w, p, move)), w', p)
    ensures Drafted(w', p, plan, entries, es) && w'.pools[p] == Moved(w, p, move)
  {
    var m := PutPool(w, p, Moved(w, p, move));
    forall i | 0 <= i < |es| ensures KeepsAt(m, p, plan, es, {}, i) {
      assert KeepsAt(w, p, plan, es, {}, i);
    }
    NamesStay(w.pools[p], m.pools[p], plan);
    KeptDraft(m, w', p, plan, entries, es);
  }

  /** There is nothing to recover in a private state. */
  lemma SettleDrafts(w: World, w': World, p: PoolId, plan: ClusterPlan, entries: seq<Reservation>, es: seq<Endpoint>)
    requires Drafted(w, p, plan, entries, es) && SettleEnabled(w, p) && Kept(SettleEntry(w, p), w', p)
    ensures Drafted(w', p, plan, entries, es)
    ensures w'.pools[p] == w.pools[p].(section := w.pools[p].section.(settled := true))
  {
    var i := w.pools[p].section.index;
    assert KeepsAt(w, p, plan, es, {}, i);
    var m := SettleEntry(w, p);
    assert m == w.(endpoints := w.endpoints[StateId(p, i) := es[i]],
                   pools := w.pools[p := w.pools[p].(section := w.pools[p].section.(settled := true))]);
    forall j | 0 <= j < |es| ensures KeepsAt(m, p, plan, es, {}, j) {
      assert KeepsAt(w, p, plan, es, {}, j);
    }
    NamesStay(w.pools[p], m.pools[p], plan);
    KeptDraft(m, w', p, plan, entries, es);
  }

  lemma DraftIsBacked(w: World, p: PoolId, plan: ClusterPlan, entries: seq<Reservation>, es: seq<Endpoint>, i: nat)
    requires Drafted(w, p, plan, entries, es) && i < |es|
    ensures Backed(w, p, i) && StateOf(w, p, i) == StateId(p, i) && w.endpoints[StateOf(w, p, i)] == es[i]
  {
    assert KeepsAt(w, p, plan, es, {}, i);
  }

  // ------------------------------------------------------------ what the rounds of probes add up to

  /** Successes in a row that the first `r` rounds leave on the record of backend `i`. */
  function InARow(trouble: Trouble, i: nat, r: nat): nat {
    if r == 0 then 0
    else
      match trouble.probe(r - 1, i)
      case None => InARow(trouble, i, r - 1)
      case Some(ok) => if ok then InARow(trouble, i, r - 1) + 1 else 0
  }

  lemma {:induction false} InARowIsAll(trouble: Trouble, i: nat, r: nat)
    ensures InARow(trouble, i, r) <= r
    ensures InARow(trouble, i, r) == r <==> forall k | 0 <= k < r :: trouble.probe(k, i) == Some(true)
  {
    if r > 0 {
      InARowIsAll(trouble, i, r - 1);
      if InARow(trouble, i, r) == r {
        assert trouble.probe(r - 1, i) == Some(true);
      }
    }
  }

  /** After `r` rounds: the count, and health exactly if all rounds there are have been passed. */
  predicate Probed(e: Endpoint, plan: ClusterPlan, trouble: Trouble, i: nat, r: nat) {
    && e.consecutiveSuccess == InARow(trouble, i, r)
    && (e.healthy <==> r == plan.successThreshold && Passed(plan, trouble, i))
  }

  lemma RoundCounts(e: Endpoint, p: PoolId, plan: ClusterPlan, trouble: Trouble, i: nat, r: nat)
    requires i < |plan.specs| && Plain(e, p, plan.specs[i]) && Probed(e, plan, trouble, i, r) && r < plan.successThreshold
    ensures var result := trouble.probe(r, i);
            if result.None? then Probed(e, plan, trouble, i, r + 1)
            else Probed(Touched(e, p, ReportProbe(result.value, plan.successThreshold, plan.failureThreshold)), plan, trouble, i, r + 1)
  {
    InARowIsAll(trouble, i, r);
    InARowIsAll(trouble, i, r + 1);
  }

  lemma FreshIsUnprobed(p: PoolId, plan: ClusterPlan, trouble: Trouble, i: nat)
    requires i < |plan.specs|
    ensures Probed(NewEndpoint(p, plan.specs[i], plan.policy), plan, trouble, i, 0)
    ensures Plain(NewEndpoint(p, plan.specs[i], plan.policy), p, plan.specs[i])
  {}

  /** Health of the private states after the first `k` backends of round `r` and all of the rounds before. */
  ghost predicate ProbedUpTo(plan: ClusterPlan, trouble: Trouble, reuse: seq<bool>, es: seq<Endpoint>, r: nat, k: nat)
    requires |reuse| == |plan.specs|
  {
    |es| == |plan.specs| && forall i | 0 <= i < |es| ::
      if ToProbe(plan, reuse, i) then Probed(es[i], plan, trouble, i, if i < k then r + 1 else r) else !es[i].healthy
  }

  /** What warming up makes of a backend's health. */
  predicate Healthy(plan: ClusterPlan, trouble: Trouble, reuse: seq<bool>, i: nat)
    requires |reuse| == |plan.specs| && i < |reuse|
  {
    !plan.probed || (ToProbe(plan, reuse, i) && Passed(plan, trouble, i))
  }

  ghost predicate Warmed(plan: ClusterPlan, trouble: Trouble, reuse: seq<bool>, es: seq<Endpoint>)
    requires |reuse| == |plan.specs|
  {
    |es| == |plan.specs| && forall i | 0 <= i < |es| :: es[i].healthy <==> Healthy(plan, trouble, reuse, i)
  }

  lemma AllRoundsWarm(plan: ClusterPlan, trouble: Trouble, reuse: seq<bool>, es: seq<Endpoint>)
    requires |reuse| == |plan.specs| && plan.probed && ProbedUpTo(plan, trouble, reuse, es, plan.successThreshold, 0)
    ensures Warmed(plan, trouble, reuse, es)
  {}

  // ------------------------------------------------------------ readiness

  /** With a current cache, the available list of a draft is empty exactly if none of its states is healthy and enabled. */
  lemma ReadyIff(w: World, p: PoolId, plan: ClusterPlan, entries: seq<Reservation>, es: seq<Endpoint>)
    requires Inv(w) && Drafted(w, p, plan, entries, es) && w.pools[p].cacheVersion == w.pools[p].stateVersion
    ensures w.pools[p].available != [] <==> exists i | 0 <= i < |es| :: es[i].healthy && !plan.specs[i].disabled
  {
    var n := |es|;
    assert forall i | 0 <= i < n :: KeepsAt(w, p, plan, es, {}, i);
    DraftIsQuiet(w, p, plan, entries, es);
    CurrentCacheIsExact(w, p);
    if i :| 0 <= i < n && es[i].healthy && !plan.specs[i].disabled {
      assert KeepsAt(w, p, plan, es, {}, i);
      LiveBelowMembers(w, p, n, i);
    }
    if w.pools[p].available != [] {
      var i := w.pools[p].available[0];
      LiveBelowMembers(w, p, n, i);
      assert KeepsAt(w, p, plan, es, {}, i);
    }
  }

  lemma DraftIsQuiet(w: World, p: PoolId, plan: ClusterPlan, entries: seq<Reservation>, es: seq<Endpoint>)
    requires Drafted(w, p, plan, entries, es)
    ensures Tracks(w, p) && Quiet(w, p)
  {
    forall i | 0 <= i < |w.pools[p].all| ensures TracksAt(w, p, i) && w.pools[p].all[i].state !in w.pending {
      assert KeepsAt(w, p, plan, es, {}, i);
    }
  }

  /** So the readiness test decides as the plan does. */
  lemma ReadyIsUsable(plan: ClusterPlan, trouble: Trouble, reuse: seq<bool>, es: seq<Endpoint>)
    requires |reuse| == |plan.specs| && plan.probed && Warmed(plan, trouble, reuse, es)
    requires !exists i | 0 <= i < |plan.specs| :: !plan.specs[i].disabled && !ToProbe(plan, reuse, i)
    ensures (exists i | 0 <= i < |es| :: es[i].healthy && !plan.specs[i].disabled) <==> SomeUsable(plan, trouble, reuse)
  {
    if SomeUsable(plan, trouble, reuse) {
      var i :| 0 <= i < |plan.specs| && !plan.specs[i].disabled && (!ToProbe(plan, reuse, i) || Passed(plan, trouble, i));
      assert es[i].healthy;
    }
    if i :| 0 <= i < |es| && es[i].healthy && !plan.specs[i].disabled {
      assert Healthy(plan, trouble, reuse, i);
    }
  }
}
