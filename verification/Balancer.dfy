/**
 The operations of `BackendPool` and `BackendStateLease`, run to completion by one goroutine.

 Every operation is a loop over steps of the concurrent model, so its effect is one of the
 interleavings `GenerationRuns` speaks about.
 */
module Balancers {
  import opened Endpoints
  import opened Generations
  import opened CalmSteps
  import opened LeaseSteps
  import opened ReleaseSteps
  import opened SwapSteps
  import opened GenerationRuns

  // ------------------------------------------------------------ the simple definition of availability

  predicate EligibleAt(w: World, p: PoolId, i: nat, now: int) {
    Backed(w, p, i) && w.endpoints[StateOf(w, p, i)].Eligible(now)
  }

  /** Positions below `k` of backends a request may use at `now`, in configured order. */
  function EligibleBelow(w: World, p: PoolId, k: nat, now: int): seq<nat> {
    if k == 0 then [] else EligibleBelow(w, p, k - 1, now) + if EligibleAt(w, p, k - 1, now) then [k - 1] else []
  }

  lemma {:induction false} LiveIsEligible(w: World, w': World, p: PoolId, k: nat, now: int)
    requires forall i | 0 <= i < k :: LiveAt(w', p, i) == EligibleAt(w, p, i, now)
    ensures LiveBelow(w', p, k) == EligibleBelow(w, p, k, now)
  {
    if k > 0 {
      LiveIsEligible(w, w', p, k - 1, now);
    }
  }

  /** Before the pool's one deadline no ejection of any of its endpoints has run out. */
  lemma NothingDue(w: World, p: PoolId, i: nat)
    requires Inv(w) && Tracks(w, p) && Quiet(w, p) && !w.pools[p].section.Recovering? && i < |w.pools[p].all|
    requires w.pools[p].nextRecovery <= 0 || w.clock < w.pools[p].nextRecovery
    ensures LiveAt(w, p, i) == EligibleAt(w, p, i, w.clock)
  {
    assert TracksAt(w, p, i) && RecoveryOk(w, p, i);
    var s := StateOf(w, p, i);
    assert w.pools[p].all[i].state !in w.pending;
    assert EndpointOk(w, s);
    SoundIsTimeless(w.endpoints[s], w.clock);
  }

  /** A cache whose version is current is the filter. */
  lemma CurrentCacheIsExact(w: World, p: PoolId)
    requires Inv(w) && Tracks(w, p) && Quiet(w, p) && w.pools[p].cacheVersion == w.pools[p].stateVersion
    ensures w.pools[p].available == LiveBelow(w, p, |w.pools[p].all|)
  {
    assert CacheOk(w, p);
  }

  /** An open, activated generation is told about every change of its endpoints. */
  lemma OpenGenerationTracks(w: World, p: PoolId)
    requires Inv(w) && Full(w, p) && !w.leases[p].closed
    ensures Tracks(w, p)
  {
    assert LeaseOk(w, p);
    forall i | 0 <= i < |w.pools[p].all| ensures TracksAt(w, p, i) {
      assert EntryOk(w, p, i);
    }
  }

  /** Usable but for an ejection that has run out and has not been lifted. */
  predicate Overdue(w: World, p: PoolId, i: nat) {
    && Backed(w, p, i)
    && var e := w.endpoints[StateOf(w, p, i)];
       e.enabled && !e.draining && 0 < e.ejectedUntil <= w.clock
  }

  lemma OverdueOrLive(w: World, p: PoolId, i: nat)
    requires Inv(w) && At(w, p, i)
    ensures EligibleAt(w, p, i, w.clock) <==> LiveAt(w, p, i) || Overdue(w, p, i)
    ensures Overdue(w, p, i) ==> !LiveAt(w, p, i)
  {
    assert BackendOk(w, p, i);
    assert EndpointOk(w, StateOf(w, p, i));
  }

  lemma {:induction false} LiveBelowMembers(w: World, p: PoolId, k: nat, i: nat)
    ensures i in LiveBelow(w, p, k) <==> i < k && LiveAt(w, p, i)
  {
    if k > 0 { LiveBelowMembers(w, p, k - 1, i); }
  }

  lemma {:induction false} EligibleBelowMembers(w: World, p: PoolId, k: nat, now: int, i: nat)
    ensures i in EligibleBelow(w, p, k, now) <==> i < k && EligibleAt(w, p, i, now)
  {
    if k > 0 { EligibleBelowMembers(w, p, k - 1, now, i); }
  }

  lemma LiveListIsFilterIff(w: World, p: PoolId)
    requires Inv(w) && p in w.pools
    ensures var n := |w.pools[p].all|;
            LiveBelow(w, p, n) == EligibleBelow(w, p, n, w.clock) <==> forall i | 0 <= i < n :: !Overdue(w, p, i)
  {
    var n := |w.pools[p].all|;
    forall i | 0 <= i < n
      ensures EligibleAt(w, p, i, w.clock) <==> LiveAt(w, p, i) || Overdue(w, p, i)
      ensures Overdue(w, p, i) ==> !LiveAt(w, p, i)
    {
      OverdueOrLive(w, p, i);
    }
    if i :| 0 <= i < n && Overdue(w, p, i) {
      LiveBelowMembers(w, p, n, i);
      EligibleBelowMembers(w, p, n, w.clock, i);
    } else {
      LiveIsEligible(w, w, p, n, w.clock);
    }
  }

  /**
   What a reader without the mutex finds, in every reachable state and whatever the mutex holder is doing:
   with no change in progress and a current cache, the list it reads is the filter if and only if no
   backend is overdue. A recovery pass clears the deadline before it lifts anything, so in between the
   reader is not sent to recover (`WitnessRuns.ReaderMissesOverdueBackend`).
   */
  lemma CacheIsFilterIff(steps: seq<Step>, p: PoolId)
    requires Run(EmptyWorld, steps)
    requires var w := Final(EmptyWorld, steps);
             Full(w, p) && !w.leases[p].closed && Quiet(w, p) && w.pools[p].cacheVersion == w.pools[p].stateVersion
    ensures var w := Final(EmptyWorld, steps);
            w.pools[p].available == EligibleBelow(w, p, |w.pools[p].all|, w.clock)
            <==> forall i | 0 <= i < |w.pools[p].all| :: !Overdue(w, p, i)
  {
    var w := Final(EmptyWorld, steps);
    ReachableInv(steps);
    OpenGenerationTracks(w, p);
    CurrentCacheIsExact(w, p);
    LiveListIsFilterIff(w, p);
  }

  /**
   The fast path, in every reachable state: outside recovery passes, an open generation with no change in
   progress, a current cache and no deadline due reads exactly what the filter would compute.
   */
  lemma FastPathIsFilter(steps: seq<Step>, p: PoolId)
    requires Run(EmptyWorld, steps)
    requires var w := Final(EmptyWorld, steps);
             && Full(w, p) && !w.leases[p].closed && Quiet(w, p) && !w.pools[p].section.Recovering?
             && w.pools[p].cacheVersion == w.pools[p].stateVersion
             && (w.pools[p].nextRecovery <= 0 || w.clock < w.pools[p].nextRecovery)
    ensures var w := Final(EmptyWorld, steps);
            w.pools[p].available == EligibleBelow(w, p, |w.pools[p].all|, w.clock)
  {
    var w := Final(EmptyWorld, steps);
    ReachableInv(steps);
    OpenGenerationTracks(w, p);
    CurrentCacheIsExact(w, p);
    forall i | 0 <= i < |w.pools[p].all| ensures LiveAt(w, p, i) == EligibleAt(w, p, i, w.clock) {
      NothingDue(w, p, i);
    }
    LiveIsEligible(w, w, p, |w.pools[p].all|, w.clock);
  }

  // ------------------------------------------------------------ what a pass over one pool leaves behind

  /** Nothing but pool `p`'s own bookkeeping has changed. */
  predicate SameBut(w: World, w': World, p: PoolId) {
    && Calm(w, w') && w'.clock == w.clock && w'.pending == w.pending && w'.granted == w.granted
    && p in w.pools
  }

  /** Each endpoint is as before, or as before with an expired ejection lifted. */
  predicate OnlyRecovered(w: World, w': World, asOf: int) {
    forall s | s in w.endpoints ::
      s in w'.endpoints && (w'.endpoints[s] == w.endpoints[s] || w'.endpoints[s] == RecoverExpired(w.endpoints[s], asOf))
  }

  predicate RecoveredBelow(w: World, w': World, p: PoolId, asOf: int, k: nat) {
    forall i | 0 <= i < k && Backed(w, p, i) ::
      && StateOf(w, p, i) in w'.endpoints
      && w'.endpoints[StateOf(w, p, i)] == RecoverExpired(w.endpoints[StateOf(w, p, i)], asOf)
  }

  lemma RecoveryIsIdempotent(e: Endpoint, asOf: int)
    ensures RecoverExpired(RecoverExpired(e, asOf), asOf) == RecoverExpired(e, asOf)
  {}

  lemma LiftingIsSameBut(w: World, p: PoolId)
    requires EndpointsInv(w) && SettleEnabled(w, p) && Expired(w, p)
    ensures var w' := SettleEntry(w, p);
            && SameBut(w, w', p)
            && w'.pools[p].section == w.pools[p].section.(settled := true)
            && w'.endpoints == w.endpoints[StateOf(w, p, w.pools[p].section.index) :=
                 RecoverExpired(w.endpoints[StateOf(w, p, w.pools[p].section.index)], w.pools[p].section.asOf)]
  {
    var s := StateOf(w, p, w.pools[p].section.index);
    var e' := RecoverExpired(w.endpoints[s], w.pools[p].section.asOf);
    assert EndpointOk(w, s);
    RecoverFacts(w.endpoints[s], w.pools[p].section.asOf);
    SettleLifts(w, p);
    LiftedIsCalm(w, SettleEntry(w, p), p, s, e');
    assert LiftedPool(w.pools[p], SettleEntry(w, p).pools[p], true, p in e'.pools);
  }

  lemma VisitIsSameBut(w: World, p: PoolId)
    requires SettleEnabled(w, p) && !Expired(w, p)
    ensures var w' := SettleEntry(w, p);
            && SameBut(w, w', p)
            && w'.pools[p].section == w.pools[p].section.(settled := true)
            && w'.endpoints == w.endpoints[StateOf(w, p, w.pools[p].section.index) :=
                 RecoverExpired(w.endpoints[StateOf(w, p, w.pools[p].section.index)], w.pools[p].section.asOf)]
  {
    var s := StateOf(w, p, w.pools[p].section.index);
    SettleLifts(w, p);
    assert w.endpoints[s := w.endpoints[s]] == w.endpoints;
  }

  lemma MoveStepFacts(w: World, p: PoolId, move: Move)
    requires MoveEnabled(w, p, move)
    ensures var w' := PutPool(w, p, Moved(w, p, move));
            SameBut(w, w', p) && w'.pools[p].stateVersion == w.pools[p].stateVersion
  {}

  lemma SameButTransitive(w: World, w': World, w'': World, p: PoolId)
    requires SameBut(w, w', p) && SameBut(w', w'', p)
    ensures SameBut(w, w'', p)
  {
    forall q | q in w.pools ensures SameShape(w.pools[q], w''.pools[q]) {
      assert SameShape(w.pools[q], w'.pools[q]) && SameShape(w'.pools[q], w''.pools[q]);
    }
    forall s | s in w.endpoints ensures SameWiring(w.endpoints[s], w''.endpoints[s]) {
      assert SameWiring(w.endpoints[s], w'.endpoints[s]) && SameWiring(w'.endpoints[s], w''.endpoints[s]);
    }
  }

  lemma SameButKeepsTracking(w: World, w': World, p: PoolId)
    requires SameBut(w, w', p)
    ensures |w'.pools[p].all| == |w.pools[p].all|
    ensures Tracks(w, p) ==> Tracks(w', p)
    ensures Quiet(w, p) ==> Quiet(w', p)
  {
    assert SameShape(w.pools[p], w'.pools[p]);
    if Tracks(w, p) {
      forall i | 0 <= i < |w'.pools[p].all| ensures TracksAt(w', p, i) {
        assert TracksAt(w, p, i);
        var s := StateOf(w, p, i);
        assert SameWiring(w.endpoints[s], w'.endpoints[s]);
      }
    }
  }

  /** One more backend settled. */
  lemma SettledOneMore(w: World, m: World, m': World, p: PoolId, asOf: int, k: nat)
    requires SameBut(w, m, p) && SameBut(m, m', p) && Backed(m, p, k) && Tracks(w, p)
    requires OnlyRecovered(w, m, asOf) && RecoveredBelow(w, m, p, asOf, k)
    requires m'.endpoints == m.endpoints[StateOf(m, p, k) := RecoverExpired(m.endpoints[StateOf(m, p, k)], asOf)]
    ensures OnlyRecovered(w, m', asOf) && RecoveredBelow(w, m', p, asOf, k + 1)
  {
    assert SameShape(w.pools[p], m.pools[p]);
    var s := StateOf(m, p, k);
    assert s in w.endpoints;
    RecoveryIsIdempotent(w.endpoints[s], asOf);
  }

  /** `k` backends of pool `p` have been scanned since `w`. */
  ghost predicate ScanProgress(w: World, m: World, p: PoolId, k: nat) {
    && Inv(m) && SameBut(w, m, p) && m.endpoints == w.endpoints
    && m.pools[p].section.Scanning? && m.pools[p].section.index == k <= |m.pools[p].all|
    && m.pools[p].section.version == m.pools[p].stateVersion == w.pools[p].stateVersion
  }

  /** `k` backends of pool `p` have been visited by a recovery pass begun in `w`. */
  ghost predicate SettleProgress(w: World, m: World, p: PoolId, now: int, k: nat) {
    && Inv(m) && SameBut(w, m, p) && Tracks(w, p)
    && OnlyRecovered(w, m, now) && RecoveredBelow(w, m, p, now, k)
    && m.pools[p].section.Recovering? && m.pools[p].section.index == k <= |m.pools[p].all|
    && !m.pools[p].section.settled && m.pools[p].section.asOf == now
  }

  lemma WorkIsBacked(w: World, p: PoolId, k: nat)
    requires Inv(w) && At(w, p, k)
    ensures Backed(w, p, k)
  {
    assert BackendOk(w, p, k);
  }

  /** Each of the lease's entries found its identity registered in `w`, or registered it; others are as in `w`. */
  predicate ReserveBooks(w: World, m: World, p: PoolId)
    requires p in m.leases
  {
    && (forall i | 0 <= i < |m.leases[p].entries| ::
          var entry := m.leases[p].entries[i];
          && entry.reused == (entry.key in w.registry)
          && entry.shared == (if entry.key in w.registry then w.registry[entry.key] else StateId(p, i)))
    && (forall key | key in w.registry :: key in m.registry && m.registry[key] == w.registry[key])
    && (forall key | key in m.registry && key !in w.registry ::
          exists i | 0 <= i < |m.leases[p].entries| :: m.leases[p].entries[i].key == key)
  }

  /** `k` backends of pool `p` have been reserved since `w`. */
  ghost predicate ReserveProgress(w: World, m: World, p: PoolId, k: nat) {
    && Inv(m) && Unactivated(m, p) && |m.leases[p].entries| == k <= |m.pools[p].all|
    && m.pools == w.pools && m.endpoints == w.endpoints && m.granted == w.granted && m.pending == w.pending
    && ReserveBooks(w, m, p)
  }

  lemma ReserveKeepsBooks(w: World, m: World, p: PoolId)
    requires Reservable(m, p) && ReserveBooks(w, m, p)
    requires StateOf(m, p, |m.leases[p].entries|) == StateId(p, |m.leases[p].entries|)
    requires forall i | 0 <= i < |m.leases[p].entries| ::
               m.leases[p].entries[i].key != KeyOf(m, p, |m.leases[p].entries|)
    ensures ReserveBooks(w, ReserveEntry(m, p), p)
  {
    var m' := ReserveEntry(m, p);
    var k := |m.leases[p].entries|;
    assert m'.leases[p].entries[k].key == KeyOf(m, p, k);
    forall key | key in m'.registry && key !in w.registry
      ensures exists i | 0 <= i < k + 1 :: m'.leases[p].entries[i].key == key
    {
      if key != KeyOf(m, p, k) {
        var i :| 0 <= i < k && m.leases[p].entries[i].key == key;
        assert m'.leases[p].entries[i].key == key;
      }
    }
  }

  lemma ReserveProgresses(w: World, m: World, p: PoolId, k: nat)
    requires ReserveProgress(w, m, p, k) && k < |m.pools[p].all|
    ensures ReserveProgress(w, ReserveEntry(m, p), p, k + 1)
  {
    assert BackendOk(m, p, k) && LeaseOk(m, p);
    forall i | 0 <= i < k ensures m.leases[p].entries[i].key != KeyOf(m, p, k) {
      assert EntryOk(m, p, i);
      OwnKeysDiffer(m, p, i, k);
    }
    ReserveKeepsBooks(w, m, p);
    ReserveKeepsInv(m, p);
    ReserveIsOnlyLease(m, p);
  }

  /** The first `k` backends of pool `p` use the states their reservations name. */
  ghost predicate ActivateProgress(m: World, p: PoolId, k: nat) {
    && Inv(m) && p in m.leases && p in m.pools && m.leases[p].active && !m.leases[p].closed
    && m.leases[p].progress == k <= |m.leases[p].entries|
  }

  lemma ActivationProgresses(m: World, p: PoolId, k: nat)
    requires ActivateProgress(m, p, k) && k < |m.leases[p].entries|
    ensures ActivateEnabled(m, p) && ActivateProgress(ActivateEntry(m, p), p, k + 1)
    ensures ActivateEntry(m, p).leases[p].entries == m.leases[p].entries && StateOf(m, p, k) == StateId(p, k)
  {
    assert LeaseOk(m, p) && BackendOk(m, p, k) && EntryOk(m, p, k);
    ActivateKeepsInv(m, p);
  }

  /** Every reserved state and every private copy of pool `p` is there, and no two entries share a state. */
  ghost predicate Separate(w: World, p: PoolId) {
    && p in w.pools && p in w.leases && |w.leases[p].entries| == |w.pools[p].all|
    && (forall i | 0 <= i < |w.leases[p].entries| :: w.leases[p].entries[i].shared in w.endpoints && StateId(p, i) in w.endpoints)
    && (forall i, j | 0 <= i < j < |w.leases[p].entries| :: w.leases[p].entries[i].shared != w.leases[p].entries[j].shared)
    && (forall i, j | 0 <= i < |w.leases[p].entries| && 0 <= j < |w.leases[p].entries| && i != j ::
          w.leases[p].entries[i].shared != StateId(p, j))
  }

  lemma EntriesDiffer(w: World, p: PoolId, i: nat, j: nat)
    requires Inv(w) && p in w.leases && w.leases[p].released == 0 && i < j < |w.leases[p].entries|
    ensures w.leases[p].entries[i].shared != w.leases[p].entries[j].shared
  {
    assert LeaseOk(w, p) && EntryOk(w, p, i) && EntryOk(w, p, j);
    assert KeyOk(w, w.leases[p].entries[i].key) && KeyOk(w, w.leases[p].entries[j].key);
    OwnKeysDiffer(w, p, i, j);
  }

  lemma ReservedIsSeparate(w: World, p: PoolId)
    requires Inv(w) && p in w.leases && !w.leases[p].closed && !w.leases[p].active
    requires p in w.pools && |w.leases[p].entries| == |w.pools[p].all|
    ensures Separate(w, p)
  {
    assert LeaseOk(w, p);
    forall i | 0 <= i < |w.leases[p].entries|
      ensures w.leases[p].entries[i].shared in w.endpoints && StateId(p, i) in w.endpoints
    {
      assert EntryOk(w, p, i) && BackendOk(w, p, i);
    }
    forall i, j | 0 <= i < |w.leases[p].entries| && 0 <= j < |w.leases[p].entries| && i != j
      ensures w.leases[p].entries[i].shared != StateId(p, j)
    {
      assert EntryOk(w, p, i);
    }
    forall i, j | 0 <= i < j < |w.leases[p].entries| ensures w.leases[p].entries[i].shared != w.leases[p].entries[j].shared {
      EntriesDiffer(w, p, i, j);
    }
  }

  /** What activation makes of the state behind entry `i`: its owner, health, declared flag and limit. */
  function ActivatedAt(w: World, p: PoolId, refresh: bool, i: nat): Endpoint
    requires p in w.pools && p in w.leases && i < |w.leases[p].entries|
    requires w.leases[p].entries[i].shared in w.endpoints && StateId(p, i) in w.endpoints
  {
    var entry := w.leases[p].entries[i];
    var own := w.endpoints[StateId(p, i)];
    Activated(w.endpoints[entry.shared], p, refresh && entry.reused, own.healthy, own.configuredDisabled,
              w.pools[p].policy.maxConcurrent, w.clock)
  }

  /** The first `k` entries have been swapped in since `w`, and no other endpoint has changed. */
  ghost predicate SwappedUpTo(w: World, m: World, p: PoolId, refresh: bool, k: nat)
    requires Separate(w, p) && k <= |w.leases[p].entries|
  {
    && m.clock == w.clock && p in m.pools && m.pools[p].policy == w.pools[p].policy
    && p in m.leases && m.leases[p].entries == w.leases[p].entries && m.leases[p].refresh == refresh
    && (forall i | 0 <= i < k ::
          w.leases[p].entries[i].shared in m.endpoints && m.endpoints[w.leases[p].entries[i].shared] == ActivatedAt(w, p, refresh, i))
    && (forall s | s in w.endpoints && Unreached(w, p, s, k) :: s in m.endpoints && m.endpoints[s] == w.endpoints[s])
  }

  predicate Unreached(w: World, p: PoolId, s: StateId, k: nat)
    requires p in w.leases && k <= |w.leases[p].entries|
  {
    forall i | 0 <= i < k :: w.leases[p].entries[i].shared != s
  }

  /** What one activation does to the endpoints and to the lease it belongs to. */
  lemma ActivationTouchesOne(m: World, p: PoolId, k: nat)
    requires ActivateEnabled(m, p) && m.leases[p].progress == k && StateOf(m, p, k) == StateId(p, k)
    ensures var m' := ActivateEntry(m, p);
            var s := m.leases[p].entries[k].shared;
            && m'.endpoints == m.endpoints[s := Apply(m.endpoints[s], ActivationEvent(m, p), m.clock)]
            && m'.clock == m.clock && p in m'.pools && m'.pools[p].policy == m.pools[p].policy
            && p in m'.leases && m'.leases[p].entries == m.leases[p].entries && m'.leases[p].refresh == m.leases[p].refresh
  {}

  lemma NextIsUntouched(w: World, m: World, p: PoolId, refresh: bool, k: nat)
    requires Separate(w, p) && k < |w.leases[p].entries| && SwappedUpTo(w, m, p, refresh, k)
    ensures var s := w.leases[p].entries[k].shared;
            && s in m.endpoints && m.endpoints[s] == w.endpoints[s]
            && StateId(p, k) in m.endpoints && m.endpoints[StateId(p, k)] == w.endpoints[StateId(p, k)]
  {
    assert Unreached(w, p, w.leases[p].entries[k].shared, k);
    assert Unreached(w, p, StateId(p, k), k);
  }

  lemma ActivationMatches(w: World, m: World, p: PoolId, refresh: bool, k: nat)
    requires ActivateEnabled(m, p) && m.leases[p].progress == k && StateOf(m, p, k) == StateId(p, k)
    requires p in w.pools && p in w.leases && k < |w.leases[p].entries|
    requires m.clock == w.clock && m.pools[p].policy == w.pools[p].policy
    requires m.leases[p].entries == w.leases[p].entries && m.leases[p].refresh == refresh
    requires var s := w.leases[p].entries[k].shared;
             && s in w.endpoints && m.endpoints[s] == w.endpoints[s]
             && StateId(p, k) in w.endpoints && m.endpoints[StateId(p, k)] == w.endpoints[StateId(p, k)]
    ensures Apply(w.endpoints[w.leases[p].entries[k].shared], ActivationEvent(m, p), m.clock) == ActivatedAt(w, p, refresh, k)
  {}

  lemma SwapStep(w: World, m: World, p: PoolId, refresh: bool, k: nat)
    requires Separate(w, p) && k < |w.leases[p].entries| && SwappedUpTo(w, m, p, refresh, k)
    requires ActivateEnabled(m, p) && m.leases[p].progress == k && StateOf(m, p, k) == StateId(p, k)
    ensures SwappedUpTo(w, ActivateEntry(m, p), p, refresh, k + 1)
  {
    NextIsUntouched(w, m, p, refresh, k);
    ActivationMatches(w, m, p, refresh, k);
    ActivationTouchesOne(m, p, k);
    SwapsOneMore(w, m, ActivateEntry(m, p), p, refresh, k);
  }

  lemma SwapsOneMore(w: World, m: World, m': World, p: PoolId, refresh: bool, k: nat)
    requires Separate(w, p) && k < |w.leases[p].entries| && SwappedUpTo(w, m, p, refresh, k)
    requires m'.endpoints == m.endpoints[w.leases[p].entries[k].shared := ActivatedAt(w, p, refresh, k)]
    requires m'.clock == m.clock && p in m'.pools && m'.pools[p].policy == m.pools[p].policy
    requires p in m'.leases && m'.leases[p].entries == m.leases[p].entries && m'.leases[p].refresh == m.leases[p].refresh
    ensures SwappedUpTo(w, m', p, refresh, k + 1)
  {
    var s := w.leases[p].entries[k].shared;
    forall t | t in w.endpoints && Unreached(w, p, t, k + 1) ensures t in m'.endpoints && m'.endpoints[t] == w.endpoints[t] {
      assert Unreached(w, p, t, k) && t != s;
    }
  }

  /** The first `k` entries of lease `p` have been given up. */
  ghost predicate CloseProgress(m: World, p: PoolId, k: nat) {
    && Inv(m) && p in m.leases && m.leases[p].closed && m.leases[p].released == k <= |m.leases[p].entries|
  }

  lemma ClosingProgresses(m: World, p: PoolId, k: nat)
    requires CloseProgress(m, p, k) && k < |m.leases[p].entries|
    ensures ReleaseEnabled(m, p) && CloseProgress(ReleaseEntry(m, p), p, k + 1)
    ensures ReleaseEntry(m, p).leases[p].entries == m.leases[p].entries
  {
    assert LeaseOk(m, p) && EntryOk(m, p, k);
    assert KeyOk(m, m.leases[p].entries[k].key);
    ReleaseKeepsInv(m, p);
  }

  class Balancer {
    var world: World

    constructor ()
      ensures world == EmptyWorld
    {
      world := EmptyWorld;
    }

    /** `Reserve`: every identity the pool names gains a reference; nothing published changes. */
    method Reserve(p: PoolId, scope: string)
      requires Inv(world) && Enabled(world, OpenLease(p, scope))
      modifies this
      ensures ReserveProgress(old(world), world, p, |old(world).pools[p].all|)
    {
      ghost var w := world;
      var n := |world.pools[p].all|;
      Open(p, scope);
      for k := 0 to n
        invariant ReserveProgress(w, world, p, k) && n == |world.pools[p].all|
      {
        ReserveProgresses(w, world, p, k);
        world := ReserveEntry(world, p);
      }
    }

    method Open(p: PoolId, scope: string)
      requires Inv(world) && Enabled(world, OpenLease(p, scope))
      modifies this
      ensures ReserveProgress(old(world), world, p, 0)
    {
      OpenLeaseKeepsInv(world, p, scope);
      world := PutLease(world, p, Lease(scope, [], false, false, 0, false, 0));
    }

    /** `Activate`: afterwards every backend uses the shared state, which tells this pool of its changes. */
    method Activate(p: PoolId, refresh: bool)
      requires Inv(world) && p in world.leases && p in world.pools
      requires |world.leases[p].entries| == |world.pools[p].all|
      requires world.leases[p].active ==> Full(world, p)
      modifies this
      ensures Inv(world)
      ensures old(world).leases[p].closed || old(world).leases[p].active ==> world == old(world)
      ensures !old(world).leases[p].closed ==>
                && Full(world, p) && Tracks(world, p)
                && forall i | 0 <= i < |world.pools[p].all| ::
                     i < |world.leases[p].entries| && StateOf(world, p, i) == world.leases[p].entries[i].shared
      ensures !old(world).leases[p].closed && !old(world).leases[p].active ==>
                Separate(old(world), p) && SwappedUpTo(old(world), world, p, refresh, |old(world).leases[p].entries|)
    {
      if !world.leases[p].closed && !world.leases[p].active {
        SwapAll(p, refresh);
        assert LeaseOk(world, p);
      }
      if !world.leases[p].closed {
        OpenGenerationTracks(world, p);
        assert LeaseOk(world, p);
        forall i | 0 <= i < |world.pools[p].all|
          ensures i < |world.leases[p].entries| && StateOf(world, p, i) == world.leases[p].entries[i].shared
        {
          assert EntryOk(world, p, i);
        }
      }
    }

    method SwapAll(p: PoolId, refresh: bool)
      requires Inv(world) && p in world.leases && p in world.pools && !world.leases[p].closed && !world.leases[p].active
      requires |world.leases[p].entries| == |world.pools[p].all|
      modifies this
      ensures Separate(old(world), p) && SwappedUpTo(old(world), world, p, refresh, |old(world).leases[p].entries|)
      ensures ActivateProgress(world, p, |old(world).leases[p].entries|)
    {
      ghost var w := world;
      var n := |world.leases[p].entries|;
      ReservedIsSeparate(world, p);
      BeginActivateKeepsInv(world, p, refresh);
      assert LeaseOk(world, p);
      world := PutLease(world, p, world.leases[p].(active := true, refresh := refresh));
      for k := 0 to n
        invariant ActivateProgress(world, p, k) && n == |world.leases[p].entries|
        invariant SwappedUpTo(w, world, p, refresh, k)
      {
        ActivationProgresses(world, p, k);
        SwapStep(w, world, p, refresh, k);
        world := ActivateEntry(world, p);
      }
    }

    /** `Close`: afterwards the lease holds no identity. */
    method Close(p: PoolId)
      requires Inv(world) && p in world.leases && (world.leases[p].active ==> Full(world, p))
      requires world.leases[p].closed ==> world.leases[p].released == |world.leases[p].entries|
      modifies this
      ensures Inv(world) && p in world.leases && world.leases[p].closed
      ensures old(world).leases[p].closed ==> world == old(world)
      ensures forall key :: p !in Holders(world, key)
    {
      if !world.leases[p].closed {
        var n := |world.leases[p].entries|;
        assert LeaseOk(world, p);
        BeginCloseKeepsInv(world, p);
        world := PutLease(world, p, world.leases[p].(closed := true));
        for k := 0 to n
          invariant CloseProgress(world, p, k) && n == |world.leases[p].entries|
        {
          ClosingProgresses(world, p, k);
          world := ReleaseEntry(world, p);
        }
      }
    }

    /** The next move of the goroutine that holds the pool's mutex. */
    method Advance(p: PoolId, move: Move)
      requires Inv(world) && MoveEnabled(world, p, move)
      modifies this
      ensures Inv(world) && world == PutPool(old(world), p, Moved(old(world), p, move))
      ensures SameBut(old(world), world, p)
    {
      MoveStepFacts(world, p, move);
      MoveKeepsInv(world, p, move);
      world := PutPool(world, p, Moved(world, p, move));
    }

    method Recover(p: PoolId)
      requires Inv(world) && SettleEnabled(world, p)
      modifies this
      ensures Inv(world) && SameBut(old(world), world, p)
      ensures world.pools[p].section == old(world).pools[p].section.(settled := true)
      ensures var w := old(world);
              var s := StateOf(w, p, w.pools[p].section.index);
              world.endpoints == w.endpoints[s := RecoverExpired(w.endpoints[s], w.pools[p].section.asOf)]
    {
      if Expired(world, p) { LiftingIsSameBut(world, p); } else { VisitIsSameBut(world, p); }
      SettleKeepsInv(world, p);
      world := SettleEntry(world, p);
    }

    method ScanOne(p: PoolId, k: nat, ghost w: World)
      requires ScanProgress(w, world, p, k) && k < |world.pools[p].all|
      modifies this
      ensures ScanProgress(w, world, p, k + 1) && |world.pools[p].all| == |old(world).pools[p].all|
    {
      WorkIsBacked(world, p, k);
      Advance(p, Scan);
      SameButTransitive(w, old(world), world, p);
    }

    method ScanAll(p: PoolId)
      requires Inv(world) && p in world.pools
      requires world.pools[p].section.Free? || world.pools[p].section.Recovered?
      modifies this
      ensures ScanProgress(old(world), world, p, |old(world).pools[p].all|)
      ensures |world.pools[p].all| == |old(world).pools[p].all|
    {
      ghost var w := world;
      var n := |world.pools[p].all|;
      Advance(p, BeginScan);
      for k := 0 to n
        invariant ScanProgress(w, world, p, k) && n == |world.pools[p].all|
      {
        ScanOne(p, k, w);
      }
    }

    /** `refreshAvailableLocked`, whether its caller has just recovered backends or not. */
    method Refresh(p: PoolId)
      requires Inv(world) && p in world.pools
      requires world.pools[p].section.Free? || world.pools[p].section.Recovered?
      modifies this
      ensures Inv(world) && SameBut(old(world), world, p)
      ensures world.endpoints == old(world).endpoints
      ensures world.pools[p].section.Free?
      ensures world.pools[p].cacheVersion == world.pools[p].stateVersion == old(world).pools[p].stateVersion
    {
      ghost var w := world;
      ScanAll(p);
      ghost var m := world;
      Advance(p, Publish);
      SameButTransitive(w, m, world, p);
      m := world;
      Advance(p, Seal);
      SameButTransitive(w, m, world, p);
    }

    method SettleOne(p: PoolId, now: int, k: nat, ghost w: World)
      requires SettleProgress(w, world, p, now, k) && k < |world.pools[p].all|
      modifies this
      ensures SettleProgress(w, world, p, now, k + 1) && |world.pools[p].all| == |old(world).pools[p].all|
    {
      ghost var m := world;
      WorkIsBacked(world, p, k);
      Recover(p);
      SettledOneMore(w, m, world, p, now, k);
      SameButTransitive(w, m, world, p);
      NoteOne(p, now, k, w);
    }

    method NoteOne(p: PoolId, now: int, k: nat, ghost w: World)
      requires Inv(world) && SameBut(w, world, p) && Tracks(w, p)
      requires OnlyRecovered(w, world, now) && RecoveredBelow(w, world, p, now, k + 1)
      requires world.pools[p].section.Recovering? && world.pools[p].section.index == k < |world.pools[p].all|
      requires world.pools[p].section.settled && world.pools[p].section.asOf == now
      modifies this
      ensures SettleProgress(w, world, p, now, k + 1) && |world.pools[p].all| == |old(world).pools[p].all|
    {
      WorkIsBacked(world, p, k);
      Advance(p, NoteDeadline);
      SameButTransitive(w, old(world), world, p);
    }

    /** The loop of `recoverExpiredEjections`: every backend is settled and its deadline noted. */
    method SettleAll(p: PoolId, now: int)
      requires Inv(world) && Tracks(world, p) && world.pools[p].section == Recovering(now, 0, 0, false)
      modifies this
      ensures SettleProgress(old(world), world, p, now, |old(world).pools[p].all|)
      ensures |world.pools[p].all| == |old(world).pools[p].all|
    {
      ghost var w := world;
      var n := |world.pools[p].all|;
      for k := 0 to n
        invariant SettleProgress(w, world, p, now, k) && n == |world.pools[p].all|
      {
        SettleOne(p, now, k, w);
      }
    }

    /** `recoverExpiredEjections`: once locked it looks at the deadline again, and may find nothing due. */
    method RecoverExpiredEjections(p: PoolId, now: int)
      requires Inv(world) && Tracks(world, p) && world.pools[p].section.Free? && now <= world.clock
      modifies this
      ensures Inv(world) && SameBut(old(world), world, p) && world.pools[p].section.Free?
      ensures !(0 < old(world).pools[p].nextRecovery <= now) ==> world == old(world)
      ensures 0 < old(world).pools[p].nextRecovery <= now ==>
                && world.pools[p].cacheVersion == world.pools[p].stateVersion
                && OnlyRecovered(old(world), world, now)
                && RecoveredBelow(old(world), world, p, now, |old(world).pools[p].all|)
    {
      if !(0 < world.pools[p].nextRecovery <= now) {
        return;
      }
      ghost var w := world;
      BeginPass(p, now);
      ghost var m := world;
      SettleAll(p, now);
      SameButTransitive(w, m, world, p);
      RecoveryFrom(w, m, world, p, now);
      m := world;
      FinishPass(p, now, w);
      RecoveryUpTo(w, m, world, p, now);
    }

    method BeginPass(p: PoolId, now: int)
      requires Inv(world) && Tracks(world, p) && world.pools[p].section.Free?
      requires 0 < world.pools[p].nextRecovery <= now <= world.clock
      modifies this
      ensures Inv(world) && SameBut(old(world), world, p) && world.endpoints == old(world).endpoints
      ensures Tracks(world, p) && world.pools[p].section == Recovering(now, 0, 0, false)
      ensures |world.pools[p].all| == |old(world).pools[p].all|
    {
      Advance(p, BeginRecover(now));
      SameButKeepsTracking(old(world), world, p);
    }

    method FinishPass(p: PoolId, now: int, ghost w: World)
      requires Inv(world) && SameBut(w, world, p) && MoveEnabled(world, p, FinishRecover)
      modifies this
      ensures Inv(world) && SameBut(w, world, p) && world.endpoints == old(world).endpoints
      ensures world.pools[p].section.Free? && world.pools[p].cacheVersion == world.pools[p].stateVersion
    {
      Advance(p, FinishRecover);
      SameButTransitive(w, old(world), world, p);
      ghost var m := world;
      Refresh(p);
      SameButTransitive(w, m, world, p);
    }

    /**
     `AvailableBackends` with no change in progress: the cached list is exactly the simple filter,
     backend by backend and in configured order.
     */
    method AvailableBackends(p: PoolId) returns (available: seq<nat>)
      requires Inv(world) && Tracks(world, p) && Quiet(world, p) && world.pools[p].section.Free?
      modifies this
      ensures available == EligibleBelow(old(world), p, |old(world).pools[p].all|, old(world).clock)
      ensures Inv(world) && SameBut(old(world), world, p) && world.pools[p].section.Free?
      ensures OnlyRecovered(old(world), world, old(world).clock)
    {
      ghost var w := world;
      var now := world.clock;
      ghost var n := |world.pools[p].all|;
      if 0 < world.pools[p].nextRecovery <= now {
        RecoverExpiredEjections(p, now);
        forall i | 0 <= i < n ensures LiveAt(world, p, i) == EligibleAt(w, p, i, now) {
          RecoveredIsEligible(w, world, p, i, now);
        }
      } else {
        forall i | 0 <= i < n ensures LiveAt(world, p, i) == EligibleAt(w, p, i, now) {
          NothingDue(world, p, i);
        }
      }
      LiveIsEligible(w, world, p, n, now);
      SameButKeepsTracking(w, world, p);
      ghost var m := world;
      if world.pools[p].stateVersion != world.pools[p].cacheVersion {
        Refresh(p);
        SameButTransitive(w, m, world, p);
        SameButKeepsTracking(w, world, p);
        SameEndpointsSameLive(m, world, p, n);
      }
      CurrentCacheIsExact(world, p);
      available := world.pools[p].available;
    }
  }

  /** A pass begun one bookkeeping move later recovers the same endpoints. */
  lemma RecoveryFrom(w: World, m: World, m': World, p: PoolId, now: int)
    requires p in w.pools && p in m.pools && SameShape(w.pools[p], m.pools[p]) && m.endpoints == w.endpoints
    requires OnlyRecovered(m, m', now) && RecoveredBelow(m, m', p, now, |m.pools[p].all|)
    ensures OnlyRecovered(w, m', now) && RecoveredBelow(w, m', p, now, |w.pools[p].all|)
  {
    forall i | 0 <= i < |w.pools[p].all| && Backed(w, p, i)
      ensures StateOf(w, p, i) in m'.endpoints
      ensures m'.endpoints[StateOf(w, p, i)] == RecoverExpired(w.endpoints[StateOf(w, p, i)], now)
    {
      assert Backed(m, p, i) && StateOf(m, p, i) == StateOf(w, p, i);
    }
  }

  lemma RecoveryUpTo(w: World, m: World, m': World, p: PoolId, now: int)
    requires p in w.pools && m'.endpoints == m.endpoints
    requires OnlyRecovered(w, m, now) && RecoveredBelow(w, m, p, now, |w.pools[p].all|)
    ensures OnlyRecovered(w, m', now) && RecoveredBelow(w, m', p, now, |w.pools[p].all|)
  {}

  lemma RecoveredIsEligible(w: World, w': World, p: PoolId, i: nat, now: int)
    requires Inv(w) && Tracks(w, p) && SameBut(w, w', p) && i < |w.pools[p].all|
    requires RecoveredBelow(w, w', p, now, |w.pools[p].all|)
    ensures LiveAt(w', p, i) == EligibleAt(w, p, i, now)
  {
    assert TracksAt(w, p, i) && SameShape(w.pools[p], w'.pools[p]);
    var s := StateOf(w, p, i);
    assert EndpointOk(w, s);
    SoundIsTimeless(w.endpoints[s], now);
  }

  lemma SameEndpointsSameLive(w: World, w': World, p: PoolId, k: nat)
    requires SameBut(w, w', p) && w'.endpoints == w.endpoints
    ensures LiveBelow(w', p, k) == LiveBelow(w, p, k)
  {
    assert SameShape(w.pools[p], w'.pools[p]);
    assert forall i :: LiveAt(w', p, i) == LiveAt(w, p, i);
    LiveBelowCongruent(w, w', p, k);
  }
}
