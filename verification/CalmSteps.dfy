/** Steps that leave leases, the registry and the wiring of pools to endpoints alone. */
module CalmSteps {
  import opened Endpoints
  import opened Generations

  predicate SameWiring(e: Endpoint, e': Endpoint) {
    e'.pools == e.pools && e'.healthOwner == e.healthOwner && e'.maxConcurrent == e.maxConcurrent
  }

  predicate SameShape(pool: Pool, pool': Pool) {
    pool'.all == pool.all && pool'.policy == pool.policy
  }

  predicate Calm(w: World, w': World) {
    && w'.leases == w.leases && w'.registry == w.registry && w'.refs == w.refs
    && w'.pools.Keys == w.pools.Keys
    && (forall p | p in w.pools :: SameShape(w.pools[p], w'.pools[p]))
    && w'.endpoints.Keys == w.endpoints.Keys
    && (forall s | s in w.endpoints :: SameWiring(w.endpoints[s], w'.endpoints[s]))
  }

  lemma CalmKeepsWiring(w: World, w': World)
    requires Calm(w, w')
    requires BackendsInv(w)
    ensures BackendsInv(w')
  {
    forall p, i ensures BackendOk(w', p, i) {
      assert BackendOk(w, p, i);
    }
    forall p | p in w'.pools ensures UniqueIds(w'.pools[p]) {
      assert UniqueIds(w.pools[p]) && SameShape(w.pools[p], w'.pools[p]);
    }
  }

  lemma CalmKeepsLeases(w: World, w': World)
    requires Calm(w, w')
    requires LeasesInv(w)
    ensures LeasesInv(w')
  {
    forall p | p in w'.leases ensures LeaseOk(w', p) {
      assert LeaseOk(w, p) && SameShape(w.pools[p], w'.pools[p]);
    }
    forall p, i | p in w'.leases && 0 <= i < |w'.leases[p].entries| ensures EntryOk(w', p, i) {
      assert EntryOk(w, p, i) && SameShape(w.pools[p], w'.pools[p]);
      var s := w.leases[p].entries[i].shared;
      assert SameWiring(w.endpoints[s], w'.endpoints[s]);
      CalmKeepsFull(w, w', s.pool);
    }
  }

  lemma CalmKeepsFull(w: World, w': World, p: PoolId)
    requires Calm(w, w')
    ensures Full(w', p) == Full(w, p) && Settled(w', p) == Settled(w, p)
  {
    if p in w.pools {
      assert SameShape(w.pools[p], w'.pools[p]);
    }
  }

  lemma CalmKeepsRegistry(w: World, w': World)
    requires Calm(w, w')
    requires RegistryInv(w) && CandidatesInv(w)
    ensures RegistryInv(w') && CandidatesInv(w')
  {
    forall key | key in w'.registry ensures KeyOk(w', key) {
      assert KeyOk(w, key);
      assert Holders(w', key) == Holders(w, key);
    }
    forall p, q | p in w'.leases && q in w'.leases ensures OneCandidate(w', p, q) {
      assert OneCandidate(w, p, q);
      CalmKeepsFull(w, w', p);
      CalmKeepsFull(w, w', q);
    }
  }

  lemma CalmKeepsEndpoints(w: World, w': World)
    requires Calm(w, w')
    requires EndpointsInv(w)
    requires forall s | s in w'.endpoints :: w'.endpoints[s].Sound()
    ensures EndpointsInv(w')
  {
    forall s | s in w'.endpoints ensures EndpointOk(w', s) {
      assert EndpointOk(w, s) && SameWiring(w.endpoints[s], w'.endpoints[s]);
      var e := w.endpoints[s];
      var owner := if e.healthOwner.Some? then e.healthOwner.value else s.pool;
      assert SameShape(w.pools[owner], w'.pools[owner]) && SameShape(w.pools[s.pool], w'.pools[s.pool]);
    }
  }

  lemma CalmKeepsSlots(w: World, w': World)
    requires Calm(w, w')
    requires SlotsInv(w)
    requires w'.granted == w.granted
    requires forall s | s in w.endpoints :: w'.endpoints[s].holders == w.endpoints[s].holders
    ensures SlotsInv(w')
  {
    forall s, slot | s in w'.endpoints ensures HolderOk(w', s, slot) {
      assert HolderOk(w, s, slot);
      CalmKeepsPublished(w, w', slot);
    }
    forall slot ensures SlotOk(w', slot) {
      assert SlotOk(w, slot);
      CalmKeepsPublished(w, w', slot);
    }
  }

  lemma CalmKeepsPublished(w: World, w': World, slot: Slot)
    requires Calm(w, w')
    ensures Published(w', slot.pool, slot.index) == Published(w, slot.pool, slot.index)
    ensures At(w', slot.pool, slot.index) == At(w, slot.pool, slot.index)
    ensures At(w, slot.pool, slot.index) ==> StateOf(w', slot.pool, slot.index) == StateOf(w, slot.pool, slot.index)
  {
    if slot.pool in w.pools {
      assert SameShape(w.pools[slot.pool], w'.pools[slot.pool]);
    }
  }

  /** The parts of the invariant a calm step cannot break. */
  ghost predicate Rest(w: World) {
    EndpointsInv(w) && BackendsInv(w) && LeasesInv(w) && RegistryInv(w) && CandidatesInv(w) && SlotsInv(w)
  }

  lemma CalmKeepsRest(w: World, w': World)
    requires Rest(w) && Calm(w, w') && w'.granted == w.granted
    requires forall s | s in w'.endpoints :: w'.endpoints[s].Sound() && w'.endpoints[s].holders == w.endpoints[s].holders
    ensures Rest(w')
  {
    CalmKeepsWiring(w, w');
    CalmKeepsLeases(w, w');
    CalmKeepsRegistry(w, w');
    CalmKeepsEndpoints(w, w');
    CalmKeepsSlots(w, w');
  }

  lemma SameEndpointsKeepRest(w: World, w': World)
    requires Rest(w) && Calm(w, w') && w'.granted == w.granted && w'.endpoints == w.endpoints
    ensures Rest(w')
  {
    forall s | s in w'.endpoints ensures w'.endpoints[s].Sound() {
      assert EndpointOk(w, s);
    }
    CalmKeepsRest(w, w');
  }

  // ------------------------------------------------------------ caches

  /** Equal liveness gives equal lists. */
  lemma {:induction false} LiveBelowCongruent(w: World, w': World, p: PoolId, k: nat)
    requires forall i | 0 <= i < k :: LiveAt(w', p, i) == LiveAt(w, p, i)
    ensures LiveBelow(w', p, k) == LiveBelow(w, p, k)
  {
    if k > 0 {
      LiveBelowCongruent(w, w', p, k - 1);
    }
  }

  /** The pool's own fields are as before and its endpoints look the same, or it is no longer exact. */
  lemma CacheSurvives(w: World, w': World, p: PoolId)
    requires p in w.pools && p in w'.pools && w'.pools[p] == w.pools[p]
    requires CacheOk(w, p) && w.clock <= w'.clock
    requires Tracks(w', p) && Quiet(w', p) ==>
               && Tracks(w, p) && Quiet(w, p)
               && forall i | 0 <= i < |w.pools[p].all| :: LiveAt(w', p, i) == LiveAt(w, p, i)
    ensures CacheOk(w', p)
  {
    var n := |w.pools[p].all|;
    if Tracks(w', p) && Quiet(w', p) {
      LiveBelowCongruent(w, w', p, n);
      if w.pools[p].section.Scanning? {
        LiveBelowCongruent(w, w', p, w.pools[p].section.index);
      }
    }
  }

  /** A new version makes every cache, finished or not, stale: nothing is claimed of it. */
  lemma StaleCacheOk(w: World, w': World, p: PoolId, until: int)
    requires p in w.pools && p in w'.pools && w'.clock == w.clock
    requires CacheOk(w, p)
    requires |w'.pools[p].all| == |w.pools[p].all|
    requires w'.pools[p].(all := w.pools[p].all) == Invalidated(w.pools[p], until)
    ensures CacheOk(w', p)
  {}

  /** Scheduling another deadline only ever brings `nextRecovery` forward. */
  lemma InvalidationKeepsCover(pool: Pool, i: nat, until: int, other: int)
    requires Covered(pool, i, until)
    ensures Covered(Invalidated(pool, other), i, until)
  {}

  // ------------------------------------------------------------ one endpoint changes

  lemma EventsKeepWiring(e: Endpoint, ev: Event, now: int)
    requires !ev.Activate? && !ev.Detach?
    ensures SameWiring(e, Apply(e, ev, now))
  {
    match ev
    case Probe(from, success, st, ft) => ProbeKeepsWiring(e, from, success, st, ft, now);
    case _ =>
  }

  lemma ProbeKeepsWiring(e: Endpoint, from: PoolId, success: bool, st: int, ft: int, now: int)
    ensures SameWiring(e, RecordProbe(e, from, success, st, ft, now))
  {}

  /** A touched endpoint either looks the same to every cache or is pending. */
  predicate Discreet(w: World, w': World, s: StateId) {
    && s in w.endpoints && s in w'.endpoints
    && (s in w.pending ==> s in w'.pending)
    && (s !in w'.pending ==>
          && w'.endpoints[s].Live() == w.endpoints[s].Live()
          && w'.endpoints[s].ejectedUntil == w.endpoints[s].ejectedUntil)
  }

  lemma DiscreetKeepsCache(w: World, w': World, p: PoolId)
    requires Calm(w, w') && w'.pools == w.pools && w.clock <= w'.clock
    requires forall s | s in w.endpoints :: Discreet(w, w', s)
    requires BackendsInv(w) && p in w.pools && CacheOk(w, p)
    ensures CacheOk(w', p)
  {
    if Tracks(w', p) && Quiet(w', p) {
      forall i | 0 <= i < |w.pools[p].all|
        ensures TracksAt(w, p, i) && w.pools[p].all[i].state !in w.pending && LiveAt(w', p, i) == LiveAt(w, p, i)
      {
        assert BackendOk(w, p, i) && TracksAt(w', p, i);
        var s := StateOf(w, p, i);
        assert Discreet(w, w', s) && SameWiring(w.endpoints[s], w'.endpoints[s]);
      }
    }
    CacheSurvives(w, w', p);
  }

  lemma DiscreetKeepsRecovery(w: World, w': World, p: PoolId, i: nat)
    requires Calm(w, w') && w'.pools == w.pools
    requires forall s | s in w.endpoints :: Discreet(w, w', s)
    requires RecoveryOk(w, p, i)
    ensures RecoveryOk(w', p, i)
  {
    if TracksAt(w', p, i) {
      var s := StateOf(w, p, i);
      assert Discreet(w, w', s) && SameWiring(w.endpoints[s], w'.endpoints[s]);
    }
  }

  lemma DiscreetKeepsPools(w: World, w': World)
    requires Calm(w, w') && w'.pools == w.pools && w.clock <= w'.clock
    requires forall s | s in w.endpoints :: Discreet(w, w', s)
    requires BackendsInv(w) && CachesInv(w) && RecoveryInv(w)
    ensures CachesInv(w') && RecoveryInv(w')
  {
    forall p | p in w'.pools ensures CacheOk(w', p) {
      assert CacheOk(w, p);
      DiscreetKeepsCache(w, w', p);
    }
    forall p, i ensures RecoveryOk(w', p, i) {
      assert RecoveryOk(w, p, i);
      DiscreetKeepsRecovery(w, w', p, i);
    }
  }

  /** The slot a request gives back is counted by the endpoint it is given back to. */
  lemma GiveBackIsAllowed(w: World, p: PoolId, i: nat, action: Action)
    requires SlotsInv(w) && ActionEnabled(w, p, i, action)
    ensures Allowed(w.endpoints[StateOf(w, p, i)], EventOf(w, p, i, action), w.clock)
  {
    if action.GiveBack? {
      assert SlotOk(w, Slot(p, i));
    }
  }

  /** What every action on a backend does to its endpoint, as far as other parts of the world can tell. */
  lemma ActionFacts(e: Endpoint, ev: Event, now: int)
    requires e.Sound() && Allowed(e, ev, now)
    requires !ev.Recover? && !ev.Activate? && !ev.Detach?
    ensures var e' := Apply(e, ev, now);
            && SameWiring(e, e') && e'.Sound()
            && (!Bumps(e, ev, now) ==> e'.Live() == e.Live() && e'.ejectedUntil == e.ejectedUntil)
  {
    EventsKeepWiring(e, ev, now);
    ApplyKeepsSound(e, ev, now);
    if !Bumps(e, ev, now) {
      SilentEventsPreserveLiveness(e, ev, now);
    }
  }

  /** `w'` is `w` with one endpoint replaced. */
  predicate Replaced(w: World, w': World, s: StateId, e': Endpoint, bump: bool) {
    && s in w.endpoints
    && w'.clock == w.clock && w'.pools == w.pools
    && w'.leases == w.leases && w'.registry == w.registry && w'.refs == w.refs
    && w'.endpoints == w.endpoints[s := e']
    && w'.pending == (if bump then w.pending + multiset{s} else w.pending)
  }

  lemma ReplacedIsCalm(w: World, w': World, s: StateId, e': Endpoint, bump: bool)
    requires Replaced(w, w', s, e', bump)
    requires EndpointsInv(w) && SameWiring(w.endpoints[s], e') && e'.Sound()
    requires !bump ==> e'.Live() == w.endpoints[s].Live() && e'.ejectedUntil == w.endpoints[s].ejectedUntil
    ensures Calm(w, w')
    ensures forall t | t in w.endpoints :: Discreet(w, w', t)
    ensures forall t | t in w'.endpoints :: w'.endpoints[t].Sound()
  {
    forall t | t in w.endpoints ensures Discreet(w, w', t) && w'.endpoints[t].Sound() {
      assert EndpointOk(w, t);
    }
  }

  lemma BackendStepIsReplacement(w: World, p: PoolId, i: nat, action: Action)
    requires Inv(w) && ActionEnabled(w, p, i, action)
    ensures var w' := Acted(w, p, i, action);
            var s := StateOf(w, p, i);
            var ev := EventOf(w, p, i, action);
            Replaced(w, w', s, Apply(w.endpoints[s], ev, w.clock), Bumps(w.endpoints[s], ev, w.clock))
  {}

  lemma BackendStepIsCalm(w: World, p: PoolId, i: nat, action: Action)
    requires Inv(w) && ActionEnabled(w, p, i, action)
    ensures var w' := Acted(w, p, i, action);
            && Calm(w, w')
            && (forall s | s in w.endpoints :: Discreet(w, w', s))
            && (forall s | s in w'.endpoints :: w'.endpoints[s].Sound())
  {
    var s := StateOf(w, p, i);
    var e := w.endpoints[s];
    var ev := EventOf(w, p, i, action);
    assert EndpointOk(w, s);
    GiveBackIsAllowed(w, p, i, action);
    ActionFacts(e, ev, w.clock);
    BackendStepIsReplacement(w, p, i, action);
    ReplacedIsCalm(w, Acted(w, p, i, action), s, Apply(e, ev, w.clock), Bumps(e, ev, w.clock));
  }

  lemma OtherActionsKeepHolders(e: Endpoint, ev: Event, now: int)
    requires !ev.Acquire? && !ev.Release? && !ev.Activate? && !ev.Detach?
    ensures Apply(e, ev, now).holders == e.holders
  {
    if ev.Probe? {
      ProbeKeepsHolders(e, ev.from, ev.success, ev.successThreshold, ev.failureThreshold, now);
    }
  }

  lemma ProbeKeepsHolders(e: Endpoint, from: PoolId, success: bool, st: int, ft: int, now: int)
    ensures RecordProbe(e, from, success, st, ft, now).holders == e.holders
  {}

  /** Granting or returning a slot changes the request's ledger and the endpoint's count alike. */
  lemma MatchedLedgersKeepSlots(w: World, w': World, s: StateId, own: Slot)
    requires SlotsInv(w) && Calm(w, w') && s in w.endpoints
    requires Published(w, own.pool, own.index) && StateOf(w, own.pool, own.index) == s
    requires forall t | t in w.endpoints && t != s :: w'.endpoints[t].holders == w.endpoints[t].holders
    requires forall slot | slot != own ::
               w'.endpoints[s].holders[slot] == w.endpoints[s].holders[slot] && w'.granted[slot] == w.granted[slot]
    requires w'.endpoints[s].holders[own] + w.granted[own] == w.endpoints[s].holders[own] + w'.granted[own]
    ensures SlotsInv(w')
  {
    assert HolderOk(w, s, own) && SlotOk(w, own);
    forall t, slot | t in w'.endpoints ensures HolderOk(w', t, slot) {
      assert HolderOk(w, t, slot);
      CalmKeepsPublished(w, w', slot);
    }
    forall slot ensures SlotOk(w', slot) {
      assert SlotOk(w, slot) && HolderOk(w, s, slot);
      CalmKeepsPublished(w, w', slot);
    }
  }

  lemma GrowingLedgersKeepSlots(w: World, w': World, s: StateId, own: Slot, e': Endpoint, bump: bool)
    requires Replaced(w, w', s, e', bump) && Calm(w, w') && SlotsInv(w)
    requires Published(w, own.pool, own.index) && StateOf(w, own.pool, own.index) == s
    requires || (e'.holders == w.endpoints[s].holders && w'.granted == w.granted)
             || (e'.holders == w.endpoints[s].holders + multiset{own} && w'.granted == w.granted + multiset{own})
    ensures SlotsInv(w')
  {
    MatchedLedgersKeepSlots(w, w', s, own);
  }

  lemma ShrinkingLedgersKeepSlots(w: World, w': World, s: StateId, own: Slot, e': Endpoint, bump: bool)
    requires Replaced(w, w', s, e', bump) && Calm(w, w') && SlotsInv(w) && own in w.granted
    requires At(w, own.pool, own.index) && StateOf(w, own.pool, own.index) == s
    requires e'.holders == w.endpoints[s].holders - multiset{own} && w'.granted == w.granted - multiset{own}
    ensures SlotsInv(w')
  {
    assert SlotOk(w, own) && HolderOk(w, s, own);
    MatchedLedgersKeepSlots(w, w', s, own);
  }

  lemma AcquireKeepsSlots(w: World, p: PoolId, i: nat)
    requires SlotsInv(w) && Published(w, p, i) && Calm(w, Acted(w, p, i, TryAcquire))
    ensures SlotsInv(Acted(w, p, i, TryAcquire))
  {
    var s := StateOf(w, p, i);
    var e' := Apply(w.endpoints[s], Acquire(Slot(p, i)), w.clock);
    GrowingLedgersKeepSlots(w, Acted(w, p, i, TryAcquire), s, Slot(p, i), e', false);
  }

  lemma GiveBackKeepsSlots(w: World, p: PoolId, i: nat)
    requires SlotsInv(w) && Backed(w, p, i) && Slot(p, i) in w.granted && Calm(w, Acted(w, p, i, GiveBack))
    ensures SlotsInv(Acted(w, p, i, GiveBack))
  {
    var s := StateOf(w, p, i);
    var e' := Apply(w.endpoints[s], Release(Slot(p, i)), w.clock);
    ShrinkingLedgersKeepSlots(w, Acted(w, p, i, GiveBack), s, Slot(p, i), e', false);
  }

  lemma BackendStepKeepsSlots(w: World, p: PoolId, i: nat, action: Action)
    requires Inv(w) && ActionEnabled(w, p, i, action)
    ensures SlotsInv(Acted(w, p, i, action))
  {
    BackendStepIsCalm(w, p, i, action);
    if action.TryAcquire? {
      AcquireKeepsSlots(w, p, i);
    } else if action.GiveBack? {
      GiveBackKeepsSlots(w, p, i);
    } else {
      var s := StateOf(w, p, i);
      var ev := EventOf(w, p, i, action);
      BackendStepIsReplacement(w, p, i, action);
      OtherActionsKeepHolders(w.endpoints[s], ev, w.clock);
      ReplacedKeepsSlots(w, Acted(w, p, i, action), s, Apply(w.endpoints[s], ev, w.clock),
                         Bumps(w.endpoints[s], ev, w.clock));
    }
  }

  lemma ReplacedKeepsSlots(w: World, w': World, s: StateId, e': Endpoint, bump: bool)
    requires Replaced(w, w', s, e', bump) && Calm(w, w') && SlotsInv(w)
    requires e'.holders == w.endpoints[s].holders && w'.granted == w.granted
    ensures SlotsInv(w')
  {
    CalmKeepsSlots(w, w');
  }

  lemma BackendStepKeepsInv(w: World, p: PoolId, i: nat, action: Action)
    requires Inv(w) && ActionEnabled(w, p, i, action)
    ensures Inv(Acted(w, p, i, action))
  {
    var w' := Acted(w, p, i, action);
    BackendStepIsCalm(w, p, i, action);
    BackendStepKeepsSlots(w, p, i, action);
    BackendStepIsReplacement(w, p, i, action);
    CalmKeepsWiring(w, w');
    CalmKeepsLeases(w, w');
    CalmKeepsRegistry(w, w');
    CalmKeepsEndpoints(w, w');
    DiscreetKeepsPools(w, w');
  }

  lemma TickKeepsInv(w: World, now: int)
    requires Inv(w) && w.clock <= now
    ensures Inv(w.(clock := now))
  {
    var w' := w.(clock := now);
    SameEndpointsKeepRest(w, w');
    DiscreetKeepsPools(w, w');
  }

  // ------------------------------------------------------------ invalidation

  lemma FlushKeepsCache(w: World, s: StateId, p: PoolId)
    requires Inv(w) && s in w.pending && s in w.endpoints && p in w.pools
    ensures CacheOk(Flushed(w, s), p)
  {
    var w' := Flushed(w, s);
    assert CacheOk(w, p);
    if p in w.endpoints[s].pools {
      StaleCacheOk(w, w', p, w.endpoints[s].ejectedUntil);
    } else {
      if Tracks(w', p) && Quiet(w', p) {
        forall i | 0 <= i < |w.pools[p].all|
          ensures TracksAt(w, p, i) && w.pools[p].all[i].state !in w.pending && LiveAt(w', p, i) == LiveAt(w, p, i)
        {
          assert TracksAt(w', p, i);
        }
      }
      CacheSurvives(w, w', p);
    }
  }

  lemma FlushKeepsRecovery(w: World, s: StateId, p: PoolId, i: nat)
    requires Inv(w) && s in w.pending && s in w.endpoints
    ensures RecoveryOk(Flushed(w, s), p, i)
  {
    var w' := Flushed(w, s);
    assert RecoveryOk(w, p, i);
    if TracksAt(w', p, i) {
      var t := StateOf(w, p, i);
      var until := w.endpoints[t].ejectedUntil;
      if until > 0 && t != s && t !in w.pending {
        InvalidationKeepsCover(w.pools[p], i, until, w.endpoints[s].ejectedUntil);
      }
    }
  }

  lemma FlushKeepsPools(w: World, s: StateId)
    requires Inv(w) && s in w.pending && s in w.endpoints
    ensures CachesInv(Flushed(w, s)) && RecoveryInv(Flushed(w, s))
  {
    var w' := Flushed(w, s);
    forall p | p in w'.pools ensures CacheOk(w', p) {
      FlushKeepsCache(w, s, p);
    }
    forall p, i ensures RecoveryOk(w', p, i) {
      FlushKeepsRecovery(w, s, p, i);
    }
  }

  lemma FlushKeepsInv(w: World, s: StateId)
    requires Inv(w) && s in w.pending && s in w.endpoints
    ensures Inv(Flushed(w, s))
  {
    FlushKeepsPools(w, s);
    SameEndpointsKeepRest(w, Flushed(w, s));
  }

  // ------------------------------------------------------------ the pool's mutex holder

  /** Pool `p` may differ, but not in its backends; everything else is untouched. */
  predicate OnlyPool(w: World, w': World, p: PoolId) {
    && p in w.pools && p in w'.pools
    && w' == w.(pools := w.pools[p := w'.pools[p]])
    && SameShape(w.pools[p], w'.pools[p])
    && w'.pools[p].stateVersion == w.pools[p].stateVersion
  }

  lemma OnlyPoolKeepsSights(w: World, w': World, p: PoolId, q: PoolId, k: nat)
    requires OnlyPool(w, w', p)
    ensures Tracks(w', q) == Tracks(w, q) && Quiet(w', q) == Quiet(w, q)
    ensures LiveBelow(w', q, k) == LiveBelow(w, q, k)
  {
    assert forall i :: TracksAt(w', q, i) == TracksAt(w, q, i);
    assert forall i :: LiveAt(w', q, i) == LiveAt(w, q, i);
    LiveBelowCongruent(w, w', q, k);
  }

  /** One more backend scanned: the list stays right as long as nothing has changed since it was begun. */
  lemma ScanKeepsCache(w: World, p: PoolId)
    requires EndpointsInv(w) && MoveEnabled(w, p, Scan) && CacheOk(w, p)
    ensures CacheOk(PutPool(w, p, Moved(w, p, Scan)), p)
  {
    var w' := PutPool(w, p, Moved(w, p, Scan));
    var sec := w.pools[p].section;
    var s := StateOf(w, p, sec.index);
    assert EndpointOk(w, s);
    SoundIsTimeless(w.endpoints[s], w.clock);
    OnlyPoolKeepsSights(w, w', p, p, sec.index + 1);
    OnlyPoolKeepsSights(w, w', p, p, |w.pools[p].all|);
    assert LiveBelow(w, p, sec.index + 1) ==
           LiveBelow(w, p, sec.index) + if LiveAt(w, p, sec.index) then [sec.index] else [];
  }

  lemma OtherMovesKeepOwnCache(w: World, p: PoolId, move: Move)
    requires EndpointsInv(w) && MoveEnabled(w, p, move) && !move.Scan? && CacheOk(w, p)
    ensures CacheOk(PutPool(w, p, Moved(w, p, move)), p)
  {
    var w' := PutPool(w, p, Moved(w, p, move));
    if move.NoteDeadline? {
      assert EndpointOk(w, StateOf(w, p, w.pools[p].section.index));
    }
    OnlyPoolKeepsSights(w, w', p, p, |w.pools[p].all|);
  }

  lemma MoveKeepsOwnCache(w: World, p: PoolId, move: Move)
    requires Inv(w) && MoveEnabled(w, p, move)
    ensures CacheOk(PutPool(w, p, Moved(w, p, move)), p)
  {
    assert CacheOk(w, p);
    if move.Scan? { ScanKeepsCache(w, p); } else { OtherMovesKeepOwnCache(w, p, move); }
  }

  lemma OnlyPoolKeepsOtherCache(w: World, w': World, p: PoolId, q: PoolId)
    requires OnlyPool(w, w', p) && q in w.pools && q != p && CacheOk(w, q)
    ensures CacheOk(w', q)
  {
    OnlyPoolKeepsSights(w, w', p, q, |w.pools[q].all|);
    if w.pools[q].section.Scanning? {
      OnlyPoolKeepsSights(w, w', p, q, w.pools[q].section.index);
    }
  }

  /** While a recovery pass runs, the deadlines it has not seen are covered by its position. */
  lemma MoveKeepsCover(w: World, p: PoolId, move: Move, i: nat)
    requires EndpointsInv(w) && MoveEnabled(w, p, move) && CacheOk(w, p) && Backed(w, p, i)
    requires Covered(w.pools[p], i, w.endpoints[StateOf(w, p, i)].ejectedUntil)
    requires w.endpoints[StateOf(w, p, i)].ejectedUntil > 0
    ensures Covered(Moved(w, p, move), i, w.endpoints[StateOf(w, p, i)].ejectedUntil)
  {
    if move.NoteDeadline? {
      assert EndpointOk(w, StateOf(w, p, w.pools[p].section.index));
    }
  }

  lemma MoveKeepsRecovery(w: World, p: PoolId, move: Move, q: PoolId, i: nat)
    requires EndpointsInv(w) && MoveEnabled(w, p, move) && CacheOk(w, p) && RecoveryOk(w, q, i)
    ensures RecoveryOk(PutPool(w, p, Moved(w, p, move)), q, i)
  {
    if q == p && TracksAt(w, p, i) && w.endpoints[StateOf(w, p, i)].ejectedUntil > 0
       && Covered(w.pools[p], i, w.endpoints[StateOf(w, p, i)].ejectedUntil)
    {
      MoveKeepsCover(w, p, move, i);
    }
  }

  lemma MoveKeepsPools(w: World, p: PoolId, move: Move)
    requires Inv(w) && MoveEnabled(w, p, move)
    ensures CachesInv(PutPool(w, p, Moved(w, p, move))) && RecoveryInv(PutPool(w, p, Moved(w, p, move)))
  {
    var w' := PutPool(w, p, Moved(w, p, move));
    forall q | q in w'.pools ensures CacheOk(w', q) {
      assert CacheOk(w, q);
      if q == p { MoveKeepsOwnCache(w, p, move); } else { OnlyPoolKeepsOtherCache(w, w', p, q); }
    }
    forall q, i ensures RecoveryOk(w', q, i) {
      assert CacheOk(w, p) && RecoveryOk(w, q, i);
      MoveKeepsRecovery(w, p, move, q, i);
    }
  }

  lemma MoveKeepsInv(w: World, p: PoolId, move: Move)
    requires Inv(w) && MoveEnabled(w, p, move)
    ensures Inv(PutPool(w, p, Moved(w, p, move)))
  {
    MoveKeepsPools(w, p, move);
    SameEndpointsKeepRest(w, PutPool(w, p, Moved(w, p, move)));
  }

  // ------------------------------------------------------------ recovery of one backend

  predicate Expired(w: World, p: PoolId)
    requires SettleEnabled(w, p)
  {
    var until := w.endpoints[StateOf(w, p, w.pools[p].section.index)].ejectedUntil;
    until != 0 && until <= w.pools[p].section.asOf
  }

  function Visited(w: World, p: PoolId): World
    requires SettleEnabled(w, p)
  {
    PutPool(w, p, w.pools[p].(section := w.pools[p].section.(settled := true)))
  }

  lemma VisitKeepsPools(w: World, p: PoolId)
    requires Inv(w) && SettleEnabled(w, p) && !Expired(w, p)
    ensures CachesInv(Visited(w, p)) && RecoveryInv(Visited(w, p))
  {
    var w' := Visited(w, p);
    forall q | q in w'.pools ensures CacheOk(w', q) {
      assert CacheOk(w, q);
      if q == p { OnlyPoolKeepsSights(w, w', p, p, |w.pools[p].all|); } else { OnlyPoolKeepsOtherCache(w, w', p, q); }
    }
    forall q, i ensures RecoveryOk(w', q, i) {
      assert RecoveryOk(w, q, i);
      if TracksAt(w', q, i) {
        assert TracksAt(w, q, i);
      }
    }
  }

  /** Nothing to recover: the pass only notes that it has looked. */
  lemma VisitKeepsInv(w: World, p: PoolId)
    requires Inv(w) && SettleEnabled(w, p) && !Expired(w, p)
    ensures Inv(Visited(w, p))
  {
    VisitKeepsPools(w, p);
    SameEndpointsKeepRest(w, Visited(w, p));
  }

  /** `w'` is `w` with an expired ejection lifted and every pool that lists the endpoint told. */
  predicate Lifted(w: World, w': World, p: PoolId, s: StateId, e': Endpoint) {
    && s in w.endpoints && p in w.pools && w.pools[p].section.Recovering?
    && w'.clock == w.clock && w'.pending == w.pending && w'.granted == w.granted
    && w'.leases == w.leases && w'.registry == w.registry && w'.refs == w.refs
    && w'.endpoints == w.endpoints[s := e']
    && e'.ejectedUntil == 0 && e'.pools == w.endpoints[s].pools
    && w'.pools.Keys == w.pools.Keys
    && forall q | q in w.pools :: LiftedPool(w.pools[q], w'.pools[q], q == p, q in e'.pools)
  }

  predicate LiftedPool(pool: Pool, pool': Pool, own: bool, told: bool) {
    && pool'.(section := pool.section) == (if told then Invalidated(pool, 0) else pool)
    && pool'.section == (if own && pool.section.Recovering? then pool.section.(settled := true) else pool.section)
  }

  lemma SettleLifts(w: World, p: PoolId)
    requires SettleEnabled(w, p)
    ensures !Expired(w, p) ==> SettleEntry(w, p) == Visited(w, p)
    ensures Expired(w, p) ==>
              var s := StateOf(w, p, w.pools[p].section.index);
              Lifted(w, SettleEntry(w, p), p, s, RecoverExpired(w.endpoints[s], w.pools[p].section.asOf))
  {
    var s := StateOf(w, p, w.pools[p].section.index);
    if !Expired(w, p) {
      assert w.endpoints[s := w.endpoints[s]] == w.endpoints;
    }
  }

  lemma LiftedKeepsCache(w: World, w': World, p: PoolId, s: StateId, e': Endpoint, q: PoolId)
    requires Lifted(w, w', p, s, e') && q in w.pools && CacheOk(w, q)
    requires w.pools[p].section.index < |w.pools[p].all|
    ensures CacheOk(w', q)
  {
    assert LiftedPool(w.pools[q], w'.pools[q], q == p, q in e'.pools);
    if q in e'.pools {
      assert w'.pools[q].stateVersion == w.pools[q].stateVersion + 1;
    } else {
      UntoldSeesNoChange(w, w', p, s, e', q, |w.pools[q].all|);
      if w.pools[q].section.Scanning? {
        UntoldSeesNoChange(w, w', p, s, e', q, w.pools[q].section.index);
      }
    }
  }

  /** A pool the endpoint does not list either does not use it or has already been cut off from it. */
  lemma UntoldSeesNoChange(w: World, w': World, p: PoolId, s: StateId, e': Endpoint, q: PoolId, k: nat)
    requires Lifted(w, w', p, s, e') && q in w.pools && q !in e'.pools
    requires k <= |w.pools[q].all|
    ensures Tracks(w', q) && Quiet(w', q) ==>
              Tracks(w, q) && Quiet(w, q) && LiveBelow(w', q, k) == LiveBelow(w, q, k)
  {
    assert LiftedPool(w.pools[q], w'.pools[q], q == p, false);
    if Tracks(w', q) && Quiet(w', q) {
      forall i | 0 <= i < |w.pools[q].all|
        ensures TracksAt(w, q, i) && LiveAt(w', q, i) == LiveAt(w, q, i)
      {
        assert TracksAt(w', q, i);
      }
      LiveBelowCongruent(w, w', q, k);
    }
  }

  lemma LiftedKeepsRecovery(w: World, w': World, p: PoolId, s: StateId, e': Endpoint, q: PoolId, i: nat)
    requires Lifted(w, w', p, s, e') && RecoveryOk(w, q, i)
    requires At(w, p, w.pools[p].section.index) && StateOf(w, p, w.pools[p].section.index) == s
    ensures RecoveryOk(w', q, i)
  {
    if TracksAt(w', q, i) {
      assert LiftedPool(w.pools[q], w'.pools[q], q == p, q in e'.pools);
      assert TracksAt(w, q, i);
    }
  }

  lemma LiftedKeepsInv(w: World, w': World, p: PoolId, s: StateId, e': Endpoint)
    requires Inv(w) && Lifted(w, w', p, s, e')
    requires At(w, p, w.pools[p].section.index) && StateOf(w, p, w.pools[p].section.index) == s
    requires SameWiring(w.endpoints[s], e') && e'.Sound() && e'.holders == w.endpoints[s].holders
    ensures Inv(w')
  {
    LiftedIsCalm(w, w', p, s, e');
    CalmKeepsRest(w, w');
    forall q | q in w'.pools ensures CacheOk(w', q) {
      assert CacheOk(w, q);
      LiftedKeepsCache(w, w', p, s, e', q);
    }
    forall q, i ensures RecoveryOk(w', q, i) {
      assert RecoveryOk(w, q, i);
      LiftedKeepsRecovery(w, w', p, s, e', q, i);
    }
  }

  lemma SwapKeepsEndpoints(m: map<StateId, Endpoint>, s: StateId, e': Endpoint)
    requires s in m && SameWiring(m[s], e') && e'.Sound() && e'.holders == m[s].holders
    requires forall t | t in m :: m[t].Sound()
    ensures m[s := e'].Keys == m.Keys
    ensures forall t | t in m :: SameWiring(m[t], m[s := e'][t])
    ensures forall t | t in m :: m[s := e'][t].Sound() && m[s := e'][t].holders == m[t].holders
  {}

  lemma LiftedIsCalm(w: World, w': World, p: PoolId, s: StateId, e': Endpoint)
    requires EndpointsInv(w) && Lifted(w, w', p, s, e')
    requires SameWiring(w.endpoints[s], e') && e'.Sound() && e'.holders == w.endpoints[s].holders
    ensures Calm(w, w')
    ensures forall t | t in w'.endpoints :: w'.endpoints[t].Sound() && w'.endpoints[t].holders == w.endpoints[t].holders
  {
    assert forall t | t in w.endpoints :: EndpointOk(w, t) && w.endpoints[t].Sound();
    SwapKeepsEndpoints(w.endpoints, s, e');
    forall q | q in w.pools ensures SameShape(w.pools[q], w'.pools[q]) {
      LiftedSameShape(w.pools[q], w'.pools[q], q == p, q in e'.pools);
    }
  }

  lemma LiftedSameShape(pool: Pool, pool': Pool, own: bool, told: bool)
    requires LiftedPool(pool, pool', own, told)
    ensures SameShape(pool, pool')
  {
    assert pool'.(section := pool.section).all == pool'.all;
  }

  lemma SettleKeepsInv(w: World, p: PoolId)
    requires Inv(w) && SettleEnabled(w, p)
    ensures Inv(SettleEntry(w, p))
  {
    SettleLifts(w, p);
    if Expired(w, p) {
      var s := StateOf(w, p, w.pools[p].section.index);
      assert EndpointOk(w, s);
      RecoverFacts(w.endpoints[s], w.pools[p].section.asOf);
      LiftedKeepsInv(w, SettleEntry(w, p), p, s, RecoverExpired(w.endpoints[s], w.pools[p].section.asOf));
    } else {
      VisitKeepsInv(w, p);
    }
  }

  lemma RecoverFacts(e: Endpoint, asOf: int)
    requires e.Sound()
    ensures var e' := RecoverExpired(e, asOf); SameWiring(e, e') && e'.Sound() && e'.holders == e.holders
  {}
}
