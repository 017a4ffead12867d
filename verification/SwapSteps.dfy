/** Building a pool, and swapping one shared state into it. */
module SwapSteps {
  import opened Common
  import opened Endpoints
  import opened Generations
  import opened CalmSteps
  import opened LeaseSteps

  // ------------------------------------------------------------ activation

  function Based(w: World, q: PoolId, p: PoolId, i: nat, s: StateId): Pool
    requires q in w.pools && At(w, p, i)
  {
    if q == p then Repoint(w.pools[q], i, s) else w.pools[q]
  }

  /** What activating entry `i` of lease `p` does, given the endpoint `e'` it leaves behind. */
  predicate Swapped(w: World, w': World, p: PoolId, i: nat, s: StateId, e': Endpoint) {
    && At(w, p, i) && p in w.leases && i == w.leases[p].progress < |w.leases[p].entries|
    && s in w.endpoints
    && w'.clock == w.clock && w'.pending == w.pending && w'.granted == w.granted
    && w'.registry == w.registry && w'.refs == w.refs
    && w'.leases == w.leases[p := w.leases[p].(progress := i + 1)]
    && w'.endpoints == w.endpoints[s := e']
    && e'.pools == w.endpoints[s].pools + {p} && e'.healthOwner == Some(p)
    && e'.maxConcurrent == w.pools[p].policy.maxConcurrent
    && e'.Sound() && e'.holders == w.endpoints[s].holders
    && w'.pools.Keys == w.pools.Keys
    && forall q | q in w.pools :: SwappedPool(w, w', q, p, i, s, e')
  }

  predicate SwappedPool(w: World, w': World, q: PoolId, p: PoolId, i: nat, s: StateId, e': Endpoint)
    requires At(w, p, i) && q in w.pools
  {
    && q in w'.pools
    && w'.pools[q] == if q in e'.pools then Invalidated(Based(w, q, p, i, s), e'.ejectedUntil) else w.pools[q]
  }

  lemma ActivatedFacts(e: Endpoint, pool: PoolId, refresh: bool, warmed: bool, disabled: bool, limit: int, now: int)
    requires e.Sound()
    ensures var e' := Activated(e, pool, refresh, warmed, disabled, limit, now);
            && e'.pools == e.pools + {pool} && e'.healthOwner == Some(pool) && e'.maxConcurrent == limit
            && e'.Sound() && e'.holders == e.holders
  {
    ActivateKeepsSound(e, pool, refresh, warmed, disabled, limit, now);
  }

  lemma ActivationSwaps(w: World, p: PoolId)
    requires ActivateEnabled(w, p)
    requires w.endpoints[w.leases[p].entries[w.leases[p].progress].shared].Sound()
    ensures var i := w.leases[p].progress;
            var s := w.leases[p].entries[i].shared;
            Swapped(w, ActivateEntry(w, p), p, i, s, Apply(w.endpoints[s], ActivationEvent(w, p), w.clock))
  {
    var i := w.leases[p].progress;
    var s := w.leases[p].entries[i].shared;
    var ev := ActivationEvent(w, p);
    ActivatedFacts(w.endpoints[s], p, ev.refresh, ev.warmed, ev.disabled, ev.limit, w.clock);
  }

  lemma SwapKeepsShapes(w: World, w': World, p: PoolId, i: nat, s: StateId, e': Endpoint, q: PoolId)
    requires Swapped(w, w', p, i, s, e') && q in w.pools
    ensures |w'.pools[q].all| == |w.pools[q].all| && w'.pools[q].policy == w.pools[q].policy
    ensures q != p ==> w'.pools[q].all == w.pools[q].all
    ensures q == p ==> w'.pools[q].all == Repoint(w.pools[p], i, s).all
  {
    assert SwappedPool(w, w', q, p, i, s, e');
  }

  /** Only backend `i` of pool `p` changes the state it points at. */
  lemma SwapRepoints(w: World, w': World, p: PoolId, i: nat, s: StateId, e': Endpoint, q: PoolId, j: nat)
    requires Swapped(w, w', p, i, s, e')
    ensures At(w', q, j) == At(w, q, j)
    ensures At(w, q, j) ==> StateOf(w', q, j) == (if q == p && j == i then s else StateOf(w, q, j))
  {
    if q in w.pools { SwapKeepsShapes(w, w', p, i, s, e', q); }
  }

  lemma SwapKeepsEndpointsInv(w: World, w': World, p: PoolId, i: nat, s: StateId, e': Endpoint)
    requires Swapped(w, w', p, i, s, e') && EndpointsInv(w)
    ensures EndpointsInv(w')
  {
    forall t | t in w'.endpoints ensures EndpointOk(w', t) {
      assert EndpointOk(w, t);
      var e := w'.endpoints[t];
      var owner := if e.healthOwner.Some? then e.healthOwner.value else t.pool;
      SwapKeepsShapes(w, w', p, i, s, e', owner);
      SwapKeepsShapes(w, w', p, i, s, e', t.pool);
    }
  }

  lemma SwapKeepsCache(w: World, w': World, p: PoolId, i: nat, s: StateId, e': Endpoint, q: PoolId)
    requires Swapped(w, w', p, i, s, e') && q in w.pools && CacheOk(w, q)
    ensures CacheOk(w', q)
  {
    assert SwappedPool(w, w', q, p, i, s, e');
    if q in e'.pools {
      StaleCacheOk(w, w', q, e'.ejectedUntil);
    } else {
      if Tracks(w', q) && Quiet(w', q) {
        forall j | 0 <= j < |w.pools[q].all|
          ensures TracksAt(w, q, j) && w.pools[q].all[j].state !in w.pending && LiveAt(w', q, j) == LiveAt(w, q, j)
        {
          assert TracksAt(w', q, j);
        }
      }
      CacheSurvives(w, w', q);
    }
  }

  /** The shared state brings its own deadline along; all others are only brought forward. */
  lemma SwapKeepsRecovery(w: World, w': World, p: PoolId, i: nat, s: StateId, e': Endpoint, q: PoolId, j: nat)
    requires Swapped(w, w', p, i, s, e') && RecoveryOk(w, q, j)
    ensures RecoveryOk(w', q, j)
  {
    SwapRepoints(w, w', p, i, s, e', q, j);
    if TracksAt(w', q, j) {
      assert SwappedPool(w, w', q, p, i, s, e');
      var t := StateOf(w', q, j);
      if t != s {
        assert TracksAt(w, q, j);
        var until := w.endpoints[t].ejectedUntil;
        if until > 0 && t !in w.pending && q in e'.pools {
          CoverIgnoresPointers(w.pools[q], Based(w, q, p, i, s), j, until);
          InvalidationKeepsCover(Based(w, q, p, i, s), j, until, e'.ejectedUntil);
        }
      }
    }
  }

  lemma CoverIgnoresPointers(pool: Pool, pool': Pool, i: nat, until: int)
    requires pool'.(all := pool.all) == pool && Covered(pool, i, until)
    ensures Covered(pool', i, until)
  {
    assert pool'.nextRecovery == pool'.(all := pool.all).nextRecovery;
    assert pool'.section == pool'.(all := pool.all).section;
  }

  /** The state being swapped in is nobody's unpublished copy but possibly `p`'s own. */
  lemma SwapTargetsNoPrivateState(w: World, p: PoolId, i: nat, q: PoolId, j: nat)
    requires LeasesInv(w) && p in w.leases && i == w.leases[p].progress < |w.leases[p].entries|
    requires q in w.pools && j < |w.pools[q].all| && !(q in w.leases && j < w.leases[q].progress)
    requires w.leases[p].entries[i].shared == StateId(q, j)
    ensures q == p && j == i
  {
    assert LeaseOk(w, p) && EntryOk(w, p, i);
  }

  lemma SwapKeepsBackends(w: World, w': World, p: PoolId, i: nat, s: StateId, e': Endpoint)
    requires Swapped(w, w', p, i, s, e') && BackendsInv(w) && LeasesInv(w)
    requires s == w.leases[p].entries[i].shared
    ensures BackendsInv(w')
  {
    forall q, j: nat ensures BackendOk(w', q, j) {
      assert BackendOk(w, q, j);
      SwapRepoints(w, w', p, i, s, e', q, j);
      if At(w, q, j) && !(q in w'.leases && j < w'.leases[q].progress) && s == StateId(q, j) {
        SwapTargetsNoPrivateState(w, p, i, q, j);
      }
    }
    forall q | q in w'.pools ensures UniqueIds(w'.pools[q]) {
      assert UniqueIds(w.pools[q]);
      SwapKeepsShapes(w, w', p, i, s, e', q);
    }
  }

  lemma SwapKeepsHolder(w: World, w': World, p: PoolId, i: nat, s: StateId, e': Endpoint, t: StateId, slot: Slot)
    requires Swapped(w, w', p, i, s, e') && t in w.endpoints && HolderOk(w, t, slot)
    ensures HolderOk(w', t, slot)
  {
    SwapRepoints(w, w', p, i, s, e', slot.pool, slot.index);
  }

  lemma SwapKeepsSlot(w: World, w': World, p: PoolId, i: nat, s: StateId, e': Endpoint, slot: Slot)
    requires Swapped(w, w', p, i, s, e') && SlotOk(w, slot)
    ensures SlotOk(w', slot)
  {
    SwapRepoints(w, w', p, i, s, e', slot.pool, slot.index);
  }

  lemma SwapKeepsSlots(w: World, w': World, p: PoolId, i: nat, s: StateId, e': Endpoint)
    requires Swapped(w, w', p, i, s, e') && SlotsInv(w)
    ensures SlotsInv(w')
  {
    forall t, slot | t in w'.endpoints ensures HolderOk(w', t, slot) {
      assert HolderOk(w, t, slot);
      SwapKeepsHolder(w, w', p, i, s, e', t, slot);
    }
    forall slot ensures SlotOk(w', slot) {
      assert SlotOk(w, slot);
      SwapKeepsSlot(w, w', p, i, s, e', slot);
    }
  }

  lemma SwapKeepsFull(w: World, w': World, p: PoolId, i: nat, s: StateId, e': Endpoint, q: PoolId)
    requires Swapped(w, w', p, i, s, e') && LeaseOk(w, p)
    ensures Full(w, q) ==> Full(w', q)
    ensures Settled(w, q) ==> Settled(w', q)
  {
    if q in w.pools { SwapKeepsShapes(w, w', p, i, s, e', q); }
  }

  lemma SwapKeepsEntry(w: World, w': World, p: PoolId, i: nat, s: StateId, e': Endpoint, q: PoolId, j: nat)
    requires Swapped(w, w', p, i, s, e') && s == w.leases[p].entries[i].shared
    requires LeaseOk(w, p) && q in w.leases && LeaseOk(w, q) && j < |w.leases[q].entries| && EntryOk(w, q, j)
    ensures q in w'.pools && |w.leases[q].entries| <= |w'.pools[q].all| && EntryOk(w', q, j)
  {
    SwapRepoints(w, w', p, i, s, e', q, j);
    SwapKeepsShapes(w, w', p, i, s, e', q);
    SwapKeepsFull(w, w', p, i, s, e', w.leases[q].entries[j].shared.pool);
  }

  lemma SwapKeepsLeases(w: World, w': World, p: PoolId, i: nat, s: StateId, e': Endpoint)
    requires Swapped(w, w', p, i, s, e') && LeasesInv(w) && s == w.leases[p].entries[i].shared
    requires w.leases[p].active && !w.leases[p].closed
    ensures LeasesInv(w')
  {
    assert LeaseOk(w, p);
    forall q | q in w'.leases ensures LeaseOk(w', q) {
      assert LeaseOk(w, q);
      SwapKeepsShapes(w, w', p, i, s, e', q);
    }
    forall q, j | q in w'.leases && 0 <= j < |w'.leases[q].entries| ensures EntryOk(w', q, j) {
      assert LeaseOk(w, q) && EntryOk(w, q, j);
      SwapKeepsEntry(w, w', p, i, s, e', q, j);
    }
  }

  lemma SwapKeepsRegistry(w: World, w': World, p: PoolId, i: nat, s: StateId, e': Endpoint)
    requires Swapped(w, w', p, i, s, e') && RegistryInv(w) && CandidatesInv(w) && LeaseOk(w, p)
    ensures RegistryInv(w') && CandidatesInv(w')
  {
    forall key | key in w'.registry ensures KeyOk(w', key) {
      assert KeyOk(w, key);
      assert Holders(w', key) == Holders(w, key);
    }
    forall q ensures Settled(w, q) ==> Settled(w', q) {
      SwapKeepsFull(w, w', p, i, s, e', q);
    }
    CandidatesSurvive(w, w');
  }

  lemma SwapKeepsRuntime(w: World, w': World, p: PoolId, i: nat, s: StateId, e': Endpoint)
    requires Inv(w) && Swapped(w, w', p, i, s, e') && s == w.leases[p].entries[i].shared
    ensures EndpointsInv(w') && BackendsInv(w') && CachesInv(w') && RecoveryInv(w') && SlotsInv(w')
  {
    SwapKeepsEndpointsInv(w, w', p, i, s, e');
    SwapKeepsBackends(w, w', p, i, s, e');
    SwapKeepsSlots(w, w', p, i, s, e');
    forall q | q in w'.pools ensures CacheOk(w', q) {
      assert CacheOk(w, q);
      SwapKeepsCache(w, w', p, i, s, e', q);
    }
    forall q, j ensures RecoveryOk(w', q, j) {
      assert RecoveryOk(w, q, j);
      SwapKeepsRecovery(w, w', p, i, s, e', q, j);
    }
  }

  lemma ActivateKeepsInv(w: World, p: PoolId)
    requires Inv(w) && ActivateEnabled(w, p)
    ensures Inv(ActivateEntry(w, p))
  {
    var i := w.leases[p].progress;
    var s := w.leases[p].entries[i].shared;
    var e' := Apply(w.endpoints[s], ActivationEvent(w, p), w.clock);
    assert EndpointOk(w, s) && LeaseOk(w, p);
    ActivationSwaps(w, p);
    SwapKeepsInv(w, ActivateEntry(w, p), p, i, s, e');
  }

  lemma SwapKeepsInv(w: World, w': World, p: PoolId, i: nat, s: StateId, e': Endpoint)
    requires Inv(w) && Swapped(w, w', p, i, s, e') && s == w.leases[p].entries[i].shared
    requires w.leases[p].active && !w.leases[p].closed
    ensures Inv(w')
  {
    assert LeaseOk(w, p);
    SwapKeepsRuntime(w, w', p, i, s, e');
    SwapKeepsLeases(w, w', p, i, s, e');
    SwapKeepsRegistry(w, w', p, i, s, e');
  }

  // ------------------------------------------------------------ new pools

  /** `w'` is `w` with pool `p` and its private states added. */
  predicate Extended(w: World, w': World, p: PoolId, specs: seq<BackendSpec>, policy: PassivePolicy) {
    && p !in w.pools && p !in w.leases && ValidSpecs(specs)
    && w' == CreatedPool(w, p, specs, policy)
    && (forall s | s in w.endpoints :: s.pool != p)
  }

  lemma CreationExtends(w: World, p: PoolId, specs: seq<BackendSpec>, policy: PassivePolicy)
    requires Inv(w) && p !in w.pools && ValidSpecs(specs)
    ensures Extended(w, CreatedPool(w, p, specs, policy), p, specs, policy)
  {
    forall s | s in w.endpoints ensures s.pool != p {
      assert EndpointOk(w, s);
    }
    assert forall q | q in w.leases :: LeaseOk(w, q);
  }

  lemma ExtensionLookup(w: World, w': World, p: PoolId, specs: seq<BackendSpec>, policy: PassivePolicy, s: StateId)
    requires Extended(w, w', p, specs, policy)
    ensures s in w'.endpoints <==> s in w.endpoints || (s.pool == p && s.index < |specs|)
    ensures s in w.endpoints ==> w'.endpoints[s] == w.endpoints[s]
    ensures s.pool == p && s.index < |specs| ==> w'.endpoints[s] == NewEndpoint(p, specs[s.index], policy)
  {
    if s.pool == p && s.index < |specs| {
      assert s == StateId(p, s.index);
    }
  }

  lemma ExtensionKeepsEndpoint(w: World, w': World, p: PoolId, specs: seq<BackendSpec>, policy: PassivePolicy, s: StateId)
    requires Extended(w, w', p, specs, policy) && s in w'.endpoints
    requires s in w.endpoints ==> EndpointOk(w, s)
    ensures EndpointOk(w', s)
    ensures forall slot | s in w.endpoints && HolderOk(w, s, slot) :: HolderOk(w', s, slot)
    ensures forall slot | s !in w.endpoints :: HolderOk(w', s, slot)
  {
    ExtensionLookup(w, w', p, specs, policy, s);
    forall slot | s in w.endpoints && HolderOk(w, s, slot) ensures HolderOk(w', s, slot) {
      ExtensionKeepsPublished(w, w', p, specs, policy, slot);
    }
  }

  lemma ExtensionKeepsPublished(w: World, w': World, p: PoolId, specs: seq<BackendSpec>, policy: PassivePolicy, slot: Slot)
    requires Extended(w, w', p, specs, policy)
    ensures Published(w, slot.pool, slot.index) ==>
              Published(w', slot.pool, slot.index)
              && StateOf(w', slot.pool, slot.index) == StateOf(w, slot.pool, slot.index)
              && w'.endpoints[StateOf(w, slot.pool, slot.index)] == w.endpoints[StateOf(w, slot.pool, slot.index)]
  {
    if Published(w, slot.pool, slot.index) {
      ExtensionLookup(w, w', p, specs, policy, StateOf(w, slot.pool, slot.index));
    }
  }

  lemma ExtensionKeepsSlots(w: World, w': World, p: PoolId, specs: seq<BackendSpec>, policy: PassivePolicy)
    requires Extended(w, w', p, specs, policy) && EndpointsInv(w) && SlotsInv(w)
    ensures EndpointsInv(w') && SlotsInv(w')
  {
    forall s | s in w'.endpoints ensures EndpointOk(w', s) {
      if s in w.endpoints { assert EndpointOk(w, s); }
      ExtensionKeepsEndpoint(w, w', p, specs, policy, s);
    }
    forall s, slot | s in w'.endpoints ensures HolderOk(w', s, slot) {
      if s in w.endpoints { assert EndpointOk(w, s) && HolderOk(w, s, slot); }
      ExtensionKeepsEndpoint(w, w', p, specs, policy, s);
    }
    forall slot ensures SlotOk(w', slot) {
      assert SlotOk(w, slot);
      ExtensionKeepsPublished(w, w', p, specs, policy, slot);
    }
  }

  lemma ExtensionKeepsBackend(w: World, w': World, p: PoolId, specs: seq<BackendSpec>, policy: PassivePolicy, q: PoolId, i: nat)
    requires Extended(w, w', p, specs, policy) && BackendOk(w, q, i) && RecoveryOk(w, q, i)
    ensures BackendOk(w', q, i) && RecoveryOk(w', q, i)
  {
    if At(w', q, i) {
      if q == p {
        ExtensionLookup(w, w', p, specs, policy, StateId(p, i));
      } else {
        ExtensionLookup(w, w', p, specs, policy, StateOf(w, q, i));
        ExtensionLookup(w, w', p, specs, policy, StateId(q, i));
      }
    }
  }

  lemma {:induction false} NothingLiveYet(w: World, p: PoolId, k: nat)
    requires forall i | 0 <= i < k :: !LiveAt(w, p, i)
    ensures LiveBelow(w, p, k) == []
  {
    if k > 0 { NothingLiveYet(w, p, k - 1); }
  }

  lemma ExtensionKeepsCache(w: World, w': World, p: PoolId, specs: seq<BackendSpec>, policy: PassivePolicy, q: PoolId)
    requires Extended(w, w', p, specs, policy) && BackendsInv(w) && q in w'.pools
    requires q in w.pools ==> CacheOk(w, q)
    ensures CacheOk(w', q)
  {
    if q == p {
      forall i | 0 <= i < |specs| ensures !LiveAt(w', p, i) {
        ExtensionLookup(w, w', p, specs, policy, StateId(p, i));
      }
      NothingLiveYet(w', p, |specs|);
    } else {
      forall i ensures TracksAt(w', q, i) == TracksAt(w, q, i) && LiveAt(w', q, i) == LiveAt(w, q, i) {
        assert BackendOk(w, q, i);
        if At(w, q, i) { ExtensionLookup(w, w', p, specs, policy, StateOf(w, q, i)); }
      }
      CacheSurvives(w, w', q);
    }
  }

  lemma ExtensionKeepsEntry(w: World, w': World, p: PoolId, specs: seq<BackendSpec>, policy: PassivePolicy, q: PoolId, i: nat)
    requires Extended(w, w', p, specs, policy) && q in w.leases && LeaseOk(w, q) && i < |w.leases[q].entries| && EntryOk(w, q, i)
    ensures q in w'.pools && |w.leases[q].entries| <= |w'.pools[q].all| && EntryOk(w', q, i)
  {
    ExtensionLookup(w, w', p, specs, policy, w.leases[q].entries[i].shared);
  }

  lemma ExtensionKeepsBooks(w: World, w': World, p: PoolId, specs: seq<BackendSpec>, policy: PassivePolicy)
    requires Extended(w, w', p, specs, policy) && LeasesInv(w) && RegistryInv(w) && CandidatesInv(w)
    ensures LeasesInv(w') && RegistryInv(w') && CandidatesInv(w')
  {
    forall q | q in w'.leases ensures LeaseOk(w', q) {
      assert LeaseOk(w, q);
    }
    forall q, i | q in w'.leases && 0 <= i < |w'.leases[q].entries| ensures EntryOk(w', q, i) {
      assert LeaseOk(w, q) && EntryOk(w, q, i);
      ExtensionKeepsEntry(w, w', p, specs, policy, q, i);
    }
    forall key | key in w'.registry ensures KeyOk(w', key) {
      assert KeyOk(w, key);
      assert Holders(w', key) == Holders(w, key);
    }
    CandidatesSurvive(w, w');
  }

  lemma CreateKeepsInv(w: World, p: PoolId, specs: seq<BackendSpec>, policy: PassivePolicy)
    requires Inv(w) && p !in w.pools && ValidSpecs(specs)
    ensures Inv(CreatedPool(w, p, specs, policy))
  {
    var w' := CreatedPool(w, p, specs, policy);
    CreationExtends(w, p, specs, policy);
    ExtensionKeepsSlots(w, w', p, specs, policy);
    ExtensionKeepsBooks(w, w', p, specs, policy);
    ExtensionKeepsPools(w, w', p, specs, policy);
  }

  lemma ExtensionKeepsPools(w: World, w': World, p: PoolId, specs: seq<BackendSpec>, policy: PassivePolicy)
    requires Extended(w, w', p, specs, policy) && BackendsInv(w) && RecoveryInv(w) && CachesInv(w)
    ensures BackendsInv(w') && RecoveryInv(w') && CachesInv(w')
  {
    forall q, i ensures BackendOk(w', q, i) && RecoveryOk(w', q, i) {
      assert BackendOk(w, q, i) && RecoveryOk(w, q, i);
      ExtensionKeepsBackend(w, w', p, specs, policy, q, i);
    }
    forall q | q in w'.pools ensures UniqueIds(w'.pools[q]) && CacheOk(w', q) {
      if q != p { assert UniqueIds(w.pools[q]) && CacheOk(w, q); }
      ExtensionKeepsCache(w, w', p, specs, policy, q);
    }
  }
}
