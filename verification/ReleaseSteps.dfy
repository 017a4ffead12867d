/** Giving up one entry of a closed lease. */
module ReleaseSteps {
  import opened Endpoints
  import opened Generations
  import opened CalmSteps
  import opened LeaseSteps

  /** What the release of entry `i` of lease `p` does, without saying how. */
  predicate GivenUp(w: World, w': World, p: PoolId, i: nat) {
    && p in w.leases && p in w.pools && i == w.leases[p].released < |w.leases[p].entries|
    && var entry := w.leases[p].entries[i];
       && entry.shared in w.endpoints
       && w'.clock == w.clock && w'.pools == w.pools && w'.pending == w.pending && w'.granted == w.granted
       && w'.leases == w.leases[p := w.leases[p].(released := i + 1)]
       && (|| w'.endpoints == w.endpoints
           || (w.leases[p].active && w'.endpoints == w.endpoints[entry.shared := Cut(w.endpoints[entry.shared], p)]))
       && Refs(w, entry.shared) > 0
       && w'.refs == w.refs[entry.shared := Refs(w, entry.shared) - 1]
       && w'.registry == (if Refs(w, entry.shared) == 1 then w.registry - {entry.key} else w.registry)
  }

  function Cut(e: Endpoint, p: PoolId): Endpoint {
    e.(pools := e.pools - {p})
  }

  lemma ReleaseGivesUp(w: World, p: PoolId)
    requires ReleaseEnabled(w, p) && p in w.pools
    ensures GivenUp(w, ReleaseEntry(w, p), p, w.leases[p].released)
  {}

  /** Endpoints differ at most in no longer listing `p`. */
  predicate CutOff(e: Endpoint, e': Endpoint, p: PoolId) {
    e' == e || e' == Cut(e, p)
  }

  lemma GivenUpCutsOff(w: World, w': World, p: PoolId, i: nat)
    requires GivenUp(w, w', p, i)
    ensures w'.endpoints.Keys == w.endpoints.Keys
    ensures forall s | s in w.endpoints :: CutOff(w.endpoints[s], w'.endpoints[s], p)
  {}

  lemma GivenUpKeepsEndpoints(w: World, w': World, p: PoolId, i: nat)
    requires GivenUp(w, w', p, i) && EndpointsInv(w)
    ensures EndpointsInv(w')
  {
    GivenUpCutsOff(w, w', p, i);
    forall s | s in w'.endpoints ensures EndpointOk(w', s) {
      assert EndpointOk(w, s) && CutOff(w.endpoints[s], w'.endpoints[s], p);
    }
  }

  lemma GivenUpKeepsPools(w: World, w': World, p: PoolId, i: nat)
    requires GivenUp(w, w', p, i) && CachesInv(w) && RecoveryInv(w)
    ensures CachesInv(w') && RecoveryInv(w')
  {
    GivenUpCutsOff(w, w', p, i);
    forall q | q in w'.pools ensures CacheOk(w', q) {
      assert CacheOk(w, q);
      forall j | TracksAt(w', q, j)
        ensures TracksAt(w, q, j) && LiveAt(w', q, j) == LiveAt(w, q, j)
      {
        assert CutOff(w.endpoints[StateOf(w, q, j)], w'.endpoints[StateOf(w, q, j)], p);
      }
      CacheSurvives(w, w', q);
    }
    forall q, j ensures RecoveryOk(w', q, j) {
      assert RecoveryOk(w, q, j);
      if TracksAt(w', q, j) {
        assert CutOff(w.endpoints[StateOf(w, q, j)], w'.endpoints[StateOf(w, q, j)], p);
      }
    }
  }

  /** Only states that have been swapped in are cut off, so private states stay private. */
  lemma GivenUpKeepsBackends(w: World, w': World, p: PoolId, i: nat)
    requires GivenUp(w, w', p, i) && BackendsInv(w) && LeaseOk(w, p) && EntryOk(w, p, i) && w.leases[p].closed
    ensures BackendsInv(w')
  {
    GivenUpCutsOff(w, w', p, i);
    forall q, j ensures BackendOk(w', q, j) {
      assert BackendOk(w, q, j);
    }
  }

  lemma GivenUpKeepsSlots(w: World, w': World, p: PoolId, i: nat)
    requires GivenUp(w, w', p, i) && SlotsInv(w)
    ensures SlotsInv(w')
  {
    GivenUpCutsOff(w, w', p, i);
    forall s, slot | s in w'.endpoints ensures HolderOk(w', s, slot) {
      assert HolderOk(w, s, slot) && CutOff(w.endpoints[s], w'.endpoints[s], p);
    }
    forall slot ensures SlotOk(w', slot) {
      assert SlotOk(w, slot);
      if slot in w.granted {
        var s := StateOf(w, slot.pool, slot.index);
        assert CutOff(w.endpoints[s], w'.endpoints[s], p);
      }
    }
  }

  lemma GivenUpKeepsFull(w: World, w': World, p: PoolId, i: nat)
    requires GivenUp(w, w', p, i)
    ensures forall q | Full(w, q) :: Full(w', q)
    ensures forall q | Settled(w, q) :: Settled(w', q)
  {}

  lemma GivenUpHolds(w: World, w': World, p: PoolId, i: nat, key: Identity)
    requires GivenUp(w, w', p, i) && LeasesInv(w) && BackendsInv(w)
    ensures var own := w.leases[p].entries[i].key;
            && p in Holders(w, own)
            && Holders(w', key) == Holders(w, key) - (if key == own then {p} else {})
  {
    var own := w.leases[p].entries[i].key;
    assert LeaseOk(w, p) && EntryOk(w, p, i);
    forall j | i < j < |w.leases[p].entries| ensures w.leases[p].entries[j].key != own {
      assert EntryOk(w, p, j);
      OwnKeysDiffer(w, p, i, j);
    }
    GivenUpHoldsOwn(w, w', p, i, key);
  }

  lemma GivenUpHoldsOwn(w: World, w': World, p: PoolId, i: nat, key: Identity)
    requires GivenUp(w, w', p, i)
    requires forall j | i < j < |w.leases[p].entries| :: w.leases[p].entries[j].key != w.leases[p].entries[i].key
    ensures Holds(w.leases[p], w.leases[p].entries[i].key)
    ensures Holds(w'.leases[p], key) == (Holds(w.leases[p], key) && key != w.leases[p].entries[i].key)
  {
    assert w.leases[p].entries[i].key == w.leases[p].entries[i].key;
    if Holds(w.leases[p], key) && key != w.leases[p].entries[i].key {
      var j :| i <= j < |w.leases[p].entries| && w.leases[p].entries[j].key == key;
      assert w'.leases[p].entries[j].key == key;
    }
  }

  /** The reference count reaches zero exactly when the last holder lets go. */
  lemma LastHolder(w: World, w': World, p: PoolId, i: nat)
    requires GivenUp(w, w', p, i) && LeasesInv(w) && BackendsInv(w) && RegistryInv(w)
    ensures var entry := w.leases[p].entries[i];
            && entry.key in w.registry && w.registry[entry.key] == entry.shared
            && Refs(w, entry.shared) == |Holders(w, entry.key)|
            && |Holders(w', entry.key)| == |Holders(w, entry.key)| - 1
            && (Refs(w, entry.shared) == 1 ==> Holders(w', entry.key) == {})
  {
    var key := w.leases[p].entries[i].key;
    assert EntryOk(w, p, i) && LeaseOk(w, p);
    assert KeyOk(w, key);
    GivenUpHolds(w, w', p, i, key);
  }

  lemma GivenUpKeepsOtherKey(w: World, w': World, p: PoolId, i: nat, key: Identity)
    requires GivenUp(w, w', p, i) && key in w.registry && KeyOk(w, key)
    requires key != w.leases[p].entries[i].key && w.registry[key] != w.leases[p].entries[i].shared
    requires Holders(w', key) == Holders(w, key)
    ensures key in w'.registry && KeyOk(w', key)
  {}

  lemma GivenUpKeepsOwnKey(w: World, w': World, p: PoolId, i: nat)
    requires GivenUp(w, w', p, i) && Refs(w, w.leases[p].entries[i].shared) > 1
    requires var entry := w.leases[p].entries[i];
             && entry.key in w.registry && KeyOk(w, entry.key) && w.registry[entry.key] == entry.shared
             && |Holders(w', entry.key)| == |Holders(w, entry.key)| - 1
    ensures KeyOk(w', w.leases[p].entries[i].key)
  {}

  lemma GivenUpKeepsRegistry(w: World, w': World, p: PoolId, i: nat)
    requires GivenUp(w, w', p, i) && LeasesInv(w) && BackendsInv(w) && RegistryInv(w)
    ensures RegistryInv(w')
  {
    var own := w.leases[p].entries[i].key;
    LastHolder(w, w', p, i);
    forall key | key in w'.registry ensures KeyOk(w', key) {
      assert KeyOk(w, key) && KeyOk(w, own);
      GivenUpHolds(w, w', p, i, key);
      if key == own {
        GivenUpKeepsOwnKey(w, w', p, i);
      } else {
        if w.registry[key] == w.registry[own] {
          RegistryInjective(w, key, own);
          assert false;
        }
        GivenUpKeepsOtherKey(w, w', p, i, key);
      }
    }
  }

  /** An entry that is still held names an identity that is still registered. */
  lemma StillRegistered(w: World, w': World, p: PoolId, i: nat, q: PoolId, j: nat)
    requires GivenUp(w, w', p, i) && LeasesInv(w) && BackendsInv(w) && RegistryInv(w)
    requires q in w.leases && w'.leases[q].released <= j < |w.leases[q].entries|
    ensures w.leases[q].entries[j].key in w'.registry
    ensures w'.registry[w.leases[q].entries[j].key] == w.leases[q].entries[j].shared
  {
    var key := w.leases[q].entries[j].key;
    assert EntryOk(w, q, j);
    LastHolder(w, w', p, i);
    assert w'.leases[q].entries[j].key == key;
    assert q in Holders(w', key);
  }

  lemma StillListed(w: World, w': World, p: PoolId, i: nat, j: nat)
    requires GivenUp(w, w', p, i) && LeasesInv(w) && BackendsInv(w) && RegistryInv(w)
    requires i < j < |w.leases[p].entries| && j < w.leases[p].progress
    ensures w.leases[p].entries[j].shared in w.endpoints
    ensures p in w'.endpoints[w.leases[p].entries[j].shared].pools
  {
    var a := w.leases[p].entries[i];
    var b := w.leases[p].entries[j];
    assert LeaseOk(w, p) && EntryOk(w, p, i) && EntryOk(w, p, j);
    OwnKeysDiffer(w, p, i, j);
    assert KeyOk(w, a.key) && KeyOk(w, b.key);
    if a.shared == b.shared {
      RegistryInjective(w, a.key, b.key);
      assert false;
    }
  }

  lemma GivenUpKeepsEntry(w: World, w': World, p: PoolId, i: nat, q: PoolId, j: nat)
    requires GivenUp(w, w', p, i) && LeasesInv(w) && BackendsInv(w) && RegistryInv(w)
    requires q in w.leases && j < |w.leases[q].entries|
    ensures q in w.pools && |w.leases[q].entries| <= |w.pools[q].all|
    ensures EntryOk(w', q, j)
  {
    assert LeaseOk(w, q) && EntryOk(w, q, j);
    GivenUpCutsOff(w, w', p, i);
    GivenUpKeepsFull(w, w', p, i);
    if w'.leases[q].released <= j {
      StillRegistered(w, w', p, i, q, j);
    }
    if q == p {
      if i < j < w.leases[p].progress { StillListed(w, w', p, i, j); }
    } else {
      assert CutOff(w.endpoints[w.leases[q].entries[j].shared], w'.endpoints[w.leases[q].entries[j].shared], p);
    }
  }

  lemma GivenUpKeepsLeases(w: World, w': World, p: PoolId, i: nat)
    requires GivenUp(w, w', p, i) && LeasesInv(w) && BackendsInv(w) && RegistryInv(w) && w.leases[p].closed
    ensures LeasesInv(w')
  {
    forall q | q in w'.leases ensures LeaseOk(w', q) {
      assert LeaseOk(w, q);
    }
    forall q, j | q in w'.leases && 0 <= j < |w'.leases[q].entries| ensures EntryOk(w', q, j) {
      GivenUpKeepsEntry(w, w', p, i, q, j);
    }
  }

  lemma ReleaseKeepsInv(w: World, p: PoolId)
    requires Inv(w) && ReleaseEnabled(w, p)
    ensures Inv(ReleaseEntry(w, p))
  {
    var w' := ReleaseEntry(w, p);
    var i := w.leases[p].released;
    assert LeaseOk(w, p) && EntryOk(w, p, i);
    ReleaseGivesUp(w, p);
    GivenUpKeepsInv(w, w', p, i);
  }

  lemma GivenUpKeepsInv(w: World, w': World, p: PoolId, i: nat)
    requires Inv(w) && GivenUp(w, w', p, i) && w.leases[p].closed
    ensures Inv(w')
  {
    GivenUpKeepsRuntime(w, w', p, i);
    GivenUpKeepsBooks(w, w', p, i);
  }

  lemma GivenUpKeepsRuntime(w: World, w': World, p: PoolId, i: nat)
    requires Inv(w) && GivenUp(w, w', p, i) && w.leases[p].closed
    ensures EndpointsInv(w') && BackendsInv(w') && CachesInv(w') && RecoveryInv(w') && SlotsInv(w')
  {
    assert LeaseOk(w, p) && EntryOk(w, p, i);
    GivenUpKeepsEndpoints(w, w', p, i);
    GivenUpKeepsPools(w, w', p, i);
    GivenUpKeepsBackends(w, w', p, i);
    GivenUpKeepsSlots(w, w', p, i);
  }

  lemma GivenUpKeepsBooks(w: World, w': World, p: PoolId, i: nat)
    requires Inv(w) && GivenUp(w, w', p, i) && w.leases[p].closed
    ensures LeasesInv(w') && RegistryInv(w') && CandidatesInv(w')
  {
    GivenUpKeepsRegistry(w, w', p, i);
    GivenUpKeepsLeases(w, w', p, i);
    GivenUpKeepsFull(w, w', p, i);
    CandidatesSurvive(w, w');
  }
}
