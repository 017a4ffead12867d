/** Steps that build pools, reserve and release identities, and swap shared state in. */
module LeaseSteps {
  import opened Endpoints
  import opened Generations
  import opened CalmSteps

  // ------------------------------------------------------------ the candidate rule

  lemma CandidatesSurvive(w: World, w': World)
    requires CandidatesInv(w) && w'.leases.Keys == w.leases.Keys
    requires forall p | p in w.leases :: w'.leases[p].scope == w.leases[p].scope
    requires forall p | Settled(w, p) :: Settled(w', p)
    ensures CandidatesInv(w')
  {
    forall p, q | p in w'.leases && q in w'.leases ensures OneCandidate(w', p, q) {
      assert OneCandidate(w, p, q);
    }
  }

  // ------------------------------------------------------------ lease bookkeeping only

  /** Only lease `p` may differ, and not in how far it has been swapped in. */
  predicate OnlyLease(w: World, w': World, p: PoolId) {
    && w'.clock == w.clock && w'.endpoints == w.endpoints && w'.pools == w.pools
    && w'.pending == w.pending && w'.granted == w.granted
    && p in w'.leases && w'.leases == w.leases[p := w'.leases[p]]
    && w'.leases[p].progress == (if p in w.leases then w.leases[p].progress else 0)
  }

  lemma OnlyLeaseKeepsPools(w: World, w': World, p: PoolId)
    requires OnlyLease(w, w', p)
    requires EndpointsInv(w) && CachesInv(w) && RecoveryInv(w)
    ensures EndpointsInv(w') && CachesInv(w') && RecoveryInv(w')
  {
    forall s | s in w'.endpoints ensures EndpointOk(w', s) {
      assert EndpointOk(w, s);
    }
    forall q | q in w'.pools ensures CacheOk(w', q) {
      assert CacheOk(w, q);
      assert forall i :: TracksAt(w', q, i) == TracksAt(w, q, i) && LiveAt(w', q, i) == LiveAt(w, q, i);
      CacheSurvives(w, w', q);
    }
    forall q, i ensures RecoveryOk(w', q, i) {
      assert RecoveryOk(w, q, i);
      assert TracksAt(w', q, i) == TracksAt(w, q, i);
    }
  }

  lemma OnlyLeaseKeepsBackends(w: World, w': World, p: PoolId)
    requires OnlyLease(w, w', p)
    requires BackendsInv(w)
    ensures BackendsInv(w')
  {
    forall q, i ensures BackendOk(w', q, i) {
      assert BackendOk(w, q, i);
    }
  }

  lemma OnlyLeaseKeepsSlots(w: World, w': World, p: PoolId)
    requires OnlyLease(w, w', p)
    requires SlotsInv(w)
    ensures SlotsInv(w')
  {
    forall s, slot | s in w'.endpoints ensures HolderOk(w', s, slot) {
      assert HolderOk(w, s, slot);
    }
    forall slot ensures SlotOk(w', slot) {
      assert SlotOk(w, slot);
    }
  }

  /** `p` has the same entries, all as much released as before: references do not move. */
  predicate SameHolds(w: World, w': World, p: PoolId) {
    && w'.registry == w.registry && w'.refs == w.refs
    && p in w'.leases
    && (p in w.leases ==>
          && w'.leases[p].entries == w.leases[p].entries && w'.leases[p].released == w.leases[p].released
          && w'.leases[p].scope == w.leases[p].scope)
    && (p !in w.leases ==> w'.leases[p].entries == [])
  }

  lemma SameHoldsKeepsRegistry(w: World, w': World, p: PoolId)
    requires OnlyLease(w, w', p) && SameHolds(w, w', p)
    requires RegistryInv(w)
    ensures RegistryInv(w')
  {
    forall key | key in w'.registry ensures KeyOk(w', key) {
      assert KeyOk(w, key);
      assert Holders(w', key) == Holders(w, key);
    }
  }

  lemma SameHoldsKeepsLeases(w: World, w': World, p: PoolId)
    requires OnlyLease(w, w', p) && SameHolds(w, w', p)
    requires LeasesInv(w) && LeaseOk(w', p)
    requires forall q | Full(w, q) :: Full(w', q)
    ensures LeasesInv(w')
  {
    forall q | q in w'.leases ensures LeaseOk(w', q) {
      if q != p { assert LeaseOk(w, q); }
    }
    forall q, i | q in w'.leases && 0 <= i < |w'.leases[q].entries| ensures EntryOk(w', q, i) {
      assert EntryOk(w, q, i);
    }
  }

  lemma OpenLeaseKeepsInv(w: World, p: PoolId, scope: string)
    requires Inv(w) && p in w.pools && p !in w.leases && MayOpen(w, scope)
    ensures Inv(PutLease(w, p, Lease(scope, [], false, false, 0, false, 0)))
  {
    var w' := PutLease(w, p, Lease(scope, [], false, false, 0, false, 0));
    OnlyLeaseKeepsPools(w, w', p);
    OnlyLeaseKeepsBackends(w, w', p);
    OnlyLeaseKeepsSlots(w, w', p);
    SameHoldsKeepsRegistry(w, w', p);
    SameHoldsKeepsLeases(w, w', p);
    OpenLeaseKeepsCandidates(w, p, scope);
  }

  lemma OpenLeaseKeepsCandidates(w: World, p: PoolId, scope: string)
    requires CandidatesInv(w) && p !in w.leases && MayOpen(w, scope)
    ensures CandidatesInv(PutLease(w, p, Lease(scope, [], false, false, 0, false, 0)))
  {
    var w' := PutLease(w, p, Lease(scope, [], false, false, 0, false, 0));
    assert forall q | q in w.leases && Settled(w, q) :: Settled(w', q);
    forall q, r | q in w'.leases && r in w'.leases ensures OneCandidate(w', q, r) {
      if q != p && r != p { assert OneCandidate(w, q, r); }
    }
  }

  /** Setting a lease's `active` or `closed` flag. */
  lemma FlagKeepsInv(w: World, p: PoolId, lease: Lease)
    requires Inv(w) && p in w.leases
    requires lease == w.leases[p].(active := lease.active, refresh := lease.refresh, closed := lease.closed)
    requires (w.leases[p].active ==> lease.active) && (w.leases[p].closed ==> lease.closed)
    requires LeaseOk(PutLease(w, p, lease), p)
    ensures Inv(PutLease(w, p, lease))
  {
    var w' := PutLease(w, p, lease);
    OnlyLeaseKeepsPools(w, w', p);
    OnlyLeaseKeepsBackends(w, w', p);
    OnlyLeaseKeepsSlots(w, w', p);
    SameHoldsKeepsRegistry(w, w', p);
    FlagKeepsLeases(w, p, lease);
    CandidatesSurvive(w, w');
  }

  lemma FlagKeepsLeases(w: World, p: PoolId, lease: Lease)
    requires LeasesInv(w) && p in w.leases
    requires lease == w.leases[p].(active := lease.active, refresh := lease.refresh, closed := lease.closed)
    requires (w.leases[p].active ==> lease.active) && (w.leases[p].closed ==> lease.closed)
    requires LeaseOk(PutLease(w, p, lease), p)
    ensures LeasesInv(PutLease(w, p, lease))
    ensures forall q | Settled(w, q) :: Settled(PutLease(w, p, lease), q)
  {
    SameHoldsKeepsLeases(w, PutLease(w, p, lease), p);
  }

  lemma BeginActivateKeepsInv(w: World, p: PoolId, refresh: bool)
    requires Inv(w) && Unactivated(w, p) && |w.leases[p].entries| == |w.pools[p].all|
    ensures Inv(PutLease(w, p, w.leases[p].(active := true, refresh := refresh)))
  {
    assert LeaseOk(w, p);
    FlagKeepsInv(w, p, w.leases[p].(active := true, refresh := refresh));
  }

  lemma BeginCloseKeepsInv(w: World, p: PoolId)
    requires Inv(w) && p in w.leases && !w.leases[p].closed && (w.leases[p].active ==> Full(w, p))
    ensures Inv(PutLease(w, p, w.leases[p].(closed := true)))
  {
    assert LeaseOk(w, p);
    FlagKeepsInv(w, p, w.leases[p].(closed := true));
  }

  // ------------------------------------------------------------ reserving

  predicate Reservable(w: World, p: PoolId) {
    Unactivated(w, p) && |w.leases[p].entries| < |w.pools[p].all|
  }

  lemma OwnKeysDiffer(w: World, p: PoolId, i: nat, j: nat)
    requires BackendsInv(w) && p in w.leases && p in w.pools
    requires i < |w.pools[p].all| && j < |w.pools[p].all| && i != j
    ensures KeyOf(w, p, i) != KeyOf(w, p, j)
  {
    assert UniqueIds(w.pools[p]);
  }

  lemma ReserveIsOnlyLease(w: World, p: PoolId)
    requires Reservable(w, p)
    ensures OnlyLease(w, ReserveEntry(w, p), p)
    ensures forall q | q in w.leases :: ReserveEntry(w, p).leases[q].scope == w.leases[q].scope
    ensures forall q | Full(w, q) :: Full(ReserveEntry(w, p), q)
    ensures forall q | Settled(w, q) :: Settled(ReserveEntry(w, p), q)
  {}

  /** The new reference is one more holder of exactly that identity. */
  lemma ReserveAddsHolder(w: World, p: PoolId, key: Identity)
    requires Reservable(w, p) && LeasesInv(w) && BackendsInv(w)
    ensures var own := KeyOf(w, p, |w.leases[p].entries|);
            && p !in Holders(w, own)
            && Holders(ReserveEntry(w, p), key) == Holders(w, key) + (if key == own then {p} else {})
  {
    var w' := ReserveEntry(w, p);
    var k := |w.leases[p].entries|;
    var own := KeyOf(w, p, k);
    assert LeaseOk(w, p);
    forall i | 0 <= i < k ensures w.leases[p].entries[i].key != own {
      assert EntryOk(w, p, i);
      OwnKeysDiffer(w, p, i, k);
    }
    ReserveHolds(w, p, key);
  }

  lemma ReserveHolds(w: World, p: PoolId, key: Identity)
    requires Reservable(w, p) && w.leases[p].released <= |w.leases[p].entries|
    ensures var own := KeyOf(w, p, |w.leases[p].entries|);
            Holds(ReserveEntry(w, p).leases[p], key) == (Holds(w.leases[p], key) || key == own)
  {
    var w' := ReserveEntry(w, p);
    var k := |w.leases[p].entries|;
    assert w'.leases[p].entries[k].key == KeyOf(w, p, k);
    assert forall i | 0 <= i < k :: w'.leases[p].entries[i] == w.leases[p].entries[i];
  }

  /** Whoever holds an identity keeps it registered, at the state its own entry names. */
  lemma HolderIsRegistered(w: World, t: PoolId, key: Identity)
    requires LeasesInv(w) && t in Holders(w, key)
    ensures key in w.registry && w.registry[key] in w.endpoints
    ensures w.registry[key].pool != t ==> Full(w, w.registry[key].pool)
  {
    var j :| w.leases[t].released <= j < |w.leases[t].entries| && w.leases[t].entries[j].key == key;
    assert EntryOk(w, t, j);
  }

  lemma UnregisteredIsUnheld(w: World, key: Identity)
    requires LeasesInv(w) && key !in w.registry
    ensures Holders(w, key) == {}
  {
    if t :| t in Holders(w, key) {
      HolderIsRegistered(w, t, key);
      assert false;
    }
  }

  /** The next key to reserve is none of the lease's own so far. */
  lemma NoOwnEntry(w: World, p: PoolId)
    requires Inv(w) && Reservable(w, p)
    ensures forall i | 0 <= i < |w.leases[p].entries| :: w.leases[p].entries[i].key != KeyOf(w, p, |w.leases[p].entries|)
  {
    forall i | 0 <= i < |w.leases[p].entries|
      ensures w.leases[p].entries[i].key != KeyOf(w, p, |w.leases[p].entries|)
    {
      assert LeaseOk(w, p) && EntryOk(w, p, i);
      OwnKeysDiffer(w, p, i, |w.leases[p].entries|);
    }
  }

  /** A reused identity is already held by a published generation. */
  lemma ReusedIsPublished(w: World, p: PoolId)
    requires Inv(w) && Reservable(w, p)
    requires KeyOf(w, p, |w.leases[p].entries|) in w.registry
    ensures var s := w.registry[KeyOf(w, p, |w.leases[p].entries|)];
            s in w.endpoints && s.pool != p && Full(w, s.pool)
  {
    var key := KeyOf(w, p, |w.leases[p].entries|);
    var s := w.registry[key];
    var r := s.pool;
    assert KeyOk(w, key) && LeaseOk(w, r) && EntryOk(w, r, s.index);
    NoOwnEntry(w, p);
    assert OneCandidate(w, p, r) && !Settled(w, p);
    var t :| t in Holders(w, key);
    HolderIsRegistered(w, t, key);
  }

  /** States are registered under one identity only. */
  lemma RegistryInjective(w: World, key: Identity, key': Identity)
    requires key in w.registry && key' in w.registry && KeyOk(w, key) && KeyOk(w, key')
    requires w.registry[key] == w.registry[key']
    ensures key == key'
  {}

  lemma ReserveKeepsOldKey(w: World, p: PoolId, key: Identity)
    requires Reservable(w, p) && key in w.registry && KeyOk(w, key)
    requires var own := KeyOf(w, p, |w.leases[p].entries|);
             && Holders(ReserveEntry(w, p), key) == Holders(w, key) + (if key == own then {p} else {})
             && (key == own ==> p !in Holders(w, key))
             && (key != own ==> ReserveEntry(w, p).registry[own] != w.registry[key])
    ensures KeyOk(ReserveEntry(w, p), key)
  {}

  lemma ReserveKeepsNewKey(w: World, p: PoolId)
    requires Reservable(w, p) && KeyOf(w, p, |w.leases[p].entries|) !in w.registry
    requires StateOf(w, p, |w.leases[p].entries|) == StateId(p, |w.leases[p].entries|)
    requires Holders(ReserveEntry(w, p), KeyOf(w, p, |w.leases[p].entries|)) == {p}
    ensures KeyOk(ReserveEntry(w, p), KeyOf(w, p, |w.leases[p].entries|))
  {}

  lemma ReserveKeepsKey(w: World, p: PoolId, key: Identity)
    requires Inv(w) && Reservable(w, p) && key in ReserveEntry(w, p).registry
    ensures KeyOk(ReserveEntry(w, p), key)
  {
    var k := |w.leases[p].entries|;
    var own := KeyOf(w, p, k);
    ReserveAddsHolder(w, p, key);
    assert LeaseOk(w, p) && BackendOk(w, p, k);
    if key !in w.registry {
      UnregisteredIsUnheld(w, own);
      ReserveKeepsNewKey(w, p);
    } else {
      assert KeyOk(w, key);
      if key != own && own in w.registry && w.registry[own] == w.registry[key] {
        RegistryInjective(w, own, key);
        assert false;
      }
      ReserveKeepsOldKey(w, p, key);
    }
  }

  lemma ReserveKeepsOldEntry(w: World, p: PoolId, q: PoolId, i: nat)
    requires Reservable(w, p) && LeaseOk(w, p)
    requires q in w.leases && LeaseOk(w, q) && i < |w.leases[q].entries| && EntryOk(w, q, i)
    ensures EntryOk(ReserveEntry(w, p), q, i)
  {
    ReserveIsOnlyLease(w, p);
    assert ReserveEntry(w, p).leases[q].entries[i] == w.leases[q].entries[i];
  }

  lemma ReserveKeepsEntry(w: World, p: PoolId, q: PoolId, i: nat)
    requires Inv(w) && Reservable(w, p)
    requires q in w.leases && i < |ReserveEntry(w, p).leases[q].entries|
    ensures q in w.pools && |ReserveEntry(w, p).leases[q].entries| <= |w.pools[q].all|
    ensures EntryOk(ReserveEntry(w, p), q, i)
  {
    assert LeaseOk(w, p) && LeaseOk(w, q);
    if q == p && i == |w.leases[p].entries| {
      ReserveNewEntryOk(w, p);
    } else {
      assert EntryOk(w, q, i);
      ReserveKeepsOldEntry(w, p, q, i);
    }
  }

  lemma ReserveNewEntryOk(w: World, p: PoolId)
    requires Inv(w) && Reservable(w, p)
    ensures p in w.pools && |w.leases[p].entries| < |w.pools[p].all|
    ensures EntryOk(ReserveEntry(w, p), p, |w.leases[p].entries|)
  {
    var k := |w.leases[p].entries|;
    assert LeaseOk(w, p) && BackendOk(w, p, k);
    if KeyOf(w, p, k) in w.registry {
      ReusedIsPublished(w, p);
    }
    ReserveIsOnlyLease(w, p);
  }

  lemma ReserveKeepsLeases(w: World, p: PoolId)
    requires Inv(w) && Reservable(w, p)
    ensures LeasesInv(ReserveEntry(w, p)) && RegistryInv(ReserveEntry(w, p))
  {
    var w' := ReserveEntry(w, p);
    forall q | q in w'.leases ensures LeaseOk(w', q) {
      assert LeaseOk(w, q);
    }
    forall q, i | q in w'.leases && 0 <= i < |w'.leases[q].entries| ensures EntryOk(w', q, i) {
      ReserveKeepsEntry(w, p, q, i);
    }
    forall key | key in w'.registry ensures KeyOk(w', key) {
      ReserveKeepsKey(w, p, key);
    }
  }

  lemma ReserveKeepsInv(w: World, p: PoolId)
    requires Inv(w) && Reservable(w, p)
    ensures Inv(ReserveEntry(w, p))
  {
    var w' := ReserveEntry(w, p);
    ReserveIsOnlyLease(w, p);
    OnlyLeaseKeepsPools(w, w', p);
    OnlyLeaseKeepsBackends(w, w', p);
    OnlyLeaseKeepsSlots(w, w', p);
    ReserveKeepsLeases(w, p);
    CandidatesSurvive(w, w');
  }
}
