/** Runs from the empty world that show what the code does not promise. */
module WitnessRuns {
  import opened Common
  import opened Endpoints
  import opened Generations
  import opened GenerationRuns
  import opened Balancers
  import opened EndpointTraces

  ghost predicate Reaches(steps: seq<Step>, w: World) {
    Run(EmptyWorld, steps) && Final(EmptyWorld, steps) == w
  }

  lemma Then(steps: seq<Step>, w: World, st: Step, w': World) returns (more: seq<Step>)
    requires Reaches(steps, w) && Enabled(w, st) && Next(w, st) == w'
    ensures more == steps + [st] && Reaches(more, w')
  {
    more := steps + [st];
    assert [st][1..] == [];
    RunConcat(EmptyWorld, steps, [st]);
  }

  // ------------------------------------------------------------ one backend, published

  const Spec := BackendSpec("a", "http://a", 1, false)
  const Key := Identity("c", "a", "http://a")
  const Here := StateId(0, 0)

  function PoolAt(policy: PassivePolicy, version: nat): Pool {
    Pool([Backend("a", "http://a", 1, Here)], [], policy, 0, version, 0, Free)
  }

  function StateAt(policy: PassivePolicy, owner: Option<PoolId>, healthy: bool): Endpoint {
    Endpoint({0}, owner, false, policy.maxConcurrent, healthy, true, false, 0, 0, 0, 0, 0, multiset{})
  }

  function LeaseAt(active: bool, progress: nat): map<PoolId, Lease> {
    map[0 := Lease("c", [Reservation(Key, Here, false)], active, false, progress, false, 0)]
  }

  const NewLease := map[0 := Lease("c", [], false, false, 0, false, 0)]

  /** Before anything is reserved. */
  function Fresh(policy: PassivePolicy, leases: map<PoolId, Lease>): World {
    World(1, map[Here := StateAt(policy, None, false)], map[0 := PoolAt(policy, 0)], leases, map[], map[], multiset{}, multiset{})
  }

  function Reserved(policy: PassivePolicy, healthy: bool, version: nat, active: bool, pending: multiset<StateId>): World {
    World(1, map[Here := StateAt(policy, None, healthy)], map[0 := PoolAt(policy, version)], LeaseAt(active, 0),
          map[Key := Here], map[Here := 1], pending, multiset{})
  }

  /** Activated: the endpoint is healthy and the pool has yet to build its cache. */
  function Ready(policy: PassivePolicy): World {
    World(1, map[Here := StateAt(policy, Some(0), true)], map[0 := PoolAt(policy, 2)], LeaseAt(true, 1),
          map[Key := Here], map[Here := 1], multiset{}, multiset{})
  }

  lemma Creates(policy: PassivePolicy)
    ensures Enabled(EmptyWorld, CreatePool(0, [Spec], policy))
    ensures Next(EmptyWorld, CreatePool(0, [Spec], policy)) == Fresh(policy, map[])
  {
    var w := Next(EmptyWorld, CreatePool(0, [Spec], policy));
    assert w.endpoints == map[Here := StateAt(policy, None, false)];
    assert NewBackends(0, [Spec]) == [Backend("a", "http://a", 1, Here)];
  }

  lemma Opens(policy: PassivePolicy)
    ensures Enabled(Fresh(policy, map[]), OpenLease(0, "c"))
    ensures Next(Fresh(policy, map[]), OpenLease(0, "c")) == Fresh(policy, NewLease)
  {}

  lemma Reserves(policy: PassivePolicy)
    ensures Enabled(Fresh(policy, NewLease), ReserveNext(0))
    ensures ReserveEntry(Fresh(policy, NewLease), 0) == Reserved(policy, false, 0, false, multiset{})
  {
    var w := Fresh(policy, NewLease);
    assert KeyOf(w, 0, 0) == Key;
    assert [] + [Reservation(Key, Here, false)] == [Reservation(Key, Here, false)];
  }

  lemma MarksAlive(policy: PassivePolicy)
    ensures Enabled(Reserved(policy, false, 0, false, multiset{}), OnBackend(0, 0, MarkAlive))
    ensures Acted(Reserved(policy, false, 0, false, multiset{}), 0, 0, MarkAlive) == Reserved(policy, true, 0, false, multiset{Here})
  {
    assert multiset{} + multiset{Here} == multiset{Here};
  }

  lemma Flushes(policy: PassivePolicy)
    ensures Enabled(Reserved(policy, true, 0, false, multiset{Here}), Flush(Here))
    ensures Flushed(Reserved(policy, true, 0, false, multiset{Here}), Here) == Reserved(policy, true, 1, false, multiset{})
  {
    assert multiset{Here} - multiset{Here} == multiset{};
  }

  lemma BeginsActivation(policy: PassivePolicy)
    ensures Enabled(Reserved(policy, true, 1, false, multiset{}), BeginActivate(0, false))
    ensures Next(Reserved(policy, true, 1, false, multiset{}), BeginActivate(0, false)) == Reserved(policy, true, 1, true, multiset{})
  {}

  lemma Activates(policy: PassivePolicy)
    ensures Enabled(Reserved(policy, true, 1, true, multiset{}), ActivateNext(0))
    ensures ActivateEntry(Reserved(policy, true, 1, true, multiset{}), 0) == Ready(policy)
  {
    var w := Reserved(policy, true, 1, true, multiset{});
    assert {0} + {0} == {0};
    assert ActivationEvent(w, 0) == Activate(0, false, true, false, policy.maxConcurrent);
    assert Apply(w.endpoints[Here], ActivationEvent(w, 0), 1) == StateAt(policy, Some(0), true);
    assert Repoint(w.pools[0], 0, Here) == w.pools[0];
  }

  /** A pool of one backend can be built, warmed and published. */
  lemma ReadyIsReachable(policy: PassivePolicy) returns (steps: seq<Step>)
    ensures Reaches(steps, Ready(policy))
  {
    steps := [];
    Creates(policy);
    steps := Then(steps, EmptyWorld, CreatePool(0, [Spec], policy), Fresh(policy, map[]));
    Opens(policy);
    steps := Then(steps, Fresh(policy, map[]), OpenLease(0, "c"), Fresh(policy, NewLease));
    Reserves(policy);
    steps := Then(steps, Fresh(policy, NewLease), ReserveNext(0), Reserved(policy, false, 0, false, multiset{}));
    MarksAlive(policy);
    steps := Then(steps, Reserved(policy, false, 0, false, multiset{}), OnBackend(0, 0, MarkAlive),
                  Reserved(policy, true, 0, false, multiset{Here}));
    Flushes(policy);
    steps := Then(steps, Reserved(policy, true, 0, false, multiset{Here}), Flush(Here),
                  Reserved(policy, true, 1, false, multiset{}));
    BeginsActivation(policy);
    steps := Then(steps, Reserved(policy, true, 1, false, multiset{}), BeginActivate(0, false),
                  Reserved(policy, true, 1, true, multiset{}));
    Activates(policy);
    steps := Then(steps, Reserved(policy, true, 1, true, multiset{}), ActivateNext(0), Ready(policy));
  }

  // ------------------------------------------------------------ a reader that misses a backend

  /** Ejected by its first failure, for four units of time. */
  const Strict := PassivePolicy(1, 4, 8)

  function Ejected(clock: int, pool: Pool, pending: multiset<StateId>): World {
    Ready(Strict).(clock := clock,
                   endpoints := map[Here := StateAt(Strict, Some(0), false).(passiveFailures := 1, ejectedUntil := 5)],
                   pools := map[0 := pool], pending := pending)
  }

  /** The pool once the failure has been flushed and while its cache is rebuilt. */
  function Waiting(cacheVersion: nat, section: Section): Pool {
    Pool([Backend("a", "http://a", 1, Here)], [], Strict, 5, 3, cacheVersion, section)
  }

  lemma Fails()
    ensures Enabled(Ready(Strict), OnBackend(0, 0, PassiveFailure))
    ensures Acted(Ready(Strict), 0, 0, PassiveFailure) == Ejected(1, PoolAt(Strict, 2), multiset{Here})
  {
    assert multiset{} + multiset{Here} == multiset{Here};
    assert Apply(StateAt(Strict, Some(0), true), Fail(Strict), 1)
        == StateAt(Strict, Some(0), false).(passiveFailures := 1, ejectedUntil := 5);
  }

  lemma FlushesEjection()
    ensures Enabled(Ejected(1, PoolAt(Strict, 2), multiset{Here}), Flush(Here))
    ensures Flushed(Ejected(1, PoolAt(Strict, 2), multiset{Here}), Here) == Ejected(1, Waiting(0, Free), multiset{})
  {
    assert multiset{Here} - multiset{Here} == multiset{};
  }

  lemma Rebuilds()
    ensures var w := Ejected(1, Waiting(0, Free), multiset{});
            Enabled(w, OnPool(0, BeginScan)) && Next(w, OnPool(0, BeginScan)) == Ejected(1, Waiting(0, Scanning(3, 0, [])), multiset{})
    ensures var w := Ejected(1, Waiting(0, Scanning(3, 0, [])), multiset{});
            Enabled(w, OnPool(0, Scan)) && Next(w, OnPool(0, Scan)) == Ejected(1, Waiting(0, Scanning(3, 1, [])), multiset{})
  {}

  lemma Seals()
    ensures var w := Ejected(1, Waiting(0, Scanning(3, 1, [])), multiset{});
            Enabled(w, OnPool(0, Publish)) && Next(w, OnPool(0, Publish)) == Ejected(1, Waiting(0, Publishing(3)), multiset{})
    ensures var w := Ejected(1, Waiting(0, Publishing(3)), multiset{});
            Enabled(w, OnPool(0, Seal)) && Next(w, OnPool(0, Seal)) == Ejected(1, Waiting(3, Free), multiset{})
  {}

  /** The deadline is due; a goroutine takes the mutex and clears it. */
  const Clearing := Waiting(3, Recovering(5, 0, 0, false)).(nextRecovery := 0)

  lemma ClearsDeadline()
    ensures var w := Ejected(1, Waiting(3, Free), multiset{});
            Enabled(w, Tick(5)) && Next(w, Tick(5)) == Ejected(5, Waiting(3, Free), multiset{})
    ensures var w := Ejected(5, Waiting(3, Free), multiset{});
            Enabled(w, OnPool(0, BeginRecover(5))) && Next(w, OnPool(0, BeginRecover(5))) == Ejected(5, Clearing, multiset{})
  {}

  lemma WaitingIsReachable() returns (steps: seq<Step>)
    ensures Reaches(steps, Ejected(1, Waiting(3, Free), multiset{}))
  {
    steps := ReadyIsReachable(Strict);
    Fails();
    steps := Then(steps, Ready(Strict), OnBackend(0, 0, PassiveFailure), Ejected(1, PoolAt(Strict, 2), multiset{Here}));
    FlushesEjection();
    steps := Then(steps, Ejected(1, PoolAt(Strict, 2), multiset{Here}), Flush(Here), Ejected(1, Waiting(0, Free), multiset{}));
    Rebuilds();
    Seals();
    steps := Then(steps, Ejected(1, Waiting(0, Free), multiset{}), OnPool(0, BeginScan), Ejected(1, Waiting(0, Scanning(3, 0, [])), multiset{}));
    steps := Then(steps, Ejected(1, Waiting(0, Scanning(3, 0, [])), multiset{}), OnPool(0, Scan), Ejected(1, Waiting(0, Scanning(3, 1, [])), multiset{}));
    steps := Then(steps, Ejected(1, Waiting(0, Scanning(3, 1, [])), multiset{}), OnPool(0, Publish), Ejected(1, Waiting(0, Publishing(3)), multiset{}));
    steps := Then(steps, Ejected(1, Waiting(0, Publishing(3)), multiset{}), OnPool(0, Seal), Ejected(1, Waiting(3, Free), multiset{}));
  }

  /**
   A reachable state in which a reader without the mutex finds no deadline and a current cache, and reads a
   list without the one backend that is eligible, although no change is in progress.
   */
  lemma ReaderMissesOverdueBackend() returns (steps: seq<Step>)
    ensures Run(EmptyWorld, steps)
    ensures var w := Final(EmptyWorld, steps);
            && Full(w, 0) && !w.leases[0].closed && Quiet(w, 0) && w.pending == multiset{}
            && w.pools[0].nextRecovery == 0 && w.pools[0].cacheVersion == w.pools[0].stateVersion
            && w.pools[0].available == [] && EligibleBelow(w, 0, |w.pools[0].all|, w.clock) == [0]
  {
    steps := WaitingIsReachable();
    ClearsDeadline();
    steps := Then(steps, Ejected(1, Waiting(3, Free), multiset{}), Tick(5), Ejected(5, Waiting(3, Free), multiset{}));
    steps := Then(steps, Ejected(5, Waiting(3, Free), multiset{}), OnPool(0, BeginRecover(5)), Ejected(5, Clearing, multiset{}));
    var w := Ejected(5, Clearing, multiset{});
    assert EligibleAt(w, 0, 0, 5);
    assert EligibleBelow(w, 0, 1, 5) == EligibleBelow(w, 0, 0, 5) + [0];
  }

  // ------------------------------------------------------------ an ejection that ends early

  /** The first generation ejects for one unit of time, the second for sixty. */
  const Brief := PassivePolicy(1, 1, 8)
  const Long := PassivePolicy(1, 60, 8)
  const There := StateId(1, 0)
  const Mine := Slot(0, 0)

  function Second(state: StateId, next: int, version: nat, section: Section): Pool {
    Pool([Backend("a", "http://a", 1, state)], [], Long, next, version, 0, section)
  }

  function First(next: int, version: nat): Pool {
    PoolAt(Brief, version).(nextRecovery := next)
  }

  function SecondLease(active: bool, progress: nat): Lease {
    Lease("c", [Reservation(Key, Here, true)], active, false, progress, false, 0)
  }

  /** The shared endpoint, used by one request of the first generation. */
  function Shared(pools: set<PoolId>, owner: PoolId): Endpoint {
    StateAt(Brief, Some(owner), true).(pools := pools, inflight := 1, holders := multiset{Mine})
  }

  /** Ejected `failures` times so far, until `until`. */
  function Down(failures: int, until: int): Endpoint {
    Shared({0, 1}, 1).(healthy := false, passiveFailures := failures, ejectedUntil := until)
  }

  function Both(clock: int, e: Endpoint, first: Pool, second: Pool, leases: map<PoolId, Lease>, refs: nat,
                pending: multiset<StateId>, granted: multiset<Slot>): World
  {
    World(clock, map[Here := e, There := NewEndpoint(1, Spec, Long)], map[0 := first, 1 := second],
          LeaseAt(true, 1) + leases, map[Key := Here], map[Here := refs], pending, granted)
  }

  lemma BothTouched(clock: int, e: Endpoint, first: Pool, second: Pool, leases: map<PoolId, Lease>, refs: nat,
                    pending: multiset<StateId>, granted: multiset<Slot>, ev: Event)
    ensures Touch(Both(clock, e, first, second, leases, refs, pending, granted), Here, ev) ==
            Both(clock, Apply(e, ev, clock), first, second, leases, refs,
                 if Bumps(e, ev, clock) then pending + multiset{Here} else pending, granted)
  {
    var w := Both(clock, e, first, second, leases, refs, pending, granted);
    assert w.endpoints[Here := Apply(e, ev, clock)] == map[Here := Apply(e, ev, clock), There := NewEndpoint(1, Spec, Long)];
  }

  lemma BothInvalidated(clock: int, e: Endpoint, first: Pool, second: Pool, leases: map<PoolId, Lease>, refs: nat,
                        pending: multiset<StateId>, granted: multiset<Slot>)
    requires e.pools == {0, 1}
    ensures Invalidate(Both(clock, e, first, second, leases, refs, pending, granted), Here) ==
            Both(clock, e, Invalidated(first, e.ejectedUntil), Invalidated(second, e.ejectedUntil), leases, refs, pending, granted)
  {
    var w := Both(clock, e, first, second, leases, refs, pending, granted);
    assert Invalidate(w, Here).pools == map[0 := Invalidated(first, e.ejectedUntil), 1 := Invalidated(second, e.ejectedUntil)];
  }

  lemma BothSwapped(clock: int, e: Endpoint, first: Pool, second: Pool, lease: Lease, refs: nat,
                    pending: multiset<StateId>, granted: multiset<Slot>, e': Endpoint, second': Pool, lease': Lease)
    ensures var w := Both(clock, e, first, second, map[1 := lease], refs, pending, granted);
            w.(endpoints := w.endpoints[Here := e'], pools := w.pools[1 := second'], leases := w.leases[1 := lease'])
            == Both(clock, e', first, second', map[1 := lease'], refs, pending, granted)
  {
    var w := Both(clock, e, first, second, map[1 := lease], refs, pending, granted);
    assert w.endpoints[Here := e'] == map[Here := e', There := NewEndpoint(1, Spec, Long)];
    assert w.pools[1 := second'] == map[0 := first, 1 := second'];
    assert w.leases[1 := lease'] == LeaseAt(true, 1) + map[1 := lease'];
  }

  const Used := Ready(Brief).(endpoints := map[Here := Shared({0}, 0)], granted := multiset{Mine})

  /** The second pool exists, and then holds an empty lease, a reservation, and an active lease. */
  function Joining(leases: map<PoolId, Lease>, refs: nat): World {
    Both(1, Shared({0}, 0), First(0, 2), Second(There, 0, 0, Free), leases, refs, multiset{}, multiset{Mine})
  }

  const Opened := map[1 := Lease("c", [], false, false, 0, false, 0)]

  function Joined(clock: int, e: Endpoint, next: int, version: nat, section: Section, cleared: int,
                  pending: multiset<StateId>, granted: multiset<Slot>): World
  {
    Both(clock, e, First(next, version + 2), Second(Here, cleared, version, section),
         map[1 := SecondLease(true, 1)], 2, pending, granted)
  }

  lemma Uses()
    ensures Enabled(Ready(Brief), OnBackend(0, 0, TryAcquire)) && Acted(Ready(Brief), 0, 0, TryAcquire) == Used
  {
    assert multiset{} + multiset{Mine} == multiset{Mine};
  }

  lemma SecondEndpoint()
    ensures CreatedPool(Used, 1, [Spec], Long).endpoints == map[Here := Shared({0}, 0), There := NewEndpoint(1, Spec, Long)]
  {}

  lemma CreatesSecond()
    ensures Enabled(Used, CreatePool(1, [Spec], Long)) && CreatedPool(Used, 1, [Spec], Long) == Joining(map[], 1)
  {
    SecondEndpoint();
    assert NewBackends(1, [Spec]) == [Backend("a", "http://a", 1, There)];
    assert LeaseAt(true, 1) + map[] == LeaseAt(true, 1);
  }

  lemma OpensSecond()
    ensures Enabled(Joining(map[], 1), OpenLease(1, "c")) && Next(Joining(map[], 1), OpenLease(1, "c")) == Joining(Opened, 1)
  {
    assert LeaseAt(true, 1) + map[] == LeaseAt(true, 1);
    assert Full(Joining(map[], 1), 0);
  }

  lemma ReservesSecond()
    ensures Enabled(Joining(Opened, 1), ReserveNext(1))
    ensures ReserveEntry(Joining(Opened, 1), 1) == Joining(map[1 := SecondLease(false, 0)], 2)
  {
    assert KeyOf(Joining(Opened, 1), 1, 0) == Key;
    assert [] + [Reservation(Key, Here, true)] == [Reservation(Key, Here, true)];
  }

  lemma BeginsSecond()
    ensures var w := Joining(map[1 := SecondLease(false, 0)], 2);
            Enabled(w, BeginActivate(1, false)) && Next(w, BeginActivate(1, false)) == Joining(map[1 := SecondLease(true, 0)], 2)
  {}

  const Turning := Joining(map[1 := SecondLease(true, 0)], 2)
  const Turned := Joined(1, Shared({0, 1}, 1), 0, 1, Free, 0, multiset{}, multiset{Mine})

  lemma SecondActivation()
    ensures ActivateEnabled(Turning, 1) && ActivationEvent(Turning, 1) == Activate(1, false, false, false, 8)
    ensures Apply(Shared({0}, 0), Activate(1, false, false, false, 8), 1) == Shared({0, 1}, 1)
    ensures Repoint(Turning.pools[1], 0, Here) == Second(Here, 0, 0, Free)
  {
    assert {0} + {1} == {0, 1};
  }

  lemma ActivatesSecond()
    ensures Enabled(Turning, ActivateNext(1)) && ActivateEntry(Turning, 1) == Turned
  {
    SecondActivation();
    BothSwapped(1, Shared({0}, 0), First(0, 2), Second(There, 0, 0, Free), SecondLease(true, 0), 2, multiset{}, multiset{Mine},
                Shared({0, 1}, 1), Second(Here, 0, 0, Free), SecondLease(true, 1));
    BothInvalidated(1, Shared({0, 1}, 1), First(0, 2), Second(Here, 0, 0, Free), map[1 := SecondLease(true, 1)], 2,
                    multiset{}, multiset{Mine});
    ActivationUnfolds(Turning, SecondLease(true, 0), Shared({0, 1}, 1), Second(Here, 0, 0, Free));
  }

  lemma ActivationUnfolds(w: World, lease: Lease, e': Endpoint, second: Pool)
    requires ActivateEnabled(w, 1) && w.leases[1] == lease && lease == SecondLease(true, 0)
    requires Apply(w.endpoints[Here], ActivationEvent(w, 1), w.clock) == e' && Repoint(w.pools[1], 0, Here) == second
    ensures ActivateEntry(w, 1) ==
            Invalidate(w.(endpoints := w.endpoints[Here := e'], pools := w.pools[1 := second],
                          leases := w.leases[1 := SecondLease(true, 1)]), Here)
  {}

  function Failing(e: Endpoint, pending: multiset<StateId>): World {
    Joined(100, e, 0, 1, Free, 0, pending, multiset{Mine})
  }

  lemma FailureEffects()
    ensures Apply(Shared({0, 1}, 1), Fail(Long), 100) == Down(1, 160) && Bumps(Shared({0, 1}, 1), Fail(Long), 100)
    ensures Apply(Down(1, 160), Fail(Brief), 100) == Down(2, 101) && Bumps(Down(1, 160), Fail(Brief), 100)
  {}

  lemma FailsThroughSecond()
    ensures var w := Failing(Shared({0, 1}, 1), multiset{});
            Enabled(w, OnBackend(1, 0, PassiveFailure)) && Acted(w, 1, 0, PassiveFailure) == Failing(Down(1, 160), multiset{Here})
  {
    FailureEffects();
    BothTouched(100, Shared({0, 1}, 1), First(0, 3), Second(Here, 0, 1, Free), map[1 := SecondLease(true, 1)], 2,
                multiset{}, multiset{Mine}, Fail(Long));
    assert multiset{} + multiset{Here} == multiset{Here};
  }

  lemma FailsThroughFirst()
    ensures var w := Failing(Down(1, 160), multiset{Here});
            Enabled(w, OnBackend(0, 0, PassiveFailure)) && Acted(w, 0, 0, PassiveFailure) == Failing(Down(2, 101), multiset{Here, Here})
  {
    FailureEffects();
    BothTouched(100, Down(1, 160), First(0, 3), Second(Here, 0, 1, Free), map[1 := SecondLease(true, 1)], 2,
                multiset{Here}, multiset{Mine}, Fail(Brief));
    assert multiset{Here} + multiset{Here} == multiset{Here, Here};
  }

  lemma FlushesOne()
    ensures var w := Failing(Down(2, 101), multiset{Here, Here});
            Enabled(w, Flush(Here))
            && Flushed(w, Here) == Joined(100, Down(2, 101), 101, 2, Free, 101, multiset{Here}, multiset{Mine})
  {
    BothInvalidated(100, Down(2, 101), First(0, 3), Second(Here, 0, 1, Free), map[1 := SecondLease(true, 1)], 2,
                    multiset{Here}, multiset{Mine});
    assert multiset{Here, Here} - multiset{Here} == multiset{Here};
  }

  lemma BeginsRecovery()
    ensures var w := Joined(101, Down(2, 101), 101, 2, Free, 101, multiset{Here}, multiset{Mine});
            Enabled(w, OnPool(1, BeginRecover(101))) && Next(w, OnPool(1, BeginRecover(101)))
            == Joined(101, Down(2, 101), 101, 2, Recovering(101, 0, 0, false), 0, multiset{Here}, multiset{Mine})
  {}

  lemma RecoversEarly()
    ensures var w := Joined(101, Down(2, 101), 101, 2, Recovering(101, 0, 0, false), 0, multiset{Here}, multiset{Mine});
            Enabled(w, Settle(1)) && SettleEntry(w, 1)
            == Joined(101, Shared({0, 1}, 1), 101, 3, Recovering(101, 0, 0, true), 0, multiset{Here}, multiset{Mine})
  {
    assert Apply(Down(2, 101), Recover(101), 101) == Shared({0, 1}, 1);
    BothSwapped(101, Down(2, 101), First(101, 4), Second(Here, 0, 2, Recovering(101, 0, 0, false)), SecondLease(true, 1), 2,
                multiset{Here}, multiset{Mine}, Shared({0, 1}, 1), Second(Here, 0, 2, Recovering(101, 0, 0, true)), SecondLease(true, 1));
    BothInvalidated(101, Shared({0, 1}, 1), First(101, 4), Second(Here, 0, 2, Recovering(101, 0, 0, true)),
                    map[1 := SecondLease(true, 1)], 2, multiset{Here}, multiset{Mine});
  }

  lemma GrantsEarly()
    ensures var w := Joined(101, Shared({0, 1}, 1), 101, 3, Recovering(101, 0, 0, true), 0, multiset{Here}, multiset{Mine});
            Enabled(w, OnBackend(1, 0, TryAcquire))
            && Acted(w, 1, 0, TryAcquire).granted == multiset{Mine} + multiset{Slot(1, 0)}
  {}

  lemma JoinedIsReachable() returns (steps: seq<Step>)
    ensures Reaches(steps, Turned)
  {
    steps := ReadyIsReachable(Brief);
    Uses();
    steps := Then(steps, Ready(Brief), OnBackend(0, 0, TryAcquire), Used);
    CreatesSecond();
    steps := Then(steps, Used, CreatePool(1, [Spec], Long), Joining(map[], 1));
    OpensSecond();
    steps := Then(steps, Joining(map[], 1), OpenLease(1, "c"), Joining(Opened, 1));
    ReservesSecond();
    steps := Then(steps, Joining(Opened, 1), ReserveNext(1), Joining(map[1 := SecondLease(false, 0)], 2));
    BeginsSecond();
    steps := Then(steps, Joining(map[1 := SecondLease(false, 0)], 2), BeginActivate(1, false), Joining(map[1 := SecondLease(true, 0)], 2));
    ActivatesSecond();
    steps := Then(steps, Turning, ActivateNext(1), Turned);
  }

  /** From the first failure, which ejects until 160, to the recovery at 101. */
  lemma EndsEarly(before: seq<Step>) returns (after: seq<Step>)
    requires Reaches(before, Failing(Down(1, 160), multiset{Here}))
    ensures before <= after
    ensures Reaches(after, Joined(101, Shared({0, 1}, 1), 101, 3, Recovering(101, 0, 0, true), 0, multiset{Here}, multiset{Mine}))
  {
    FailsThroughFirst();
    after := Then(before, Failing(Down(1, 160), multiset{Here}), OnBackend(0, 0, PassiveFailure),
                  Failing(Down(2, 101), multiset{Here, Here}));
    FlushesOne();
    after := Then(after, Failing(Down(2, 101), multiset{Here, Here}), Flush(Here),
                  Joined(100, Down(2, 101), 101, 2, Free, 101, multiset{Here}, multiset{Mine}));
    after := Then(after, Joined(100, Down(2, 101), 101, 2, Free, 101, multiset{Here}, multiset{Mine}), Tick(101),
                  Joined(101, Down(2, 101), 101, 2, Free, 101, multiset{Here}, multiset{Mine}));
    BeginsRecovery();
    after := Then(after, Joined(101, Down(2, 101), 101, 2, Free, 101, multiset{Here}, multiset{Mine}), OnPool(1, BeginRecover(101)),
                  Joined(101, Down(2, 101), 101, 2, Recovering(101, 0, 0, false), 0, multiset{Here}, multiset{Mine}));
    RecoversEarly();
    after := Then(after, Joined(101, Down(2, 101), 101, 2, Recovering(101, 0, 0, false), 0, multiset{Here}, multiset{Mine}), Settle(1),
                  Joined(101, Shared({0, 1}, 1), 101, 3, Recovering(101, 0, 0, true), 0, multiset{Here}, multiset{Mine}));
  }

  lemma LongEjectionIsReachable() returns (steps: seq<Step>)
    ensures Reaches(steps, Failing(Down(1, 160), multiset{Here}))
  {
    steps := JoinedIsReachable();
    steps := Then(steps, Turned, Tick(100), Failing(Shared({0, 1}, 1), multiset{}));
    FailsThroughSecond();
    steps := Then(steps, Failing(Shared({0, 1}, 1), multiset{}), OnBackend(1, 0, PassiveFailure), Failing(Down(1, 160), multiset{Here}));
  }

  /**
   An ejection that a failure through an older generation cuts short: at time 100 the endpoint is ejected
   until 160, and at time 101 a slot on it is granted.
   */
  lemma CooldownCanBeCutShort() returns (before: seq<Step>, after: seq<Step>)
    ensures Run(EmptyWorld, before) && Run(EmptyWorld, after) && before < after
    ensures var w := Final(EmptyWorld, before); w.clock == 100 && Here in w.endpoints && Cooling(w.endpoints[Here], 160)
    ensures after[|after| - 1] == OnBackend(1, 0, TryAcquire)
    ensures var w := Final(EmptyWorld, after); w.clock == 101 && w.granted == Final(EmptyWorld, before).granted + multiset{Slot(1, 0)}
  {
    before := LongEjectionIsReachable();
    after := EndsEarly(before);
    GrantsEarly();
    var w := Joined(101, Shared({0, 1}, 1), 101, 3, Recovering(101, 0, 0, true), 0, multiset{Here}, multiset{Mine});
    after := Then(after, w, OnBackend(1, 0, TryAcquire), Acted(w, 1, 0, TryAcquire));
  }
}
