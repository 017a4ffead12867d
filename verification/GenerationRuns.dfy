/** What holds over whole runs of the gateway, whatever the goroutines and their interleaving. */
module GenerationRuns {
  import opened Common
  import opened Endpoints
  import opened EndpointTraces
  import opened Generations
  import opened CalmSteps
  import opened LeaseSteps
  import opened ReleaseSteps
  import opened SwapSteps

  /** A step of traffic, probing, operation or cache upkeep. */
  predicate Traffic(st: Step) {
    st.Tick? || st.OnBackend? || st.Flush? || st.OnPool? || st.Settle?
  }

  lemma TrafficKeepsInv(w: World, st: Step)
    requires Inv(w) && Enabled(w, st)
    requires Traffic(st)
    ensures Inv(Next(w, st))
  {
    match st
    case Tick(now) => TickKeepsInv(w, now);
    case OnBackend(p, i, action) => BackendStepKeepsInv(w, p, i, action);
    case Flush(s) => FlushKeepsInv(w, s);
    case OnPool(p, move) => MoveKeepsInv(w, p, move);
    case Settle(p) => SettleKeepsInv(w, p);
  }

  /** A step of building, publishing or closing a generation. */
  lemma ConfigurationKeepsInv(w: World, st: Step)
    requires Inv(w) && Enabled(w, st)
    requires !Traffic(st)
    ensures Inv(Next(w, st))
  {
    match st
    case CreatePool(p, specs, policy) => CreateKeepsInv(w, p, specs, policy);
    case OpenLease(p, scope) => OpenLeaseKeepsInv(w, p, scope);
    case ReserveNext(p) => ReserveKeepsInv(w, p);
    case BeginActivate(p, refresh) => BeginActivateKeepsInv(w, p, refresh);
    case ActivateNext(p) => ActivateKeepsInv(w, p);
    case BeginClose(p) => BeginCloseKeepsInv(w, p);
    case CloseNext(p) => ReleaseKeepsInv(w, p);
  }

  /** Every step keeps the invariant. */
  lemma StepKeepsInv(w: World, st: Step)
    requires Inv(w) && Enabled(w, st)
    ensures Inv(Next(w, st))
  {
    if Traffic(st) {
      TrafficKeepsInv(w, st);
    } else {
      ConfigurationKeepsInv(w, st);
    }
  }

  predicate Run(w: World, steps: seq<Step>)
    decreases |steps|
  {
    steps == [] || (Enabled(w, steps[0]) && Run(Next(w, steps[0]), steps[1..]))
  }

  function Final(w: World, steps: seq<Step>): World
    requires Run(w, steps)
    decreases |steps|
  {
    if steps == [] then w else Final(Next(w, steps[0]), steps[1..])
  }

  lemma {:induction false} RunKeepsInv(w: World, steps: seq<Step>)
    requires Inv(w) && Run(w, steps)
    ensures Inv(Final(w, steps))
    decreases |steps|
  {
    if steps != [] {
      StepKeepsInv(w, steps[0]);
      RunKeepsInv(Next(w, steps[0]), steps[1..]);
    }
  }

  /** Every reachable state satisfies the invariant. */
  lemma ReachableInv(steps: seq<Step>)
    requires Run(EmptyWorld, steps)
    ensures Inv(Final(EmptyWorld, steps))
  {
    assert Inv(EmptyWorld);
    RunKeepsInv(EmptyWorld, steps);
  }

  lemma {:induction false} RunConcat(w: World, steps: seq<Step>, more: seq<Step>)
    requires Run(w, steps) && Run(Final(w, steps), more)
    ensures Run(w, steps + more) && Final(w, steps + more) == Final(Final(w, steps), more)
    decreases |steps|
  {
    if steps == [] {
      assert steps + more == more;
    } else {
      assert (steps + more)[0] == steps[0] && (steps + more)[1..] == steps[1..] + more;
      RunConcat(Next(w, steps[0]), steps[1..], more);
    }
  }

  // ------------------------------------------------------------ slots

  /**
   In every reachable state the shared count equals the slots that requests of all generations hold on
   backends pointing at that state: no slot is lost, counted twice, or counted elsewhere.
   */
  lemma InflightConserved(steps: seq<Step>, s: StateId, slot: Slot)
    requires Run(EmptyWorld, steps) && s in Final(EmptyWorld, steps).endpoints
    ensures var w := Final(EmptyWorld, steps);
            var e := w.endpoints[s];
            && e.inflight == |e.holders|
            && e.holders[slot] ==
               (if At(w, slot.pool, slot.index) && StateOf(w, slot.pool, slot.index) == s then w.granted[slot] else 0)
  {
    ReachableInv(steps);
    var w := Final(EmptyWorld, steps);
    assert EndpointOk(w, s) && HolderOk(w, s, slot) && SlotOk(w, slot);
    if slot in w.granted {
      assert HolderOk(w, StateOf(w, slot.pool, slot.index), slot);
    }
  }

  /** A grant obeys the limit of the pool activated last, and a returned slot is always one that is counted. */
  lemma GrantsWithinLatestLimit(steps: seq<Step>, p: PoolId, i: nat)
    requires Run(EmptyWorld, steps)
    requires ActionEnabled(Final(EmptyWorld, steps), p, i, TryAcquire)
    ensures var w := Final(EmptyWorld, steps);
            var s := StateOf(w, p, i);
            var w' := Next(w, OnBackend(p, i, TryAcquire));
            && w.endpoints[s].healthOwner.Some?
            && w.endpoints[s].healthOwner.value in w.pools
            && (w'.granted != w.granted ==>
                  && w.endpoints[s].IsAlive(w.clock)
                  && w'.endpoints[s].inflight <=
                     Max(1, w.pools[w.endpoints[s].healthOwner.value].policy.maxConcurrent))
  {
    ReachableInv(steps);
    var w := Final(EmptyWorld, steps);
    var s := StateOf(w, p, i);
    assert EndpointOk(w, s);
    PublishedIsOwned(w, p, i);
    GrantRespectsLimit(w.endpoints[s], Slot(p, i), w.clock);
  }

  lemma PublishedIsOwned(w: World, p: PoolId, i: nat)
    requires Inv(w) && Published(w, p, i)
    ensures w.endpoints[StateOf(w, p, i)].healthOwner.Some?
  {
    assert BackendOk(w, p, i);
  }

  /** The clamp in `Release` never fires in any run. */
  lemma ReleasesNeverClamp(steps: seq<Step>, p: PoolId, i: nat)
    requires Run(EmptyWorld, steps)
    requires ActionEnabled(Final(EmptyWorld, steps), p, i, GiveBack)
    ensures var w := Final(EmptyWorld, steps);
            Acted(w, p, i, GiveBack).endpoints[StateOf(w, p, i)].inflight
            == w.endpoints[StateOf(w, p, i)].inflight - 1 >= 0
  {
    ReachableInv(steps);
    GiveBackCountsDown(Final(EmptyWorld, steps), p, i);
  }

  lemma GiveBackCountsDown(w: World, p: PoolId, i: nat)
    requires EndpointsInv(w) && SlotsInv(w) && ActionEnabled(w, p, i, GiveBack)
    ensures Acted(w, p, i, GiveBack).endpoints[StateOf(w, p, i)].inflight
            == w.endpoints[StateOf(w, p, i)].inflight - 1 >= 0
  {
    assert EndpointOk(w, StateOf(w, p, i)) && SlotOk(w, Slot(p, i));
    ReleaseNeverClamps(w.endpoints[StateOf(w, p, i)], Slot(p, i));
  }

  // ------------------------------------------------------------ registry

  /** An identity is registered exactly while an open lease names it, with one reference per such lease. */
  lemma RegistryCountsOpenLeases(steps: seq<Step>, key: Identity)
    requires Run(EmptyWorld, steps)
    ensures var w := Final(EmptyWorld, steps);
            && (key in w.registry <==> Holders(w, key) != {})
            && (key in w.registry ==> Refs(w, w.registry[key]) == |Holders(w, key)|)
  {
    ReachableInv(steps);
    var w := Final(EmptyWorld, steps);
    if key in w.registry {
      assert KeyOk(w, key);
    } else {
      UnregisteredIsUnheld(w, key);
    }
  }

  /** All open, activated leases for one identity use one state, and that state lists each of their pools. */
  lemma OneStatePerIdentity(steps: seq<Step>, key: Identity, p: PoolId, i: nat)
    requires Run(EmptyWorld, steps)
    requires var w := Final(EmptyWorld, steps);
             p in w.leases && w.leases[p].released <= i < |w.leases[p].entries| && w.leases[p].entries[i].key == key
             && Full(w, p)
    ensures var w := Final(EmptyWorld, steps);
            && key in w.registry && At(w, p, i)
            && StateOf(w, p, i) == w.registry[key]
            && w.registry[key] in w.endpoints && p in w.endpoints[w.registry[key]].pools
  {
    ReachableInv(steps);
    var w := Final(EmptyWorld, steps);
    assert LeaseOk(w, p) && EntryOk(w, p, i);
  }

  predicate Grown(l: Lease, l': Lease) {
    l.entries <= l'.entries && l.released <= l'.released
  }

  /** Leases only ever grow, and what an entry names never changes. */
  lemma StepKeepsEntries(w: World, st: Step, p: PoolId)
    requires Enabled(w, st) && p in w.leases
    ensures p in Next(w, st).leases && Grown(w.leases[p], Next(w, st).leases[p])
  {
    match st
    case OpenLease(q, scope) =>
    case ReserveNext(q) => ReserveGrows(w, q, p);
    case BeginActivate(q, refresh) =>
    case ActivateNext(q) => ActivationGrows(w, q, p);
    case BeginClose(q) =>
    case CloseNext(q) =>
    case _ => assert Next(w, st).leases == w.leases;
  }

  lemma ReserveGrows(w: World, q: PoolId, p: PoolId)
    requires Reservable(w, q) && p in w.leases
    ensures p in ReserveEntry(w, q).leases && Grown(w.leases[p], ReserveEntry(w, q).leases[p])
  {}

  lemma ActivationGrows(w: World, q: PoolId, p: PoolId)
    requires ActivateEnabled(w, q) && p in w.leases
    ensures p in ActivateEntry(w, q).leases && Grown(w.leases[p], ActivateEntry(w, q).leases[p])
  {}

  lemma {:induction false} RunKeepsEntries(w: World, steps: seq<Step>, p: PoolId)
    requires Run(w, steps) && p in w.leases
    ensures p in Final(w, steps).leases && Grown(w.leases[p], Final(w, steps).leases[p])
    decreases |steps|
  {
    if steps != [] {
      StepKeepsEntries(w, steps[0], p);
      RunKeepsEntries(Next(w, steps[0]), steps[1..], p);
    }
  }

  /** While a generation holds an identity its state is never dropped and recreated. */
  lemma HeldStateIsNeverReplaced(w: World, steps: seq<Step>, p: PoolId, i: nat)
    requires Inv(w) && Run(w, steps)
    requires p in w.leases && w.leases[p].released <= i < |w.leases[p].entries|
    requires p in Final(w, steps).leases && Final(w, steps).leases[p].released <= i
    ensures var key := w.leases[p].entries[i].key;
            key in w.registry && key in Final(w, steps).registry && Final(w, steps).registry[key] == w.registry[key]
  {
    RunKeepsInv(w, steps);
    RunKeepsEntries(w, steps, p);
    var w' := Final(w, steps);
    assert EntryOk(w, p, i) && EntryOk(w', p, i);
    assert w'.leases[p].entries[i] == w.leases[p].entries[i];
  }

  // ------------------------------------------------------------ histories of one endpoint

  /** What a step does to one endpoint: at most one event. */
  function EventAt(w: World, st: Step, s: StateId): Option<Event>
    requires Enabled(w, st)
  {
    match st
    case OnBackend(p, i, action) =>
      if StateOf(w, p, i) == s then Some(EventOf(w, p, i, action)) else None
    case Settle(p) =>
      if StateOf(w, p, w.pools[p].section.index) == s then Some(Recover(w.pools[p].section.asOf)) else None
    case ActivateNext(p) =>
      if w.leases[p].entries[w.leases[p].progress].shared == s then Some(ActivationEvent(w, p)) else None
    case CloseNext(p) =>
      if w.leases[p].active && w.leases[p].entries[w.leases[p].released].shared == s then Some(Detach(p)) else None
    case _ => None
  }

  function EventsOf(w: World, st: Step, s: StateId): seq<Timed>
    requires Enabled(w, st)
  {
    match EventAt(w, st, s)
    case Some(ev) => [Timed(w.clock, ev)]
    case None => []
  }

  function History(w: World, steps: seq<Step>, s: StateId): seq<Timed>
    requires Run(w, steps)
    decreases |steps|
  {
    if steps == [] then [] else EventsOf(w, steps[0], s) + History(Next(w, steps[0]), steps[1..], s)
  }

  lemma AfterOne(e: Endpoint, t: Timed)
    ensures After(e, [t]) == Apply(e, t.ev, t.now)
  {
    assert [t][1..] == [];
  }

  lemma ActionProjects(w: World, p: PoolId, i: nat, action: Action, s: StateId)
    requires ActionEnabled(w, p, i, action) && s in w.endpoints
    ensures s in Acted(w, p, i, action).endpoints
    ensures Acted(w, p, i, action).endpoints[s] == After(w.endpoints[s], EventsOf(w, OnBackend(p, i, action), s))
  {
    AfterOne(w.endpoints[s], Timed(w.clock, EventOf(w, p, i, action)));
  }

  lemma ActivationProjects(w: World, p: PoolId, s: StateId)
    requires ActivateEnabled(w, p) && s in w.endpoints
    ensures s in ActivateEntry(w, p).endpoints
    ensures ActivateEntry(w, p).endpoints[s] == After(w.endpoints[s], EventsOf(w, ActivateNext(p), s))
  {
    AfterOne(w.endpoints[s], Timed(w.clock, ActivationEvent(w, p)));
  }

  lemma CreationProjects(w: World, p: PoolId, specs: seq<BackendSpec>, policy: PassivePolicy, s: StateId)
    requires Inv(w) && Enabled(w, CreatePool(p, specs, policy)) && s in w.endpoints
    ensures s in CreatedPool(w, p, specs, policy).endpoints
    ensures CreatedPool(w, p, specs, policy).endpoints[s] == w.endpoints[s]
  {
    CreationExtends(w, p, specs, policy);
    ExtensionLookup(w, CreatedPool(w, p, specs, policy), p, specs, policy, s);
  }

  lemma TrafficProjects(w: World, st: Step, s: StateId)
    requires Enabled(w, st) && Traffic(st) && s in w.endpoints
    ensures s in Next(w, st).endpoints
    ensures Next(w, st).endpoints[s] == After(w.endpoints[s], EventsOf(w, st, s))
  {
    match st
    case OnBackend(p, i, action) => ActionProjects(w, p, i, action, s);
    case Settle(p) => SettleProjects(w, p, s);
    case _ =>
  }

  /** An endpoint changes by the listed events and in no other way. */
  lemma StepProjects(w: World, st: Step, s: StateId)
    requires Inv(w) && Enabled(w, st) && s in w.endpoints
    ensures s in Next(w, st).endpoints
    ensures Next(w, st).endpoints[s] == After(w.endpoints[s], EventsOf(w, st, s))
  {
    if Traffic(st) {
      TrafficProjects(w, st, s);
    } else {
      ConfigurationProjects(w, st, s);
    }
  }

  lemma ConfigurationProjects(w: World, st: Step, s: StateId)
    requires Inv(w) && Enabled(w, st) && !Traffic(st) && s in w.endpoints
    ensures s in Next(w, st).endpoints
    ensures Next(w, st).endpoints[s] == After(w.endpoints[s], EventsOf(w, st, s))
  {
    match st
    case CreatePool(p, specs, policy) => CreationProjects(w, p, specs, policy, s);
    case ActivateNext(p) => ActivationProjects(w, p, s);
    case CloseNext(p) => ReleaseProjects(w, p, s);
    case _ =>
  }

  lemma SettleProjects(w: World, p: PoolId, s: StateId)
    requires SettleEnabled(w, p) && s in w.endpoints
    ensures s in SettleEntry(w, p).endpoints
    ensures SettleEntry(w, p).endpoints[s] == After(w.endpoints[s], EventsOf(w, Settle(p), s))
  {
    AfterOne(w.endpoints[s], Timed(w.clock, Recover(w.pools[p].section.asOf)));
  }

  lemma ReleaseProjects(w: World, p: PoolId, s: StateId)
    requires ReleaseEnabled(w, p) && s in w.endpoints
    ensures s in ReleaseEntry(w, p).endpoints
    ensures ReleaseEntry(w, p).endpoints[s] == After(w.endpoints[s], EventsOf(w, CloseNext(p), s))
  {
    AfterOne(w.endpoints[s], Timed(w.clock, Detach(p)));
  }

  lemma {:induction false} RunProjects(w: World, steps: seq<Step>, s: StateId)
    requires Inv(w) && Run(w, steps) && s in w.endpoints
    ensures s in Final(w, steps).endpoints
    ensures Final(w, steps).endpoints[s] == After(w.endpoints[s], History(w, steps, s))
    decreases |steps|
  {
    if steps != [] {
      var w' := Next(w, steps[0]);
      StepKeepsInv(w, steps[0]);
      StepProjects(w, steps[0], s);
      RunProjects(w', steps[1..], s);
      AfterConcat(w.endpoints[s], EventsOf(w, steps[0], s), History(w', steps[1..], s));
    }
  }

  // ------------------------------------------------------------ cooldown over runs

  /** Events on a published endpoint happen within the run, never force it alive, and recover nothing early. */
  predicate Lawful(t: Timed, from: int, to: int) {
    from <= t.now <= to && !t.ev.Alive? && (t.ev.Recover? ==> t.ev.asOf <= t.now)
  }

  /** Forcing a backend alive is for private copies only; an owned state is never touched that way. */
  lemma OwnedIsNeverForced(w: World, p: PoolId, i: nat, action: Action)
    requires Inv(w) && ActionEnabled(w, p, i, action)
    requires w.endpoints[StateOf(w, p, i)].healthOwner.Some?
    ensures !action.MarkAlive?
  {
    assert BackendOk(w, p, i);
    assert forall q | q in w.leases :: LeaseOk(w, q);
  }

  lemma SettleIsLawful(w: World, p: PoolId)
    requires CachesInv(w) && SettleEnabled(w, p)
    ensures w.pools[p].section.asOf <= w.clock
  {
    assert CacheOk(w, p);
  }

  lemma ActionIsLawful(w: World, p: PoolId, i: nat, action: Action)
    requires Inv(w) && ActionEnabled(w, p, i, action) && w.endpoints[StateOf(w, p, i)].healthOwner.Some?
    ensures Lawful(Timed(w.clock, EventOf(w, p, i, action)), w.clock, w.clock)
  {
    OwnedIsNeverForced(w, p, i, action);
  }

  lemma TrafficIsLawful(w: World, st: Step, s: StateId)
    requires Inv(w) && Enabled(w, st) && Traffic(st) && s in w.endpoints && w.endpoints[s].healthOwner.Some?
    ensures var ev := EventAt(w, st, s);
            ev.Some? ==> Lawful(Timed(w.clock, ev.value), w.clock, w.clock)
  {
    if st.OnBackend? && StateOf(w, st.p, st.i) == s {
      ActionIsLawful(w, st.p, st.i, st.action);
    } else if st.Settle? {
      SettleIsLawful(w, st.p);
    }
  }

  lemma ConfigurationIsLawful(w: World, st: Step, s: StateId)
    requires Enabled(w, st) && !Traffic(st)
    ensures var ev := EventAt(w, st, s);
            ev.Some? ==> Lawful(Timed(w.clock, ev.value), w.clock, w.clock)
  {}

  lemma StepIsLawful(w: World, st: Step, s: StateId)
    requires Inv(w) && Enabled(w, st) && s in w.endpoints && w.endpoints[s].healthOwner.Some?
    ensures var ev := EventAt(w, st, s);
            ev.Some? ==> Lawful(Timed(w.clock, ev.value), w.clock, w.clock)
  {
    if Traffic(st) {
      TrafficIsLawful(w, st, s);
    } else {
      ConfigurationIsLawful(w, st, s);
    }
  }

  lemma ClockNeverGoesBack(w: World, st: Step)
    requires Enabled(w, st)
    ensures w.clock <= Next(w, st).clock
  {}

  lemma OwnersStay(e: Endpoint, ev: Event, now: int)
    requires e.healthOwner.Some?
    ensures Apply(e, ev, now).healthOwner.Some?
  {
    match ev
    case Activate(_, _, _, _, _) =>
    case Detach(_) =>
    case _ => EventsKeepWiring(e, ev, now);
  }

  lemma StepKeepsOwned(w: World, st: Step, s: StateId)
    requires Inv(w) && Enabled(w, st) && s in w.endpoints && w.endpoints[s].healthOwner.Some?
    ensures s in Next(w, st).endpoints && Next(w, st).endpoints[s].healthOwner.Some?
  {
    StepProjects(w, st, s);
    var es := EventsOf(w, st, s);
    if es != [] {
      assert es == [es[0]];
      AfterOne(w.endpoints[s], es[0]);
      OwnersStay(w.endpoints[s], es[0].ev, es[0].now);
    }
  }

  lemma {:induction false} RunIsLawful(w: World, steps: seq<Step>, s: StateId)
    requires Inv(w) && Run(w, steps) && s in w.endpoints && w.endpoints[s].healthOwner.Some?
    ensures w.clock <= Final(w, steps).clock
    ensures forall t | t in History(w, steps, s) :: Lawful(t, w.clock, Final(w, steps).clock)
    decreases |steps|
  {
    if steps != [] {
      var w' := Next(w, steps[0]);
      StepKeepsInv(w, steps[0]);
      StepIsLawful(w, steps[0], s);
      ClockNeverGoesBack(w, steps[0]);
      StepKeepsOwned(w, steps[0], s);
      RunIsLawful(w', steps[1..], s);
      forall t | t in History(w, steps, s) ensures Lawful(t, w.clock, Final(w, steps).clock) {
        assert t in EventsOf(w, steps[0], s) || t in History(w', steps[1..], s);
      }
    }
  }

  /**
   From an ejection until its deadline no run grants a slot on the endpoint in any generation, unless a
   later failure ejects it again under a policy that ends sooner (`EndpointTraces.CooldownHonouredIff`).
   */
  lemma CooldownNotBypassed(w: World, steps: seq<Step>, s: StateId, until: int)
    requires Inv(w) && Run(w, steps) && s in w.endpoints && w.endpoints[s].healthOwner.Some?
    requires Cooling(w.endpoints[s], until) && Final(w, steps).clock < until
    requires EjectionsLast(w.endpoints[s], History(w, steps, s), until)
    ensures s in Final(w, steps).endpoints
    ensures !Final(w, steps).endpoints[s].IsAlive(Final(w, steps).clock)
    ensures NeverAlive(w.endpoints[s], History(w, steps, s))
    ensures Final(w, steps).endpoints[s].holders <= w.endpoints[s].holders
  {
    var es := History(w, steps, s);
    RunProjects(w, steps, s);
    RunIsLawful(w, steps, s);
    forall k | 0 <= k < |es| ensures Timely(es[k], until) {
      assert es[k] in es && Lawful(es[k], w.clock, Final(w, steps).clock);
    }
    CooldownHolds(w.endpoints[s], es, until);
  }

  // ------------------------------------------------------------ overrides over runs

  /** What an action means for an endpoint, by its fields or as one event of its history. */
  predicate Means(e: Endpoint, e': Endpoint, p: PoolId, i: nat, policy: PassivePolicy, now: int, action: Action) {
    match action
    case SetEnabled(enable) => e' == e.(enabled := enable, draining := e.draining && !enable)
    case StartDrain => e' == e.(enabled := false, draining := true)
    case MarkAlive => e' == e.(healthy := true, passiveFailures := 0, ejectedUntil := 0)
    case PassiveSuccess => e' == e.(passiveFailures := 0)
    case PassiveFailure => e' == After(e, [Timed(now, Fail(policy))])
    case ReportProbe(success, st, ft) => e' == After(e, [Timed(now, Probe(p, success, st, ft))])
    case TryAcquire => e' == e || e' == e.(inflight := e.inflight + 1, holders := e.holders + multiset{Slot(p, i)})
    case GiveBack => e'.holders == e.holders - multiset{Slot(p, i)}
  }

  lemma ActionMeans(w: World, p: PoolId, i: nat, action: Action, e: Endpoint)
    requires p in w.pools
    ensures Means(e, Apply(e, EventOf(w, p, i, action), w.clock), p, i, w.pools[p].policy, w.clock, action)
  {
    AfterSingle(e, Timed(w.clock, EventOf(w, p, i, action)));
  }

  /**
   What an action does to the endpoint behind the backend, and to no other: commands set the operator's flags,
   reports reach the counters under the policy of the reporting pool, and a slot is taken or given back.
   */
  lemma ActionsReachTheirEndpoint(w: World, p: PoolId, i: nat, action: Action)
    requires Backed(w, p, i)
    ensures var s := StateOf(w, p, i);
            var w' := Acted(w, p, i, action);
            && w'.endpoints == w.endpoints[s := w'.endpoints[s]] && w'.pools == w.pools && w'.leases == w.leases
            && w'.registry == w.registry && w'.refs == w.refs && w'.clock == w.clock
            && Means(w.endpoints[s], w'.endpoints[s], p, i, w.pools[p].policy, w.clock, action)
  {
    ActionMeans(w, p, i, action, w.endpoints[StateOf(w, p, i)]);
  }

  /** What the operator set survives every apply, rollback and discovery update that does not change it. */
  lemma OverridesAreReplayed(w: World, steps: seq<Step>, s: StateId)
    requires Inv(w) && Run(w, steps) && s in w.endpoints
    ensures s in Final(w, steps).endpoints
    ensures OverrideOf(Final(w, steps).endpoints[s]) ==
            Replay(OverrideOf(w.endpoints[s]), Commands(History(w, steps, s)))
  {
    RunProjects(w, steps, s);
    OverrideIsReplay(w.endpoints[s], History(w, steps, s));
  }

  /** While an endpoint is drained its number of requests in flight never increases. */
  lemma DrainOnlyShrinks(w: World, steps: seq<Step>, s: StateId)
    requires Inv(w) && Run(w, steps) && s in w.endpoints && w.endpoints[s].draining
    requires forall t | t in History(w, steps, s) :: !EndsDrain(t.ev, w.endpoints[s].configuredDisabled)
    ensures s in Final(w, steps).endpoints && Final(w, steps).endpoints[s].draining
    ensures Final(w, steps).endpoints[s].inflight <= w.endpoints[s].inflight
  {
    RunProjects(w, steps, s);
    RunKeepsInv(w, steps);
    DrainedNeverGrows(w.endpoints[s], History(w, steps, s));
    assert EndpointOk(w, s) && EndpointOk(Final(w, steps), s);
    var a := w.endpoints[s].holders;
    var b := Final(w, steps).endpoints[s].holders;
    assert a == b + (a - b);
  }
}
