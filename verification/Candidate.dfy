/**
 What steps leave alone: the ground on which a candidate is built while others go on.

 A candidate's pools and the private states of their backends change only by its own steps, until it is
 published.
 */
module Candidates {
  import opened Common
  import opened Endpoints
  import opened Generations
  import opened CalmSteps
  import opened GenerationRuns
  import opened SharedPools
  import opened FailedApply

  // ------------------------------------------------------------ what steps leave alone

  /** The pool whose lease a step changes, if any. */
  function About(st: Step): Option<PoolId> {
    match st
    case CreatePool(p, _, _) => Some(p)
    case OpenLease(p, _) => Some(p)
    case ReserveNext(p) => Some(p)
    case BeginActivate(p, _) => Some(p)
    case ActivateNext(p) => Some(p)
    case BeginClose(p) => Some(p)
    case CloseNext(p) => Some(p)
    case _ => None
  }

  predicate SameName(a: Backend, b: Backend) { b.id == a.id && b.url == a.url && b.weight == a.weight }

  /** The same backends in the same order, whatever states they point at, under the same policy. */
  predicate SameNames(a: Pool, b: Pool) {
    |b.all| == |a.all| && b.policy == a.policy && forall i | 0 <= i < |a.all| :: SameName(a.all[i], b.all[i])
  }

  /** The pool keeps its lease and its backends. */
  predicate Aside(w: World, w': World, q: PoolId) {
    && (q in w'.pools <==> q in w.pools) && (q in w.pools ==> SameNames(w.pools[q], w'.pools[q]))
    && (q in w'.leases <==> q in w.leases) && (q in w.leases ==> w'.leases[q] == w.leases[q])
  }

  lemma InvalidationIsAside(w: World, s: StateId, q: PoolId)
    requires s in w.endpoints
    ensures Aside(w, Invalidate(w, s), q)
  {}

  lemma SettleIsAside(w: World, p: PoolId, q: PoolId)
    requires SettleEnabled(w, p)
    ensures Aside(w, SettleEntry(w, p), q)
  {}

  lemma ActivationIsAside(w: World, p: PoolId, q: PoolId)
    requires ActivateEnabled(w, p) && p != q
    ensures Aside(w, ActivateEntry(w, p), q)
  {}

  lemma ReleaseIsAside(w: World, p: PoolId, q: PoolId)
    requires ReleaseEnabled(w, p) && p != q
    ensures Aside(w, ReleaseEntry(w, p), q)
  {}

  lemma TrafficIsAside(w: World, st: Step, q: PoolId)
    requires Enabled(w, st) && Traffic(st)
    ensures Aside(w, Next(w, st), q)
  {
    match st
    case Flush(s) => InvalidationIsAside(w.(pending := w.pending - multiset{s}), s, q);
    case Settle(p) => SettleIsAside(w, p, q);
    case _ =>
  }

  lemma StepIsAside(w: World, st: Step, q: PoolId)
    requires Enabled(w, st) && About(st) != Some(q)
    ensures Aside(w, Next(w, st), q)
  {
    if Traffic(st) {
      TrafficIsAside(w, st, q);
    } else if st.ActivateNext? {
      ActivationIsAside(w, st.p, q);
    } else if st.CloseNext? {
      ReleaseIsAside(w, st.p, q);
    }
  }

  /** Once published or given up, for good. */
  lemma StepKeepsSettled(w: World, st: Step, q: PoolId)
    requires Inv(w) && Enabled(w, st) && q in w.leases && Settled(w, q)
    ensures q in Next(w, st).leases && Settled(Next(w, st), q)
  {
    StepKeepsEntries(w, st, q);
    assert LeaseOk(w, q);
    if Full(w, q) {
      StepKeepsServing(w, st, q, |w.pools[q].all|);
    } else if About(st) != Some(q) {
      StepIsAside(w, st, q);
    }
  }

  /** Every lease outside `C` is published or given up. */
  predicate SettledBut(w: World, C: set<PoolId>) {
    forall q | q in w.leases && q !in C :: Settled(w, q)
  }

  lemma StepKeepsSettledBut(w: World, st: Step, C: set<PoolId>)
    requires Inv(w) && Enabled(w, st) && SettledBut(w, C) && (st.OpenLease? ==> st.p in C)
    ensures SettledBut(Next(w, st), C)
  {
    var w' := Next(w, st);
    forall q | q in w'.leases && q !in C ensures Settled(w', q) {
      if q !in w.leases {
        StepIsAside(w, st, q);
      }
      StepKeepsSettled(w, st, q);
    }
  }

  /** The engine's mutex at work: with nothing else under construction a lease may be opened. */
  lemma OpeningIsPossible(w: World, C: set<PoolId>, scope: string)
    requires SettledBut(w, C) && forall q | q in C && q in w.leases :: w.leases[q].scope != scope
    ensures MayOpen(w, scope)
  {}

  /** And whatever is published may be closed. */
  lemma ClosingIsPossible(w: World, q: PoolId)
    requires q in w.leases && Settled(w, q) && !w.leases[q].closed
    ensures Enabled(w, BeginClose(q))
  {}

  /** Whatever a step does, a pool keeps its backends. */
  lemma StepKeepsNames(w: World, st: Step, q: PoolId)
    requires Enabled(w, st) && q in w.pools
    ensures q in Next(w, st).pools && SameNames(w.pools[q], Next(w, st).pools[q])
  {
    if About(st) != Some(q) {
      StepIsAside(w, st, q);
    } else if st.ActivateNext? {
      ActivationKeepsNames(w, q);
    } else if st.CloseNext? {
      ReleaseKeepsNames(w, q);
    }
  }

  lemma ActivationKeepsNames(w: World, q: PoolId)
    requires ActivateEnabled(w, q) && q in w.pools
    ensures q in ActivateEntry(w, q).pools && SameNames(w.pools[q], ActivateEntry(w, q).pools[q])
  {}

  lemma ReleaseKeepsNames(w: World, q: PoolId)
    requires ReleaseEnabled(w, q) && q in w.pools
    ensures q in ReleaseEntry(w, q).pools && SameNames(w.pools[q], ReleaseEntry(w, q).pools[q])
  {}

  predicate AllAllowed(steps: seq<Step>, C: set<PoolId>) {
    forall k | 0 <= k < |steps| :: CandidateStep(steps[k], C) || OutsideStep(steps[k], C)
  }

  /** The pool, its cache included. */
  predicate SamePoolAt(w: World, w': World, q: PoolId) {
    (q in w'.pools <==> q in w.pools) && (q in w.pools ==> w'.pools[q] == w.pools[q])
  }

  /** A step outside the candidate leaves the candidate's pools as they are. */
  lemma OutsideLeavesPool(w: World, v: World, C: set<PoolId>, st: Step, q: PoolId)
    requires Inv(v) && Agree(w, v, C) && Enabled(w, st) && OutsideStep(st, C) && q in C
    ensures SamePoolAt(w, Next(w, st), q)
  {
    match st
    case Flush(s) => OutsideFlushLeavesPool(w, v, C, s, q);
    case Settle(p) => OutsideSettleLeavesPool(w, v, C, p, q);
    case _ => SomeStepsLeavePool(w, st, q);
  }

  lemma SomeStepsLeavePool(w: World, st: Step, q: PoolId)
    requires Enabled(w, st)
    requires st.Tick? || st.OnBackend? || (st.OnPool? && st.p != q) || st.BeginClose? || st.CloseNext?
    ensures SamePoolAt(w, Next(w, st), q)
  {}

  lemma OutsideFlushLeavesPool(w: World, v: World, C: set<PoolId>, s: StateId, q: PoolId)
    requires Inv(v) && Agree(w, v, C) && s in w.endpoints && s.pool !in C && q in C
    ensures SamePoolAt(w, Flushed(w, s), q)
  {
    assert EndpointOk(v, s);
  }

  /** Recovering a backend tells only the pools its endpoint lists. */
  lemma SettleLeavesUnlisted(w: World, p: PoolId, q: PoolId)
    requires SettleEnabled(w, p) && p != q
    requires q !in w.endpoints[StateOf(w, p, w.pools[p].section.index)].pools
    ensures SamePoolAt(w, SettleEntry(w, p), q)
  {
    EventsKeepWiring(w.endpoints[StateOf(w, p, w.pools[p].section.index)], Recover(w.pools[p].section.asOf), w.clock);
  }

  lemma OutsideSettleLeavesPool(w: World, v: World, C: set<PoolId>, p: PoolId, q: PoolId)
    requires Inv(v) && Agree(w, v, C) && SettleEnabled(w, p) && p !in C && q in C
    ensures SamePoolAt(w, SettleEntry(w, p), q)
  {
    OutsideBackend(w, v, C, p, w.pools[p].section.index);
    assert EndpointOk(v, StateOf(v, p, w.pools[p].section.index));
    SettleLeavesUnlisted(w, p, q);
  }

  // ------------------------------------------------------------ private states

  /** The private states of pool `q`: what they are, and how many invalidations they are owed. */
  ghost predicate SameStates(w: World, w': World, q: PoolId) {
    forall i: nat :: SameStateAt(w, w', StateId(q, i))
  }

  predicate SameStateAt(w: World, w': World, s: StateId) {
    && (s in w'.endpoints <==> s in w.endpoints) && (s in w.endpoints ==> w'.endpoints[s] == w.endpoints[s])
    && w'.pending[s] == w.pending[s]
  }

  /** Nobody has touched `p` since `w`: neither its lease nor its pool nor its private states. */
  ghost predicate Kept(w: World, w': World, p: PoolId) {
    Aside(w, w', p) && SamePoolAt(w, w', p) && SameStates(w, w', p)
  }

  ghost predicate AllKept(w: World, w': World, C: set<PoolId>) {
    forall q | q in C :: Kept(w, w', q)
  }

  lemma KeptTransitive(w: World, w': World, w'': World, C: set<PoolId>)
    requires AllKept(w, w', C) && AllKept(w', w'', C)
    ensures AllKept(w, w'', C)
  {
    forall q | q in C ensures Kept(w, w'', q) {
      assert Kept(w, w', q) && Kept(w', w'', q);
      assert forall i: nat :: SameStateAt(w, w', StateId(q, i)) && SameStateAt(w', w'', StateId(q, i));
    }
  }

  lemma KeptNothing(w: World, C: set<PoolId>)
    ensures AllKept(w, w, C)
  {}

  lemma TouchLeavesOther(w: World, s: StateId, ev: Event, t: StateId)
    requires s in w.endpoints && s != t
    ensures SameStateAt(w, Touch(w, s, ev), t)
  {}

  lemma OutsideActionLeavesState(w: World, v: World, C: set<PoolId>, p: PoolId, i: nat, action: Action, t: StateId)
    requires Inv(v) && Agree(w, v, C) && p !in C && ActionEnabled(w, p, i, action) && t.pool in C
    ensures SameStateAt(w, Acted(w, p, i, action), t)
  {
    OutsideBackend(w, v, C, p, i);
    TouchLeavesOther(w, StateOf(w, p, i), EventOf(w, p, i, action), t);
  }

  lemma OutsideSettleLeavesState(w: World, v: World, C: set<PoolId>, p: PoolId, t: StateId)
    requires Inv(v) && Agree(w, v, C) && p !in C && SettleEnabled(w, p) && t.pool in C
    ensures SameStateAt(w, SettleEntry(w, p), t)
  {
    OutsideBackend(w, v, C, p, w.pools[p].section.index);
    SettleLeavesOther(w, p, t);
  }

  lemma SettleLeavesOther(w: World, p: PoolId, t: StateId)
    requires SettleEnabled(w, p) && t != StateOf(w, p, w.pools[p].section.index)
    ensures SameStateAt(w, SettleEntry(w, p), t)
  {}

  lemma OutsideReleaseLeavesState(w: World, v: World, C: set<PoolId>, p: PoolId, t: StateId)
    requires Inv(v) && Agree(w, v, C) && p !in C && ReleaseEnabled(w, p) && t.pool in C
    ensures SameStateAt(w, ReleaseEntry(w, p), t)
  {
    OutsideReleaseEnabled(w, v, C, p);
    TouchLeavesOther(w, w.leases[p].entries[w.leases[p].released].shared, Detach(p), t);
  }

  /** A step outside the candidate leaves its private states as they are. */
  lemma OutsideLeavesState(w: World, v: World, C: set<PoolId>, st: Step, t: StateId)
    requires Inv(v) && Agree(w, v, C) && Enabled(w, st) && OutsideStep(st, C) && t.pool in C
    ensures SameStateAt(w, Next(w, st), t)
  {
    if st.OnBackend? {
      OutsideActionLeavesState(w, v, C, st.p, st.i, st.action, t);
    } else if st.Settle? {
      OutsideSettleLeavesState(w, v, C, st.p, t);
    } else if st.CloseNext? {
      OutsideReleaseLeavesState(w, v, C, st.p, t);
    } else {
      SomeStepsLeaveState(w, st, t);
    }
  }

  lemma SomeStepsLeaveState(w: World, st: Step, t: StateId)
    requires Enabled(w, st) && (st.Tick? || (st.Flush? && st.s != t) || st.OnPool? || st.BeginClose?)
    ensures SameStateAt(w, Next(w, st), t)
  {}

  // ------------------------------------------------------------ along a run

  lemma Sound(past: seq<Step>, steps: seq<Step>)
    requires Run(EmptyWorld, past) && Run(Final(EmptyWorld, past), steps)
    ensures Inv(Final(EmptyWorld, past)) && Inv(Final(Final(EmptyWorld, past), steps))
  {
    ReachableInv(past);
    RunKeepsInv(Final(EmptyWorld, past), steps);
  }

  lemma Appends(w: World, steps: seq<Step>, st: Step)
    requires Run(w, steps) && Enabled(Final(w, steps), st)
    ensures Run(w, steps + [st]) && Final(w, steps + [st]) == Next(Final(w, steps), st)
  {
    assert [st][1..] == [];
    RunConcat(w, steps, [st]);
  }

  lemma Extends(past: seq<Step>, steps: seq<Step>, st: Step, C: set<PoolId>)
    requires Run(EmptyWorld, past) && Run(Final(EmptyWorld, past), steps)
    requires var w := Final(Final(EmptyWorld, past), steps); Enabled(w, st) && SettledBut(w, C) && (st.OpenLease? ==> st.p in C)
    ensures Run(Final(EmptyWorld, past), steps + [st])
    ensures var w := Final(Final(EmptyWorld, past), steps);
            Final(Final(EmptyWorld, past), steps + [st]) == Next(w, st) && SettledBut(Next(w, st), C)
    ensures AllAllowed(steps, C) && (CandidateStep(st, C) || OutsideStep(st, C)) ==> AllAllowed(steps + [st], C)
  {
    Sound(past, steps);
    StepKeepsSettledBut(Final(Final(EmptyWorld, past), steps), st, C);
    Appends(Final(EmptyWorld, past), steps, st);
  }

  lemma {:induction false} ClockGrows(w: World, steps: seq<Step>)
    requires Run(w, steps)
    ensures w.clock <= Final(w, steps).clock
    decreases |steps|
  {
    if steps != [] {
      ClockNeverGoesBack(w, steps[0]);
      ClockGrows(Next(w, steps[0]), steps[1..]);
    }
  }

  /** Invalidations are owed only to states that exist. */
  predicate OwedExist(w: World) {
    forall s | s in w.pending :: s in w.endpoints
  }

  lemma StepKeepsOwed(w: World, st: Step)
    requires Inv(w) && Enabled(w, st) && OwedExist(w)
    ensures OwedExist(Next(w, st))
  {
    var w' := Next(w, st);
    forall s | s in w'.pending ensures s in w'.endpoints {
      if s in w.endpoints {
        StepProjects(w, st, s);
      } else {
        OwedAreNew(w, st, s);
      }
    }
  }

  lemma OwedAreNew(w: World, st: Step, s: StateId)
    requires Enabled(w, st) && s in Next(w, st).pending && s !in w.pending
    ensures s in Next(w, st).endpoints
  {
    match st
    case OnBackend(p, i, action) =>
    case ActivateNext(p) => ActivationOwesNothing(w, p);
    case Settle(p) => SettleOwesNothing(w, p);
    case _ =>
  }

  lemma ActivationOwesNothing(w: World, p: PoolId)
    requires ActivateEnabled(w, p)
    ensures ActivateEntry(w, p).pending == w.pending
  {}

  lemma SettleOwesNothing(w: World, p: PoolId)
    requires SettleEnabled(w, p)
    ensures SettleEntry(w, p).pending == w.pending
  {}

  lemma {:induction false} RunKeepsOwed(w: World, steps: seq<Step>)
    requires Inv(w) && Run(w, steps) && OwedExist(w)
    ensures OwedExist(Final(w, steps))
    decreases |steps|
  {
    if steps != [] {
      StepKeepsInv(w, steps[0]);
      StepKeepsOwed(w, steps[0]);
      RunKeepsOwed(Next(w, steps[0]), steps[1..]);
    }
  }

  /** What holds wherever a run has led. */
  lemma Reached(past: seq<Step>, steps: seq<Step>)
    requires Run(EmptyWorld, past) && Run(Final(EmptyWorld, past), steps)
    ensures Final(Final(EmptyWorld, past), steps).clock >= 1 && OwedExist(Final(Final(EmptyWorld, past), steps))
  {
    assert Inv(EmptyWorld);
    ClockGrows(EmptyWorld, past);
    ClockGrows(Final(EmptyWorld, past), steps);
    RunKeepsOwed(EmptyWorld, past);
    ReachableInv(past);
    RunKeepsOwed(Final(EmptyWorld, past), steps);
  }

  /** While the candidate is private, others leave all of it alone. */
  lemma HiddenIsUntouched(past: seq<Step>, steps: seq<Step>, C: set<PoolId>, st: Step)
    requires Run(EmptyWorld, past) && Run(Final(EmptyWorld, past), steps)
    requires (forall c | c in C :: c !in Final(EmptyWorld, past).pools) && AllAllowed(steps, C)
    requires Enabled(Final(Final(EmptyWorld, past), steps), st) && OutsideStep(st, C)
    ensures var w := Final(Final(EmptyWorld, past), steps); AllKept(w, Next(w, st), C)
  {
    var v := Final(EmptyWorld, past);
    var w := Final(v, steps);
    Sound(past, steps);
    NoCandidateYet(v, C);
    CandidateIsInvisible(v, v, steps, C);
    RunKeepsInv(v, Erased(steps, C));
    forall q | q in C ensures Kept(w, Next(w, st), q) {
      OutsideKeeps(w, Final(v, Erased(steps, C)), C, st, q);
    }
  }

  lemma OutsideKeeps(w: World, v: World, C: set<PoolId>, st: Step, q: PoolId)
    requires Inv(v) && Agree(w, v, C) && Enabled(w, st) && OutsideStep(st, C) && q in C
    ensures Kept(w, Next(w, st), q)
  {
    StepIsAside(w, st, q);
    OutsideLeavesPool(w, v, C, st, q);
    forall i: nat ensures SameStateAt(w, Next(w, st), StateId(q, i)) {
      OutsideLeavesState(w, v, C, st, StateId(q, i));
    }
  }
}
