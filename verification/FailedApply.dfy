/**
 Building a configuration that is never published leaves no trace.

 `C` is the set of pools of the candidate. Its clusters reserve identities, probe private copies, and
 finally give everything up, while traffic and the closing of older generations go on.
 */
module FailedApply {
  import opened Endpoints
  import opened Generations
  import opened CalmSteps
  import opened SwapSteps
  import opened GenerationRuns

  /** Everything `buildCluster` and the failure path of `applyLocked` do. */
  predicate CandidateStep(st: Step, C: set<PoolId>) {
    match st
    case CreatePool(p, _, _) => p in C
    case OnBackend(p, _, action) => p in C && (action.ReportProbe? || action.MarkAlive?)
    case Flush(s) => s.pool in C
    case OnPool(p, _) => p in C
    case Settle(p) => p in C
    case OpenLease(p, _) => p in C
    case ReserveNext(p) => p in C
    case BeginClose(p) => p in C
    case CloseNext(p) => p in C
    case _ => false
  }

  /** Traffic, probes, operator commands, and the retirement of older generations. */
  predicate OutsideStep(st: Step, C: set<PoolId>) {
    match st
    case Tick(_) => true
    case OnBackend(p, _, _) => p !in C
    case Flush(s) => s.pool !in C
    case OnPool(p, _) => p !in C
    case Settle(p) => p !in C
    case BeginClose(p) => p !in C
    case CloseNext(p) => p !in C
    case _ => false
  }

  /** The worlds are equal once the candidate's pools, states and leases are disregarded. */
  ghost predicate Agree(w: World, v: World, C: set<PoolId>) {
    && v.clock == w.clock && v.granted == w.granted
    && (forall p :: p in v.pools <==> p in w.pools && p !in C)
    && (forall p | p in v.pools :: v.pools[p] == w.pools[p])
    && (forall s :: s in v.endpoints <==> s in w.endpoints && s.pool !in C)
    && (forall s | s in v.endpoints :: v.endpoints[s] == w.endpoints[s])
    && (forall p :: p in v.leases <==> p in w.leases && p !in C)
    && (forall p | p in v.leases :: v.leases[p] == w.leases[p])
    && (forall s: StateId | s.pool !in C :: v.pending[s] == w.pending[s])
    && (forall p | p in C && p in w.leases :: !w.leases[p].active)
  }

  // ------------------------------------------------------------ candidate steps stay inside

  lemma CandidateStateIsPrivate(w: World, v: World, C: set<PoolId>, c: PoolId, i: nat)
    requires Inv(w) && Agree(w, v, C) && c in C && At(w, c, i)
    ensures StateOf(w, c, i) == StateId(c, i) && StateId(c, i) in w.endpoints
    ensures w.endpoints[StateId(c, i)].pools == {c}
  {
    assert BackendOk(w, c, i);
    assert forall q | q in w.leases :: LeaseOk(w, q);
  }

  lemma CandidateTouchStaysInside(w: World, v: World, C: set<PoolId>, s: StateId, ev: Event)
    requires Agree(w, v, C) && s in w.endpoints && s.pool in C
    ensures Agree(Touch(w, s, ev), v, C)
  {}

  lemma CandidateInvalidationStaysInside(w: World, v: World, C: set<PoolId>, s: StateId)
    requires Agree(w, v, C) && s in w.endpoints && w.endpoints[s].pools <= C
    ensures Agree(Invalidate(w, s), v, C)
  {}

  lemma CandidatePoolStaysInside(w: World, v: World, C: set<PoolId>, c: PoolId, pool: Pool)
    requires Agree(w, v, C) && c in C
    ensures Agree(PutPool(w, c, pool), v, C)
  {}

  lemma CandidateSettleStaysInside(w: World, v: World, C: set<PoolId>, c: PoolId)
    requires Inv(w) && Agree(w, v, C) && c in C && SettleEnabled(w, c)
    ensures Agree(SettleEntry(w, c), v, C)
  {
    var pool := w.pools[c];
    var s := StateOf(w, c, pool.section.index);
    CandidateStateIsPrivate(w, v, C, c, pool.section.index);
    var e' := Apply(w.endpoints[s], Recover(pool.section.asOf), w.clock);
    EventsKeepWiring(w.endpoints[s], Recover(pool.section.asOf), w.clock);
    CandidateRecoveryStaysInside(w, v, C, c, s, e', pool.(section := pool.section.(settled := true)));
  }

  lemma CandidateRecoveryStaysInside(w: World, v: World, C: set<PoolId>, c: PoolId, s: StateId, e': Endpoint, pool: Pool)
    requires Agree(w, v, C) && c in C && s in w.endpoints && s.pool in C && e'.pools <= C
    ensures var m := w.(endpoints := w.endpoints[s := e'], pools := w.pools[c := pool]);
            Agree(m, v, C) && Agree(Invalidate(m, s), v, C)
  {
    var m := w.(endpoints := w.endpoints[s := e'], pools := w.pools[c := pool]);
    CandidateInvalidationStaysInside(m, v, C, s);
  }

  lemma CandidateCreationStaysInside(w: World, v: World, C: set<PoolId>, c: PoolId, specs: seq<BackendSpec>, policy: PassivePolicy)
    requires Inv(w) && Agree(w, v, C) && c in C && c !in w.pools && ValidSpecs(specs)
    ensures Agree(CreatedPool(w, c, specs, policy), v, C)
  {
    var w' := CreatedPool(w, c, specs, policy);
    CreationExtends(w, c, specs, policy);
    forall s ensures s in v.endpoints <==> s in w'.endpoints && s.pool !in C {
      ExtensionLookup(w, w', c, specs, policy, s);
    }
    forall s | s in v.endpoints ensures v.endpoints[s] == w'.endpoints[s] {
      ExtensionLookup(w, w', c, specs, policy, s);
    }
  }

  lemma CandidateLeaseStaysInside(w: World, v: World, C: set<PoolId>, c: PoolId, w': World)
    requires Agree(w, v, C) && c in C
    requires c in w'.leases && !w'.leases[c].active && w'.leases == w.leases[c := w'.leases[c]]
    requires w' == w.(leases := w'.leases, registry := w'.registry, refs := w'.refs)
    ensures Agree(w', v, C)
  {}

  lemma CandidateActionStaysInside(w: World, v: World, C: set<PoolId>, p: PoolId, i: nat, action: Action)
    requires Inv(w) && Agree(w, v, C) && p in C && Backed(w, p, i) && (action.ReportProbe? || action.MarkAlive?)
    ensures Agree(Acted(w, p, i, action), v, C)
  {
    CandidateStateIsPrivate(w, v, C, p, i);
    CandidateTouchStaysInside(w, v, C, StateOf(w, p, i), EventOf(w, p, i, action));
  }

  lemma CandidateWorkStaysInside(w: World, v: World, C: set<PoolId>, st: Step)
    requires Inv(w) && Agree(w, v, C) && Enabled(w, st) && CandidateStep(st, C)
    requires st.CreatePool? || st.OnBackend? || st.Flush? || st.OnPool? || st.Settle?
    ensures Agree(Next(w, st), v, C)
  {
    match st
    case CreatePool(p, specs, policy) => CandidateCreationStaysInside(w, v, C, p, specs, policy);
    case OnBackend(p, i, action) => CandidateActionStaysInside(w, v, C, p, i, action);
    case Flush(s) => CandidateFlushStaysInside(w, v, C, s);
    case OnPool(p, move) => CandidatePoolStaysInside(w, v, C, p, Moved(w, p, move));
    case Settle(p) => CandidateSettleStaysInside(w, v, C, p);
  }

  lemma CandidateLeasingStaysInside(w: World, v: World, C: set<PoolId>, st: Step)
    requires Agree(w, v, C) && Enabled(w, st) && CandidateStep(st, C)
    requires st.OpenLease? || st.ReserveNext? || st.BeginClose? || st.CloseNext?
    ensures Agree(Next(w, st), v, C)
  {
    match st
    case OpenLease(p, scope) => CandidateLeaseStaysInside(w, v, C, p, Next(w, st));
    case ReserveNext(p) => CandidateLeaseStaysInside(w, v, C, p, ReserveEntry(w, p));
    case BeginClose(p) => CandidateLeaseStaysInside(w, v, C, p, Next(w, st));
    case CloseNext(p) => CandidateLeaseStaysInside(w, v, C, p, ReleaseEntry(w, p));
  }

  /** A step of the candidate changes nothing outside it. */
  lemma CandidateStepStaysInside(w: World, v: World, C: set<PoolId>, st: Step)
    requires Inv(w) && Agree(w, v, C) && Enabled(w, st) && CandidateStep(st, C)
    ensures Agree(Next(w, st), v, C)
  {
    if st.OpenLease? || st.ReserveNext? || st.BeginClose? || st.CloseNext? {
      CandidateLeasingStaysInside(w, v, C, st);
    } else {
      CandidateWorkStaysInside(w, v, C, st);
    }
  }

  lemma CandidateFlushStaysInside(w: World, v: World, C: set<PoolId>, s: StateId)
    requires Inv(w) && Agree(w, v, C) && s in w.pending && s in w.endpoints && s.pool in C
    ensures Agree(Flushed(w, s), v, C)
  {
    assert EndpointOk(w, s);
    CandidateStateIsPrivate(w, v, C, s.pool, s.index);
    CandidateInvalidationStaysInside(w.(pending := w.pending - multiset{s}), v, C, s);
  }

  // ------------------------------------------------------------ outside steps do not notice

  /** The same endpoint, invalidation and ledger, written into both worlds. */
  lemma OutsideReplacement(w: World, v: World, C: set<PoolId>, s: StateId, e': Endpoint, bump: bool, g: multiset<Slot>)
    requires Agree(w, v, C) && s in v.endpoints
    ensures var more := if bump then multiset{s} else multiset{};
            Agree(w.(endpoints := w.endpoints[s := e'], pending := w.pending + more, granted := g),
                  v.(endpoints := v.endpoints[s := e'], pending := v.pending + more, granted := g), C)
  {}

  lemma TouchIsReplacement(w: World, s: StateId, ev: Event)
    requires s in w.endpoints
    ensures var e := w.endpoints[s];
            var more := if Bumps(e, ev, w.clock) then multiset{s} else multiset{};
            Touch(w, s, ev) ==
            w.(endpoints := w.endpoints[s := Apply(e, ev, w.clock)], pending := w.pending + more, granted := w.granted)
  {
    assert w.pending + multiset{} == w.pending;
  }

  lemma OutsideTouch(w: World, v: World, C: set<PoolId>, s: StateId, ev: Event)
    requires Agree(w, v, C) && s in v.endpoints
    ensures s in w.endpoints && Agree(Touch(w, s, ev), Touch(v, s, ev), C)
  {
    var e := v.endpoints[s];
    TouchIsReplacement(w, s, ev);
    TouchIsReplacement(v, s, ev);
    OutsideReplacement(w, v, C, s, Apply(e, ev, v.clock), Bumps(e, ev, v.clock), v.granted);
  }

  lemma OutsideLedger(w: World, v: World, C: set<PoolId>, g: multiset<Slot>)
    requires Agree(w, v, C)
    ensures Agree(w.(granted := g), v.(granted := g), C)
  {}

  lemma OutsideInvalidation(w: World, v: World, C: set<PoolId>, s: StateId)
    requires Agree(w, v, C) && s in v.endpoints
    ensures s in w.endpoints && Agree(Invalidate(w, s), Invalidate(v, s), C)
  {}

  lemma OutsidePool(w: World, v: World, C: set<PoolId>, p: PoolId, pool: Pool)
    requires Agree(w, v, C) && p !in C
    ensures Agree(PutPool(w, p, pool), PutPool(v, p, pool), C)
  {}

  /** A backend outside the candidate never points into it. */
  lemma OutsideBackend(w: World, v: World, C: set<PoolId>, p: PoolId, i: nat)
    requires Inv(v) && Agree(w, v, C) && p !in C && At(w, p, i)
    ensures Backed(v, p, i) && Backed(w, p, i) && StateOf(v, p, i) == StateOf(w, p, i)
    ensures v.endpoints[StateOf(v, p, i)] == w.endpoints[StateOf(w, p, i)]
  {
    assert At(v, p, i) && BackendOk(v, p, i);
  }

  /** An action depends on nothing but its backend, the pool and lease around it, the clock and the ledger. */
  lemma SameBackendSameAction(w: World, v: World, p: PoolId, i: nat, action: Action)
    requires ActionEnabled(w, p, i, action) && Backed(v, p, i) && StateOf(v, p, i) == StateOf(w, p, i)
    requires v.endpoints[StateOf(v, p, i)] == w.endpoints[StateOf(w, p, i)] && v.pools[p] == w.pools[p]
    requires (p in v.leases <==> p in w.leases) && (p in v.leases ==> v.leases[p] == w.leases[p])
    requires v.clock == w.clock && v.granted == w.granted
    ensures ActionEnabled(v, p, i, action) && EventOf(v, p, i, action) == EventOf(w, p, i, action)
    ensures GrantedAfter(v, p, i, action) == GrantedAfter(w, p, i, action)
  {}

  lemma OutsideActionEnabled(w: World, v: World, C: set<PoolId>, p: PoolId, i: nat, action: Action)
    requires Inv(v) && Agree(w, v, C) && p !in C && ActionEnabled(w, p, i, action)
    ensures ActionEnabled(v, p, i, action)
    ensures StateOf(v, p, i) == StateOf(w, p, i) && EventOf(v, p, i, action) == EventOf(w, p, i, action)
    ensures GrantedAfter(v, p, i, action) == GrantedAfter(w, p, i, action)
  {
    OutsideBackend(w, v, C, p, i);
    SameBackendSameAction(w, v, p, i, action);
  }

  lemma OutsideAction(w: World, v: World, C: set<PoolId>, p: PoolId, i: nat, action: Action)
    requires Inv(v) && Agree(w, v, C) && p !in C && ActionEnabled(w, p, i, action)
    ensures ActionEnabled(v, p, i, action)
    ensures Agree(Acted(w, p, i, action), Acted(v, p, i, action), C)
  {
    OutsideActionEnabled(w, v, C, p, i, action);
    var s := StateOf(v, p, i);
    var ev := EventOf(v, p, i, action);
    OutsideTouch(w, v, C, s, ev);
    OutsideLedger(Touch(w, s, ev), Touch(v, s, ev), C, GrantedAfter(v, p, i, action));
  }

  lemma SamePoolSameMove(w: World, v: World, p: PoolId, move: Move)
    requires MoveEnabled(w, p, move) && p in v.pools && v.pools[p] == w.pools[p] && v.clock == w.clock
    requires move.NoteDeadline? || move.Scan? ==>
               var i := w.pools[p].section.index;
               Backed(v, p, i) && v.endpoints[StateOf(v, p, i)] == w.endpoints[StateOf(w, p, i)]
    ensures MoveEnabled(v, p, move) && Moved(v, p, move) == Moved(w, p, move)
  {}

  lemma OutsideMove(w: World, v: World, C: set<PoolId>, p: PoolId, move: Move)
    requires Inv(v) && Agree(w, v, C) && p !in C && MoveEnabled(w, p, move)
    ensures MoveEnabled(v, p, move)
    ensures Agree(PutPool(w, p, Moved(w, p, move)), PutPool(v, p, Moved(v, p, move)), C)
  {
    if move.NoteDeadline? || move.Scan? {
      OutsideBackend(w, v, C, p, w.pools[p].section.index);
    }
    SamePoolSameMove(w, v, p, move);
    OutsidePool(w, v, C, p, Moved(w, p, move));
  }

  lemma OutsideSettle(w: World, v: World, C: set<PoolId>, p: PoolId)
    requires Inv(v) && Agree(w, v, C) && p !in C && SettleEnabled(w, p)
    ensures SettleEnabled(v, p) && Agree(SettleEntry(w, p), SettleEntry(v, p), C)
  {
    var pool := w.pools[p];
    OutsideBackend(w, v, C, p, pool.section.index);
    var s := StateOf(w, p, pool.section.index);
    var e' := Apply(w.endpoints[s], Recover(pool.section.asOf), w.clock);
    OutsideRecovery(w, v, C, p, s, e', pool.(section := pool.section.(settled := true)));
  }

  lemma OutsidePut(w: World, v: World, C: set<PoolId>, p: PoolId, s: StateId, e': Endpoint, pool: Pool)
    requires Agree(w, v, C) && p in v.pools && s in v.endpoints
    ensures s in w.endpoints
    ensures Agree(w.(endpoints := w.endpoints[s := e'], pools := w.pools[p := pool]),
                  v.(endpoints := v.endpoints[s := e'], pools := v.pools[p := pool]), C)
  {}

  lemma OutsideRecovery(w: World, v: World, C: set<PoolId>, p: PoolId, s: StateId, e': Endpoint, pool: Pool)
    requires Agree(w, v, C) && p in v.pools && s in v.endpoints
    ensures s in w.endpoints
    ensures var m := w.(endpoints := w.endpoints[s := e'], pools := w.pools[p := pool]);
            var n := v.(endpoints := v.endpoints[s := e'], pools := v.pools[p := pool]);
            Agree(m, n, C) && Agree(Invalidate(m, s), Invalidate(n, s), C)
  {
    OutsidePut(w, v, C, p, s, e', pool);
    OutsideInvalidation(w.(endpoints := w.endpoints[s := e'], pools := w.pools[p := pool]),
                        v.(endpoints := v.endpoints[s := e'], pools := v.pools[p := pool]), C, s);
  }

  lemma OutsideLease(w: World, v: World, C: set<PoolId>, p: PoolId, lease: Lease)
    requires Agree(w, v, C) && p !in C
    ensures Agree(w.(leases := w.leases[p := lease]), v.(leases := v.leases[p := lease]), C)
  {}

  lemma OutsideReleaseEnabled(w: World, v: World, C: set<PoolId>, p: PoolId)
    requires Inv(v) && Agree(w, v, C) && p !in C && ReleaseEnabled(w, p)
    ensures ReleaseEnabled(v, p) && v.leases[p] == w.leases[p]
    ensures v.leases[p].entries[v.leases[p].released].shared in v.endpoints
  {
    var lease := v.leases[p];
    assert LeaseOk(v, p) && EntryOk(v, p, lease.released);
    assert KeyOk(v, lease.entries[lease.released].key);
  }

  /** References differ while the candidate holds some; what a release does outside it does not. */
  lemma OutsideRelease(w: World, v: World, C: set<PoolId>, p: PoolId)
    requires Inv(v) && Agree(w, v, C) && p !in C && ReleaseEnabled(w, p)
    ensures ReleaseEnabled(v, p) && Agree(ReleaseEntry(w, p), ReleaseEntry(v, p), C)
  {
    OutsideReleaseEnabled(w, v, C, p);
    var lease := v.leases[p];
    var s := lease.entries[lease.released].shared;
    if lease.active {
      OutsideTouch(w, v, C, s, Detach(p));
      OutsideLease(Touch(w, s, Detach(p)), Touch(v, s, Detach(p)), C, p, lease.(released := lease.released + 1));
    } else {
      OutsideLease(w, v, C, p, lease.(released := lease.released + 1));
    }
    AgreeIgnoresRegistry(w, v, C, p);
  }

  lemma AgreeIgnoresRegistry(w: World, v: World, C: set<PoolId>, p: PoolId)
    requires ReleaseEnabled(w, p) && ReleaseEnabled(v, p) && v.leases[p] == w.leases[p]
    requires var lease := v.leases[p].(released := v.leases[p].released + 1);
             var s := v.leases[p].entries[v.leases[p].released].shared;
             var w1 := if lease.active then Touch(w, s, Detach(p)) else w;
             var v1 := if lease.active then Touch(v, s, Detach(p)) else v;
             Agree(w1.(leases := w1.leases[p := lease]), v1.(leases := v1.leases[p := lease]), C)
    ensures Agree(ReleaseEntry(w, p), ReleaseEntry(v, p), C)
  {}

  /** Steps outside the candidate are possible, and have the same effect, whether or not it exists. */
  lemma OutsideStepDoesNotNotice(w: World, v: World, C: set<PoolId>, st: Step)
    requires Inv(v) && Agree(w, v, C) && Enabled(w, st) && OutsideStep(st, C)
    ensures Enabled(v, st) && Agree(Next(w, st), Next(v, st), C)
  {
    if Traffic(st) {
      OutsideTraffic(w, v, C, st);
    } else {
      OutsideClosing(w, v, C, st);
    }
  }

  lemma OutsideTraffic(w: World, v: World, C: set<PoolId>, st: Step)
    requires Inv(v) && Agree(w, v, C) && Enabled(w, st) && OutsideStep(st, C) && Traffic(st)
    ensures Enabled(v, st) && Agree(Next(w, st), Next(v, st), C)
  {
    match st
    case Tick(now) =>
    case OnBackend(p, i, action) => OutsideAction(w, v, C, p, i, action);
    case Flush(s) => OutsideFlush(w, v, C, s);
    case OnPool(p, move) => OutsideMove(w, v, C, p, move);
    case Settle(p) => OutsideSettle(w, v, C, p);
  }

  lemma OutsideClosing(w: World, v: World, C: set<PoolId>, st: Step)
    requires Inv(v) && Agree(w, v, C) && Enabled(w, st) && OutsideStep(st, C) && !Traffic(st)
    ensures Enabled(v, st) && Agree(Next(w, st), Next(v, st), C)
  {
    match st
    case BeginClose(p) => OutsideClose(w, v, C, p);
    case CloseNext(p) => OutsideRelease(w, v, C, p);
  }

  lemma OutsideFlush(w: World, v: World, C: set<PoolId>, s: StateId)
    requires Agree(w, v, C) && s in w.pending && s in w.endpoints && s.pool !in C
    ensures s in v.pending && s in v.endpoints && Agree(Flushed(w, s), Flushed(v, s), C)
  {
    OutsideInvalidation(w.(pending := w.pending - multiset{s}), v.(pending := v.pending - multiset{s}), C, s);
  }

  lemma OutsideClose(w: World, v: World, C: set<PoolId>, p: PoolId)
    requires Inv(v) && Agree(w, v, C) && p !in C && Enabled(w, BeginClose(p))
    ensures Enabled(v, BeginClose(p))
    ensures Agree(Next(w, BeginClose(p)), Next(v, BeginClose(p)), C)
  {
    assert LeaseOk(v, p);
    OutsideLease(w, v, C, p, w.leases[p].(closed := true));
  }

  // ------------------------------------------------------------ whole runs

  /** The run without the candidate's steps. */
  function Erased(steps: seq<Step>, C: set<PoolId>): seq<Step>
    decreases |steps|
  {
    if steps == [] then []
    else if CandidateStep(steps[0], C) then Erased(steps[1..], C)
    else [steps[0]] + Erased(steps[1..], C)
  }

  /** What becomes of the world without the candidate when the other takes a step. */
  function Shadow(v: World, st: Step, C: set<PoolId>): World {
    if CandidateStep(st, C) || !Enabled(v, st) then v else Next(v, st)
  }

  lemma ShadowFollows(w: World, v: World, st: Step, C: set<PoolId>)
    requires Inv(w) && Inv(v) && Agree(w, v, C) && Enabled(w, st)
    requires CandidateStep(st, C) || OutsideStep(st, C)
    ensures Inv(Next(w, st)) && Inv(Shadow(v, st, C)) && Agree(Next(w, st), Shadow(v, st, C), C)
    ensures !CandidateStep(st, C) ==> Enabled(v, st)
  {
    StepKeepsInv(w, st);
    if CandidateStep(st, C) {
      CandidateStepStaysInside(w, v, C, st);
    } else {
      OutsideStepDoesNotNotice(w, v, C, st);
      StepKeepsInv(v, st);
    }
  }

  lemma ErasedRuns(v: World, steps: seq<Step>, C: set<PoolId>)
    requires steps != [] && (CandidateStep(steps[0], C) || Enabled(v, steps[0]))
    requires Run(Shadow(v, steps[0], C), Erased(steps[1..], C))
    ensures Run(v, Erased(steps, C))
    ensures Final(v, Erased(steps, C)) == Final(Shadow(v, steps[0], C), Erased(steps[1..], C))
  {
    if !CandidateStep(steps[0], C) {
      assert ([steps[0]] + Erased(steps[1..], C))[1..] == Erased(steps[1..], C);
    }
  }

  /** A run that tries to build `C` is, seen from outside, the run that never tried. */
  lemma {:induction false} CandidateIsInvisible(w: World, v: World, steps: seq<Step>, C: set<PoolId>)
    requires Inv(w) && Inv(v) && Agree(w, v, C) && Run(w, steps)
    requires forall k | 0 <= k < |steps| :: CandidateStep(steps[k], C) || OutsideStep(steps[k], C)
    ensures Run(v, Erased(steps, C))
    ensures Agree(Final(w, steps), Final(v, Erased(steps, C)), C)
    decreases |steps|
  {
    if steps != [] {
      var st := steps[0];
      ShadowFollows(w, v, st, C);
      CandidateIsInvisible(Next(w, st), Shadow(v, st, C), steps[1..], C);
      ErasedRuns(v, steps, C);
    }
  }

  predicate GivenUpAll(w: World, C: set<PoolId>) {
    forall c | c in C && c in w.leases :: w.leases[c].released == |w.leases[c].entries|
  }

  predicate SameAt(w: World, v: World, key: Identity) {
    && (key in w.registry <==> key in v.registry)
    && (key in w.registry ==>
          w.registry[key] == v.registry[key] && Refs(w, w.registry[key]) == Refs(v, v.registry[key]))
  }

  /** What is registered, and how often it is referenced, is determined by the open leases. */
  lemma RegistryDetermined(w: World, v: World, C: set<PoolId>, key: Identity)
    requires Inv(w) && Inv(v) && Agree(w, v, C) && GivenUpAll(w, C)
    ensures SameAt(w, v, key)
  {
    assert Holders(w, key) == Holders(v, key);
    if key in w.registry || key in v.registry {
      if key in w.registry { assert KeyOk(w, key); } else { assert KeyOk(v, key); }
      var t :| t in Holders(w, key);
      SameRegistration(w, v, t, key);
      assert KeyOk(w, key) && KeyOk(v, key);
    }
  }

  lemma SameRegistration(w: World, v: World, t: PoolId, key: Identity)
    requires LeasesInv(w) && LeasesInv(v) && t in Holders(w, key) && t in v.leases && v.leases[t] == w.leases[t]
    ensures key in w.registry && key in v.registry && w.registry[key] == v.registry[key]
  {
    var j :| w.leases[t].released <= j < |w.leases[t].entries| && w.leases[t].entries[j].key == key;
    assert EntryOk(w, t, j) && EntryOk(v, t, j);
  }

  lemma SameEverywhere(w: World, v: World)
    requires forall key :: SameAt(w, v, key)
    ensures w.registry == v.registry
    ensures forall key | key in w.registry :: Refs(w, w.registry[key]) == Refs(v, w.registry[key])
  {
    forall key | key in w.registry || key in v.registry
      ensures key in w.registry && key in v.registry && w.registry[key] == v.registry[key]
      ensures Refs(w, w.registry[key]) == Refs(v, w.registry[key])
    {
      assert SameAt(w, v, key);
    }
  }

  lemma RegistriesAgree(w: World, v: World, C: set<PoolId>)
    requires Inv(w) && Inv(v) && Agree(w, v, C) && GivenUpAll(w, C)
    ensures forall key :: SameAt(w, v, key)
  {
    forall key ensures SameAt(w, v, key) {
      RegistryDetermined(w, v, C, key);
    }
  }

  /**
   A failed or cancelled apply is a no-op, whatever else happens meanwhile: pools, endpoints and leases
   of all generations, slots in flight, the registry and its counts are those of the run without it.
   */
  lemma FailedApplyIsNoOp(w: World, steps: seq<Step>, C: set<PoolId>)
    requires Inv(w) && Run(w, steps)
    requires forall c | c in C :: c !in w.pools
    requires forall k | 0 <= k < |steps| :: CandidateStep(steps[k], C) || OutsideStep(steps[k], C)
    requires GivenUpAll(Final(w, steps), C)
    ensures Run(w, Erased(steps, C))
    ensures Agree(Final(w, steps), Final(w, Erased(steps, C)), C)
    ensures Final(w, steps).registry == Final(w, Erased(steps, C)).registry
    ensures forall key | key in Final(w, steps).registry ::
              Refs(Final(w, steps), Final(w, steps).registry[key])
              == Refs(Final(w, Erased(steps, C)), Final(w, steps).registry[key])
  {
    NoCandidateYet(w, C);
    CandidateIsInvisible(w, w, steps, C);
    RunKeepsInv(w, steps);
    RunKeepsInv(w, Erased(steps, C));
    RegistriesAgree(Final(w, steps), Final(w, Erased(steps, C)), C);
    SameEverywhere(Final(w, steps), Final(w, Erased(steps, C)));
  }

  lemma NoCandidateYet(w: World, C: set<PoolId>)
    requires Inv(w) && forall c | c in C :: c !in w.pools
    ensures Agree(w, w, C)
  {
    assert forall s | s in w.endpoints :: EndpointOk(w, s);
    assert forall p | p in w.leases :: LeaseOk(w, p);
  }
}
