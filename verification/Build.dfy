/**
 Building a candidate configuration: `buildCluster` and `buildSnapshot` of `internal/gateway/runtime.go`, and
 the activation of what they built.

 Everything they do is a step of the shared world, and after each of their steps others take whatever steps
 the world allows outside the candidate. Errors of transports, strategies, health checkers, probes and routes
 are inputs.
 */
module Builds {
  import opened Common
  import opened Generations
  import opened Endpoints
  import opened GenerationRuns
  import opened FailedApply
  import opened Candidates
  import opened Drafts

  /** Reserved in full and not yet activated. */
  predicate Reserved(w: World, p: PoolId) {
    Unactivated(w, p) && |w.leases[p].entries| == |w.pools[p].all|
  }

  /** Never leased, or given up and completely released. */
  predicate Gone(w: World, p: PoolId) {
    p in w.leases ==> !w.leases[p].active && w.leases[p].closed && w.leases[p].released == |w.leases[p].entries|
  }

  /** The lease is being given up, with `r` of its entries released. */
  predicate Closing(w: World, p: PoolId, entries: seq<Reservation>, r: nat) {
    && p in w.leases && !w.leases[p].active && w.leases[p].closed
    && w.leases[p].entries == entries && w.leases[p].released == r
  }

  lemma ReleaseIsPossible(w: World, p: PoolId, entries: seq<Reservation>, r: nat)
    requires Inv(w) && Closing(w, p, entries, r) && r < |entries|
    ensures ReleaseEnabled(w, p)
  {
    assert LeaseOk(w, p) && EntryOk(w, p, r);
    assert KeyOk(w, w.leases[p].entries[r].key);
  }

  lemma ReleaseProgresses(w: World, w': World, p: PoolId, entries: seq<Reservation>, r: nat)
    requires Closing(w, p, entries, r) && ReleaseEnabled(w, p) && Aside(ReleaseEntry(w, p), w', p)
    ensures Closing(w', p, entries, r + 1)
  {}

  /** Nothing but `p` has changed among the candidate's pools. */
  predicate OthersAside(w: World, w': World, C: set<PoolId>, p: PoolId) {
    forall q | q in C && q != p :: Aside(w, w', q)
  }

  lemma NamesTransitive(a: Pool, b: Pool, c: Pool)
    requires SameNames(a, b) && SameNames(b, c)
    ensures SameNames(a, c)
  {
    forall i | 0 <= i < |a.all| ensures SameName(a.all[i], c.all[i]) {
      assert SameName(a.all[i], b.all[i]) && SameName(b.all[i], c.all[i]);
    }
  }

  lemma AsideTransitive(w: World, w': World, w'': World, C: set<PoolId>, p: PoolId)
    requires OthersAside(w, w', C, p) && OthersAside(w', w'', C, p)
    ensures OthersAside(w, w'', C, p)
  {
    forall q | q in C && q != p ensures Aside(w, w'', q) {
      assert Aside(w, w', q) && Aside(w', w'', q);
      if q in w.pools { NamesTransitive(w.pools[q], w'.pools[q], w''.pools[q]); }
    }
  }

  class Builder {
    const schedule: nat -> seq<Step>
    var turn: nat
    var world: World
    var candidate: set<PoolId>
    ghost var past: seq<Step>
    ghost var steps: seq<Step>

    /** `past` led to the world in which this candidate was begun, and `steps` from there to here. */
    ghost predicate Valid()
      reads this
    {
      && Run(EmptyWorld, past) && Run(Final(EmptyWorld, past), steps) && Final(Final(EmptyWorld, past), steps) == world
      && SettledBut(world, candidate)
    }

    /** The candidate is still private: its pools are new and none of its leases has been activated. */
    ghost predicate Hidden()
      requires Run(EmptyWorld, past)
      reads this
    {
      (forall c | c in candidate :: c !in Final(EmptyWorld, past).pools) && AllAllowed(steps, candidate)
    }

    constructor (schedule: nat -> seq<Step>)
      ensures Valid() && world == EmptyWorld && candidate == {} && past == [] && steps == []
    {
      this.schedule, turn, world, candidate := schedule, 0, EmptyWorld, {};
      past, steps := [], [];
    }

    /** One step of the shared world. */
    method Take(st: Step)
      requires Valid() && Enabled(world, st) && (st.OpenLease? ==> st.p in candidate)
      modifies this`world, this`steps
      ensures Valid() && world == Next(old(world), st) && steps == old(steps) + [st]
      ensures old(Hidden()) && (CandidateStep(st, candidate) || OutsideStep(st, candidate)) ==> Hidden()
    {
      Extends(past, steps, st, candidate);
      steps := steps + [st];
      world := Next(world, st);
    }

    /** Others go on outside the candidate. */
    method Others()
      requires Valid()
      modifies this`world, this`steps, this`turn
      ensures Valid() && AllAside(old(world), world, candidate)
      ensures old(Hidden()) ==> Hidden() && AllKept(old(world), world, candidate)
    {
      var batch := schedule(turn);
      turn := turn + 1;
      KeptNothing(world, candidate);
      for k := 0 to |batch|
        invariant Valid() && AllAside(old(world), world, candidate)
        invariant old(Hidden()) ==> Hidden() && AllKept(old(world), world, candidate)
      {
        if OutsideStep(batch[k], candidate) && Enabled(world, batch[k]) {
          ghost var w := world;
          Other(batch[k]);
          AllAsideTransitive(old(world), w, world, candidate);
          if old(Hidden()) { KeptTransitive(old(world), w, world, candidate); }
        }
      }
    }

    method Other(st: Step)
      requires Valid() && OutsideStep(st, candidate) && Enabled(world, st)
      modifies this`world, this`steps
      ensures Valid() && AllAside(old(world), world, candidate)
      ensures old(Hidden()) ==> Hidden() && AllKept(old(world), world, candidate)
    {
      forall q | q in candidate ensures Aside(world, Next(world, st), q) {
        StepIsAside(world, st, q);
      }
      if Hidden() {
        HiddenIsUntouched(past, steps, candidate, st);
      }
      Take(st);
    }

    /** A step of the candidate, after which others have their turn. */
    method Act(st: Step, p: PoolId)
      requires Valid() && Hidden() && Enabled(world, st) && CandidateStep(st, candidate) && p in candidate
      requires About(st) == None || About(st) == Some(p)
      modifies this`world, this`steps, this`turn
      ensures Valid() && Hidden() && Kept(Next(old(world), st), world, p)
      ensures OthersAside(old(world), world, candidate, p)
    {
      forall q | q in candidate && q != p ensures Aside(world, Next(world, st), q) {
        StepIsAside(world, st, q);
      }
      Take(st);
      ghost var w := world;
      Others();
      AsideTransitive(old(world), w, world, candidate, p);
    }

    /** `NewBackendPool` */
    method Create(p: PoolId, plan: ClusterPlan)
      requires Valid() && Hidden() && p in candidate && p !in world.pools && ValidSpecs(plan.specs)
      modifies this`world, this`steps, this`turn
      ensures Valid() && Hidden() && OthersAside(old(world), world, candidate, p)
      ensures p in world.pools && p !in world.leases && world.pools[p].section.Free? && Named(world.pools[p], plan)
      ensures Keeps(world, p, plan, NewStates(p, plan), {})
    {
      ghost var w, before := world, steps;
      Act(CreatePool(p, plan.specs, plan.policy), p);
      assert p in world.pools && p !in world.leases && world.pools[p].section.Free? && Named(world.pools[p], plan)
          && Keeps(world, p, plan, NewStates(p, plan), {}) by {
        Sound(past, before);
        Reached(past, before);
        CreationKeeps(w, p, plan);
        KeptStates(CreatedPool(w, p, plan.specs, plan.policy), world, p, plan, NewStates(p, plan), {});
      }
    }

    /** `Reserve`, under a cluster id no other lease of the candidate has. */
    method Reserve(p: PoolId, plan: ClusterPlan, ghost es: seq<Endpoint>)
      requires Valid() && Hidden() && p in candidate && p in world.pools && Named(world.pools[p], plan)
      requires world.pools[p].section.Free? && p !in world.leases && Keeps(world, p, plan, es, {})
      requires forall q | q in candidate && q in world.leases :: world.leases[q].scope != plan.id
      modifies this`world, this`steps, this`turn
      ensures Valid() && Hidden() && OthersAside(old(world), world, candidate, p)
      ensures p in world.leases && Drafted(world, p, plan, world.leases[p].entries, es) && world.pools[p].section.Free?
    {
      OpeningIsPossible(world, candidate, plan.id);
      Act(OpenLease(p, plan.id), p);
      OpeningKeeps(old(world), world, p, plan, es);
      for k := 0 to |plan.specs|
        invariant Valid() && Hidden() && OthersAside(old(world), world, candidate, p)
        invariant p in world.leases && Leased(world, p, plan, world.leases[p].entries) && |world.leases[p].entries| == k
        invariant Named(world.pools[p], plan) && world.pools[p].section.Free? && Keeps(world, p, plan, es, {})
      {
        ghost var w := world;
        ReserveExtends(world, p, plan, world.leases[p].entries, es);
        Act(ReserveNext(p), p);
        KeptStates(ReserveEntry(w, p), world, p, plan, es, {});
        AsideTransitive(old(world), w, world, candidate, p);
      }
    }

    /** `Close` on a lease that was never activated. */
    method Close(p: PoolId)
      requires Valid() && Hidden() && p in candidate && Unactivated(world, p)
      modifies this`world, this`steps, this`turn
      ensures Valid() && Hidden() && OthersAside(old(world), world, candidate, p)
      ensures Closing(world, p, old(world).leases[p].entries, |old(world).leases[p].entries|)
    {
      ghost var entries := world.leases[p].entries;
      var k := |world.leases[p].entries|;
      assert world.leases[p].released == 0 by {
        Sound(past, steps);
        assert LeaseOk(world, p);
      }
      Act(BeginClose(p), p);
      for r := 0 to k
        invariant Valid() && Hidden() && OthersAside(old(world), world, candidate, p)
        invariant Closing(world, p, entries, r)
      {
        ghost var w := world;
        assert ReleaseEnabled(world, p) by {
          Sound(past, steps);
          ReleaseIsPossible(world, p, entries, r);
        }
        Act(CloseNext(p), p);
        ReleaseProgresses(w, world, p, entries, r);
        AsideTransitive(old(world), w, world, candidate, p);
      }
    }

    /** A change of a private backend, and then the invalidation it may call for. */
    method Touch(p: PoolId, plan: ClusterPlan, i: nat, action: Action, ghost entries: seq<Reservation>, ghost es: seq<Endpoint>)
      requires Valid() && Hidden() && p in candidate && Drafted(world, p, plan, entries, es) && i < |plan.specs|
      requires (action.MarkAlive? || action.ReportProbe?) && world.pools[p].section.Free?
      modifies this`world, this`steps, this`turn
      ensures Valid() && Hidden() && OthersAside(old(world), world, candidate, p)
      ensures Drafted(world, p, plan, entries, es[i := Touched(es[i], p, action)]) && world.pools[p].section.Free?
    {
      assert world.clock >= 1 by { Reached(past, steps); }
      ActionKeeps(world, p, plan, es, i, action);
      Act(OnBackend(p, i, action), p);
      ghost var es' := es[i := Touched(es[i], p, action)];
      ghost var owed: set<nat> := if Bumps(es[i], ActionEvent(p, action), 1) then {i} else {};
      KeptStates(Acted(old(world), p, i, action), world, p, plan, es', owed);
      FlushIfOwed(p, plan, i, entries, es', owed, old(world));
    }

    method FlushIfOwed(p: PoolId, plan: ClusterPlan, i: nat, ghost entries: seq<Reservation>, ghost es: seq<Endpoint>,
                       ghost owed: set<nat>, ghost start: World)
      requires Valid() && Hidden() && p in candidate && Keeps(world, p, plan, es, owed) && i < |es| && (owed == {} || owed == {i})
      requires Leased(world, p, plan, entries) && |entries| == |plan.specs| && Named(world.pools[p], plan)
      requires world.pools[p].section.Free? && OthersAside(start, world, candidate, p)
      modifies this`world, this`steps, this`turn
      ensures Valid() && Hidden() && OthersAside(start, world, candidate, p)
      ensures Drafted(world, p, plan, entries, es) && world.pools[p].section.Free?
    {
      var s := StateId(p, i);
      assert KeepsAt(world, p, plan, es, owed, i);
      if s in world.pending {
        ghost var w := world;
        FlushKeeps(world, p, plan, es, i);
        Act(Flush(s), p);
        NamesStay(w.pools[p], Flushed(w, s).pools[p], plan);
        KeptDraft(Flushed(w, s), world, p, plan, entries, es);
        AsideTransitive(start, w, world, candidate, p);
      }
    }

    /** Without health checks every backend counts as alive. */
    method MarkAll(p: PoolId, plan: ClusterPlan, ghost entries: seq<Reservation>, ghost es0: seq<Endpoint>) returns (ghost es: seq<Endpoint>)
      requires Valid() && Hidden() && p in candidate && Drafted(world, p, plan, entries, es0) && world.pools[p].section.Free?
      modifies this`world, this`steps, this`turn
      ensures Valid() && Hidden() && OthersAside(old(world), world, candidate, p)
      ensures Drafted(world, p, plan, entries, es) && world.pools[p].section.Free?
      ensures forall i | 0 <= i < |es| :: es[i].healthy
    {
      es := es0;
      for i := 0 to |plan.specs|
        invariant Valid() && Hidden() && OthersAside(old(world), world, candidate, p)
        invariant Drafted(world, p, plan, entries, es) && world.pools[p].section.Free?
        invariant forall j | 0 <= j < i :: es[j].healthy
      {
        ghost var w := world;
        Touch(p, plan, i, MarkAlive, entries, es);
        es := es[i := Touched(es[i], p, MarkAlive)];
        AsideTransitive(old(world), w, world, candidate, p);
      }
    }

    /** One round of `CheckBackends` over the backends to be probed. */
    method ProbeRound(p: PoolId, plan: ClusterPlan, trouble: Trouble, reuse: seq<bool>, round: nat,
                      ghost entries: seq<Reservation>, ghost es0: seq<Endpoint>) returns (ghost es: seq<Endpoint>)
      requires Valid() && Hidden() && p in candidate && Drafted(world, p, plan, entries, es0) && world.pools[p].section.Free?
      requires |reuse| == |plan.specs| && round < plan.successThreshold && ProbedUpTo(plan, trouble, reuse, es0, round, 0)
      modifies this`world, this`steps, this`turn
      ensures Valid() && Hidden() && OthersAside(old(world), world, candidate, p)
      ensures Drafted(world, p, plan, entries, es) && world.pools[p].section.Free?
      ensures ProbedUpTo(plan, trouble, reuse, es, round + 1, 0)
    {
      es := es0;
      for i := 0 to |plan.specs|
        invariant Valid() && Hidden() && OthersAside(old(world), world, candidate, p)
        invariant Drafted(world, p, plan, entries, es) && world.pools[p].section.Free?
        invariant ProbedUpTo(plan, trouble, reuse, es, round, i)
      {
        ghost var w := world;
        es := ProbeOne(p, plan, trouble, reuse, round, i, entries, es);
        AsideTransitive(old(world), w, world, candidate, p);
      }
    }

    method ProbeOne(p: PoolId, plan: ClusterPlan, trouble: Trouble, reuse: seq<bool>, round: nat, i: nat,
                    ghost entries: seq<Reservation>, ghost es0: seq<Endpoint>) returns (ghost es: seq<Endpoint>)
      requires Valid() && Hidden() && p in candidate && Drafted(world, p, plan, entries, es0) && world.pools[p].section.Free?
      requires |reuse| == |plan.specs| && round < plan.successThreshold && i < |plan.specs|
      requires ProbedUpTo(plan, trouble, reuse, es0, round, i)
      modifies this`world, this`steps, this`turn
      ensures Valid() && Hidden() && OthersAside(old(world), world, candidate, p)
      ensures Drafted(world, p, plan, entries, es) && world.pools[p].section.Free?
      ensures ProbedUpTo(plan, trouble, reuse, es, round, i + 1)
    {
      es := es0;
      var result := trouble.probe(round, i);
      if ToProbe(plan, reuse, i) {
        assert KeepsAt(world, p, plan, es0, {}, i);
        RoundCounts(es0[i], p, plan, trouble, i, round);
        if result.Some? {
          var report := ReportProbe(result.value, plan.successThreshold, plan.failureThreshold);
          Touch(p, plan, i, report, entries, es0);
          es := es0[i := Touched(es0[i], p, report)];
        }
      }
    }

    method ProbeAll(p: PoolId, plan: ClusterPlan, trouble: Trouble, reuse: seq<bool>,
                    ghost entries: seq<Reservation>, ghost es0: seq<Endpoint>) returns (ghost es: seq<Endpoint>)
      requires Valid() && Hidden() && p in candidate && Drafted(world, p, plan, entries, es0) && world.pools[p].section.Free?
      requires |reuse| == |plan.specs| && ProbedUpTo(plan, trouble, reuse, es0, 0, 0)
      modifies this`world, this`steps, this`turn
      ensures Valid() && Hidden() && OthersAside(old(world), world, candidate, p)
      ensures Drafted(world, p, plan, entries, es) && world.pools[p].section.Free?
      ensures ProbedUpTo(plan, trouble, reuse, es, plan.successThreshold, 0)
    {
      es := es0;
      for round := 0 to plan.successThreshold
        invariant Valid() && Hidden() && OthersAside(old(world), world, candidate, p)
        invariant Drafted(world, p, plan, entries, es) && world.pools[p].section.Free?
        invariant ProbedUpTo(plan, trouble, reuse, es, round, 0)
      {
        ghost var w := world;
        es := ProbeRound(p, plan, trouble, reuse, round, entries, es);
        AsideTransitive(old(world), w, world, candidate, p);
      }
    }

    /** The next move of the goroutine that holds the private pool's mutex. */
    method Move(p: PoolId, plan: ClusterPlan, move: Move, ghost entries: seq<Reservation>, ghost es: seq<Endpoint>)
      requires Valid() && Hidden() && p in candidate && Drafted(world, p, plan, entries, es) && MoveEnabled(world, p, move)
      modifies this`world, this`steps, this`turn
      ensures Valid() && Hidden() && OthersAside(old(world), world, candidate, p)
      ensures Drafted(world, p, plan, entries, es) && world.pools[p] == Moved(old(world), p, move)
    {
      Act(OnPool(p, move), p);
      MoveDrafts(old(world), world, p, plan, entries, es, move);
    }

    /** `refreshAvailableLocked` */
    method Refresh(p: PoolId, plan: ClusterPlan, ghost entries: seq<Reservation>, ghost es: seq<Endpoint>)
      requires Valid() && Hidden() && p in candidate && Drafted(world, p, plan, entries, es)
      requires world.pools[p].section.Free? || world.pools[p].section.Recovered?
      modifies this`world, this`steps, this`turn
      ensures Valid() && Hidden() && OthersAside(old(world), world, candidate, p)
      ensures Drafted(world, p, plan, entries, es) && world.pools[p].section.Free?
      ensures world.pools[p].cacheVersion == world.pools[p].stateVersion
    {
      Move(p, plan, BeginScan, entries, es);
      for k := 0 to |plan.specs|
        invariant Valid() && Hidden() && OthersAside(old(world), world, candidate, p)
        invariant Drafted(world, p, plan, entries, es) && world.pools[p].section.Scanning?
        invariant world.pools[p].section.index == k && world.pools[p].section.version == world.pools[p].stateVersion
      {
        ghost var w := world;
        DraftIsBacked(world, p, plan, entries, es, k);
        Move(p, plan, Scan, entries, es);
        AsideTransitive(old(world), w, world, candidate, p);
      }
      PublishCache(p, plan, entries, es, old(world));
    }

    method PublishCache(p: PoolId, plan: ClusterPlan, ghost entries: seq<Reservation>, ghost es: seq<Endpoint>, ghost start: World)
      requires Valid() && Hidden() && p in candidate && Drafted(world, p, plan, entries, es)
      requires var sec := world.pools[p].section;
               sec.Scanning? && sec.index == |plan.specs| && sec.version == world.pools[p].stateVersion
      requires OthersAside(start, world, candidate, p)
      modifies this`world, this`steps, this`turn
      ensures Valid() && Hidden() && OthersAside(start, world, candidate, p)
      ensures Drafted(world, p, plan, entries, es) && world.pools[p].section.Free?
      ensures world.pools[p].cacheVersion == world.pools[p].stateVersion
    {
      Move(p, plan, Publish, entries, es);
      ghost var w := world;
      Move(p, plan, Seal, entries, es);
      AsideTransitive(old(world), w, world, candidate, p);
      AsideTransitive(start, old(world), world, candidate, p);
    }

    /** One backend of `recoverExpiredEjections`. */
    method RecoverOne(p: PoolId, plan: ClusterPlan, k: nat, ghost entries: seq<Reservation>, ghost es: seq<Endpoint>)
      requires Valid() && Hidden() && p in candidate && Drafted(world, p, plan, entries, es) && k < |plan.specs|
      requires var sec := world.pools[p].section; sec.Recovering? && sec.index == k && !sec.settled
      modifies this`world, this`steps, this`turn
      ensures Valid() && Hidden() && OthersAside(old(world), world, candidate, p)
      ensures Drafted(world, p, plan, entries, es)
      ensures var sec := world.pools[p].section; sec.Recovering? && sec.index == k + 1 && !sec.settled
    {
      DraftIsBacked(world, p, plan, entries, es, k);
      Act(Settle(p), p);
      SettleDrafts(old(world), world, p, plan, entries, es);
      ghost var w := world;
      DraftIsBacked(world, p, plan, entries, es, k);
      Move(p, plan, NoteDeadline, entries, es);
      AsideTransitive(old(world), w, world, candidate, p);
    }

    method RecoverAll(p: PoolId, plan: ClusterPlan, ghost entries: seq<Reservation>, ghost es: seq<Endpoint>)
      requires Valid() && Hidden() && p in candidate && Drafted(world, p, plan, entries, es) && world.pools[p].section.Free?
      requires 0 < world.pools[p].nextRecovery <= world.clock
      modifies this`world, this`steps, this`turn
      ensures Valid() && Hidden() && OthersAside(old(world), world, candidate, p)
      ensures Drafted(world, p, plan, entries, es) && world.pools[p].section.Free?
    {
      Move(p, plan, BeginRecover(world.clock), entries, es);
      for k := 0 to |plan.specs|
        invariant Valid() && Hidden() && OthersAside(old(world), world, candidate, p)
        invariant Drafted(world, p, plan, entries, es)
        invariant var sec := world.pools[p].section; sec.Recovering? && sec.index == k && !sec.settled
      {
        ghost var w := world;
        RecoverOne(p, plan, k, entries, es);
        AsideTransitive(old(world), w, world, candidate, p);
      }
      ghost var w := world;
      Move(p, plan, FinishRecover, entries, es);
      AsideTransitive(old(world), w, world, candidate, p);
      w := world;
      Refresh(p, plan, entries, es);
      AsideTransitive(old(world), w, world, candidate, p);
    }

    /** `Ready` on the private pool: exactly if some backend is healthy and enabled. */
    method CheckReady(p: PoolId, plan: ClusterPlan, ghost entries: seq<Reservation>, ghost es: seq<Endpoint>) returns (ready: bool)
      requires Valid() && Hidden() && p in candidate && Drafted(world, p, plan, entries, es) && world.pools[p].section.Free?
      modifies this`world, this`steps, this`turn
      ensures Valid() && Hidden() && OthersAside(old(world), world, candidate, p)
      ensures Drafted(world, p, plan, entries, es) && world.pools[p].section.Free?
      ensures ready <==> exists i | 0 <= i < |es| :: es[i].healthy && !plan.specs[i].disabled
    {
      if 0 < world.pools[p].nextRecovery <= world.clock {
        RecoverAll(p, plan, entries, es);
      }
      ghost var w := world;
      if world.pools[p].stateVersion != world.pools[p].cacheVersion {
        Refresh(p, plan, entries, es);
        AsideTransitive(old(world), w, world, candidate, p);
      }
      ready := |world.pools[p].available| > 0;
      assert ready <==> exists i | 0 <= i < |es| :: es[i].healthy && !plan.specs[i].disabled by {
        Sound(past, steps);
        ReadyIff(world, p, plan, entries, es);
      }
    }

    /** The part of `buildCluster` after the reservation: it succeeds exactly if nothing fails and the cluster warms up. */
    method Warm(p: PoolId, plan: ClusterPlan, trouble: Trouble, reuse: seq<bool>, ghost entries: seq<Reservation>)
      returns (built: bool, ghost es: seq<Endpoint>)
      requires Valid() && Hidden() && p in candidate && |reuse| == |plan.specs|
      requires Drafted(world, p, plan, entries, NewStates(p, plan)) && world.pools[p].section.Free?
      modifies this`world, this`steps, this`turn
      ensures Valid() && Hidden() && OthersAside(old(world), world, candidate, p)
      ensures Drafted(world, p, plan, entries, es) && (built <==> WarmsUp(plan, trouble, reuse))
      ensures built ==> Warmed(plan, trouble, reuse, es)
    {
      es := NewStates(p, plan);
      built := false;
      if trouble.transport || trouble.strategy {
        return;
      }
      if !plan.probed {
        es := MarkAll(p, plan, entries, es);
        built := true;
      } else if !trouble.checker {
        NewStatesUnprobed(p, plan, trouble, reuse);
        built := true;
        if SomeProbed(plan, reuse) {
          built, es := WarmProbed(p, plan, trouble, reuse, entries, es);
        }
      }
    }

    method WarmProbed(p: PoolId, plan: ClusterPlan, trouble: Trouble, reuse: seq<bool>,
                      ghost entries: seq<Reservation>, ghost es0: seq<Endpoint>) returns (built: bool, ghost es: seq<Endpoint>)
      requires Valid() && Hidden() && p in candidate && |reuse| == |plan.specs| && plan.probed
      requires Drafted(world, p, plan, entries, es0) && world.pools[p].section.Free? && ProbedUpTo(plan, trouble, reuse, es0, 0, 0)
      modifies this`world, this`steps, this`turn
      ensures Valid() && Hidden() && OthersAside(old(world), world, candidate, p)
      ensures Drafted(world, p, plan, entries, es) && Warmed(plan, trouble, reuse, es)
      ensures built <==> !trouble.warmup && (SomeEnabled(plan) ==> SomeUsable(plan, trouble, reuse))
    {
      var reusesEnabled := exists i | 0 <= i < |plan.specs| :: !plan.specs[i].disabled && !ToProbe(plan, reuse, i);
      es := ProbeAll(p, plan, trouble, reuse, entries, es0);
      AllRoundsWarm(plan, trouble, reuse, es);
      if trouble.warmup {
        return false, es;
      }
      var enabled := exists i | 0 <= i < |plan.specs| :: !plan.specs[i].disabled;
      built := true;
      if enabled && !reusesEnabled {
        ghost var w := world;
        built := CheckReady(p, plan, entries, es);
        ReadyIsUsable(plan, trouble, reuse, es);
        AsideTransitive(old(world), w, world, candidate, p);
      }
    }

    /**
     `buildCluster`: it succeeds exactly if the plan fits, given which identities were already registered. On
     every other exit the lease, if there is one, has been closed; on success the cluster is reserved in full,
     lists the backends of its plan, and is as healthy as its probes found it.
     */
    method BuildCluster(p: PoolId, plan: ClusterPlan, trouble: Trouble) returns (built: bool)
      requires Valid() && Hidden() && p in candidate && p !in world.pools && p !in world.leases
      requires forall q | q in candidate && q in world.leases :: world.leases[q].scope != plan.id
      modifies this`world, this`steps, this`turn
      ensures Valid() && Hidden() && OthersAside(old(world), world, candidate, p)
      ensures built <==> Fit(plan, trouble, Reuse(world, p))
      ensures built ==> Built(world, p, plan) && Prepared(world, p, plan, trouble)
      ensures !built ==> Gone(world, p)
    {
      if trouble.pool || !ValidSpecs(plan.specs) {
        return false;
      }
      Create(p, plan);
      ghost var w := world;
      ScopesStayFresh(old(world), world, candidate, p, plan.id);
      Reserve(p, plan, NewStates(p, plan));
      AsideTransitive(old(world), w, world, candidate, p);
      w := world;
      ghost var es;
      ghost var entries := world.leases[p].entries;
      built, es := Warm(p, plan, trouble, Reuse(world, p), entries);
      AsideTransitive(old(world), w, world, candidate, p);
      assert Reuse(world, p) == Reuse(w, p);
      if built {
        DraftIsPrepared(world, p, plan, trouble, entries, es);
      } else {
        w := world;
        Close(p);
        AsideTransitive(old(world), w, world, candidate, p);
        assert Reuse(world, p) == Reuse(w, p);
      }
    }

    /** Starts a command: `C` are the pools it is going to build. */
    method Begin(C: set<PoolId>)
      requires Valid() && candidate == {} && forall c | c in C :: c !in world.pools
      modifies this`candidate, this`past, this`steps
      ensures Valid() && Hidden() && candidate == C && steps == []
      ensures Run(EmptyWorld, past) && Final(EmptyWorld, past) == world
    {
      RunConcat(EmptyWorld, past, steps);
      past, steps, candidate := past + steps, [], C;
    }

    /** Gives up the clusters built so far: the first `k` of the candidate. */
    method CloseAll(ids: seq<PoolId>, k: nat)
      requires Valid() && Hidden() && Distinct(ids) && k <= |ids| && candidate == SetOf(ids)
      requires (forall i | 0 <= i < k :: Reserved(world, ids[i])) && AllGone(world, ids, k)
      modifies this`world, this`steps, this`turn
      ensures Valid() && Hidden() && AllGone(world, ids, 0) && SameReuse(old(world), world, ids)
    {
      for j := 0 to k
        invariant Valid() && Hidden() && SameReuse(old(world), world, ids)
        invariant forall i | 0 <= i < j || k <= i < |ids| :: Gone(world, ids[i])
        invariant forall i | j <= i < k :: Reserved(world, ids[i])
      {
        ghost var w := world;
        Close(ids[j]);
        GoneAside(w, world, candidate, ids, j);
      }
    }

    /**
     `buildSnapshot`: the clusters are built one after the other; if one fails, or the routes do not compile,
     all those already built are closed again. It succeeds exactly if every cluster fits and the routes compile.
     */
    method BuildSnapshot(ids: seq<PoolId>, plans: seq<ClusterPlan>, troubles: seq<Trouble>, routesFail: bool)
      returns (built: bool)
      requires Valid() && Hidden() && Distinct(ids) && |ids| == |plans| == |troubles|
      requires candidate == SetOf(ids) && Unused(world, ids, 0) && DistinctIds(plans)
      modifies this`world, this`steps, this`turn
      ensures Valid() && Hidden()
      ensures built <==> !routesFail && AllFit(world, ids, plans, troubles, |ids|)
      ensures built ==> AllBuilt(world, ids, plans, |ids|)
      ensures !built ==> AllGone(world, ids, 0)
    {
      var k := BuildAll(ids, plans, troubles);
      built := k == |ids| && !routesFail;
      if !built {
        GiveUp(ids, plans, troubles, k);
      }
    }

    /** Builds clusters until one fails, and returns how many were built. */
    method BuildAll(ids: seq<PoolId>, plans: seq<ClusterPlan>, troubles: seq<Trouble>) returns (k: nat)
      requires Valid() && Hidden() && Distinct(ids) && |ids| == |plans| == |troubles|
      requires candidate == SetOf(ids) && Unused(world, ids, 0) && DistinctIds(plans)
      modifies this`world, this`steps, this`turn
      ensures Valid() && Hidden() && k <= |ids| && AllFit(world, ids, plans, troubles, k)
      ensures AllBuilt(world, ids, plans, k) && AllGone(world, ids, k)
      ensures k < |ids| ==> !Fit(plans[k], troubles[k], Reuse(world, ids[k]))
    {
      for j := 0 to |ids|
        invariant Valid() && Hidden() && Unused(world, ids, j)
        invariant AllFit(world, ids, plans, troubles, j) && AllBuilt(world, ids, plans, j)
      {
        var built := NextCluster(ids, plans, troubles, j);
        if !built {
          return j;
        }
      }
      k := |ids|;
    }

    /** Closing what was built does not change why it had to be closed. */
    method GiveUp(ids: seq<PoolId>, plans: seq<ClusterPlan>, troubles: seq<Trouble>, k: nat)
      requires Valid() && Hidden() && Distinct(ids) && |ids| == |plans| == |troubles| && k <= |ids| && candidate == SetOf(ids)
      requires AllBuilt(world, ids, plans, k) && AllGone(world, ids, k) && AllFit(world, ids, plans, troubles, k)
      modifies this`world, this`steps, this`turn
      ensures Valid() && Hidden() && AllGone(world, ids, 0)
      ensures AllFit(world, ids, plans, troubles, k)
      ensures k < |ids| && !Fit(plans[k], troubles[k], Reuse(old(world), ids[k])) ==> !AllFit(world, ids, plans, troubles, |ids|)
    {
      BuiltIsReserved(world, ids, plans, k);
      CloseAll(ids, k);
      FitByReuse(old(world), world, ids, plans, troubles, k);
    }

    /** One turn of that loop. */
    method NextCluster(ids: seq<PoolId>, plans: seq<ClusterPlan>, troubles: seq<Trouble>, k: nat) returns (built: bool)
      requires Valid() && Hidden() && Distinct(ids) && |ids| == |plans| == |troubles| && k < |ids|
      requires candidate == SetOf(ids) && Unused(world, ids, k) && AllFit(world, ids, plans, troubles, k)
      requires DistinctIds(plans) && AllBuilt(world, ids, plans, k)
      modifies this`world, this`steps, this`turn
      ensures Valid() && Hidden() && Unused(world, ids, k + 1)
      ensures AllFit(world, ids, plans, troubles, if built then k + 1 else k)
      ensures AllBuilt(world, ids, plans, if built then k + 1 else k)
      ensures !built ==> AllGone(world, ids, k) && !Fit(plans[k], troubles[k], Reuse(world, ids[k]))
    {
      OthersHaveOtherScopes(world, candidate, ids, plans, k);
      built := BuildCluster(ids[k], plans[k], troubles[k]);
      BuiltAside(old(world), world, candidate, ids, plans, troubles, k);
    }

    /** A step of publishing the candidate, after which others have their turn. */
    method ActOpenly(st: Step, p: PoolId)
      requires Valid() && Enabled(world, st) && !st.OpenLease? && (About(st) == None || About(st) == Some(p)) && p in candidate
      modifies this`world, this`steps, this`turn
      ensures Valid() && Aside(Next(old(world), st), world, p) && OthersAside(old(world), world, candidate, p)
      ensures p in old(world).pools ==> p in world.pools && SameNames(old(world).pools[p], world.pools[p])
    {
      forall q | q in candidate && q != p ensures Aside(world, Next(world, st), q) {
        StepIsAside(world, st, q);
      }
      if p in world.pools { StepKeepsNames(world, st, p); }
      Take(st);
      ghost var w := world;
      Others();
      AsideTransitive(old(world), w, world, candidate, p);
      if p in old(world).pools { NamesTransitive(old(world).pools[p], w.pools[p], world.pools[p]); }
    }

    /** `Activate`: afterwards the cluster is published in full, with the backends it was built with. */
    method Activate(p: PoolId, plan: ClusterPlan)
      requires Valid() && p in candidate && Built(world, p, plan)
      modifies this`world, this`steps, this`turn
      ensures Valid() && OthersAside(old(world), world, candidate, p)
      ensures Live(world, p, plan) && Reuse(world, p) == Reuse(old(world), p)
    {
      var n := |world.pools[p].all|;
      ghost var entries := world.leases[p].entries;
      assert world.leases[p].progress == 0 by {
        Sound(past, steps);
        assert LeaseOk(world, p);
      }
      ActOpenly(BeginActivate(p, plan.refresh), p);
      NamesStay(old(world).pools[p], world.pools[p], plan);
      for k := 0 to n
        invariant Valid() && Activating(world, p, entries, k) && OthersAside(old(world), world, candidate, p)
        invariant Named(world.pools[p], plan) && world.leases[p].scope == plan.id && world.leases[p].refresh == plan.refresh
      {
        ghost var w := world;
        assert ActivateEnabled(world, p) by {
          Sound(past, steps);
          ActivationIsPossible(world, p, entries, k);
        }
        ActOpenly(ActivateNext(p), p);
        ActivationProgresses(w, world, p, entries, k);
        NamesStay(w.pools[p], world.pools[p], plan);
        AsideTransitive(old(world), w, world, candidate, p);
      }
    }

    /** The activation of a snapshot, cluster by cluster. */
    method ActivateAll(ids: seq<PoolId>, plans: seq<ClusterPlan>)
      requires Valid() && Distinct(ids) && candidate == SetOf(ids) && |plans| == |ids|
      requires AllBuilt(world, ids, plans, |ids|)
      modifies this`world, this`steps, this`turn
      ensures Valid() && SameReuse(old(world), world, ids)
      ensures AllLive(world, ids, plans)
    {
      for j := 0 to |ids|
        invariant Valid() && SameReuse(old(world), world, ids)
        invariant forall i | 0 <= i < j :: Live(world, ids[i], plans[i])
        invariant forall i | j <= i < |ids| :: Built(world, ids[i], plans[i])
      {
        ghost var w := world;
        Activate(ids[j], plans[j]);
        PublishedAside(w, world, candidate, ids, plans, j);
      }
    }

    /**
     The close of a published cluster, once its snapshot is retired and unused: every entry is given back.
     `closeOnce` keeps others from closing the same one meanwhile.
     */
    method Retire(p: PoolId)
      requires Valid() && candidate == {} && Full(world, p) && !world.leases[p].closed
      modifies this`world, this`steps, this`turn, this`candidate
      ensures Valid() && candidate == {}
      ensures p in world.leases && world.leases[p].closed && world.leases[p].released == |world.leases[p].entries|
    {
      candidate := {p};
      var k := |world.leases[p].entries|;
      assert world.leases[p].released == 0 by {
        Sound(past, steps);
        assert LeaseOk(world, p);
      }
      ClosingIsPossible(world, p);
      ActOpenly(BeginClose(p), p);
      for r := 0 to k
        invariant Valid() && candidate == {p} && Retiring(world, p, k, r)
      {
        ghost var w := world;
        assert ReleaseEnabled(world, p) by {
          Sound(past, steps);
          RetirementIsPossible(world, p, k, r);
        }
        ActOpenly(CloseNext(p), p);
        RetirementProgresses(w, world, p, k, r);
      }
      candidate := {};
    }

    /** The command is over: nothing is under construction any more. */
    method Finish(ids: seq<PoolId>)
      requires Valid() && candidate == SetOf(ids)
      requires forall i | 0 <= i < |ids| :: Gone(world, ids[i]) || Full(world, ids[i])
      modifies this`candidate
      ensures Valid() && candidate == {}
    {
      forall q | q in world.leases ensures Settled(world, q) {
        if q in candidate {
          var i :| 0 <= i < |ids| && ids[i] == q;
        }
      }
      candidate := {};
    }
  }

  function SetOf(ids: seq<PoolId>): set<PoolId> { set i | 0 <= i < |ids| :: ids[i] }

  predicate AllAside(w: World, w': World, C: set<PoolId>) {
    forall q | q in C :: Aside(w, w', q)
  }

  lemma AllAsideTransitive(w: World, w': World, w'': World, C: set<PoolId>)
    requires AllAside(w, w', C) && AllAside(w', w'', C)
    ensures AllAside(w, w'', C)
  {
    forall q | q in C ensures Aside(w, w'', q) {
      assert Aside(w, w', q) && Aside(w', w'', q);
      if q in w.pools { NamesTransitive(w.pools[q], w'.pools[q], w''.pools[q]); }
    }
  }

  lemma OpeningKeeps(w: World, w': World, p: PoolId, plan: ClusterPlan, es: seq<Endpoint>)
    requires Keeps(w, p, plan, es, {}) && Enabled(w, OpenLease(p, plan.id)) && Kept(Next(w, OpenLease(p, plan.id)), w', p)
    ensures Leased(w', p, plan, []) && w'.pools[p] == w.pools[p] && Keeps(w', p, plan, es, {})
  {
    var m := Next(w, OpenLease(p, plan.id));
    forall i | 0 <= i < |es| ensures KeepsAt(m, p, plan, es, {}, i) {
      assert KeepsAt(w, p, plan, es, {}, i);
    }
    KeptStates(m, w', p, plan, es, {});
  }

  lemma NewStatesUnprobed(p: PoolId, plan: ClusterPlan, trouble: Trouble, reuse: seq<bool>)
    requires |reuse| == |plan.specs|
    ensures ProbedUpTo(plan, trouble, reuse, NewStates(p, plan), 0, 0)
    ensures plan.probed && !SomeProbed(plan, reuse) ==> Warmed(plan, trouble, reuse, NewStates(p, plan))
  {
    forall i | 0 <= i < |plan.specs| ensures Probed(NewStates(p, plan)[i], plan, trouble, i, 0) {
      FreshIsUnprobed(p, plan, trouble, i);
    }
  }

  /** Built to plan: reserved in full under its id, with the backends the plan lists. */
  predicate Built(w: World, p: PoolId, plan: ClusterPlan) {
    Reserved(w, p) && w.leases[p].scope == plan.id && Named(w.pools[p], plan)
  }

  /** Published to plan: under its id, with its backends, carrying health over unless the plan has it probed afresh. */
  predicate Live(w: World, p: PoolId, plan: ClusterPlan) {
    Full(w, p) && w.leases[p].scope == plan.id && w.leases[p].refresh == plan.refresh && Named(w.pools[p], plan)
  }

  /** Each private state is enabled unless declared disabled, and as healthy as warming up left it. */
  predicate Prepared(w: World, p: PoolId, plan: ClusterPlan, trouble: Trouble) {
    |Reuse(w, p)| == |plan.specs| && forall i | 0 <= i < |plan.specs| ::
      && StateId(p, i) in w.endpoints
      && (w.endpoints[StateId(p, i)].enabled <==> !plan.specs[i].disabled)
      && (w.endpoints[StateId(p, i)].healthy <==> Healthy(plan, trouble, Reuse(w, p), i))
  }

  lemma DraftIsPrepared(w: World, p: PoolId, plan: ClusterPlan, trouble: Trouble, entries: seq<Reservation>, es: seq<Endpoint>)
    requires Drafted(w, p, plan, entries, es) && Warmed(plan, trouble, Reuse(w, p), es)
    ensures Built(w, p, plan) && Prepared(w, p, plan, trouble)
  {
    forall i | 0 <= i < |plan.specs|
      ensures StateId(p, i) in w.endpoints
      ensures w.endpoints[StateId(p, i)].enabled <==> !plan.specs[i].disabled
      ensures w.endpoints[StateId(p, i)].healthy <==> Healthy(plan, trouble, Reuse(w, p), i)
    {
      assert KeepsAt(w, p, plan, es, {}, i);
    }
  }

  predicate AllBuilt(w: World, ids: seq<PoolId>, plans: seq<ClusterPlan>, k: nat)
    requires |ids| == |plans| && k <= |ids|
  {
    forall i | 0 <= i < k :: Built(w, ids[i], plans[i])
  }

  predicate AllLive(w: World, ids: seq<PoolId>, plans: seq<ClusterPlan>)
    requires |ids| == |plans|
  {
    forall i | 0 <= i < |ids| :: Live(w, ids[i], plans[i])
  }

  predicate AllGone(w: World, ids: seq<PoolId>, k: nat) {
    forall i | k <= i < |ids| :: Gone(w, ids[i])
  }

  predicate DistinctIds(plans: seq<ClusterPlan>) {
    forall i, j | 0 <= i < j < |plans| :: plans[i].id != plans[j].id
  }

  lemma BuiltIsReserved(w: World, ids: seq<PoolId>, plans: seq<ClusterPlan>, k: nat)
    requires |ids| == |plans| && k <= |ids| && AllBuilt(w, ids, plans, k)
    ensures forall i | 0 <= i < k :: Reserved(w, ids[i])
  {}

  ghost predicate AllFit(w: World, ids: seq<PoolId>, plans: seq<ClusterPlan>, troubles: seq<Trouble>, k: nat)
    requires |ids| == |plans| == |troubles| && k <= |ids|
  {
    forall i | 0 <= i < k :: Fit(plans[i], troubles[i], Reuse(w, ids[i]))
  }

  /** What was found registered at reservation stays on the record of the lease. */
  predicate SameReuse(w: World, w': World, ids: seq<PoolId>) {
    forall i | 0 <= i < |ids| :: Reuse(w', ids[i]) == Reuse(w, ids[i])
  }

  lemma FitByReuse(w: World, w': World, ids: seq<PoolId>, plans: seq<ClusterPlan>, troubles: seq<Trouble>, k: nat)
    requires |ids| == |plans| == |troubles| && k <= |ids| && SameReuse(w, w', ids) && AllFit(w, ids, plans, troubles, k)
    ensures AllFit(w', ids, plans, troubles, k)
    ensures k < |ids| && !Fit(plans[k], troubles[k], Reuse(w, ids[k])) ==> !AllFit(w', ids, plans, troubles, |ids|)
  {}

  predicate Activating(w: World, p: PoolId, entries: seq<Reservation>, k: nat) {
    && p in w.pools && |w.pools[p].all| == |entries| && p in w.leases && w.leases[p].active && !w.leases[p].closed
    && w.leases[p].entries == entries && w.leases[p].progress == k
  }

  /** A published lease is being given up, with `r` of its `k` entries released. */
  predicate Retiring(w: World, p: PoolId, k: nat, r: nat) {
    Full(w, p) && w.leases[p].closed && |w.leases[p].entries| == k && w.leases[p].released == r
  }

  lemma RetirementIsPossible(w: World, p: PoolId, k: nat, r: nat)
    requires Inv(w) && Retiring(w, p, k, r) && r < k
    ensures ReleaseEnabled(w, p)
  {
    assert LeaseOk(w, p) && EntryOk(w, p, r);
    assert KeyOk(w, w.leases[p].entries[r].key);
  }

  lemma RetirementProgresses(w: World, w': World, p: PoolId, k: nat, r: nat)
    requires Retiring(w, p, k, r) && ReleaseEnabled(w, p) && Aside(ReleaseEntry(w, p), w', p)
    ensures Retiring(w', p, k, r + 1)
  {}

  lemma ActivationIsPossible(w: World, p: PoolId, entries: seq<Reservation>, k: nat)
    requires Inv(w) && Activating(w, p, entries, k) && k < |entries|
    ensures ActivateEnabled(w, p)
  {
    assert BackendOk(w, p, k) && EntryOk(w, p, k);
  }

  lemma ActivationProgresses(w: World, w': World, p: PoolId, entries: seq<Reservation>, k: nat)
    requires Activating(w, p, entries, k) && ActivateEnabled(w, p) && Aside(ActivateEntry(w, p), w', p)
    ensures Activating(w', p, entries, k + 1) && w'.leases[p].scope == w.leases[p].scope && w'.leases[p].refresh == w.leases[p].refresh
  {}

  lemma AsideKeeps(w: World, w': World, p: PoolId, plan: ClusterPlan)
    requires Aside(w, w', p)
    ensures Reuse(w', p) == Reuse(w, p) && (Gone(w, p) ==> Gone(w', p)) && (Reserved(w, p) ==> Reserved(w', p))
    ensures (Built(w, p, plan) ==> Built(w', p, plan)) && (Live(w, p, plan) ==> Live(w', p, plan))
  {
    if p in w.pools && Named(w.pools[p], plan) { NamesStay(w.pools[p], w'.pools[p], plan); }
  }

  lemma PublishedAside(w: World, w': World, C: set<PoolId>, ids: seq<PoolId>, plans: seq<ClusterPlan>, j: nat)
    requires Distinct(ids) && |plans| == |ids| && j < |ids| && OthersAside(w, w', C, ids[j]) && C == SetOf(ids)
    requires Reuse(w', ids[j]) == Reuse(w, ids[j])
    ensures SameReuse(w, w', ids)
    ensures forall i | 0 <= i < |ids| && i != j && Live(w, ids[i], plans[i]) :: Live(w', ids[i], plans[i])
    ensures forall i | 0 <= i < |ids| && i != j && Built(w, ids[i], plans[i]) :: Built(w', ids[i], plans[i])
  {
    forall i | 0 <= i < |ids| && i != j
      ensures Reuse(w', ids[i]) == Reuse(w, ids[i])
      ensures Live(w, ids[i], plans[i]) ==> Live(w', ids[i], plans[i])
      ensures Built(w, ids[i], plans[i]) ==> Built(w', ids[i], plans[i])
    {
      assert ids[i] != ids[j] && ids[i] in C;
      AsideKeeps(w, w', ids[i], plans[i]);
    }
  }

  /** Seen from outside, the steps left what the others' steps alone would have left. */
  ghost predicate NoTrace(v: World, steps: seq<Step>, w: World, C: set<PoolId>) {
    && Run(v, Erased(steps, C)) && Agree(w, Final(v, Erased(steps, C)), C)
    && w.registry == Final(v, Erased(steps, C)).registry
    && forall key | key in w.registry :: Refs(w, w.registry[key]) == Refs(Final(v, Erased(steps, C)), w.registry[key])
  }

  /** Whatever failed, once the candidate's leases are gone nothing of it is left. */
  lemma GoneLeavesNoTrace(past: seq<Step>, steps: seq<Step>, ids: seq<PoolId>)
    requires Run(EmptyWorld, past) && Run(Final(EmptyWorld, past), steps)
    requires (forall c | c in SetOf(ids) :: c !in Final(EmptyWorld, past).pools) && AllAllowed(steps, SetOf(ids))
    requires forall i | 0 <= i < |ids| :: Gone(Final(Final(EmptyWorld, past), steps), ids[i])
    ensures NoTrace(Final(EmptyWorld, past), steps, Final(Final(EmptyWorld, past), steps), SetOf(ids))
  {
    var v := Final(EmptyWorld, past);
    var w := Final(v, steps);
    ReachableInv(past);
    forall c | c in SetOf(ids) && c in w.leases ensures w.leases[c].released == |w.leases[c].entries| {
      var i :| 0 <= i < |ids| && ids[i] == c;
      assert Gone(w, ids[i]);
    }
    FailedApplyIsNoOp(v, steps, SetOf(ids));
  }

  /** No pool of the candidate from `k` on has been created. */
  predicate Unused(w: World, ids: seq<PoolId>, k: nat) {
    forall i | k <= i < |ids| :: ids[i] !in w.pools && ids[i] !in w.leases
  }

  lemma GoneAside(w: World, w': World, C: set<PoolId>, ids: seq<PoolId>, j: nat)
    requires Distinct(ids) && j < |ids| && OthersAside(w, w', C, ids[j]) && C == SetOf(ids)
    requires ids[j] in w.leases && Closing(w', ids[j], w.leases[ids[j]].entries, |w.leases[ids[j]].entries|)
    ensures SameReuse(w, w', ids)
    ensures forall i | 0 <= i < |ids| && i != j && Gone(w, ids[i]) :: Gone(w', ids[i])
    ensures forall i | 0 <= i < |ids| && i != j && Reserved(w, ids[i]) :: Reserved(w', ids[i])
  {
    forall i | 0 <= i < |ids| && i != j
      ensures Reuse(w', ids[i]) == Reuse(w, ids[i])
      ensures Gone(w, ids[i]) ==> Gone(w', ids[i])
      ensures Reserved(w, ids[i]) ==> Reserved(w', ids[i])
    {
      assert ids[i] != ids[j] && ids[i] in C;
      assert Aside(w, w', ids[i]);
    }
  }

  lemma BuiltAside(w: World, w': World, C: set<PoolId>, ids: seq<PoolId>, plans: seq<ClusterPlan>, troubles: seq<Trouble>, k: nat)
    requires Distinct(ids) && |plans| == |ids| == |troubles| && k < |ids| && OthersAside(w, w', C, ids[k]) && C == SetOf(ids)
    requires Unused(w, ids, k) && AllFit(w, ids, plans, troubles, k) && AllBuilt(w, ids, plans, k)
    ensures Unused(w', ids, k + 1) && AllFit(w', ids, plans, troubles, k) && AllBuilt(w', ids, plans, k)
    ensures AllGone(w', ids, k + 1)
  {
    forall i | 0 <= i < |ids| && i != k
      ensures Aside(w, w', ids[i]) && Reuse(w', ids[i]) == Reuse(w, ids[i])
      ensures Built(w, ids[i], plans[i]) ==> Built(w', ids[i], plans[i])
    {
      assert ids[i] != ids[k] && ids[i] in C;
      AsideKeeps(w, w', ids[i], plans[i]);
    }
  }

  lemma OthersHaveOtherScopes(w: World, C: set<PoolId>, ids: seq<PoolId>, plans: seq<ClusterPlan>, k: nat)
    requires |plans| == |ids| && k < |ids| && C == SetOf(ids)
    requires Unused(w, ids, k) && AllBuilt(w, ids, plans, k) && DistinctIds(plans)
    ensures forall q | q in C && q in w.leases :: w.leases[q].scope != plans[k].id
  {
    forall q | q in C && q in w.leases ensures w.leases[q].scope != plans[k].id {
      var i :| 0 <= i < |ids| && ids[i] == q;
      assert i < k && Built(w, ids[i], plans[i]);
    }
  }

  lemma ScopesStayFresh(w: World, w': World, C: set<PoolId>, p: PoolId, scope: string)
    requires OthersAside(w, w', C, p) && p !in w'.leases
    requires forall q | q in C && q in w.leases :: w.leases[q].scope != scope
    ensures forall q | q in C && q in w'.leases :: w'.leases[q].scope != scope
  {
    forall q | q in C && q in w'.leases ensures w'.leases[q].scope != scope {
      assert q != p && Aside(w, w', q);
    }
  }
}
