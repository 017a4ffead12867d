/**
 One command of the control plane from end to end: configuration and history on one side, pools, leases and
 endpoints on the other. This is `applyLocked` of `internal/gateway/engine.go` with nothing abstracted
 between the two but the answers of transports, probes and the caller's context.
 */
module Gateways {
  import opened Common
  import opened GatewayConfigs
  import Endpoints
  import Generations
  import GenerationRuns
  import Drafts
  import Builds
  import Engines
  import EngineObjects

  /** Everything that can go wrong on the way, as it happens to turn out. */
  datatype Fate = Fate(
    troubles: seq<Drafts.Trouble>, routesFail: bool, cancelled: Option<string>, invalid: string, failure: string)

  function SpecOf(e: Endpoint): Generations.BackendSpec {
    Generations.BackendSpec(e.id, e.url, e.weight, e.disabled)
  }

  function PolicyOf(c: Cluster): Endpoints.PassivePolicy {
    var limit := c.transport.maxConcurrentRequests;
    Endpoints.PassivePolicy(Max(1, c.health.failureThreshold), c.health.cooldown, if limit < 1 then 512 else limit)
  }

  /** Health is probed afresh if the cluster is new or is to be probed in another way. */
  predicate Refreshes(previous: Option<Config>, c: Cluster) {
    previous.None? ||
    (var k := Engines.FindCluster(previous.value.clusters, c.id);
     k == |previous.value.clusters| ||
     (var p := previous.value.clusters[k];
      p.health != c.health || p.tls != c.tls || p.transport.protocol != c.transport.protocol))
  }

  function PlanOf(previous: Option<Config>, c: Cluster): Drafts.ClusterPlan {
    Drafts.ClusterPlan(c.id, Mapped(SpecOf, c.endpoints), PolicyOf(c), c.health.enabled,
                       Max(0, c.health.successThreshold), c.health.failureThreshold, Refreshes(previous, c))
  }

  function Plans(previous: Option<Config>, c: Config): seq<Drafts.ClusterPlan> {
    Mapped((k: Cluster) => PlanOf(previous, k), c.clusters)
  }

  function InForce(current: Option<Engines.Published>): Option<Config> {
    if current.Some? then Some(current.value.config) else None
  }

  /** The configuration in force has a cluster of this id that is probed in the same way. */
  ghost predicate CarriesHealth(previous: Option<Config>, c: Cluster) {
    previous.Some? && exists k: nat | Engines.IsNamed(previous.value, c.id, k) ::
      var p := previous.value.clusters[k];
      p.health == c.health && p.tls == c.tls && p.transport.protocol == c.transport.protocol
  }

  /** The policy under which a cluster's backends are ejected and loaded. */
  predicate Governs(policy: Endpoints.PassivePolicy, c: Cluster) {
    && policy.failureThreshold >= 1 && (c.health.failureThreshold >= 1 ==> policy.failureThreshold == c.health.failureThreshold)
    && (c.health.failureThreshold < 1 ==> policy.failureThreshold == 1) && policy.cooldown == c.health.cooldown
    && (c.transport.maxConcurrentRequests >= 1 ==> policy.maxConcurrent == c.transport.maxConcurrentRequests)
    && (c.transport.maxConcurrentRequests < 1 ==> policy.maxConcurrent == 512)
  }

  /** A plan field by field. */
  lemma PlanFollowsConfig(previous: Option<Config>, c: Config, i: nat)
    requires i < |c.clusters| && (previous.Some? ==> Accepts(previous.value))
    ensures var plan, k := Plans(previous, c)[i], c.clusters[i];
            && plan.id == k.id && (plan.probed <==> k.health.enabled) && plan.failureThreshold == k.health.failureThreshold
            && (k.health.successThreshold >= 0 ==> plan.successThreshold == k.health.successThreshold)
            && (k.health.successThreshold < 0 ==> plan.successThreshold == 0)
            && Governs(plan.policy, k) && (plan.refresh <==> !CarriesHealth(previous, k))
            && |plan.specs| == |k.endpoints|
            && forall j | 0 <= j < |k.endpoints| ::
                 && plan.specs[j].id == k.endpoints[j].id && plan.specs[j].url == k.endpoints[j].url
                 && plan.specs[j].weight == k.endpoints[j].weight && (plan.specs[j].disabled <==> k.endpoints[j].disabled)
  {
    RefreshesIff(previous, c.clusters[i]);
  }

  lemma RefreshesIff(previous: Option<Config>, c: Cluster)
    requires previous.Some? ==> Accepts(previous.value)
    ensures Refreshes(previous, c) <==> !CarriesHealth(previous, c)
  {
    if previous.Some? {
      var k := Engines.FindCluster(previous.value.clusters, c.id);
      if k < |previous.value.clusters| {
        assert Engines.IsNamed(previous.value, c.id, k);
        forall j: nat | Engines.IsNamed(previous.value, c.id, j) ensures j == k {
          Engines.OnlyOneNamed(previous.value, c.id, j, k);
        }
      }
    }
  }

  lemma PlansDiffer(previous: Option<Config>, c: Config)
    requires Accepts(c)
    ensures Builds.DistinctIds(Plans(previous, c))
  {}

  /** The cluster is published in full: its endpoints in order, under their weights, its policy and its id. */
  ghost predicate Serves(w: Generations.World, p: Endpoints.PoolId, previous: Option<Config>, c: Cluster) {
    && Generations.Full(w, p) && w.leases[p].scope == c.id && (w.leases[p].refresh <==> !CarriesHealth(previous, c))
    && Governs(w.pools[p].policy, c) && |w.pools[p].all| == |c.endpoints|
    && forall i | 0 <= i < |c.endpoints| ::
         && w.pools[p].all[i].id == c.endpoints[i].id && w.pools[p].all[i].url == c.endpoints[i].url
         && w.pools[p].all[i].weight == c.endpoints[i].weight
  }

  ghost predicate AllServe(w: Generations.World, ids: seq<Endpoints.PoolId>, previous: Option<Config>, c: Config)
    requires |ids| == |c.clusters|
  {
    forall i | 0 <= i < |ids| :: Serves(w, ids[i], previous, c.clusters[i])
  }

  lemma LiveServes(w: Generations.World, ids: seq<Endpoints.PoolId>, previous: Option<Config>, c: Config)
    requires Accepts(c) && |ids| == |c.clusters| && (previous.Some? ==> Accepts(previous.value))
    requires Builds.AllLive(w, ids, Plans(previous, c))
    ensures AllServe(w, ids, previous, c)
  {
    forall i | 0 <= i < |ids| ensures Serves(w, ids[i], previous, c.clusters[i]) {
      PlanFollowsConfig(previous, c, i);
      assert Builds.Live(w, ids[i], Plans(previous, c)[i]) && AcceptsCluster(c.clusters[i]);
    }
  }

  /** Every cluster of the configuration fits, and its routes compile. */
  ghost predicate Buildable(w: Generations.World, ids: seq<Endpoints.PoolId>, previous: Option<Config>, c: Config, fate: Fate)
    requires |ids| == |c.clusters| == |fate.troubles|
  {
    !fate.routesFail && Builds.AllFit(w, ids, Plans(previous, c), fate.troubles, |ids|)
  }

  /** What a command that published nothing may have changed of the engine. */
  predicate OnlyError(s: Engines.State, t: Engines.State, o: Engines.Outcome) {
    t == if o.Failed? then s.(lastError := o.message, applyFailures := s.applyFailures + 1) else s
  }

  /** How the build is reported to the engine, and what it is blamed on. */
  function Answered(builds: bool, fate: Fate): Engines.Build {
    if builds then Engines.Build(None, fate.cancelled, fate.invalid) else Engines.Build(Some(fate.failure), None, fate.invalid)
  }

  function Blamed(accepted: bool, builds: bool, fate: Fate): string {
    if !accepted then fate.invalid else if !builds then fate.failure else if fate.cancelled.Some? then fate.cancelled.value else ""
  }

  class Gateway {
    const engine: EngineObjects.Engine
    const builder: Builds.Builder

    /** Between commands nothing is under construction. */
    ghost predicate Valid()
      reads this, engine, builder
    {
      engine.Valid() && builder.Valid() && builder.candidate == {}
    }

    constructor (engine: EngineObjects.Engine, builder: Builds.Builder)
      requires engine.Valid() && builder.Valid() && builder.candidate == {}
      ensures Valid() && this.engine == engine && this.builder == builder
    {
      this.engine, this.builder := engine, builder;
    }

    /** Builds the candidate and either publishes it in full or gives it up in full. */
    method Attempt(c: Config, previous: Option<Config>, ids: seq<Endpoints.PoolId>, fate: Fate) returns (b: Engines.Build)
      requires builder.Valid() && builder.Hidden() && builder.candidate == Builds.SetOf(ids)
      requires Accepts(c) && (previous.Some? ==> Accepts(previous.value))
      requires Distinct(ids) && |ids| == |c.clusters| == |fate.troubles| && Builds.Unused(builder.world, ids, 0)
      modifies builder`world, builder`steps, builder`turn
      ensures builder.Valid() && b == Answered(Buildable(builder.world, ids, previous, c, fate), fate)
      ensures b.failure.None? && b.cancelled.None? ==> AllServe(builder.world, ids, previous, c)
      ensures b.failure.Some? || b.cancelled.Some? ==> builder.Hidden() && Builds.AllGone(builder.world, ids, 0)
    {
      PlansDiffer(previous, c);
      var plans := Plans(previous, c);
      var built := builder.BuildSnapshot(ids, plans, fate.troubles, fate.routesFail);
      ghost var w := builder.world;
      b := Engines.Build(if built then None else Some(fate.failure), if built then fate.cancelled else None, fate.invalid);
      if built && fate.cancelled.Some? {
        Builds.BuiltIsReserved(w, ids, plans, |ids|);
        builder.CloseAll(ids, |ids|);
        Builds.FitByReuse(w, builder.world, ids, plans, fate.troubles, |ids|);
      } else if built {
        builder.ActivateAll(ids, plans);
        Builds.FitByReuse(w, builder.world, ids, plans, fate.troubles, |ids|);
        LiveServes(builder.world, ids, previous, c);
      }
    }

    /**
     `applyLocked`. A configuration is published exactly if the engine is open, the configuration is valid once
     normalised, every cluster fits, the routes compile and the caller is still there.
     If it is not, whichever of these was to blame, the engine keeps its revision, history and configuration,
     and the rest of the gateway is left as the steps of others alone would have left it: endpoints, caches,
     leases, slots, the registry and its counts.
     If it is, the revision goes up by one and every cluster is published with what its configuration lists.
     */
    method ApplyLocked(c: Config, ids: seq<Endpoints.PoolId>, fate: Fate) returns (o: Engines.Outcome, ghost b: Engines.Build)
      requires Valid() && Distinct(ids) && |ids| == |c.clusters| == |fate.troubles| && Builds.Unused(builder.world, ids, 0)
      modifies engine, builder
      ensures Valid() && (engine.View(), o) == Engines.ApplyLocked(engine.defaults, old(engine.View()), c, b)
      ensures var previous, next := InForce(old(engine.current)), Normalized(engine.defaults, c);
              var builds := Buildable(builder.world, ids, previous, next, fate);
              && (o.ShutDown? <==> old(engine.closed))
              && (o.Applied? <==> !old(engine.closed) && Accepts(next) && builds && fate.cancelled.None?)
              && (o.Applied? ==> engine.nextRevision == old(engine.nextRevision) + 1 && AllServe(builder.world, ids, previous, next))
              && (o.Failed? ==> o.message == Blamed(Accepts(next), builds, fate))
      ensures !o.Applied? ==>
                && (o.ShutDown? || o.Failed?) && OnlyError(old(engine.View()), engine.View(), o)
                && Builds.NoTrace(old(builder.world), builder.steps, builder.world, Builds.SetOf(ids))
    {
      var build := Prepare(c, ids, fate);
      b := build;
      o := engine.ApplyLocked(c, build);
    }

    /** Everything up to the swap of configurations: `b` says how it went. */
    method Prepare(c: Config, ids: seq<Endpoints.PoolId>, fate: Fate) returns (b: Engines.Build)
      requires engine.Valid() && builder.Valid() && builder.candidate == {}
      requires Distinct(ids) && |ids| == |c.clusters| == |fate.troubles| && Builds.Unused(builder.world, ids, 0)
      modifies builder
      ensures builder.Valid() && builder.candidate == {} && b.invalid == fate.invalid
      ensures var previous, next := InForce(engine.current), Normalized(engine.defaults, c);
              && (!engine.closed && Accepts(next) ==> b == Answered(Buildable(builder.world, ids, previous, next, fate), fate))
              && if engine.closed || Engines.Obstacle(engine.defaults, c, b).Some?
                 then Builds.NoTrace(old(builder.world), builder.steps, builder.world, Builds.SetOf(ids))
                 else AllServe(builder.world, ids, previous, next)
    {
      builder.Begin(Builds.SetOf(ids));
      var normalized := NormalizeConfig(engine.defaults, c);
      b := Engines.Build(None, None, fate.invalid);
      if !engine.closed && Accepts(normalized) {
        b := Attempt(normalized, InForce(engine.current), ids, fate);
      }
      Conclude(old(builder.world), engine.closed || Engines.Obstacle(engine.defaults, c, b).Some?, ids);
    }

    /** Either way nothing is under construction afterwards, and a failed candidate has left no trace. */
    method Conclude(ghost before: Generations.World, ghost failed: bool, ids: seq<Endpoints.PoolId>)
      requires builder.Valid() && builder.candidate == Builds.SetOf(ids)
      requires GenerationRuns.Final(Generations.EmptyWorld, builder.past) == before
      requires failed ==> builder.Hidden() && Builds.AllGone(builder.world, ids, 0)
      requires !failed ==> forall i | 0 <= i < |ids| :: Generations.Full(builder.world, ids[i])
      modifies builder`candidate
      ensures builder.Valid() && builder.candidate == {}
      ensures failed ==> Builds.NoTrace(before, builder.steps, builder.world, Builds.SetOf(ids))
    {
      if failed {
        Builds.GoneLeavesNoTrace(builder.past, builder.steps, ids);
      }
      builder.Finish(ids);
    }

    /** `Rollback`: the same, with a configuration from the history, which is published again as it was. */
    method Rollback(revision: nat, ids: seq<Endpoints.PoolId>, fate: Fate) returns (o: Engines.Outcome)
      requires Valid() && Distinct(ids) && Builds.Unused(builder.world, ids, 0)
      requires revision in engine.history ==> |ids| == |engine.history[revision].clusters| == |fate.troubles|
      modifies engine, builder
      ensures Valid()
      ensures o.ShutDown? <==> old(engine.closed)
      ensures o.Unavailable? <==> !old(engine.closed) && revision !in old(engine.history)
      ensures !old(engine.closed) && revision in old(engine.history) ==>
                var c := old(engine.history)[revision];
                (o.Applied? <==> Buildable(builder.world, ids, InForce(old(engine.current)), c, fate) && fate.cancelled.None?)
      ensures o.Applied? ==>
                && revision in old(engine.history) && engine.current.Some?
                && engine.current.value.config == old(engine.history)[revision]
                && AllServe(builder.world, ids, InForce(old(engine.current)), engine.current.value.config)
      ensures !o.Applied? ==> OnlyError(old(engine.View()), engine.View(), o)
      ensures !o.Applied? && revision in old(engine.history) && !old(engine.closed) ==>
                Builds.NoTrace(old(builder.world), builder.steps, builder.world, Builds.SetOf(ids))
    {
      if engine.closed {
        return Engines.ShutDown;
      }
      if revision !in engine.history {
        return Engines.Unavailable;
      }
      ghost var b;
      ghost var s := engine.View();
      o, b := ApplyLocked(engine.history[revision], ids, fate);
      Engines.RollbackRestores(engine.defaults, s, revision, b);
    }
  }
}
