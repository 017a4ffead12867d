/** `Engine` as the object its callers share. Every method holds the mutex throughout. */
module EngineObjects {
  import opened Common
  import opened GatewayConfigs
  import opened Engines

  /** The configuration the first snapshot is built from, or why there is none. */
  function FirstState(d: Defaults, c: Config): State
    requires Accepts(c)
  {
    AcceptedLimit(d, c);
    State(false, Some(Published(1, 0, c)), 1, map[1 := c], [1], "", 1, 0)
  }

  lemma FirstStateInv(d: Defaults, c: Config)
    requires Accepts(Normalized(d, c))
    ensures EngineInv(d, FirstState(d, Normalized(d, c)))
  {
    NormalizedIdempotent(d, c);
    AcceptedLimit(d, Normalized(d, c));
  }

  /** Dropping the oldest of too many revisions brings the order one step nearer to the newest `limit`. */
  lemma DropOldest(order: seq<nat>, limit: nat)
    requires |order| > limit
    ensures Newest(order[1..], limit) == Newest(order, limit)
  {}

  ghost predicate SameRevisions(history: map<nat, Config>, order: seq<nat>) {
    forall r: nat :: r in history <==> r in order
  }

  lemma RestrictedWithoutOldest(history: map<nat, Config>, order: seq<nat>)
    requires order != [] && Distinct(order)
    ensures Restricted(history, order) - {order[0]} == Restricted(history, order[1..])
  {
    assert order == [order[0]] + order[1..];
  }

  /** The part of `updateEndpointsLocked` that edits a copy of the configuration in force. */
  method PlanUpdate(c: Config, u: Discovered) returns (plan: Plan)
    ensures plan == Planned(c, u)
  {
    var index := 0;
    while index < |c.clusters| && c.clusters[index].id != u.cluster
      invariant 0 <= index <= |c.clusters|
      invariant forall i | 0 <= i < index :: c.clusters[i].id != u.cluster
    {
      index := index + 1;
    }
    assert index == FindCluster(c.clusters, u.cluster);
    if index == |c.clusters| {
      return Stop(Rejected);
    }
    var cluster := c.clusters[index];
    var kind := if u.kind == "" then cluster.discovery.kind else u.kind;
    if (u.expected.Some? && cluster.discovery != u.expected.value) || kind != cluster.discovery.kind || u.stale {
      return Stop(Rejected);
    }
    var endpoints := NormalizeEndpoints(u.endpoints);
    var same := EndpointSetsEqual(cluster.endpoints, endpoints);
    var next := c.(clusters := c.clusters[index := cluster.(endpoints := endpoints)]);
    assert next == WithEndpoints(c, index, u.endpoints);
    if !Accepts(next) || u.refused {
      return Stop(Rejected);
    }
    return if same then Stop(Unchanged) else Go(next);
  }

  class Engine {
    const defaults: Defaults
    var closed: bool
    var current: Option<Published>
    var nextRevision: nat
    var history: map<nat, Config>
    var order: seq<nat>
    var lastError: string
    var applySuccess: nat
    var applyFailures: nat

    ghost function View(): State
      reads this
    {
      State(closed, current, nextRevision, history, order, lastError, applySuccess, applyFailures)
    }

    ghost predicate Valid()
      reads this
    {
      EngineInv(defaults, View())
    }

    constructor (d: Defaults, c: Config)
      requires Accepts(c) && c == Normalized(d, c)
      ensures defaults == d && Valid() && View() == FirstState(d, c)
    {
      FirstStateInv(d, c);
      defaults, closed, lastError, applySuccess, applyFailures := d, false, "", 1, 0;
      nextRevision, current := 1, Some(Published(1, 0, c));
      history, order := map[1 := c], [1];
    }

    /** `New`: without a first snapshot there is no engine. */
    static method New(d: Defaults, c: Config, b: Build) returns (engine: Engine?)
      ensures engine == null <==> Obstacle(d, c, b).Some?
      ensures engine != null ==>
                && fresh(engine) && engine.defaults == d && engine.Valid()
                && engine.View() == FirstState(d, Normalized(d, c))
    {
      engine := null;
      var normalized := NormalizeConfig(d, c);
      if Accepts(normalized) && b.failure.None? && b.cancelled.None? {
        NormalizedIdempotent(d, c);
        engine := new Engine(d, normalized);
      }
    }

    /** Adds a publication to the history and forgets the oldest ones beyond the limit. */
    method Remember(revision: nat, c: Config)
      requires revision !in order && Distinct(order) && SameRevisions(history, order)
      requires Limit(defaults, c) >= 0
      modifies this`history, this`order
      ensures order == Newest(old(order) + [revision], Limit(defaults, c))
      ensures history == Restricted(old(history)[revision := c], order)
    {
      history := history[revision := c];
      order := order + [revision];
      var limit := c.historyLimit;
      if defaults.historyLimit > 0 {
        limit := Min(limit, defaults.historyLimit);
      }
      ghost var all := history;
      assert history == Restricted(all, order);
      while |order| > limit
        invariant Distinct(order)
        invariant Newest(order, limit) == Newest(old(order) + [revision], limit)
        invariant history == Restricted(all, order)
        decreases |order|
      {
        DropOldest(order, limit);
        RestrictedWithoutOldest(all, order);
        var oldest := order[0];
        order := order[1..];
        history := history - {oldest};
      }
    }

    method PublishLocked(c: Config)
      requires nextRevision + 1 !in order && Distinct(order) && SameRevisions(history, order)
      requires Limit(defaults, c) >= 0
      modifies this
      ensures View() == Publish(defaults, old(View()), c)
    {
      var previous := if current.Some? then current.value.revision else 0;
      nextRevision := nextRevision + 1;
      lastError := "";
      current := Some(Published(nextRevision, previous, c));
      Remember(nextRevision, c);
      applySuccess := applySuccess + 1;
    }

    method ApplyLocked(c: Config, b: Build) returns (o: Outcome)
      requires Valid()
      modifies this
      ensures Valid() && (View(), o) == Engines.ApplyLocked(defaults, old(View()), c, b)
    {
      ApplyKeepsInv(defaults, View(), c, b);
      HistoryIsOrder(defaults, View());
      o := ApplyNow(c, b);
    }

    method ApplyNow(c: Config, b: Build) returns (o: Outcome)
      requires nextRevision + 1 !in order && Distinct(order) && SameRevisions(history, order)
      modifies this
      ensures (View(), o) == Engines.ApplyLocked(defaults, old(View()), c, b)
    {
      if closed {
        return ShutDown;
      }
      var normalized := NormalizeConfig(defaults, c);
      var obstacle := if !Accepts(normalized) then Some(b.invalid) else if b.failure.Some? then b.failure else b.cancelled;
      if obstacle.Some? {
        lastError := obstacle.value;
        applyFailures := applyFailures + 1;
        return Failed(obstacle.value);
      }
      AcceptedLimit(defaults, normalized);
      PublishLocked(normalized);
      return Applied;
    }

    method Apply(c: Config, b: Build) returns (o: Outcome)
      requires Valid()
      modifies this
      ensures Valid() && (View(), o) == Exec(defaults, old(View()), Command.Apply(c, b))
    {
      o := ApplyLocked(c, b);
    }

    method ApplyIfRevision(c: Config, expected: nat, b: Build) returns (o: Outcome)
      requires Valid()
      modifies this
      ensures Valid() && (View(), o) == Exec(defaults, old(View()), ApplyIf(c, expected, b))
    {
      if closed {
        return ShutDown;
      }
      if current.None? || expected == 0 || current.value.revision != expected {
        return Conflict;
      }
      o := ApplyLocked(c, b);
    }

    method RollbackLocked(revision: nat, b: Build) returns (o: Outcome)
      requires Valid()
      modifies this
      ensures Valid() && (View(), o) == Engines.RollbackLocked(defaults, old(View()), revision, b)
    {
      if revision !in history {
        return Unavailable;
      }
      o := ApplyLocked(history[revision], b);
    }

    method Rollback(revision: nat, b: Build) returns (o: Outcome)
      requires Valid()
      modifies this
      ensures Valid() && (View(), o) == Exec(defaults, old(View()), Command.Rollback(revision, b))
    {
      if closed {
        return ShutDown;
      }
      o := RollbackLocked(revision, b);
    }

    method RollbackIfRevision(revision: nat, expected: nat, b: Build) returns (o: Outcome)
      requires Valid()
      modifies this
      ensures Valid() && (View(), o) == Exec(defaults, old(View()), RollbackIf(revision, expected, b))
    {
      if closed {
        return ShutDown;
      }
      if current.None? || expected == 0 || current.value.revision != expected {
        return Conflict;
      }
      o := RollbackLocked(revision, b);
    }

    method UpdateEndpoints(u: Discovered, b: Build) returns (o: Outcome)
      requires Valid()
      modifies this
      ensures Valid() && (View(), o) == Exec(defaults, old(View()), Update(u, b))
    {
      if closed || current.None? {
        return ShutDown;
      }
      var plan := PlanUpdate(current.value.config, u);
      if plan.Stop? {
        return plan.outcome;
      }
      o := ApplyLocked(plan.config, b);
    }

    method Close()
      requires Valid()
      modifies this
      ensures Valid() && View() == Exec(defaults, old(View()), Command.Close).0
    {
      CloseKeepsInv(defaults, View());
      closed := true;
      current := None;
    }
  }

  lemma HistoryIsOrder(d: Defaults, s: State)
    requires EngineInv(d, s)
    ensures Distinct(s.order) && s.nextRevision + 1 !in s.order && SameRevisions(s.history, s.order)
  {
    forall r: nat ensures r in s.history <==> r in s.order {
      if InWindow(s, r) {
        assert s.order[r - (s.nextRevision - |s.order|) - 1] == r;
      }
    }
  }
}
