/**
 The control plane of `internal/gateway/engine.go`: one configuration in force, a revision per publication
 and a bounded history to roll back to. Building the snapshot and the caller's context are inputs.
 */
module Engines {
  import opened Common
  import opened GatewayConfigs

  datatype Published = Published(revision: nat, previous: nat, config: Config)

  datatype State = State(
    closed: bool,
    current: Option<Published>,
    nextRevision: nat,
    history: map<nat, Config>,
    order: seq<nat>,
    lastError: string,
    applySuccess: nat,
    applyFailures: nat)

  /** How an attempt to build went: errors of clusters and probes, of the caller's context, and of validation. */
  datatype Build = Build(failure: Option<string>, cancelled: Option<string>, invalid: string)

  datatype Outcome = Applied | Unchanged | ShutDown | Conflict | Unavailable | Rejected | Failed(message: string)

  function Limit(d: Defaults, c: Config): int {
    if d.historyLimit > 0 then Min(c.historyLimit, d.historyLimit) else c.historyLimit
  }

  /** What keeps a configuration from being published, if anything does. */
  function Obstacle(d: Defaults, c: Config, b: Build): Option<string> {
    if !Accepts(Normalized(d, c)) then Some(b.invalid)
    else if b.failure.Some? then b.failure
    else b.cancelled
  }

  function Newest(order: seq<nat>, limit: nat): seq<nat> {
    if |order| > limit then order[|order| - limit..] else order
  }

  function Restricted(history: map<nat, Config>, order: seq<nat>): map<nat, Config> {
    map r | r in history && r in order :: history[r]
  }

  function Publish(d: Defaults, s: State, c: Config): State
    requires Limit(d, c) >= 0
  {
    var r := s.nextRevision + 1;
    var order := Newest(s.order + [r], Limit(d, c));
    State(s.closed, Some(Published(r, if s.current.Some? then s.current.value.revision else 0, c)), r,
          Restricted(s.history[r := c], order), order, "", s.applySuccess + 1, s.applyFailures)
  }

  lemma AcceptedLimit(d: Defaults, c: Config)
    requires Accepts(c)
    ensures Limit(d, c) >= 1
  {}

  function ApplyLocked(d: Defaults, s: State, c: Config, b: Build): (State, Outcome) {
    if s.closed then (s, ShutDown)
    else
      var o := Obstacle(d, c, b);
      if o.Some? then (s.(lastError := o.value, applyFailures := s.applyFailures + 1), Failed(o.value))
      else
        AcceptedLimit(d, Normalized(d, c));
        (Publish(d, s, Normalized(d, c)), Applied)
  }

  predicate Expects(s: State, expected: nat) {
    s.current.Some? && expected != 0 && s.current.value.revision == expected
  }

  function RollbackLocked(d: Defaults, s: State, revision: nat, b: Build): (State, Outcome) {
    if revision !in s.history then (s, Unavailable) else ApplyLocked(d, s, s.history[revision], b)
  }

  // ------------------------------------------------------------ what always holds

  predicate InWindow(s: State, r: nat) { s.nextRevision - |s.order| < r <= s.nextRevision }

  predicate Contiguous(s: State) {
    && 1 <= |s.order| <= s.nextRevision
    && forall i | 0 <= i < |s.order| :: s.order[i] == s.nextRevision - |s.order| + 1 + i
  }

  ghost predicate EngineInv(d: Defaults, s: State) {
    && Contiguous(s)
    && (forall r: nat :: r in s.history <==> InWindow(s, r))
    && (forall r | r in s.history :: Normalized(d, s.history[r]) == s.history[r] && Accepts(s.history[r]))
    && |s.order| <= Limit(d, s.history[s.nextRevision])
    && (s.closed <==> s.current.None?)
    && (s.current.Some? ==> s.current.value.revision == s.nextRevision && s.current.value.config == s.history[s.nextRevision])
    && s.applySuccess == s.nextRevision
  }

  lemma NewestIsContiguous(order: seq<nat>, n: nat, limit: nat)
    requires |order| <= n && limit >= 1
    requires forall i | 0 <= i < |order| :: order[i] == n - |order| + 1 + i
    ensures var kept := Newest(order + [n + 1], limit);
            && 1 <= |kept| <= n + 1 && |kept| == Min(|order| + 1, limit)
            && (forall i | 0 <= i < |kept| :: kept[i] == n + 1 - |kept| + 1 + i)
            && (forall r: nat :: r in kept <==> n + 1 - |kept| < r <= n + 1)
  {
    var kept := Newest(order + [n + 1], limit);
    forall r: nat ensures r in kept <==> n + 1 - |kept| < r <= n + 1 {
      if n + 1 - |kept| < r <= n + 1 {
        assert kept[r - (n + 1 - |kept|) - 1] == r;
      }
    }
  }

  /** The window after a publication: one revision further, and the newest of those held before. */
  lemma PublishMovesWindow(d: Defaults, s: State, c: Config)
    requires Contiguous(s) && Limit(d, c) >= 1 && (forall r: nat :: r in s.history <==> InWindow(s, r))
    ensures var t := Publish(d, s, c);
            && Contiguous(t) && |t.order| == Min(|s.order| + 1, Limit(d, c))
            && (forall r: nat :: r in t.history <==> InWindow(t, r))
  {
    var t := Publish(d, s, c);
    NewestIsContiguous(s.order, s.nextRevision, Limit(d, c));
    forall r: nat ensures r in t.history <==> InWindow(t, r) {
      assert r in t.order <==> InWindow(t, r);
    }
  }

  lemma PublishKeepsOthers(d: Defaults, s: State, c: Config, r: nat)
    requires Limit(d, c) >= 1 && r in Publish(d, s, c).history && r != s.nextRevision + 1
    ensures r in s.history && Publish(d, s, c).history[r] == s.history[r]
  {}

  /** A publication raises the revision by one and keeps the newest revisions, as many as the limit allows. */
  lemma PublishKeepsInv(d: Defaults, s: State, c: Config)
    requires EngineInv(d, s) && !s.closed && Normalized(d, c) == c && Accepts(c)
    ensures Limit(d, c) >= 1 && EngineInv(d, Publish(d, s, c))
    ensures var t := Publish(d, s, c);
            && t.nextRevision == s.nextRevision + 1 && |t.order| == Min(|s.order| + 1, Limit(d, c))
            && t.current == Some(Published(s.nextRevision + 1, s.nextRevision, c))
            && forall r | r in t.history && r != t.nextRevision :: r in s.history && t.history[r] == s.history[r]
  {
    AcceptedLimit(d, c);
    var t := Publish(d, s, c);
    PublishMovesWindow(d, s, c);
    assert InWindow(t, t.nextRevision);
    forall r | r in t.history
      ensures r != t.nextRevision ==> r in s.history && t.history[r] == s.history[r]
      ensures Normalized(d, t.history[r]) == t.history[r] && Accepts(t.history[r])
    {
      if r != t.nextRevision { PublishKeepsOthers(d, s, c, r); }
    }
  }

  lemma ApplyKeepsInv(d: Defaults, s: State, c: Config, b: Build)
    requires EngineInv(d, s)
    ensures EngineInv(d, ApplyLocked(d, s, c, b).0)
  {
    if !s.closed && Obstacle(d, c, b).None? {
      NormalizedIdempotent(d, c);
      PublishKeepsInv(d, s, Normalized(d, c));
    }
  }

  // ------------------------------------------------------------ discovery

  function FindCluster(clusters: seq<Cluster>, id: string): (k: nat)
    ensures k <= |clusters|
    ensures k < |clusters| ==> clusters[k].id == id
    ensures forall i | 0 <= i < k :: clusters[i].id != id
  {
    if clusters == [] then 0
    else if clusters[0].id == id then 0
    else 1 + FindCluster(clusters[1..], id)
  }

  const NoEndpoint := Endpoint("", "", 0, false)

  /** A Go map filled from a list: the last entry under an identifier stays, a missing one reads as zero. */
  function LastById(es: seq<Endpoint>, id: string): Endpoint {
    if es == [] then NoEndpoint
    else if es[|es| - 1].id == id then es[|es| - 1]
    else LastById(es[..|es| - 1], id)
  }

  predicate SetsEqual(left: seq<Endpoint>, right: seq<Endpoint>) {
    var l, r := Mapped(EndpointDefaults, left), Mapped(EndpointDefaults, right);
    |left| == |right| && forall i | 0 <= i < |r| :: LastById(l, r[i].id) == r[i]
  }

  method EndpointSetsEqual(left: seq<Endpoint>, right: seq<Endpoint>) returns (equal: bool)
    ensures equal == SetsEqual(left, right)
  {
    if |left| != |right| {
      return false;
    }
    var l := NormalizeEndpoints(left);
    var values: map<string, Endpoint> := map[];
    for i := 0 to |l|
      invariant forall id :: (if id in values then values[id] else NoEndpoint) == LastById(l[..i], id)
    {
      assert l[..i + 1][..i] == l[..i];
      values := values[l[i].id := l[i]];
    }
    assert l[..|l|] == l;
    var r := NormalizeEndpoints(right);
    for i := 0 to |r|
      invariant forall j | 0 <= j < i :: LastById(l, r[j].id) == r[j]
    {
      if (if r[i].id in values then values[r[i].id] else NoEndpoint) != r[i] {
        return false;
      }
    }
    return true;
  }

  lemma {:induction false} LastByIdFinds(es: seq<Endpoint>, i: nat)
    requires UniqueIds(es) && i < |es|
    ensures LastById(es, es[i].id) == es[i]
    decreases |es|
  {
    if i < |es| - 1 {
      LastByIdFinds(es[..|es| - 1], i);
    }
  }

  lemma {:induction false} LastByIdMember(es: seq<Endpoint>, id: string)
    ensures LastById(es, id) == NoEndpoint || LastById(es, id) in es
    decreases |es|
  {
    if es != [] && es[|es| - 1].id != id {
      LastByIdMember(es[..|es| - 1], id);
    }
  }

  function SetOf(es: seq<Endpoint>): set<Endpoint> { set e | e in es }

  lemma {:induction false} UniqueCount(es: seq<Endpoint>)
    requires UniqueIds(es)
    ensures |SetOf(es)| == |es|
    decreases |es|
  {
    if es != [] {
      var init := es[..|es| - 1];
      UniqueCount(init);
      assert es == init + [es[|es| - 1]];
      assert SetOf(es) == SetOf(init) + {es[|es| - 1]};
      assert es[|es| - 1] !in init;
    }
  }

  lemma SubsetOfSameSize(a: set<Endpoint>, b: set<Endpoint>)
    requires a <= b && |a| == |b|
    ensures a == b
  {
    assert b == a + (b - a);
  }

  /** For lists without repeated identifiers the comparison is equality of sets: order does not matter. */
  lemma SetsEqualIff(left: seq<Endpoint>, right: seq<Endpoint>)
    requires UniqueIds(left) && UniqueIds(right)
    ensures SetsEqual(left, right) <==> SetOf(Mapped(EndpointDefaults, left)) == SetOf(Mapped(EndpointDefaults, right))
  {
    var l, r := Mapped(EndpointDefaults, left), Mapped(EndpointDefaults, right);
    UniqueCount(l);
    UniqueCount(r);
    if SetsEqual(left, right) {
      forall e | e in SetOf(r) ensures e in SetOf(l) {
        LastByIdMember(l, e.id);
        assert EndpointDefaults(NoEndpoint) != NoEndpoint;
      }
      SubsetOfSameSize(SetOf(r), SetOf(l));
    } else if SetOf(l) == SetOf(r) {
      forall i | 0 <= i < |r| ensures LastById(l, r[i].id) == r[i] {
        assert r[i] in SetOf(l);
        var j :| 0 <= j < |l| && l[j] == r[i];
        LastByIdFinds(l, j);
      }
    }
  }

  /** With a repeated identifier it can take different sets for equal, so validation has to come first. */
  lemma RepeatedIdFoolsComparison(a: Endpoint, b: Endpoint)
    requires a.id != b.id && a.weight >= 1 && b.weight >= 1
    ensures SetsEqual([a, b], [a, a]) && SetOf([a, b]) != SetOf([a, a])
  {
    assert LastById([a, b], a.id) == a by {
      assert [a, b][..1] == [a];
    }
    assert [a, b][1] == b;
    assert b in SetOf([a, b]) && b !in SetOf([a, a]);
    assert EndpointDefaults(a) == a && EndpointDefaults(b) == b;
    assert Mapped(EndpointDefaults, [a, b]) == [a, b] && Mapped(EndpointDefaults, [a, a]) == [a, a];
  }

  /** One discovery result. `stale` says that it is older than the last one seen. */
  datatype Discovered = Discovered(
    cluster: string, endpoints: seq<Endpoint>, kind: string, expected: Option<Discovery>, stale: bool, refused: bool)

  function WithEndpoints(c: Config, k: nat, es: seq<Endpoint>): Config
    requires k < |c.clusters|
  {
    c.(clusters := c.clusters[k := c.clusters[k].(endpoints := Mapped(EndpointDefaults, es))])
  }

  predicate SourceChanged(source: Discovery, u: Discovered) {
    (u.expected.Some? && source != u.expected.value) || (u.kind != "" && u.kind != source.kind)
  }

  /** Whether a discovery result asks for a new configuration, and which. */
  datatype Plan = Stop(outcome: Outcome) | Go(config: Config)

  function Planned(c: Config, u: Discovered): Plan {
    var k := FindCluster(c.clusters, u.cluster);
    if k == |c.clusters| || SourceChanged(c.clusters[k].discovery, u) || u.stale then Stop(Rejected)
    else
      var next := WithEndpoints(c, k, u.endpoints);
      if !Accepts(next) || u.refused then Stop(Rejected)
      else if SetsEqual(c.clusters[k].endpoints, next.clusters[k].endpoints) then Stop(Unchanged)
      else Go(next)
  }

  function UpdateLocked(d: Defaults, s: State, u: Discovered, b: Build): (State, Outcome) {
    if s.closed || s.current.None? then (s, ShutDown)
    else
      match Planned(s.current.value.config, u)
      case Stop(o) => (s, o)
      case Go(c) => ApplyLocked(d, s, c, b)
  }

  lemma EndpointsStayDefaulted(es: seq<Endpoint>)
    ensures Mapped(EndpointDefaults, Mapped(EndpointDefaults, es)) == Mapped(EndpointDefaults, es)
  {}

  lemma ClusterKeepsEndpoints(d: Defaults, c: Cluster, es: seq<Endpoint>)
    requires NormalCluster(d, c) == c
    ensures var t := c.(endpoints := Mapped(EndpointDefaults, es)); NormalCluster(d, t) == t
  {
    EndpointsStayDefaulted(es);
  }

  /** Replacing one cluster's endpoints leaves a normalised configuration normalised. */
  lemma WithEndpointsIsNormal(d: Defaults, c: Config, k: nat, es: seq<Endpoint>)
    requires Normalized(d, c) == c && k < |c.clusters|
    ensures Normalized(d, WithEndpoints(c, k, es)) == WithEndpoints(c, k, es)
  {
    var t := WithEndpoints(c, k, es);
    forall i | 0 <= i < |c.clusters| ensures NormalCluster(d, t.clusters[i]) == t.clusters[i] {
      assert NormalCluster(d, c.clusters[i]) == Normalized(d, c).clusters[i];
      if i == k {
        ClusterKeepsEndpoints(d, c.clusters[k], es);
      }
    }
    assert Normalized(d, t).clusters == t.clusters;
    assert Normalized(d, t).routes == Normalized(d, c).routes;
    assert Normalized(d, t).listeners == Normalized(d, c).listeners;
  }

  /** A plan is made only for a different set of endpoints, and dropped as unchanged only for the same set. */
  lemma PlanIsExact(d: Defaults, c: Config, u: Discovered)
    requires Normalized(d, c) == c && Accepts(c)
    ensures var k, p := FindCluster(c.clusters, u.cluster), Planned(c, u);
            p.Go? || p == Stop(Unchanged) ==>
              && k < |c.clusters|
              && (p.Go? <==> SetOf(c.clusters[k].endpoints) != SetOf(Mapped(EndpointDefaults, u.endpoints)))
              && (p.Go? ==> p.config == WithEndpoints(c, k, u.endpoints) && Normalized(d, p.config) == p.config)
  {
    var k, p := FindCluster(c.clusters, u.cluster), Planned(c, u);
    if p.Go? || p == Stop(Unchanged) {
      var next := WithEndpoints(c, k, u.endpoints);
      WithEndpointsIsNormal(d, c, k, u.endpoints);
      EndpointsStayDefaulted(u.endpoints);
      assert NormalCluster(d, c.clusters[k]) == Normalized(d, c).clusters[k];
      assert AcceptsCluster(c.clusters[k]) && AcceptsCluster(next.clusters[k]);
      SetsEqualIff(c.clusters[k].endpoints, next.clusters[k].endpoints);
    }
  }

  /**
   A discovery result publishes a new revision only if the set of endpoints differs, and what it publishes
   differs from the configuration in force in nothing but that cluster's endpoints.
   */
  lemma UpdatePublishesExactly(d: Defaults, s: State, u: Discovered, b: Build)
    requires EngineInv(d, s) && s.current.Some?
    ensures var c := s.current.value.config;
            var k := FindCluster(c.clusters, u.cluster);
            var (t, o) := UpdateLocked(d, s, u, b);
            && (o.Applied? ==>
                  && k < |c.clusters| && t.current.Some?
                  && t.current.value.config ==
                     c.(clusters := c.clusters[k := c.clusters[k].(endpoints := Mapped(EndpointDefaults, u.endpoints))])
                  && SetOf(c.clusters[k].endpoints) != SetOf(Mapped(EndpointDefaults, u.endpoints)))
            && (o.Unchanged? ==>
                  && t == s && k < |c.clusters|
                  && SetOf(c.clusters[k].endpoints) == SetOf(Mapped(EndpointDefaults, u.endpoints)))
  {
    PlanIsExact(d, s.current.value.config, u);
  }

  /** The one cluster of that name, if there is one. */
  predicate IsNamed(c: Config, id: string, k: nat) { k < |c.clusters| && c.clusters[k].id == id }

  /** What is wrong with a discovery result for cluster `k` of the configuration in force. */
  predicate Unfit(c: Config, k: nat, u: Discovered)
    requires k < |c.clusters|
  {
    || (u.expected.Some? && u.expected.value != c.clusters[k].discovery)
    || (u.kind != "" && u.kind != c.clusters[k].discovery.kind)
    || u.stale || u.refused
    || !Accepts(c.(clusters := c.clusters[k := c.clusters[k].(endpoints := Mapped(EndpointDefaults, u.endpoints))]))
  }

  lemma OnlyOneNamed(c: Config, id: string, j: nat, k: nat)
    requires Accepts(c) && IsNamed(c, id, j) && IsNamed(c, id, k)
    ensures j == k
  {}

  lemma PlanRejectedIff(c: Config, u: Discovered)
    requires Accepts(c)
    ensures Planned(c, u) == Stop(Rejected) <==> forall k: nat | IsNamed(c, u.cluster, k) :: Unfit(c, k, u)
  {
    var k := FindCluster(c.clusters, u.cluster);
    if k < |c.clusters| {
      assert IsNamed(c, u.cluster, k);
      forall j: nat | IsNamed(c, u.cluster, j) ensures j == k {
        OnlyOneNamed(c, u.cluster, j, k);
      }
    }
  }

  /** Exactly when a discovery result is rejected: the cluster is unknown, or the result does not fit it. */
  lemma RejectedIff(d: Defaults, s: State, u: Discovered, b: Build)
    requires EngineInv(d, s) && s.current.Some?
    ensures var c := s.current.value.config;
            UpdateLocked(d, s, u, b).1.Rejected? <==>
            (forall k: nat | IsNamed(c, u.cluster, k) :: Unfit(c, k, u))
  {
    PlanRejectedIff(s.current.value.config, u);
  }

  // ------------------------------------------------------------ commands and runs

  datatype Command =
    | Apply(config: Config, build: Build)
    | ApplyIf(config: Config, expected: nat, build: Build)
    | Rollback(revision: nat, build: Build)
    | RollbackIf(revision: nat, expected: nat, build: Build)
    | Update(found: Discovered, build: Build)
    | Close

  function Exec(d: Defaults, s: State, cmd: Command): (State, Outcome) {
    match cmd
    case Apply(c, b) => ApplyLocked(d, s, c, b)
    case ApplyIf(c, expected, b) =>
      if s.closed then (s, ShutDown) else if !Expects(s, expected) then (s, Conflict) else ApplyLocked(d, s, c, b)
    case Rollback(r, b) => if s.closed then (s, ShutDown) else RollbackLocked(d, s, r, b)
    case RollbackIf(r, expected, b) =>
      if s.closed then (s, ShutDown) else if !Expects(s, expected) then (s, Conflict) else RollbackLocked(d, s, r, b)
    case Update(u, b) => UpdateLocked(d, s, u, b)
    case Close => (s.(closed := true, current := None), ShutDown)
  }

  lemma RollbackKeepsInv(d: Defaults, s: State, r: nat, b: Build)
    requires EngineInv(d, s)
    ensures EngineInv(d, RollbackLocked(d, s, r, b).0)
  {
    if r in s.history {
      ApplyKeepsInv(d, s, s.history[r], b);
    }
  }

  lemma UpdateKeepsInv(d: Defaults, s: State, u: Discovered, b: Build)
    requires EngineInv(d, s)
    ensures EngineInv(d, UpdateLocked(d, s, u, b).0)
  {
    if s.current.Some? && Planned(s.current.value.config, u).Go? {
      ApplyKeepsInv(d, s, Planned(s.current.value.config, u).config, b);
    }
  }

  lemma CloseKeepsInv(d: Defaults, s: State)
    requires EngineInv(d, s)
    ensures EngineInv(d, s.(closed := true, current := None))
  {}

  lemma ExecKeepsInv(d: Defaults, s: State, cmd: Command)
    requires EngineInv(d, s)
    ensures EngineInv(d, Exec(d, s, cmd).0)
  {
    match cmd {
      case Apply(c, b) => ApplyKeepsInv(d, s, c, b);
      case ApplyIf(c, _, b) => ApplyKeepsInv(d, s, c, b);
      case Rollback(r, b) => RollbackKeepsInv(d, s, r, b);
      case RollbackIf(r, _, b) => RollbackKeepsInv(d, s, r, b);
      case Update(u, b) => UpdateKeepsInv(d, s, u, b);
      case Close => CloseKeepsInv(d, s);
    }
  }

  /** A command that does not publish leaves everything but the last error and the failure counter alone. */
  lemma OnlyPublishingChanges(d: Defaults, s: State, cmd: Command)
    ensures var (t, o) := Exec(d, s, cmd);
            && (o.Applied? ==>
                  && t.nextRevision == s.nextRevision + 1 && t.applySuccess == s.applySuccess + 1
                  && t.applyFailures == s.applyFailures && t.lastError == "")
            && (o.Failed? ==> t == s.(lastError := o.message, applyFailures := s.applyFailures + 1))
            && (!o.Applied? && !o.Failed? ==> t == if cmd.Close? then s.(closed := true, current := None) else s)
  {}

  /**
   A rollback finds its revision exactly if that lies in the window of revisions still held, and if it goes
   through, the configuration then in force is the one that revision had.
   */
  lemma RollbackRestores(d: Defaults, s: State, revision: nat, b: Build)
    requires EngineInv(d, s) && !s.closed
    ensures var (t, o) := RollbackLocked(d, s, revision, b);
            && (o.Unavailable? <==> !InWindow(s, revision))
            && (o.Applied? ==>
                  && InWindow(s, revision) && t.current.Some?
                  && t.current.value == Published(s.nextRevision + 1, s.nextRevision, s.history[revision]))
            && (InWindow(s, revision) && b.failure.None? && b.cancelled.None? ==> o.Applied?)
  {}

  function Final(d: Defaults, s: State, cmds: seq<Command>): State
    decreases |cmds|
  {
    if cmds == [] then s else Final(d, Exec(d, s, cmds[0]).0, cmds[1..])
  }

  lemma {:induction false} RunKeepsInv(d: Defaults, s: State, cmds: seq<Command>)
    requires EngineInv(d, s)
    ensures EngineInv(d, Final(d, s, cmds)) && s.nextRevision <= Final(d, s, cmds).nextRevision
    decreases |cmds|
  {
    if cmds != [] {
      ExecKeepsInv(d, s, cmds[0]);
      OnlyPublishingChanges(d, s, cmds[0]);
      RunKeepsInv(d, Exec(d, s, cmds[0]).0, cmds[1..]);
    }
  }

  /** The outcome of the command at `i` of the run. */
  function OutcomeAt(d: Defaults, s: State, cmds: seq<Command>, i: nat): Outcome
    requires i < |cmds|
  {
    Exec(d, Final(d, s, cmds[..i]), cmds[i]).1
  }

  predicate ConditionalOn(cmd: Command, expected: nat) {
    (cmd.ApplyIf? || cmd.RollbackIf?) && cmd.expected == expected
  }

  lemma WinnerMovesOn(d: Defaults, s: State, cmd: Command, expected: nat)
    requires EngineInv(d, s) && ConditionalOn(cmd, expected) && Exec(d, s, cmd).1.Applied?
    ensures s.nextRevision == expected && Exec(d, s, cmd).0.nextRevision == expected + 1
  {}

  /**
   When exactly a conditional command meets a conflict, and when it goes through: the revision in force is the
   expected one, it is still held where a rollback needs it, and nothing stands in the way.
   */
  lemma ConditionalOutcome(d: Defaults, s: State, c: Config, revision: nat, expected: nat, b: Build)
    requires EngineInv(d, s)
    ensures var o := Exec(d, s, ApplyIf(c, expected, b)).1;
            && (o.Conflict? <==> !s.closed && s.nextRevision != expected)
            && (o.Applied? <==> !s.closed && s.nextRevision == expected && Accepts(Normalized(d, c)) && b.failure.None? && b.cancelled.None?)
            && (o.ShutDown? <==> s.closed)
    ensures var o := Exec(d, s, RollbackIf(revision, expected, b)).1;
            && (o.Conflict? <==> !s.closed && s.nextRevision != expected)
            && (o.Unavailable? <==> !s.closed && s.nextRevision == expected && !InWindow(s, revision))
            && (o.Applied? <==> !s.closed && s.nextRevision == expected && InWindow(s, revision) && b.failure.None? && b.cancelled.None?)
            && (o.ShutDown? <==> s.closed)
  {
    if !s.closed {
      RollbackRestores(d, s, revision, b);
    }
  }

  /** How long the history is after a publication: never beyond either limit, and cut only to meet one. */
  lemma HistoryIsCutToLimits(d: Defaults, s: State, c: Config)
    requires EngineInv(d, s) && !s.closed && Normalized(d, c) == c && Accepts(c)
    ensures Limit(d, c) >= 1
    ensures var n := |Publish(d, s, c).order|;
            && n <= c.historyLimit && (d.historyLimit > 0 ==> n <= d.historyLimit)
            && (n == |s.order| + 1 || n == c.historyLimit || (d.historyLimit > 0 && n == d.historyLimit))
  {
    PublishKeepsInv(d, s, c);
  }

  lemma {:induction false} FinalSplits(d: Defaults, s: State, xs: seq<Command>, ys: seq<Command>)
    ensures Final(d, s, xs + ys) == Final(d, Final(d, s, xs), ys)
    decreases |xs|
  {
    if xs == [] {
      assert xs + ys == ys;
    } else {
      assert (xs + ys)[1..] == xs[1..] + ys;
      FinalSplits(d, Exec(d, s, xs[0]).0, xs[1..], ys);
    }
  }

  lemma FinalNext(d: Defaults, s: State, cmds: seq<Command>, i: nat)
    requires i < |cmds|
    ensures Final(d, s, cmds[..i + 1]) == Exec(d, Final(d, s, cmds[..i]), cmds[i]).0
  {
    assert cmds[..i + 1] == cmds[..i] + [cmds[i]];
    FinalSplits(d, s, cmds[..i], [cmds[i]]);
    assert [cmds[i]][1..] == [];
  }

  lemma RevisionsGrow(d: Defaults, s: State, cmds: seq<Command>, i: nat, j: nat)
    requires EngineInv(d, s) && i <= j <= |cmds|
    ensures Final(d, s, cmds[..i]).nextRevision <= Final(d, s, cmds[..j]).nextRevision
  {
    assert cmds[..j] == cmds[..i] + cmds[i..j];
    FinalSplits(d, s, cmds[..i], cmds[i..j]);
    RunKeepsInv(d, s, cmds[..i]);
    RunKeepsInv(d, Final(d, s, cmds[..i]), cmds[i..j]);
  }

  /** Over any run, at most one conditional command per expected revision goes through. */
  lemma AtMostOneWinner(d: Defaults, s: State, cmds: seq<Command>, i: nat, j: nat, expected: nat)
    requires EngineInv(d, s) && i < j < |cmds|
    requires ConditionalOn(cmds[i], expected) && ConditionalOn(cmds[j], expected)
    ensures OutcomeAt(d, s, cmds, i).Applied? ==> !OutcomeAt(d, s, cmds, j).Applied?
  {
    if OutcomeAt(d, s, cmds, i).Applied? {
      RunKeepsInv(d, s, cmds[..i]);
      RunKeepsInv(d, s, cmds[..j]);
      WinnerMovesOn(d, Final(d, s, cmds[..i]), cmds[i], expected);
      FinalNext(d, s, cmds, i);
      RevisionsGrow(d, s, cmds, i + 1, j);
      if OutcomeAt(d, s, cmds, j).Applied? {
        WinnerMovesOn(d, Final(d, s, cmds[..j]), cmds[j], expected);
      }
    }
  }
}
