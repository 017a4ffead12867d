/**
 Configuration generations that share endpoint state.

 A `World` holds every pool ever built, the leases that tie pools to shared endpoint states, and the
 registry (`internal/balancer/backend.go`, `internal/balancer/backend_state.go`). A `Step` is one
 critical section or one atomic access of the Go code, so a sequence of steps is an interleaving of
 any number of goroutines. Changing an endpoint and invalidating the caches that depend on it are two
 steps where the code drops the lock in between; `pending` records the invalidations still to come.
 */
module Generations {
  import opened Common
  import opened Endpoints

  /** An endpoint state, named after the backend it was created for. */
  datatype StateId = StateId(pool: PoolId, index: nat)

  datatype Identity = Identity(scope: string, id: string, url: string)

  datatype BackendSpec = BackendSpec(id: string, url: string, weight: int, disabled: bool)

  datatype Backend = Backend(id: string, url: string, weight: int, state: StateId)

  /** Progress of the goroutine that holds the pool's mutex. */
  datatype Section =
    | Free
    | Recovering(asOf: int, next: int, index: nat, settled: bool)
    | Recovered
    | Scanning(version: nat, index: nat, found: seq<nat>)
    | Publishing(version: nat)

  /** `available` lists positions in `all`. */
  datatype Pool = Pool(
    all: seq<Backend>,
    available: seq<nat>,
    policy: PassivePolicy,
    nextRecovery: int,
    stateVersion: nat,
    cacheVersion: nat,
    section: Section)

  datatype Reservation = Reservation(key: Identity, shared: StateId, reused: bool)

  /** Entry `i` belongs to backend `i` of the pool. Entries below `progress` have been swapped in. */
  datatype Lease = Lease(
    scope: string,
    entries: seq<Reservation>,
    active: bool,
    refresh: bool,
    progress: nat,
    closed: bool,
    released: nat)

  /** `granted` is a history variable: the slots that requests hold. */
  datatype World = World(
    clock: int,
    endpoints: map<StateId, Endpoint>,
    pools: map<PoolId, Pool>,
    leases: map<PoolId, Lease>,
    registry: map<Identity, StateId>,
    refs: map<StateId, nat>,
    pending: multiset<StateId>,
    granted: multiset<Slot>)

  const EmptyWorld := World(1, map[], map[], map[], map[], map[], multiset{}, multiset{})

  predicate At(w: World, p: PoolId, i: nat) {
    p in w.pools && i < |w.pools[p].all|
  }

  function StateOf(w: World, p: PoolId, i: nat): StateId
    requires At(w, p, i)
  {
    w.pools[p].all[i].state
  }

  predicate Backed(w: World, p: PoolId, i: nat) {
    At(w, p, i) && StateOf(w, p, i) in w.endpoints
  }

  // ------------------------------------------------------------ primitives

  /** `scheduleRecovery`: the deadline kept is the earlier one. */
  function Schedule(current: int, deadline: int): int {
    if 0 < current <= deadline then current else deadline
  }

  function Invalidated(pool: Pool, until: int): Pool {
    pool.(stateVersion := pool.stateVersion + 1,
          nextRecovery := if until > 0 then Schedule(pool.nextRecovery, until) else pool.nextRecovery)
  }

  /** `invalidateLocked`: every pool that lists the endpoint gets its deadline and a new version. */
  function Invalidate(w: World, s: StateId): World
    requires s in w.endpoints
  {
    var e := w.endpoints[s];
    w.(pools := map q | q in w.pools :: if q in e.pools then Invalidated(w.pools[q], e.ejectedUntil) else w.pools[q])
  }

  /** One critical section on an endpoint; the invalidation it calls for is still to come. */
  function Touch(w: World, s: StateId, ev: Event): World
    requires s in w.endpoints
  {
    var e := w.endpoints[s];
    w.(endpoints := w.endpoints[s := Apply(e, ev, w.clock)],
       pending := if Bumps(e, ev, w.clock) then w.pending + multiset{s} else w.pending)
  }

  function PutPool(w: World, p: PoolId, pool: Pool): World {
    w.(pools := w.pools[p := pool])
  }

  function PutLease(w: World, p: PoolId, lease: Lease): World {
    w.(leases := w.leases[p := lease])
  }

  // ------------------------------------------------------------ pools

  /** What `buildBackends` accepts: nonempty unique ids and unique URLs. */
  predicate ValidSpecs(specs: seq<BackendSpec>) {
    && (forall i | 0 <= i < |specs| :: specs[i].id != "")
    && (forall i, j | 0 <= i < j < |specs| :: specs[i].id != specs[j].id && specs[i].url != specs[j].url)
  }

  function NewEndpoint(p: PoolId, spec: BackendSpec, policy: PassivePolicy): Endpoint {
    Endpoint({p}, None, spec.disabled, policy.maxConcurrent, false, !spec.disabled, false, 0, 0, 0, 0, 0, multiset{})
  }

  function NewBackends(p: PoolId, specs: seq<BackendSpec>): seq<Backend> {
    seq(|specs|, i requires 0 <= i < |specs| =>
      Backend(specs[i].id, specs[i].url, Max(1, specs[i].weight), StateId(p, i)))
  }

  function CreatedPool(w: World, p: PoolId, specs: seq<BackendSpec>, policy: PassivePolicy): World {
    var created := map i: nat | i < |specs| :: StateId(p, i) := NewEndpoint(p, specs[i], policy);
    w.(endpoints := w.endpoints + created,
       pools := w.pools[p := Pool(NewBackends(p, specs), [], policy, 0, 0, 0, Free)])
  }

  // ------------------------------------------------------------ leases

  function Refs(w: World, s: StateId): nat {
    if s in w.refs then w.refs[s] else 0
  }

  function KeyOf(w: World, p: PoolId, i: nat): Identity
    requires At(w, p, i) && p in w.leases
  {
    Identity(w.leases[p].scope, w.pools[p].all[i].id, w.pools[p].all[i].url)
  }

  predicate Full(w: World, p: PoolId) {
    p in w.pools && p in w.leases && w.leases[p].active && w.leases[p].progress == |w.pools[p].all|
  }

  /** Published, or given up and completely released. */
  predicate Settled(w: World, p: PoolId) {
    || Full(w, p)
    || (p in w.leases && w.leases[p].closed && w.leases[p].released == |w.leases[p].entries|)
  }

  function ReserveEntry(w: World, p: PoolId): World
    requires p in w.pools && p in w.leases && |w.leases[p].entries| < |w.pools[p].all|
  {
    var lease := w.leases[p];
    var k := |lease.entries|;
    var key := KeyOf(w, p, k);
    var reused := key in w.registry;
    var shared := if reused then w.registry[key] else StateOf(w, p, k);
    w.(leases := w.leases[p := lease.(entries := lease.entries + [Reservation(key, shared, reused)])],
       registry := w.registry[key := shared],
       refs := w.refs[shared := if reused then Refs(w, shared) + 1 else 1])
  }

  /** What the pool's own copy of the endpoint says when the shared state is swapped in. */
  function ActivationEvent(w: World, p: PoolId): Event
    requires p in w.leases && w.leases[p].progress < |w.leases[p].entries| && Backed(w, p, w.leases[p].progress)
  {
    var lease := w.leases[p];
    var own := w.endpoints[StateOf(w, p, lease.progress)];
    Activate(p, lease.refresh && lease.entries[lease.progress].reused, own.healthy, own.configuredDisabled,
             w.pools[p].policy.maxConcurrent)
  }

  /** The backend's state pointer now names the shared state. */
  function Repoint(pool: Pool, i: nat, s: StateId): Pool
    requires i < |pool.all|
  {
    pool.(all := pool.all[i := pool.all[i].(state := s)])
  }

  function ActivateEntry(w: World, p: PoolId): World
    requires p in w.leases && w.leases[p].progress < |w.leases[p].entries| && Backed(w, p, w.leases[p].progress)
    requires w.leases[p].entries[w.leases[p].progress].shared in w.endpoints
  {
    var lease := w.leases[p];
    var i := lease.progress;
    var s := lease.entries[i].shared;
    var swapped := w.(
      endpoints := w.endpoints[s := Apply(w.endpoints[s], ActivationEvent(w, p), w.clock)],
      pools := w.pools[p := Repoint(w.pools[p], i, s)],
      leases := w.leases[p := lease.(progress := i + 1)]);
    Invalidate(swapped, s)
  }

  function ReleaseEntry(w: World, p: PoolId): World
    requires p in w.leases && w.leases[p].released < |w.leases[p].entries|
    requires w.leases[p].entries[w.leases[p].released].shared in w.endpoints
    requires Refs(w, w.leases[p].entries[w.leases[p].released].shared) > 0
  {
    var lease := w.leases[p];
    var entry := lease.entries[lease.released];
    var left := Refs(w, entry.shared) - 1;
    var detached := if lease.active then Touch(w, entry.shared, Detach(p)) else w;
    detached.(
      leases := w.leases[p := lease.(released := lease.released + 1)],
      refs := w.refs[entry.shared := left],
      registry := if left == 0 then w.registry - {entry.key} else w.registry)
  }

  // ------------------------------------------------------------ steps

  datatype Action =
    | ReportProbe(success: bool, successThreshold: int, failureThreshold: int)
    | MarkAlive
    | PassiveFailure
    | PassiveSuccess
    | SetEnabled(enable: bool)
    | StartDrain
    | TryAcquire
    | GiveBack

  datatype Move =
    | BeginRecover(asOf: int)
    | NoteDeadline
    | FinishRecover
    | BeginScan
    | Scan
    | Publish
    | Seal

  datatype Step =
    | Tick(now: int)
    | CreatePool(p: PoolId, specs: seq<BackendSpec>, policy: PassivePolicy)
    | OnBackend(p: PoolId, i: nat, action: Action)
    | Flush(s: StateId)
    | OnPool(p: PoolId, move: Move)
    | Settle(p: PoolId)
    | OpenLease(p: PoolId, scope: string)
    | ReserveNext(p: PoolId)
    | BeginActivate(p: PoolId, refresh: bool)
    | ActivateNext(p: PoolId)
    | BeginClose(p: PoolId)
    | CloseNext(p: PoolId)

  /** A backend whose shared state has been swapped in: the only kind requests can reach. */
  predicate Published(w: World, p: PoolId, i: nat) {
    Backed(w, p, i) && p in w.leases && i < w.leases[p].progress
  }

  predicate ActionEnabled(w: World, p: PoolId, i: nat, action: Action) {
    && Backed(w, p, i)
    && match action
       case ReportProbe(_, _, _) => true
       // Only while the backends are still private to the cluster being built.
       case MarkAlive => p in w.leases ==> !w.leases[p].active
       case PassiveFailure => Published(w, p, i) && w.clock + w.pools[p].policy.cooldown > 0
       case GiveBack => Slot(p, i) in w.granted
       case _ => Published(w, p, i)
  }

  function EventOf(w: World, p: PoolId, i: nat, action: Action): Event
    requires p in w.pools
  {
    match action
    case ReportProbe(success, st, ft) => Probe(p, success, st, ft)
    case MarkAlive => Alive(true)
    case PassiveFailure => Fail(w.pools[p].policy)
    case PassiveSuccess => Succeed
    case SetEnabled(enable) => Enable(enable)
    case StartDrain => Drain
    case TryAcquire => Acquire(Slot(p, i))
    case GiveBack => Release(Slot(p, i))
  }

  function GrantedAfter(w: World, p: PoolId, i: nat, action: Action): multiset<Slot>
    requires Backed(w, p, i)
  {
    match action
    case TryAcquire =>
      if Grants(w.endpoints[StateOf(w, p, i)], w.clock) then w.granted + multiset{Slot(p, i)} else w.granted
    case GiveBack => w.granted - multiset{Slot(p, i)}
    case _ => w.granted
  }

  /** A request, a probe or an operator acts on a backend. */
  function Acted(w: World, p: PoolId, i: nat, action: Action): World
    requires Backed(w, p, i)
  {
    Touch(w, StateOf(w, p, i), EventOf(w, p, i, action)).(granted := GrantedAfter(w, p, i, action))
  }

  /** A pending invalidation is carried out. */
  function Flushed(w: World, s: StateId): World
    requires s in w.endpoints
  {
    Invalidate(w.(pending := w.pending - multiset{s}), s)
  }

  predicate MoveEnabled(w: World, p: PoolId, move: Move) {
    && p in w.pools
    && var pool := w.pools[p];
       match move
       case BeginRecover(asOf) => pool.section.Free? && 0 < pool.nextRecovery <= asOf <= w.clock
       case NoteDeadline => pool.section.Recovering? && pool.section.settled && Backed(w, p, pool.section.index)
       case FinishRecover => pool.section.Recovering? && pool.section.index == |pool.all|
       case BeginScan => pool.section.Free? || pool.section.Recovered?
       case Scan => pool.section.Scanning? && Backed(w, p, pool.section.index)
       case Publish => pool.section.Scanning? && pool.section.index == |pool.all|
       case Seal => pool.section.Publishing?
  }

  function NextDeadline(next: int, until: int, asOf: int): int {
    if until > asOf && (next == 0 || until < next) then until else next
  }

  /** The pool after its mutex holder's next move. */
  function Moved(w: World, p: PoolId, move: Move): Pool
    requires MoveEnabled(w, p, move)
  {
    var pool := w.pools[p];
    match move
    case BeginRecover(asOf) => pool.(nextRecovery := 0, section := Recovering(asOf, 0, 0, false))
    case NoteDeadline =>
      var sec := pool.section;
      var until := w.endpoints[StateOf(w, p, sec.index)].ejectedUntil;
      pool.(section := Recovering(sec.asOf, NextDeadline(sec.next, until, sec.asOf), sec.index + 1, false))
    case FinishRecover =>
      var next := pool.section.next;
      pool.(nextRecovery := if next > 0 then Schedule(pool.nextRecovery, next) else pool.nextRecovery,
            section := Recovered)
    case BeginScan => pool.(section := Scanning(pool.stateVersion, 0, []))
    case Scan =>
      var sec := pool.section;
      var alive := w.endpoints[StateOf(w, p, sec.index)].IsAlive(w.clock);
      pool.(section := Scanning(sec.version, sec.index + 1, if alive then sec.found + [sec.index] else sec.found))
    case Publish => pool.(available := pool.section.found, section := Publishing(pool.section.version))
    case Seal => pool.(cacheVersion := pool.section.version, section := Free)
  }

  predicate SettleEnabled(w: World, p: PoolId) {
    && p in w.pools && w.pools[p].section.Recovering? && !w.pools[p].section.settled
    && Backed(w, p, w.pools[p].section.index)
  }

  /** `recoverExpiredEjection` on the next backend: recovery and invalidation in one locked section. */
  function SettleEntry(w: World, p: PoolId): World
    requires SettleEnabled(w, p)
  {
    var pool := w.pools[p];
    var s := StateOf(w, p, pool.section.index);
    var e := w.endpoints[s];
    var recovered := w.(endpoints := w.endpoints[s := Apply(e, Recover(pool.section.asOf), w.clock)],
                        pools := w.pools[p := pool.(section := pool.section.(settled := true))]);
    if e.ejectedUntil == 0 || pool.section.asOf < e.ejectedUntil then recovered else Invalidate(recovered, s)
  }

  /** Every open candidate for a cluster id excludes another: the engine's mutex. */
  predicate MayOpen(w: World, scope: string) {
    forall q | q in w.leases && w.leases[q].scope == scope :: Settled(w, q)
  }

  predicate Unactivated(w: World, p: PoolId) {
    p in w.pools && p in w.leases && !w.leases[p].active && !w.leases[p].closed
  }

  predicate ActivateEnabled(w: World, p: PoolId) {
    && p in w.leases && w.leases[p].active && !w.leases[p].closed
    && w.leases[p].progress < |w.leases[p].entries| && Backed(w, p, w.leases[p].progress)
    && w.leases[p].entries[w.leases[p].progress].shared in w.endpoints
  }

  predicate ReleaseEnabled(w: World, p: PoolId) {
    && p in w.leases && w.leases[p].closed && w.leases[p].released < |w.leases[p].entries|
    && w.leases[p].entries[w.leases[p].released].shared in w.endpoints
    && Refs(w, w.leases[p].entries[w.leases[p].released].shared) > 0
  }

  /** When the code can take the step. */
  predicate Enabled(w: World, st: Step) {
    match st
    case Tick(now) => w.clock <= now
    case CreatePool(p, specs, policy) => p !in w.pools && ValidSpecs(specs)
    case OnBackend(p, i, action) => ActionEnabled(w, p, i, action)
    case Flush(s) => s in w.pending && s in w.endpoints
    case OnPool(p, move) => MoveEnabled(w, p, move)
    case Settle(p) => SettleEnabled(w, p)
    case OpenLease(p, scope) => p in w.pools && p !in w.leases && MayOpen(w, scope)
    case ReserveNext(p) => Unactivated(w, p) && |w.leases[p].entries| < |w.pools[p].all|
    case BeginActivate(p, _) => Unactivated(w, p) && |w.leases[p].entries| == |w.pools[p].all|
    case ActivateNext(p) => ActivateEnabled(w, p)
    case BeginClose(p) => p in w.leases && !w.leases[p].closed && (w.leases[p].active ==> Full(w, p))
    case CloseNext(p) => ReleaseEnabled(w, p)
  }

  function Next(w: World, st: Step): World
    requires Enabled(w, st)
  {
    match st
    case Tick(now) => w.(clock := now)
    case CreatePool(p, specs, policy) => CreatedPool(w, p, specs, policy)
    case OnBackend(p, i, action) => Acted(w, p, i, action)
    case Flush(s) => Flushed(w, s)
    case OnPool(p, move) => PutPool(w, p, Moved(w, p, move))
    case Settle(p) => SettleEntry(w, p)
    case OpenLease(p, scope) => PutLease(w, p, Lease(scope, [], false, false, 0, false, 0))
    case ReserveNext(p) => ReserveEntry(w, p)
    case BeginActivate(p, refresh) => PutLease(w, p, w.leases[p].(active := true, refresh := refresh))
    case ActivateNext(p) => ActivateEntry(w, p)
    case BeginClose(p) => PutLease(w, p, w.leases[p].(closed := true))
    case CloseNext(p) => ReleaseEntry(w, p)
  }

  // ------------------------------------------------------------ invariant

  /** The pool is told about every change of the endpoint behind position `i`. */
  predicate TracksAt(w: World, p: PoolId, i: nat) {
    Backed(w, p, i) && p in w.endpoints[StateOf(w, p, i)].pools
  }

  predicate Tracks(w: World, p: PoolId) {
    p in w.pools && forall i | 0 <= i < |w.pools[p].all| :: TracksAt(w, p, i)
  }

  /** No goroutine stands between a change of one of the pool's endpoints and its invalidation. */
  predicate Quiet(w: World, p: PoolId) {
    p in w.pools && forall i | 0 <= i < |w.pools[p].all| :: w.pools[p].all[i].state !in w.pending
  }

  predicate LiveAt(w: World, p: PoolId, i: nat) {
    Backed(w, p, i) && w.endpoints[StateOf(w, p, i)].Live()
  }

  /** Positions below `k` of live backends, in configured order. */
  function LiveBelow(w: World, p: PoolId, k: nat): seq<nat> {
    if k == 0 then [] else LiveBelow(w, p, k - 1) + if LiveAt(w, p, k - 1) then [k - 1] else []
  }

  predicate Exact(w: World, p: PoolId, version: nat) {
    p in w.pools && Tracks(w, p) && Quiet(w, p) && version == w.pools[p].stateVersion
  }

  /** A cache, or a cache being built, is right whenever its version is current. */
  predicate CacheOk(w: World, p: PoolId)
    requires p in w.pools
  {
    var pool := w.pools[p];
    var n := |pool.all|;
    && pool.cacheVersion <= pool.stateVersion
    && (Exact(w, p, pool.cacheVersion) ==> pool.available == LiveBelow(w, p, n))
    && match pool.section
       case Scanning(version, index, found) =>
         && pool.cacheVersion <= version <= pool.stateVersion && index <= n
         && (Exact(w, p, version) ==> found == LiveBelow(w, p, index))
       case Publishing(version) =>
         && pool.cacheVersion <= version <= pool.stateVersion
         && (Exact(w, p, version) ==> pool.available == LiveBelow(w, p, n))
       case Recovering(asOf, next, index, settled) =>
         0 < asOf <= w.clock && next >= 0 && index <= n && (settled ==> index < n)
       case _ => true
  }

  /** Some deadline the pool will look at does not come after `until`. */
  predicate Covered(pool: Pool, i: nat, until: int) {
    || 0 < pool.nextRecovery <= until
    || (pool.section.Recovering?
        && var sec := pool.section;
           || 0 < sec.next <= until
           || i > sec.index
           || (i == sec.index && (!sec.settled || until > sec.asOf)))
  }

  /** `nextRecovery` stands in for every live ejection deadline. */
  predicate RecoveryOk(w: World, p: PoolId, i: nat) {
    TracksAt(w, p, i) ==>
      var s := StateOf(w, p, i);
      var until := w.endpoints[s].ejectedUntil;
      until > 0 && s !in w.pending ==> Covered(w.pools[p], i, until)
  }

  /** Limits come from the last activation; before any, from the pool that created the state. */
  predicate EndpointOk(w: World, s: StateId)
    requires s in w.endpoints
  {
    var e := w.endpoints[s];
    var owner := if e.healthOwner.Some? then e.healthOwner.value else s.pool;
    && e.Sound()
    && e.pools <= w.pools.Keys
    && At(w, s.pool, s.index)
    && owner in w.pools && e.maxConcurrent == w.pools[owner].policy.maxConcurrent
  }

  /** Whose slots an endpoint counts. */
  predicate HolderOk(w: World, s: StateId, slot: Slot)
    requires s in w.endpoints
  {
    slot in w.endpoints[s].holders ==>
      && Published(w, slot.pool, slot.index) && StateOf(w, slot.pool, slot.index) == s
      && w.endpoints[s].holders[slot] == w.granted[slot]
  }

  predicate SlotOk(w: World, slot: Slot) {
    slot in w.granted ==>
      && Published(w, slot.pool, slot.index)
      && slot in w.endpoints[StateOf(w, slot.pool, slot.index)].holders
  }

  /** A backend not yet swapped points at its own state, which nobody else uses; a swapped state has an owner. */
  predicate BackendOk(w: World, p: PoolId, i: nat) {
    At(w, p, i) ==>
      && StateOf(w, p, i) in w.endpoints
      && (!(p in w.leases && i < w.leases[p].progress) ==>
            && StateOf(w, p, i) == StateId(p, i)
            && w.endpoints[StateId(p, i)].pools == {p}
            && w.endpoints[StateId(p, i)].healthOwner == None)
      && (p in w.leases && i < w.leases[p].progress ==> w.endpoints[StateOf(w, p, i)].healthOwner.Some?)
  }

  predicate UniqueIds(pool: Pool) {
    forall i, j | 0 <= i < j < |pool.all| :: pool.all[i].id != pool.all[j].id
  }

  predicate LeaseOk(w: World, p: PoolId)
    requires p in w.leases
  {
    var l := w.leases[p];
    && p in w.pools
    && l.progress <= |l.entries| <= |w.pools[p].all|
    && l.released <= |l.entries|
    && (l.progress > 0 ==> l.active)
    && (l.active ==> |l.entries| == |w.pools[p].all|)
    && (l.released > 0 ==> l.closed)
    && (l.closed && l.active ==> l.progress == |w.pools[p].all|)
  }

  predicate EntryOk(w: World, p: PoolId, i: nat)
    requires p in w.leases && p in w.pools && i < |w.leases[p].entries| <= |w.pools[p].all|
  {
    var l := w.leases[p];
    var entry := l.entries[i];
    && entry.key == KeyOf(w, p, i)
    && entry.shared in w.endpoints
    && (entry.shared.pool == p ==> entry.shared == StateId(p, i))
    && entry.reused == (entry.shared.pool != p)
    && (entry.shared.pool != p ==> Full(w, entry.shared.pool))
    && (i < l.progress ==> StateOf(w, p, i) == entry.shared)
    && (l.released <= i ==> entry.key in w.registry && w.registry[entry.key] == entry.shared)
    && (l.released <= i < l.progress ==> p in w.endpoints[entry.shared].pools)
  }

  /** The lease still counts towards the references of `key`. */
  predicate Holds(l: Lease, key: Identity) {
    exists i | l.released <= i < |l.entries| :: l.entries[i].key == key
  }

  function Holders(w: World, key: Identity): set<PoolId> {
    set p | p in w.leases && Holds(w.leases[p], key)
  }

  /** Present with exactly as many references as open leases that name it. */
  predicate KeyOk(w: World, key: Identity)
    requires key in w.registry
  {
    var s := w.registry[key];
    && s.pool in w.leases && s.index < |w.leases[s.pool].entries|
    && w.leases[s.pool].entries[s.index].key == key
    && s in w.refs && w.refs[s] == |Holders(w, key)| >= 1
  }

  predicate OneCandidate(w: World, p: PoolId, q: PoolId)
    requires p in w.leases && q in w.leases
  {
    p != q && w.leases[p].scope == w.leases[q].scope ==> Settled(w, p) || Settled(w, q)
  }

  predicate EndpointsInv(w: World) {
    forall s | s in w.endpoints :: EndpointOk(w, s)
  }

  ghost predicate BackendsInv(w: World) {
    && (forall p, i :: BackendOk(w, p, i))
    && (forall p | p in w.pools :: UniqueIds(w.pools[p]))
  }

  ghost predicate RecoveryInv(w: World) {
    forall p, i :: RecoveryOk(w, p, i)
  }

  predicate CachesInv(w: World) {
    forall p | p in w.pools :: CacheOk(w, p)
  }

  predicate LeasesInv(w: World) {
    && (forall p | p in w.leases :: LeaseOk(w, p))
    && (forall p, i | p in w.leases && 0 <= i < |w.leases[p].entries| :: EntryOk(w, p, i))
  }

  predicate RegistryInv(w: World) {
    forall key | key in w.registry :: KeyOk(w, key)
  }

  predicate CandidatesInv(w: World) {
    forall p, q | p in w.leases && q in w.leases :: OneCandidate(w, p, q)
  }

  ghost predicate SlotsInv(w: World) {
    && (forall s, slot | s in w.endpoints :: HolderOk(w, s, slot))
    && (forall slot :: SlotOk(w, slot))
  }

  /** Holds in every reachable state, for any interleaving of any number of goroutines. */
  ghost predicate Inv(w: World) {
    && EndpointsInv(w)
    && BackendsInv(w)
    && RecoveryInv(w)
    && CachesInv(w)
    && LeasesInv(w)
    && RegistryInv(w)
    && CandidatesInv(w)
    && SlotsInv(w)
  }
}
