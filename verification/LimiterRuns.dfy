/** Whole runs of the bounded store, key by key, against a store that forgets nothing. */
module LimiterRuns {
  import opened Common
  import opened TokenBuckets
  import opened SlotIndex
  import opened LocalStores

  // ------------------------------------------------------------ runs

  /** `states[i]` is the store before `ops[i]`, the last one the store after the run. */
  ghost predicate StepAt(hash: Hash, n: nat, states: seq<Store>, ops: seq<Op>, i: nat)
    requires i < |ops| && |states| == |ops| + 1
  {
    && StoreInv(hash, states[i], n) && Enabled(states[i], ops[i])
    && states[i + 1] == Applied(hash, states[i], ops[i])
  }

  /** When the first `k` operations are done. */
  function Clock(from: real, ops: seq<Op>, k: nat): real
    requires k <= |ops|
  {
    if k == 0 then from else ops[k - 1].now
  }

  /** A run from an empty store, on a clock that never goes back. */
  ghost predicate Run(hash: Hash, n: nat, from: real, states: seq<Store>, ops: seq<Op>) {
    && |states| == |ops| + 1 && StoreInv(hash, states[0], n) && states[0].size == 0
    && (forall i | 0 <= i < |ops| :: StepAt(hash, n, states, ops, i))
    && (forall i | 0 <= i < |ops| :: Clock(from, ops, i) <= ops[i].now)
  }

  predicate Asks(op: Op, key: Key) { op.Take? && op.key == key }

  predicate Resets(op: Op, key: Key) { op.Reset? && op.key == key }

  /** The decision `Take` returns on a bucket. */
  predicate Passes(b: Option<Bucket>, op: Op)
    requires op.Take?
  {
    Taken(Found(b, op.policy, op.now), op.policy, op.now).1
  }

  /** The bucket was there and is gone: evicted or cleaned up. */
  predicate Dropped(before: Option<Bucket>, after: Option<Bucket>) { before.Some? && after.None? }

  /** What the store holds under the key, before the operation at `i` or at the end. */
  function At(hash: Hash, states: seq<Store>, key: Key, i: nat): Option<Bucket>
    requires i < |states|
  {
    if states[i].shards == [] then None else Lookup(hash, states[i], key)
  }

  function Grant(b: Option<Bucket>, op: Op, key: Key): nat {
    if Asks(op, key) && Passes(b, op) then 1 else 0
  }

  /** Requests under `key` that passed during the first `k` operations. */
  function Granted(hash: Hash, states: seq<Store>, ops: seq<Op>, key: Key, k: nat): nat
    requires k <= |ops| < |states|
  {
    if k == 0 then 0
    else Granted(hash, states, ops, key, k - 1) + Grant(At(hash, states, key, k - 1), ops[k - 1], key)
  }

  function Loss(before: Option<Bucket>, after: Option<Bucket>, op: Op, key: Key): nat {
    if Resets(op, key) || Dropped(before, after) then 1 else 0
  }

  /** How often the key was reset, evicted or cleaned up. */
  function Forgotten(hash: Hash, states: seq<Store>, ops: seq<Op>, key: Key, k: nat): nat
    requires k <= |ops| < |states|
  {
    if k == 0 then 0
    else Forgotten(hash, states, ops, key, k - 1)
         + Loss(At(hash, states, key, k - 1), At(hash, states, key, k), ops[k - 1], key)
  }

  // ------------------------------------------------------------ the reference store

  /** An unbounded table: nothing is evicted, cleaned up or reset. */
  type Table = map<Key, Bucket>

  function Row(t: Table, key: Key): Option<Bucket> {
    if key in t then Some(t[key]) else None
  }

  function Recorded(t: Table, op: Op): Table {
    if op.Take? then t[op.key := Taken(Found(Row(t, op.key), op.policy, op.now), op.policy, op.now).0] else t
  }

  function TableAfter(ops: seq<Op>, k: nat): Table
    requires k <= |ops|
  {
    if k == 0 then map[] else Recorded(TableAfter(ops, k - 1), ops[k - 1])
  }

  /** Requests under `key` that the unbounded table lets through. */
  function GrantedUnbounded(ops: seq<Op>, key: Key, k: nat): nat
    requires k <= |ops|
  {
    if k == 0 then 0
    else GrantedUnbounded(ops, key, k - 1) + Grant(Row(TableAfter(ops, k - 1), key), ops[k - 1], key)
  }

  // ------------------------------------------------------------ an operation as one key sees it

  function Seen(before: Option<Bucket>, after: Option<Bucket>, op: Op, key: Key): Event {
    if Asks(op, key) then Event.Take(op.now, op.policy)
    else if Resets(op, key) then Event.Reset(op.now, op.policy)
    else if Dropped(before, after) then Event.Drop(op.now)
    else Event.Other(op.now)
  }

  /** A write shows under its own key, and any other key is as before or gone. */
  lemma WriteSeen(hash: Hash, s: Store, i: nat, t: Shard, size: int, evictions: nat, key: Key, b: Bucket, other: Key)
    requires s.shards != [] && i == Home(hash, |s.shards|, key) && t.buckets == Kept(s.shards[i], key)[key := b]
    ensures var after := Lookup(hash, Store(s.shards[i := t], size, evictions), other);
            if other == key then after == Some(b) else after == Lookup(hash, s, other) || after == None
  {}

  /** What a request or a reset leaves in the key's home shard. */
  lemma TakeBuckets(hash: Hash, s: Store, n: nat, key: Key, p: Policy, now: real)
    requires StoreInv(hash, s, n)
    ensures var home := s.shards[Home(hash, |s.shards|, key)];
            && InRange(home)
            && TakeFrom(home, key, p, now).0.buckets
               == Kept(home, key)[key := Taken(Found(Lookup(hash, s, key), p, now), p, now).0]
  {
    SoundAt(s.shards, Home(hash, |s.shards|, key));
    TakeWrote(s.shards[Home(hash, |s.shards|, key)], key, p, now);
  }

  lemma ResetBuckets(hash: Hash, s: Store, n: nat, key: Key, p: Policy, now: real)
    requires StoreInv(hash, s, n)
    ensures var home := s.shards[Home(hash, |s.shards|, key)];
            InRange(home) && ResetIn(home, key, p, now).buckets == Kept(home, key)[key := Full(p, now)]
  {
    SoundAt(s.shards, Home(hash, |s.shards|, key));
    WriteKeepsShard(s.shards[Home(hash, |s.shards|, key)], key, Full(p, now), Full(p, now));
  }

  lemma TakeSeen(hash: Hash, s: Store, n: nat, op: Op, key: Key)
    requires StoreInv(hash, s, n) && op.Take?
    ensures var after := Lookup(hash, Applied(hash, s, op), key);
            if op.key == key then after == Some(Taken(Found(Lookup(hash, s, key), op.policy, op.now), op.policy, op.now).0)
            else after == Lookup(hash, s, key) || after == None
  {
    var i := Home(hash, |s.shards|, op.key);
    var home := s.shards[i];
    TakeBuckets(hash, s, n, op.key, op.policy, op.now);
    WriteSeen(hash, s, i, TakeFrom(home, op.key, op.policy, op.now).0, SizeAfter(s, home, op.key),
              EvictionsAfter(s, home, op.key), op.key,
              Taken(Found(Lookup(hash, s, op.key), op.policy, op.now), op.policy, op.now).0, key);
  }

  lemma ResetSeen(hash: Hash, s: Store, n: nat, op: Op, key: Key)
    requires StoreInv(hash, s, n) && op.Reset?
    ensures var after := Lookup(hash, Applied(hash, s, op), key);
            if op.key == key then after == Some(Full(op.policy, op.now))
            else after == Lookup(hash, s, key) || after == None
  {
    var i := Home(hash, |s.shards|, op.key);
    var home := s.shards[i];
    ResetBuckets(hash, s, n, op.key, op.policy, op.now);
    WriteSeen(hash, s, i, ResetIn(home, op.key, op.policy, op.now), SizeAfter(s, home, op.key),
              EvictionsAfter(s, home, op.key), op.key, Full(op.policy, op.now), key);
  }

  lemma CleanSeen(hash: Hash, s: Store, n: nat, op: Op, key: Key)
    requires StoreInv(hash, s, n) && op.Clean? && Enabled(s, op)
    ensures var after := Lookup(hash, Applied(hash, s, op), key);
            after == Lookup(hash, s, key) || after == None
  {
    SoundAt(s.shards, op.shard);
    WithoutRemoves(s.shards[op.shard], op.keys, Expired(s.shards[op.shard], op.cutoff));
  }

  /** What an operation leaves under a key: its own effect, the bucket as it was, or nothing. */
  predicate Leaves(before: Option<Bucket>, op: Op, key: Key, after: Option<Bucket>) {
    if Asks(op, key) then after == Some(Taken(Found(before, op.policy, op.now), op.policy, op.now).0)
    else if Resets(op, key) then after == Some(Full(op.policy, op.now))
    else after == before || after == None
  }

  lemma OpLeaves(hash: Hash, s: Store, n: nat, op: Op, key: Key)
    requires StoreInv(hash, s, n) && Enabled(s, op)
    ensures Applied(hash, s, op).shards != []
    ensures Leaves(Lookup(hash, s, key), op, key, Lookup(hash, Applied(hash, s, op), key))
  {
    match op {
      case Take(_, _, _) => TakeSeen(hash, s, n, op, key);
      case Peek(_, _, _) =>
      case Reset(_, _, _) => ResetSeen(hash, s, n, op, key);
      case Clean(_, _, _, _) => CleanSeen(hash, s, n, op, key);
    }
  }

  lemma StepLeaves(hash: Hash, n: nat, states: seq<Store>, ops: seq<Op>, i: nat, key: Key)
    requires i < |ops| && |states| == |ops| + 1 && StepAt(hash, n, states, ops, i)
    ensures Leaves(At(hash, states, key, i), ops[i], key, At(hash, states, key, i + 1))
  {
    OpLeaves(hash, states[i], n, ops[i], key);
  }

  /** Each operation does to a key exactly what its event does. */
  lemma OpIsEvent(l: Life, op: Op, key: Key, after: Option<Bucket>)
    requires Leaves(l.bucket, op, key, after)
    ensures Live(l, Seen(l.bucket, after, op, key)) ==
            Life(after, l.allowed + Grant(l.bucket, op, key), l.losses + Loss(l.bucket, after, op, key))
  {}

  lemma RecordIsEvent(t: Table, op: Op, key: Key, allowed: nat, ev: Event)
    requires if Asks(op, key) then ev == Event.Take(op.now, op.policy) else !ev.Take?
    ensures Remember(Life(Row(t, key), allowed, 0), ev) ==
            Life(Row(Recorded(t, op), key), allowed + Grant(Row(t, key), op, key), 0)
  {}

  // ------------------------------------------------------------ the two bounds

  function LifeAt(hash: Hash, states: seq<Store>, ops: seq<Op>, key: Key, k: nat): Life
    requires k <= |ops| < |states|
  {
    Life(At(hash, states, key, k), Granted(hash, states, ops, key, k), Forgotten(hash, states, ops, key, k))
  }

  function TableLifeAt(ops: seq<Op>, key: Key, k: nat): Life
    requires k <= |ops|
  {
    Life(Row(TableAfter(ops, k), key), GrantedUnbounded(ops, key, k), 0)
  }

  function EventAt(hash: Hash, states: seq<Store>, ops: seq<Op>, key: Key, i: nat): Event
    requires i < |ops| < |states|
  {
    Seen(At(hash, states, key, i), At(hash, states, key, i + 1), ops[i], key)
  }

  /** The key goes from one point of the run to the next by its event. */
  predicate Follows(hash: Hash, states: seq<Store>, ops: seq<Op>, key: Key, i: nat)
    requires i < |ops| < |states|
  {
    LifeAt(hash, states, ops, key, i + 1) == Live(LifeAt(hash, states, ops, key, i), EventAt(hash, states, ops, key, i))
  }

  lemma StoreLifeAdvances(hash: Hash, n: nat, states: seq<Store>, ops: seq<Op>, key: Key, i: nat)
    requires i < |ops| && |states| == |ops| + 1 && StepAt(hash, n, states, ops, i)
    ensures Follows(hash, states, ops, key, i)
  {
    StepLeaves(hash, n, states, ops, i, key);
    OpIsEvent(LifeAt(hash, states, ops, key, i), ops[i], key, At(hash, states, key, i + 1));
  }

  lemma TableLifeAdvances(ops: seq<Op>, key: Key, i: nat, ev: Event)
    requires i < |ops| && if Asks(ops[i], key) then ev == Event.Take(ops[i].now, ops[i].policy) else !ev.Take?
    ensures TableLifeAt(ops, key, i + 1) == Remember(TableLifeAt(ops, key, i), ev)
  {
    RecordIsEvent(TableAfter(ops, i), ops[i], key, GrantedUnbounded(ops, key, i), ev);
  }

  lemma LivesBegin(hash: Hash, n: nat, from: real, states: seq<Store>, ops: seq<Op>, key: Key)
    requires Run(hash, n, from, states, ops)
    ensures LifeAt(hash, states, ops, key, 0) == TableLifeAt(ops, key, 0) == Newborn
  {
    HeldAtLeast(states[0].shards, Home(hash, |states[0].shards|, key));
  }

  lemma {:induction false} HeldAtLeast(shards: seq<Shard>, i: nat)
    requires i < |shards|
    ensures |shards[i].buckets| <= Held(shards)
  {
    if i > 0 { HeldAtLeast(shards[1..], i - 1); }
  }

  ghost function Lives(hash: Hash, states: seq<Store>, ops: seq<Op>, key: Key): seq<Life>
    requires |states| == |ops| + 1
  {
    seq(|ops| + 1, k requires 0 <= k <= |ops| => LifeAt(hash, states, ops, key, k))
  }

  ghost function TableLives(ops: seq<Op>, key: Key): seq<Life> {
    seq(|ops| + 1, k requires 0 <= k <= |ops| => TableLifeAt(ops, key, k))
  }

  ghost function Events(hash: Hash, states: seq<Store>, ops: seq<Op>, key: Key): seq<Event>
    requires |states| == |ops| + 1
  {
    seq(|ops|, i requires 0 <= i < |ops| => EventAt(hash, states, ops, key, i))
  }

  lemma EventTime(hash: Hash, states: seq<Store>, ops: seq<Op>, key: Key, from: real, k: nat)
    requires |states| == |ops| + 1 && k <= |ops|
    ensures TimeAt(from, Events(hash, states, ops, key), k) == Clock(from, ops, k)
  {}

  lemma FollowsAdvances(hash: Hash, from: real, states: seq<Store>, ops: seq<Op>, key: Key, i: nat)
    requires i < |ops| && |states| == |ops| + 1 && Follows(hash, states, ops, key, i) && Clock(from, ops, i) <= ops[i].now
    ensures Advances(from, Lives(hash, states, ops, key), TableLives(ops, key), Events(hash, states, ops, key), i)
  {
    EventTime(hash, states, ops, key, from, i);
    TableLifeAdvances(ops, key, i, EventAt(hash, states, ops, key, i));
  }

  lemma RunFollows(hash: Hash, n: nat, from: real, states: seq<Store>, ops: seq<Op>, key: Key, i: nat)
    requires Run(hash, n, from, states, ops) && i < |ops|
    ensures Follows(hash, states, ops, key, i)
  {
    assert StepAt(hash, n, states, ops, i);
    StoreLifeAdvances(hash, n, states, ops, key, i);
  }

  /** A run is, for each key, a life in the store and a life in the table under the same events. */
  lemma RunIsSideBySide(hash: Hash, n: nat, from: real, states: seq<Store>, ops: seq<Op>, key: Key)
    requires Run(hash, n, from, states, ops)
    ensures SideBySide(from, Lives(hash, states, ops, key), TableLives(ops, key), Events(hash, states, ops, key))
  {
    LivesBegin(hash, n, from, states, ops, key);
    forall i | 0 <= i < |ops|
      ensures Advances(from, Lives(hash, states, ops, key), TableLives(ops, key), Events(hash, states, ops, key), i)
    {
      RunFollows(hash, n, from, states, ops, key, i);
      FollowsAdvances(hash, from, states, ops, key, i);
    }
  }

  /** The operation carries a policy to this key. */
  predicate Carries(op: Op, key: Key) { Asks(op, key) || Resets(op, key) }

  /** Requests under the key have capacities of at most `most`, and resets leave at least that many tokens. */
  predicate GenerousTo(ops: seq<Op>, key: Key, k: nat, most: int)
    requires k <= |ops|
  {
    forall i | 0 <= i < k && Carries(ops[i], key) ::
      Sensible(ops[i].policy) && if ops[i].Take? then ops[i].policy.capacity <= most else most <= ops[i].policy.capacity
  }

  /** Under the key no bucket is larger than `most` and none refills faster than `rate`. */
  predicate WithinBounds(ops: seq<Op>, key: Key, k: nat, most: int, rate: real)
    requires k <= |ops|
  {
    forall i | 0 <= i < k && Carries(ops[i], key) ::
      Sensible(ops[i].policy) && ops[i].policy.capacity <= most && ops[i].policy.refill <= rate
  }

  lemma EventsAreGenerous(hash: Hash, states: seq<Store>, ops: seq<Op>, key: Key, k: nat, most: int)
    requires |states| == |ops| + 1 && k <= |ops| && GenerousTo(ops, key, k, most)
    ensures forall i | 0 <= i < k :: Generous(most, Events(hash, states, ops, key)[i])
  {
    forall i | 0 <= i < k ensures Generous(most, Events(hash, states, ops, key)[i]) {
      assert Carries(ops[i], key) || !Carries(ops[i], key);
    }
  }

  lemma EventsFit(hash: Hash, states: seq<Store>, ops: seq<Op>, key: Key, k: nat, most: int, rate: real)
    requires |states| == |ops| + 1 && k <= |ops| && WithinBounds(ops, key, k, most, rate)
    ensures forall i | 0 <= i < k :: Fits(Events(hash, states, ops, key)[i], most, rate)
  {
    forall i | 0 <= i < k ensures Fits(Events(hash, states, ops, key)[i], most, rate) {
      assert Carries(ops[i], key) || !Carries(ops[i], key);
    }
  }

  /**
   At every point of every run, for every key and however its policy changes: the bounded store has let
   through at least what an unbounded store without resets would, as long as no reset leaves fewer tokens than
   a request's policy allows (`TokenBuckets.NeverCostsIff` shows that this is what it takes).
   */
  lemma NeverFewerThanUnbounded(hash: Hash, n: nat, from: real, states: seq<Store>, ops: seq<Op>, key: Key, k: nat, most: int)
    requires Run(hash, n, from, states, ops) && k <= |ops| && GenerousTo(ops, key, k, most)
    ensures GrantedUnbounded(ops, key, k) <= Granted(hash, states, ops, key, k)
  {
    RunIsSideBySide(hash, n, from, states, ops, key);
    EventsAreGenerous(hash, states, ops, key, k, most);
    StaysAhead(most, from, Lives(hash, states, ops, key), TableLives(ops, key), Events(hash, states, ops, key), k);
  }

  /**
   And at most a bucket of the largest capacity for the start and for each time the key was forgotten, plus what
   the fastest refill yields: a change of policy never adds tokens.
   */
  lemma NeverMoreThanPaid(hash: Hash, n: nat, from: real, states: seq<Store>, ops: seq<Op>, key: Key, k: nat, most: int, rate: real)
    requires 1 <= most && 0.0 < rate && Run(hash, n, from, states, ops) && k <= |ops| && WithinBounds(ops, key, k, most, rate)
    ensures Granted(hash, states, ops, key, k) as real <=
            Ceiling(most, rate, Forgotten(hash, states, ops, key, k), from, Clock(from, ops, k))
  {
    RunIsPaid(hash, n, from, states, ops, key, k, most, rate);
    PaidFromBirth(most, rate, from, LifeAt(hash, states, ops, key, k), Clock(from, ops, k));
  }

  lemma RunIsPaid(hash: Hash, n: nat, from: real, states: seq<Store>, ops: seq<Op>, key: Key, k: nat, most: int, rate: real)
    requires 1 <= most && 0.0 < rate && Run(hash, n, from, states, ops) && k <= |ops| && WithinBounds(ops, key, k, most, rate)
    ensures Sound(LifeAt(hash, states, ops, key, k).bucket, Clock(from, ops, k))
    ensures Paid(most, rate, Newborn, from, LifeAt(hash, states, ops, key, k), Clock(from, ops, k))
  {
    RunIsSideBySide(hash, n, from, states, ops, key);
    EventsFit(hash, states, ops, key, k, most, rate);
    EventTime(hash, states, ops, key, from, k);
    StaysPaid(most, rate, from, Lives(hash, states, ops, key), TableLives(ops, key), Events(hash, states, ops, key), k);
  }

  predicate FixedPolicy(ops: seq<Op>, p: Policy) {
    forall i | 0 <= i < |ops| :: ops[i].Clean? || ops[i].policy == p
  }

  /** Under one policy: both bounds together, with resets, evictions and cleanups as they come. */
  lemma BoundedAgainstUnbounded(hash: Hash, n: nat, p: Policy, from: real, states: seq<Store>, ops: seq<Op>, key: Key, k: nat)
    requires Sensible(p) && Run(hash, n, from, states, ops) && FixedPolicy(ops, p) && k <= |ops|
    ensures GrantedUnbounded(ops, key, k) <= Granted(hash, states, ops, key, k)
    ensures Granted(hash, states, ops, key, k) as real <=
            Ceiling(p.capacity, p.refill, Forgotten(hash, states, ops, key, k), from, Clock(from, ops, k))
  {
    NeverFewerThanUnbounded(hash, n, from, states, ops, key, k, p.capacity);
    NeverMoreThanPaid(hash, n, from, states, ops, key, k, p.capacity, p.refill);
  }

  // ------------------------------------------------------------ cleanups nobody notices

  /** Nothing but cleanups drops the key, and they leave anything alone that could still be filling up. */
  predicate Gentle(hash: Hash, p: Policy, states: seq<Store>, ops: seq<Op>, key: Key, i: nat)
    requires i < |ops| < |states|
  {
    && !Resets(ops[i], key)
    && (Dropped(At(hash, states, key, i), At(hash, states, key, i + 1)) ==>
          ops[i].Clean? && p.capacity as real <= Accrued(p.refill, ops[i].cutoff, ops[i].now))
  }

  lemma CleanDropsExpired(hash: Hash, s: Store, n: nat, op: Op, key: Key)
    requires StoreInv(hash, s, n) && op.Clean? && Enabled(s, op)
    ensures Applied(hash, s, op).shards != []
    ensures Dropped(Lookup(hash, s, key), Lookup(hash, Applied(hash, s, op), key)) ==>
              Lookup(hash, s, key).value.lastSeen < op.cutoff
  {
    SoundAt(s.shards, op.shard);
    WithoutRemoves(s.shards[op.shard], op.keys, Expired(s.shards[op.shard], op.cutoff));
  }

  lemma StepDropsExpired(hash: Hash, n: nat, states: seq<Store>, ops: seq<Op>, i: nat, key: Key)
    requires i < |ops| && |states| == |ops| + 1 && StepAt(hash, n, states, ops, i) && ops[i].Clean?
    ensures Dropped(At(hash, states, key, i), At(hash, states, key, i + 1)) ==>
              At(hash, states, key, i).value.lastSeen < ops[i].cutoff
  {
    CleanDropsExpired(hash, states[i], n, ops[i], key);
  }

  lemma GentleIsHarmless(hash: Hash, n: nat, p: Policy, from: real, states: seq<Store>, ops: seq<Op>, key: Key, i: nat)
    requires Sensible(p) && Run(hash, n, from, states, ops) && FixedPolicy(ops, p) && i < |ops| && Gentle(hash, p, states, ops, key, i)
    ensures Harmless(p, LifeAt(hash, states, ops, key, i), EventAt(hash, states, ops, key, i))
  {
    assert StepAt(hash, n, states, ops, i);
    if EventAt(hash, states, ops, key, i).Drop? {
      StepDropsExpired(hash, n, states, ops, i, key);
      var seen := At(hash, states, key, i).value.lastSeen;
      AccruedGrows(p.refill, seen, ops[i].cutoff);
      AccruedAdds(p.refill, seen, ops[i].cutoff, ops[i].now);
    }
  }

  /** While a key is only ever cleaned up after capacity / refill seconds, no decision on it differs. */
  lemma SlowCleanupUnnoticed(hash: Hash, n: nat, p: Policy, from: real, states: seq<Store>, ops: seq<Op>, key: Key, k: nat)
    requires Sensible(p) && Run(hash, n, from, states, ops) && FixedPolicy(ops, p) && k <= |ops|
    requires forall i | 0 <= i < k :: Gentle(hash, p, states, ops, key, i)
    ensures Granted(hash, states, ops, key, k) == GrantedUnbounded(ops, key, k)
  {
    var mine, theirs, evs := Lives(hash, states, ops, key), TableLives(ops, key), Events(hash, states, ops, key);
    RunIsSideBySide(hash, n, from, states, ops, key);
    forall i | 0 <= i < k ensures Harmless(p, mine[i], evs[i]) {
      GentleIsHarmless(hash, n, p, from, states, ops, key, i);
    }
    StaysLevel(p, from, mine, theirs, evs, k);
  }
}
