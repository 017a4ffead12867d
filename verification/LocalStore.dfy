/** The sharded, bounded store of rate-limit buckets. */
module LocalStores {
  import opened Common
  import opened TokenBuckets
  import opened SlotIndex

  /** `hash` stands for FNV-1a. */
  type Hash = Key -> nat

  datatype Store = Store(shards: seq<Shard>, size: int, evictions: nat)

  function Home(hash: Hash, n: nat, key: Key): (i: nat)
    requires 1 <= n
    ensures i < n
  {
    hash(key) % n
  }

  function Held(shards: seq<Shard>): nat {
    if shards == [] then 0 else |shards[0].buckets| + Held(shards[1..])
  }

  function Room(shards: seq<Shard>): nat {
    if shards == [] then 0 else shards[0].maxBuckets + Room(shards[1..])
  }

  predicate AtHome(hash: Hash, shards: seq<Shard>) {
    shards != [] && forall i, k | 0 <= i < |shards| && k in shards[i].buckets :: Home(hash, |shards|, k) == i
  }

  ghost predicate AllSound(shards: seq<Shard>) {
    shards == [] || (ShardInv(shards[0]) && AllSound(shards[1..]))
  }

  ghost predicate StoreInv(hash: Hash, s: Store, maxBuckets: nat) {
    && AtHome(hash, s.shards)
    && AllSound(s.shards)
    && s.size == Held(s.shards)
    && Room(s.shards) == maxBuckets
  }

  function Lookup(hash: Hash, s: Store, key: Key): Option<Bucket>
    requires s.shards != []
  {
    var home := s.shards[Home(hash, |s.shards|, key)];
    if key in home.buckets then Some(home.buckets[key]) else None
  }

  lemma {:induction false} SumsAfterUpdate(shards: seq<Shard>, i: nat, s: Shard)
    requires i < |shards|
    ensures Held(shards[i := s]) == Held(shards) - |shards[i].buckets| + |s.buckets|
    ensures Room(shards[i := s]) == Room(shards) - shards[i].maxBuckets + s.maxBuckets
  {
    if i > 0 {
      SumsAfterUpdate(shards[1..], i - 1, s);
      assert shards[i := s][1..] == shards[1..][i - 1 := s];
    } else {
      assert shards[i := s][1..] == shards[1..];
    }
  }

  lemma {:induction false} SumsAppend(shards: seq<Shard>, s: Shard)
    ensures Held(shards + [s]) == Held(shards) + |s.buckets| && Room(shards + [s]) == Room(shards) + s.maxBuckets
  {
    if shards != [] {
      assert (shards + [s])[1..] == shards[1..] + [s];
      SumsAppend(shards[1..], s);
    }
  }

  lemma {:induction false} SoundAt(shards: seq<Shard>, i: nat)
    requires AllSound(shards) && i < |shards|
    ensures ShardInv(shards[i]) && InRange(shards[i])
  {
    if i > 0 { SoundAt(shards[1..], i - 1); } else { InvInRange(shards[0]); }
  }

  lemma {:induction false} SoundUpdate(shards: seq<Shard>, i: nat, s: Shard)
    requires AllSound(shards) && i < |shards| && ShardInv(s)
    ensures AllSound(shards[i := s])
  {
    if i > 0 {
      SoundUpdate(shards[1..], i - 1, s);
      assert shards[i := s][1..] == shards[1..][i - 1 := s];
    } else {
      assert shards[i := s][1..] == shards[1..];
    }
  }

  lemma {:induction false} HeldFits(shards: seq<Shard>)
    requires AllSound(shards)
    ensures Held(shards) <= Room(shards)
  {
    if shards != [] {
      HeldFits(shards[1..]);
    }
  }

  // ------------------------------------------------------------ operations on one shard

  function ShardWith(s: Shard, key: Key, b: Bucket): (r: Shard)
    requires InRange(s)
    ensures key in r.buckets
  {
    if key in s.buckets then s else Inserted(s, key, b)
  }

  function Put(s: Shard, key: Key, b: Bucket): Shard {
    s.(buckets := s.buckets[key := b])
  }

  function TakeFrom(s: Shard, key: Key, p: Policy, now: real): (Shard, bool)
    requires InRange(s)
  {
    var t := ShardWith(s, key, Full(p, now));
    var (b, allowed) := Taken(t.buckets[key], p, now);
    (Put(t, key, b), allowed)
  }

  function ResetIn(s: Shard, key: Key, p: Policy, now: real): Shard
    requires InRange(s)
  {
    Put(ShardWith(s, key, Full(p, now)), key, Full(p, now))
  }

  /** Deleting keys in the order the map iteration happens to produce. */
  function Without(s: Shard, keys: seq<Key>): (r: Shard)
    requires InRange(s)
    ensures InRange(r) && r.maxBuckets == s.maxBuckets
    decreases |keys|
  {
    if keys == [] then s else
      DeletedInRange(s, keys[0]);
      Without(Deleted(s, keys[0]), keys[1..])
  }

  function Expired(s: Shard, cutoff: real): set<Key> {
    set k | k in s.buckets && s.buckets[k].lastSeen < cutoff
  }

  /** `keys` lists `all`, each key once. */
  predicate Enumerates(keys: seq<Key>, all: set<Key>)
    decreases |keys|
  {
    if keys == [] then all == {} else keys[0] in all && Enumerates(keys[1..], all - {keys[0]})
  }

  // ------------------------------------------------------------ operations on the store

  /** One critical section each: `Cleanup` locks one shard at a time. */
  datatype Op =
    | Take(key: Key, policy: Policy, now: real)
    | Peek(key: Key, policy: Policy, now: real)
    | Reset(key: Key, policy: Policy, now: real)
    | Clean(shard: nat, cutoff: real, keys: seq<Key>, now: real)

  predicate Enabled(s: Store, op: Op) {
    op.Clean? ==> op.shard < |s.shards| && Enumerates(op.keys, Expired(s.shards[op.shard], op.cutoff))
  }

  predicate Arrives(s: Shard, key: Key) { key !in s.buckets }

  function SizeAfter(s: Store, home: Shard, key: Key): int {
    s.size + if Arrives(home, key) && !IsFull(home) then 1 else 0
  }

  function EvictionsAfter(s: Store, home: Shard, key: Key): nat {
    s.evictions + if Arrives(home, key) && IsFull(home) then 1 else 0
  }

  ghost function Applied(hash: Hash, s: Store, op: Op): Store
    requires s.shards != [] && AllSound(s.shards) && Enabled(s, op)
  {
    match op
    case Peek(_, _, _) => s
    case Take(key, p, now) =>
      var i := Home(hash, |s.shards|, key);
      var home := s.shards[i];
      SoundAt(s.shards, i);
      Store(s.shards[i := TakeFrom(home, key, p, now).0], SizeAfter(s, home, key), EvictionsAfter(s, home, key))
    case Reset(key, p, now) =>
      var i := Home(hash, |s.shards|, key);
      var home := s.shards[i];
      SoundAt(s.shards, i);
      Store(s.shards[i := ResetIn(home, key, p, now)], SizeAfter(s, home, key), EvictionsAfter(s, home, key))
    case Clean(i, _, keys, _) =>
      SoundAt(s.shards, i);
      Store(s.shards[i := Without(s.shards[i], keys)], s.size - |keys|, s.evictions)
  }

  // ------------------------------------------------------------ every operation keeps the invariant

  /** What writing `key` leaves of the shard's other keys. */
  function Kept(s: Shard, key: Key): map<Key, Bucket> {
    if Arrives(s, key) && IsFull(s) && s.nextEvict < |s.slots| then s.buckets - {Victim(s)} else s.buckets
  }

  /** `t` is a sound shard that holds `kept` and the bucket `b` under `key`. */
  ghost predicate Wrote(s: Shard, t: Shard, key: Key, b: Bucket) {
    && ShardInv(t) && t.maxBuckets == s.maxBuckets && t.buckets == Kept(s, key)[key := b]
    && |t.buckets| == |s.buckets| + (if Arrives(s, key) && !IsFull(s) then 1 else 0)
  }

  lemma ArrivalWrote(s: Shard, key: Key, b: Bucket)
    requires ShardInv(s) && Arrives(s, key)
    ensures Wrote(s, ShardWith(s, key, b), key, b)
  {
    InsertKeepsInv(s, key, b);
  }

  lemma RewriteWrote(s: Shard, t: Shard, key: Key, first: Bucket, b: Bucket)
    requires Wrote(s, t, key, first)
    ensures Wrote(s, Put(t, key, b), key, b)
  {
    UpdateKeepsInv(t, key, b);
    assert t.buckets[key := b] == Kept(s, key)[key := b];
  }

  lemma UpdateWrote(s: Shard, key: Key, b: Bucket)
    requires ShardInv(s) && key in s.buckets
    ensures Wrote(s, Put(s, key, b), key, b)
  {
    UpdateKeepsInv(s, key, b);
  }

  /** Writing a key: a shard stays exact, holds at most one more, and only the victim of a full shard leaves. */
  lemma WriteKeepsShard(s: Shard, key: Key, first: Bucket, b: Bucket)
    requires ShardInv(s)
    ensures Wrote(s, Put(ShardWith(s, key, first), key, b), key, b)
  {
    if Arrives(s, key) {
      ArrivalWrote(s, key, first);
      RewriteWrote(s, ShardWith(s, key, first), key, first, b);
    } else {
      UpdateWrote(s, key, b);
    }
  }

  function Removed(m: map<Key, Bucket>, keys: seq<Key>): map<Key, Bucket> {
    if keys == [] then m else Removed(m - {keys[0]}, keys[1..])
  }

  lemma {:induction false} WithoutRemovesEach(s: Shard, keys: seq<Key>)
    requires ShardInv(s)
    ensures ShardInv(Without(s, keys)) && Without(s, keys).buckets == Removed(s.buckets, keys)
    decreases |keys|
  {
    if keys != [] {
      DeleteKeepsInv(s, keys[0]);
      WithoutRemovesEach(Deleted(s, keys[0]), keys[1..]);
    }
  }

  lemma RemoveOneThenRest(m: map<Key, Bucket>, key: Key, all: set<Key>)
    requires key in all && all <= m.Keys
    ensures m - {key} - (all - {key}) == m - all
    ensures all - {key} <= (m - {key}).Keys
    ensures |m - {key}| == |m| - 1
  {
    RemovedSize(m, key);
  }

  lemma {:induction false} RemovedTogether(m: map<Key, Bucket>, keys: seq<Key>, all: set<Key>)
    requires Enumerates(keys, all) && all <= m.Keys
    ensures Removed(m, keys) == m - all && |Removed(m, keys)| == |m| - |keys|
    decreases |keys|
  {
    if keys != [] {
      RemoveOneThenRest(m, keys[0], all);
      RemovedTogether(m - {keys[0]}, keys[1..], all - {keys[0]});
    } else {
      assert m - all == m;
    }
  }

  lemma WithoutRemoves(s: Shard, keys: seq<Key>, all: set<Key>)
    requires ShardInv(s) && Enumerates(keys, all) && all <= s.buckets.Keys
    ensures ShardInv(Without(s, keys)) && Without(s, keys).buckets == s.buckets - all
    ensures |Without(s, keys).buckets| == |s.buckets| - |keys|
  {
    WithoutRemovesEach(s, keys);
    RemovedTogether(s.buckets, keys, all);
  }

  /** Replacing one shard by a valid one whose keys belong there keeps the store valid. */
  lemma ShardUpdateKeepsInv(hash: Hash, s: Store, maxBuckets: nat, i: nat, t: Shard, size: int, evictions: nat)
    requires StoreInv(hash, s, maxBuckets) && i < |s.shards| && ShardInv(t) && t.maxBuckets == s.shards[i].maxBuckets
    requires forall k | k in t.buckets :: Home(hash, |s.shards|, k) == i
    requires size == s.size - |s.shards[i].buckets| + |t.buckets|
    ensures StoreInv(hash, Store(s.shards[i := t], size, evictions), maxBuckets)
  {
    SumsAfterUpdate(s.shards, i, t);
    SoundUpdate(s.shards, i, t);
  }

  /** A shard written under a key that lives there. */
  lemma WriteKeepsInv(hash: Hash, s: Store, maxBuckets: nat, key: Key, t: Shard, b: Bucket)
    requires StoreInv(hash, s, maxBuckets) && Wrote(s.shards[Home(hash, |s.shards|, key)], t, key, b)
    ensures var i := Home(hash, |s.shards|, key);
            StoreInv(hash, Store(s.shards[i := t], SizeAfter(s, s.shards[i], key), EvictionsAfter(s, s.shards[i], key)), maxBuckets)
  {
    var i := Home(hash, |s.shards|, key);
    ShardUpdateKeepsInv(hash, s, maxBuckets, i, t, SizeAfter(s, s.shards[i], key), EvictionsAfter(s, s.shards[i], key));
  }

  lemma TakeWrote(s: Shard, key: Key, p: Policy, now: real)
    requires ShardInv(s)
    ensures var b := Found(if key in s.buckets then Some(s.buckets[key]) else None, p, now);
            && Wrote(s, TakeFrom(s, key, p, now).0, key, Taken(b, p, now).0)
            && TakeFrom(s, key, p, now).1 == Taken(b, p, now).1
  {
    var b := Found(if key in s.buckets then Some(s.buckets[key]) else None, p, now);
    if Arrives(s, key) {
      ArrivalWrote(s, key, Full(p, now));
    }
    assert ShardWith(s, key, Full(p, now)).buckets[key] == b;
    WriteKeepsShard(s, key, Full(p, now), Taken(b, p, now).0);
  }

  lemma CleanKeepsInv(hash: Hash, s: Store, maxBuckets: nat, i: nat, cutoff: real, keys: seq<Key>)
    requires StoreInv(hash, s, maxBuckets) && i < |s.shards| && Enumerates(keys, Expired(s.shards[i], cutoff))
    ensures InRange(s.shards[i])
    ensures StoreInv(hash, Store(s.shards[i := Without(s.shards[i], keys)], s.size - |keys|, s.evictions), maxBuckets)
  {
    SoundAt(s.shards, i);
    WithoutRemoves(s.shards[i], keys, Expired(s.shards[i], cutoff));
    ShardUpdateKeepsInv(hash, s, maxBuckets, i, Without(s.shards[i], keys), s.size - |keys|, s.evictions);
  }

  lemma OpKeepsInv(hash: Hash, s: Store, maxBuckets: nat, op: Op)
    requires StoreInv(hash, s, maxBuckets) && Enabled(s, op)
    ensures StoreInv(hash, Applied(hash, s, op), maxBuckets)
  {
    match op {
      case Peek(_, _, _) =>
      case Take(key, p, now) =>
        var home := s.shards[Home(hash, |s.shards|, key)];
        SoundAt(s.shards, Home(hash, |s.shards|, key));
        TakeWrote(home, key, p, now);
        WriteKeepsInv(hash, s, maxBuckets, key, TakeFrom(home, key, p, now).0,
                      Taken(Found(Lookup(hash, s, key), p, now), p, now).0);
      case Reset(key, p, now) =>
        var home := s.shards[Home(hash, |s.shards|, key)];
        SoundAt(s.shards, Home(hash, |s.shards|, key));
        WriteKeepsShard(home, key, Full(p, now), Full(p, now));
        WriteKeepsInv(hash, s, maxBuckets, key, ResetIn(home, key, p, now), Full(p, now));
      case Clean(i, cutoff, keys, now) =>
        CleanKeepsInv(hash, s, maxBuckets, i, cutoff, keys);
    }
  }

  /** The store never holds more buckets than it was given room for, in all or in any shard. */
  lemma StoreIsBounded(hash: Hash, s: Store, maxBuckets: nat)
    requires StoreInv(hash, s, maxBuckets)
    ensures s.size <= maxBuckets && forall i | 0 <= i < |s.shards| :: |s.shards[i].buckets| <= s.shards[i].maxBuckets
  {
    HeldFits(s.shards);
    forall i | 0 <= i < |s.shards| ensures |s.shards[i].buckets| <= s.shards[i].maxBuckets {
      SoundAt(s.shards, i);
    }
  }
}
