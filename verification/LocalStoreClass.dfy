/** `LocalStore` as the object the limiter calls. Each method is one or more critical sections. */
module LocalStoreObjects {
  import opened Common
  import opened TokenBuckets
  import opened SlotIndex
  import opened LocalStores

  lemma {:induction false} EnumeratesOneMore(keys: seq<Key>, all: set<Key>, key: Key)
    requires Enumerates(keys, all) && key !in all
    ensures Enumerates(keys + [key], all + {key})
    decreases |keys|
  {
    if keys != [] {
      EnumeratesOneMore(keys[1..], all - {keys[0]}, key);
      assert (keys + [key])[1..] == keys[1..] + [key];
      assert all + {key} - {keys[0]} == all - {keys[0]} + {key};
    } else {
      assert [key][1..] == [];
    }
  }

  lemma {:induction false} WithoutOneMore(s: Shard, keys: seq<Key>, key: Key)
    requires InRange(s)
    ensures Without(s, keys + [key]) == Deleted(Without(s, keys), key)
    decreases |keys|
  {
    if keys == [] {
      DeletedInRange(s, key);
      assert [key][1..] == [];
    } else {
      DeletedInRange(s, keys[0]);
      assert (keys + [key])[1..] == keys[1..] + [key];
      WithoutOneMore(Deleted(s, keys[0]), keys[1..], key);
    }
  }

  /** The share of shard `i` when `total` is dealt out over `n` shards. */
  function Share(total: nat, n: nat, i: nat): nat
    requires 1 <= n
  {
    total / n + if i < total % n then 1 else 0
  }

  class LocalStore {
    const hash: Hash
    const limit: nat
    var shards: seq<Shard>
    var size: int
    var evictions: nat

    ghost function View(): Store
      reads this
    {
      Store(shards, size, evictions)
    }

    ghost predicate Valid()
      reads this
    {
      StoreInv(hash, View(), limit)
    }

    /** The shards start empty, share `maxBuckets` as evenly as can be and lose none of it. */
    constructor (hash: Hash, shardCount: int, maxBuckets: int)
      ensures Valid() && this.hash == hash
      ensures limit == Max(1, maxBuckets) && Dealt(shards, limit, Min(Max(1, shardCount), limit))
      ensures size == 0 && evictions == 0
    {
      var most := if maxBuckets < 1 then 1 else maxBuckets;
      var n := if shardCount < 1 then 1 else shardCount;
      if n > most {
        n := most;
      }
      this.hash, limit, size, evictions := hash, most, 0, 0;
      var built := DealShards(most, n);
      shards := built;
      DealtIsSound(hash, built, most);
    }

    static method DealShards(most: nat, n: nat) returns (built: seq<Shard>)
      requires 1 <= n <= most
      ensures Dealt(built, most, n)
      ensures Held(built) == 0 && Room(built) == most
    {
      built := [];
      SumOfShares(most, n);
      while |built| < n
        invariant |built| <= n && DealtSoFar(built, most, n)
      {
        var share := most / n;
        if |built| < most % n {
          share := share + 1;
        }
        DealsOneMore(built, most, n);
        built := built + [EmptyShard(share)];
      }
    }

    method InsertBucket(i: nat, key: Key, bucket: Bucket)
      requires i < |shards| && InRange(shards[i]) && key !in shards[i].buckets
      modifies this
      ensures shards == old(shards)[i := ShardWith(old(shards)[i], key, bucket)]
      ensures size == SizeAfter(old(View()), old(shards)[i], key)
      ensures evictions == EvictionsAfter(old(View()), old(shards)[i], key)
    {
      var s := shards[i];
      if |s.buckets| < s.maxBuckets {
        var slot;
        if |s.freeSlots| > 0 {
          slot := s.freeSlots[|s.freeSlots| - 1];
          s := s.(freeSlots := s.freeSlots[..|s.freeSlots| - 1]);
        } else {
          slot := |s.slots|;
          s := s.(slots := s.slots + [""]);
        }
        s := s.(slots := s.slots[slot := key]);
        s := s.(positions := s.positions[key := slot]);
        s := s.(buckets := s.buckets[key := bucket]);
        size := size + 1;
      } else {
        var slot := s.nextEvict;
        s := s.(nextEvict := (s.nextEvict + 1) % s.maxBuckets);
        var evictedKey := s.slots[slot];
        s := s.(buckets := s.buckets - {evictedKey}, positions := s.positions - {evictedKey});
        s := s.(slots := s.slots[slot := key]);
        s := s.(positions := s.positions[key := slot]);
        s := s.(buckets := s.buckets[key := bucket]);
        evictions := evictions + 1;
      }
      shards := shards[i := s];
    }

    method DeleteBucket(i: nat, key: Key)
      requires i < |shards| && InRange(shards[i])
      modifies this`shards
      ensures shards == old(shards)[i := Deleted(old(shards)[i], key)]
    {
      var s := shards[i];
      if key in s.positions {
        var slot := s.positions[key];
        s := s.(buckets := s.buckets - {key}, positions := s.positions - {key});
        s := s.(slots := s.slots[slot := ""]);
        s := s.(freeSlots := s.freeSlots + [slot]);
      }
      shards := shards[i := s];
    }

    /** The bucket under `key`, created full if there is none. */
    method Ensure(i: nat, key: Key, bucket: Bucket)
      requires i < |shards| && InRange(shards[i])
      modifies this
      ensures shards == old(shards)[i := ShardWith(old(shards)[i], key, bucket)]
      ensures size == SizeAfter(old(View()), old(shards)[i], key)
      ensures evictions == EvictionsAfter(old(View()), old(shards)[i], key)
    {
      if key !in shards[i].buckets {
        InsertBucket(i, key, bucket);
      }
    }

    method TakeLocked(i: nat, key: Key, policy: Policy, now: real) returns (allowed: bool, bucket: Bucket)
      requires i < |shards| && InRange(shards[i])
      modifies this
      ensures shards == old(shards)[i := TakeFrom(old(shards)[i], key, policy, now).0]
      ensures size == SizeAfter(old(View()), old(shards)[i], key)
      ensures evictions == EvictionsAfter(old(View()), old(shards)[i], key)
      ensures (bucket, allowed) == Taken(ShardWith(old(shards)[i], key, Full(policy, now)).buckets[key], policy, now)
    {
      Ensure(i, key, Full(policy, now));
      bucket := WithPolicy(shards[i].buckets[key], policy, now);
      bucket := Refilled(bucket, now);
      allowed := bucket.tokens >= 1.0;
      if allowed {
        bucket := bucket.(tokens := bucket.tokens - 1.0);
      }
      bucket := bucket.(lastSeen := now);
      shards := shards[i := Put(shards[i], key, bucket)];
    }

    method Take(key: Key, policy: Policy, now: real) returns (allowed: bool, bucket: Bucket)
      requires Valid()
      modifies this
      ensures Valid() && View() == Applied(hash, old(View()), Op.Take(key, policy, now))
      ensures (bucket, allowed) == Taken(Found(Lookup(hash, old(View()), key), policy, now), policy, now)
      ensures bucket.capacity == policy.capacity && bucket.refill == policy.refill && Lookup(hash, View(), key) == Some(bucket)
    {
      OpKeepsInv(hash, View(), limit, Op.Take(key, policy, now));
      var i := Home(hash, |shards|, key);
      SoundAt(shards, i);
      TakeFinds(shards[i], key, policy, now);
      allowed, bucket := TakeLocked(i, key, policy, now);
    }

    /** Shows the bucket as a request would find it, and changes nothing. */
    method Peek(key: Key, policy: Policy, first: real, second: real) returns (bucket: Bucket)
      requires Valid()
      ensures bucket == Peeked(Lookup(hash, View(), key), policy, first, second)
      ensures bucket.capacity == policy.capacity && bucket.refill == policy.refill
    {
      var i := Home(hash, |shards|, key);
      if key !in shards[i].buckets {
        return Full(policy, second);
      }
      bucket := shards[i].buckets[key];
      bucket := WithPolicy(bucket, policy, first);
      bucket := Refilled(bucket, second);
    }

    method ResetLocked(i: nat, key: Key, policy: Policy, now: real) returns (bucket: Bucket)
      requires i < |shards| && InRange(shards[i])
      modifies this
      ensures shards == old(shards)[i := ResetIn(old(shards)[i], key, policy, now)]
      ensures size == SizeAfter(old(View()), old(shards)[i], key)
      ensures evictions == EvictionsAfter(old(View()), old(shards)[i], key)
      ensures bucket == Full(policy, now)
    {
      bucket := Full(policy, now);
      Ensure(i, key, bucket);
      shards := shards[i := Put(shards[i], key, bucket)];
    }

    method Reset(key: Key, policy: Policy, now: real) returns (bucket: Bucket)
      requires Valid()
      modifies this
      ensures Valid() && View() == Applied(hash, old(View()), Op.Reset(key, policy, now))
      ensures bucket == Bucket(policy.capacity, policy.capacity as real, policy.refill, now, now)
      ensures Lookup(hash, View(), key) == Some(bucket)
    {
      OpKeepsInv(hash, View(), limit, Op.Reset(key, policy, now));
      var i := Home(hash, |shards|, key);
      SoundAt(shards, i);
      bucket := ResetLocked(i, key, policy, now);
    }

    /** The loop of `Cleanup` over one shard. `keys` is the order the iteration took. */
    method CleanLocked(i: nat, cutoff: real) returns (ghost keys: seq<Key>)
      requires i < |shards| && InRange(shards[i])
      modifies this`size, this`shards
      ensures Enumerates(keys, Expired(old(shards)[i], cutoff))
      ensures shards == old(shards)[i := Without(old(shards)[i], keys)]
      ensures size == old(size) - |keys|
    {
      var expired := Expired(shards[i], cutoff);
      var todo := expired;
      keys := [];
      while todo != {}
        invariant todo <= expired && Enumerates(keys, expired - todo)
        invariant shards == old(shards)[i := Without(old(shards)[i], keys)]
        invariant size == old(size) - |keys|
        decreases todo
      {
        var key :| key in todo;
        NextCleaned(old(shards)[i], expired, todo, keys, key);
        DeleteBucket(i, key);
        size := size - 1;
        keys := keys + [key];
        todo := todo - {key};
      }
      assert expired - todo == expired;
    }

    /** The critical section of `Cleanup` for one shard. */
    method CleanShard(i: nat, cutoff: real, now: real) returns (ghost keys: seq<Key>)
      requires Valid() && i < |shards|
      modifies this`size, this`shards
      ensures Valid() && Enabled(old(View()), Clean(i, cutoff, keys, now))
      ensures View() == Applied(hash, old(View()), Clean(i, cutoff, keys, now))
      ensures shards == old(shards)[i := shards[i]] && CleanedOf(shards[i], old(shards)[i], cutoff)
    {
      SoundAt(shards, i);
      keys := CleanLocked(i, cutoff);
      CleanLeaves(hash, old(View()), limit, i, cutoff, keys);
      CleanIs(hash, old(View()), limit, i, cutoff, keys, now);
    }

    method CleanOne(i: nat, cutoff: real, now: real)
      requires Valid() && i < |shards|
      modifies this`size, this`shards
      ensures |shards| == |old(shards)| && Valid()
      ensures CleanedOf(shards[i], old(shards)[i], cutoff)
      ensures forall j | 0 <= j < |shards| && j != i :: shards[j] == old(shards)[j]
    {
      ghost var keys := CleanShard(i, cutoff, now);
    }

    /** Left alone between shards, `Cleanup` keeps exactly the buckets seen since the cutoff. */
    method Cleanup(cutoff: real, now: real)
      requires Valid()
      modifies this`size, this`shards
      ensures Valid() && CleanedUpTo(shards, old(shards), cutoff, |old(shards)|)
    {
      var index := 0;
      while index < |shards|
        invariant index <= |shards| && Valid() && CleanedUpTo(shards, old(shards), cutoff, index)
      {
        CleanOne(index, cutoff, now);
        index := index + 1;
      }
    }
  }

  /** The first `k` shards have been cleaned and the others have not been touched. */
  ghost predicate CleanedUpTo(shards: seq<Shard>, was: seq<Shard>, cutoff: real, k: nat) {
    && |shards| == |was|
    && (forall i | 0 <= i < k && i < |was| :: CleanedOf(shards[i], was[i], cutoff))
    && (forall i | k <= i < |was| :: shards[i] == was[i])
  }

  /** `t` has exactly the buckets of `s` that were seen since the cutoff. */
  ghost predicate CleanedOf(t: Shard, s: Shard, cutoff: real) {
    t.buckets == map k | k in s.buckets && s.buckets[k].lastSeen >= cutoff :: s.buckets[k]
  }

  lemma CleanLeaves(hash: Hash, s: Store, n: nat, i: nat, cutoff: real, keys: seq<Key>)
    requires StoreInv(hash, s, n) && i < |s.shards| && Enumerates(keys, Expired(s.shards[i], cutoff))
    ensures InRange(s.shards[i]) && CleanedOf(Without(s.shards[i], keys), s.shards[i], cutoff)
  {
    SoundAt(s.shards, i);
    WithoutRemoves(s.shards[i], keys, Expired(s.shards[i], cutoff));
  }

  lemma CleanIs(hash: Hash, s: Store, n: nat, i: nat, cutoff: real, keys: seq<Key>, now: real)
    requires StoreInv(hash, s, n) && i < |s.shards| && Enumerates(keys, Expired(s.shards[i], cutoff))
    ensures InRange(s.shards[i])
    ensures Applied(hash, s, Clean(i, cutoff, keys, now)) ==
            Store(s.shards[i := Without(s.shards[i], keys)], s.size - |keys|, s.evictions)
    ensures StoreInv(hash, Applied(hash, s, Clean(i, cutoff, keys, now)), n)
  {
    CleanKeepsInv(hash, s, n, i, cutoff, keys);
  }

  lemma TakeFinds(s: Shard, key: Key, p: Policy, now: real)
    requires InRange(s)
    ensures ShardWith(s, key, Full(p, now)).buckets[key] ==
            Found(if key in s.buckets then Some(s.buckets[key]) else None, p, now)
  {}

  lemma NextCleaned(s: Shard, expired: set<Key>, todo: set<Key>, keys: seq<Key>, key: Key)
    requires InRange(s) && todo <= expired && Enumerates(keys, expired - todo) && key in todo
    ensures InRange(Without(s, keys)) && Without(s, keys + [key]) == Deleted(Without(s, keys), key)
    ensures Enumerates(keys + [key], expired - (todo - {key}))
  {
    WithoutOneMore(s, keys, key);
    EnumeratesOneMore(keys, expired - todo, key);
    assert expired - todo + {key} == expired - (todo - {key});
  }

  /** `n` empty shards, each with its share of `most`. */
  ghost predicate Dealt(shards: seq<Shard>, most: nat, n: nat) {
    1 <= n == |shards| && forall i | 0 <= i < n :: shards[i] == EmptyShard(Share(most, n, i))
  }

  ghost predicate DealtSoFar(shards: seq<Shard>, most: nat, n: nat)
    requires 1 <= n
  {
    && (forall i | 0 <= i < |shards| :: shards[i] == EmptyShard(Share(most, n, i)))
    && Held(shards) == 0 && Room(shards) == FirstShares(most, n, |shards|)
  }

  lemma DealsOneMore(shards: seq<Shard>, most: nat, n: nat)
    requires 1 <= n && DealtSoFar(shards, most, n)
    ensures DealtSoFar(shards + [EmptyShard(Share(most, n, |shards|))], most, n)
  {
    SumsAppend(shards, EmptyShard(Share(most, n, |shards|)));
    NextShare(most, n, |shards|);
  }

  lemma {:induction false} SoundFromEmpty(shards: seq<Shard>, most: nat, n: nat, i: nat)
    requires Dealt(shards, most, n) && n <= most && i <= n
    ensures AllSound(shards[i..])
    decreases n - i
  {
    if i < n {
      ShareIsPositive(most, n, i);
      EmptyShardInv(Share(most, n, i));
      SoundFromEmpty(shards, most, n, i + 1);
      assert shards[i..][1..] == shards[i + 1..];
    }
  }

  lemma DealtIsSound(hash: Hash, shards: seq<Shard>, most: nat)
    requires Dealt(shards, most, |shards|) && |shards| <= most && Held(shards) == 0 && Room(shards) == most
    ensures StoreInv(hash, Store(shards, 0, 0), most)
  {
    SoundFromEmpty(shards, most, |shards|, 0);
    assert shards[0..] == shards;
  }

  /** What the first `i` shards get. */
  function FirstShares(total: nat, n: nat, i: nat): int
    requires 1 <= n
  {
    i * (total / n) + Min(i, total % n)
  }

  lemma NextShare(total: nat, n: nat, i: nat)
    requires 1 <= n
    ensures FirstShares(total, n, i + 1) == FirstShares(total, n, i) + Share(total, n, i)
  {
    var q := total / n;
    assert (i + 1) * q == i * q + q;
  }

  lemma SumOfShares(total: nat, n: nat)
    requires 1 <= n
    ensures FirstShares(total, n, 0) == 0 && FirstShares(total, n, n) == total
  {
    assert total == n * (total / n) + total % n;
  }

  lemma ShareIsPositive(total: nat, n: nat, i: nat)
    requires 1 <= n <= total && i < n
    ensures 1 <= Share(total, n, i)
  {
    assert total == n * (total / n) + total % n;
    assert total % n < n;
  }
}
