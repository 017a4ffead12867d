/** The slot array, inverse map, free list and rotating evictor of one shard of `internal/ratelimit/local.go`. */
module SlotIndex {
  import opened Common
  import opened TokenBuckets

  type Key = string

  datatype Shard = Shard(
    buckets: map<Key, Bucket>,
    maxBuckets: nat,
    slots: seq<Key>,
    positions: map<Key, nat>,
    freeSlots: seq<nat>,
    nextEvict: nat)

  /** A cleared slot holds the empty string, which is also a legal key: only `positions` tells them apart. */
  predicate Occupied(s: Shard, i: nat)
    requires i < |s.slots|
  {
    s.slots[i] in s.positions && s.positions[s.slots[i]] == i
  }

  ghost predicate Inverse(s: Shard) {
    && s.positions.Keys == s.buckets.Keys
    && forall k | k in s.positions :: s.positions[k] < |s.slots| && s.slots[s.positions[k]] == k
  }

  ghost predicate FreeExact(s: Shard) {
    && Distinct(s.freeSlots)
    && (forall j | 0 <= j < |s.freeSlots| :: s.freeSlots[j] < |s.slots| && !Occupied(s, s.freeSlots[j]))
    && (forall i | 0 <= i < |s.slots| :: !Occupied(s, i) ==> i in s.freeSlots)
  }

  ghost predicate ShardInv(s: Shard) {
    && 1 <= s.maxBuckets && s.nextEvict < s.maxBuckets
    && Inverse(s) && FreeExact(s)
    && |s.slots| == |s.buckets| + |s.freeSlots| <= s.maxBuckets
  }

  function EmptyShard(maxBuckets: nat): Shard {
    Shard(map[], maxBuckets, [], map[], [], 0)
  }

  predicate IsFull(s: Shard) { |s.buckets| >= s.maxBuckets }

  /** The key the next insertion into a full shard throws out. */
  function Victim(s: Shard): Key
    requires s.nextEvict < |s.slots|
  {
    s.slots[s.nextEvict]
  }

  function PlacedAt(s: Shard, slot: nat, key: Key, b: Bucket): Shard
    requires slot < |s.slots|
  {
    s.(slots := s.slots[slot := key], positions := s.positions[key := slot], buckets := s.buckets[key := b])
  }

  /** Every index an operation follows is within the slot array. Implied by `ShardInv`. */
  ghost predicate InRange(s: Shard) {
    && (IsFull(s) ==> s.nextEvict < |s.slots| && 1 <= s.maxBuckets)
    && (!IsFull(s) && s.freeSlots != [] ==> s.freeSlots[|s.freeSlots| - 1] < |s.slots|)
    && (forall k | k in s.positions :: s.positions[k] < |s.slots|)
  }

  function Inserted(s: Shard, key: Key, b: Bucket): Shard
    requires InRange(s)
  {
    if !IsFull(s) && s.freeSlots != [] then
      var last := |s.freeSlots| - 1;
      PlacedAt(s.(freeSlots := s.freeSlots[..last]), s.freeSlots[last], key, b)
    else if !IsFull(s) then
      PlacedAt(s.(slots := s.slots + [""]), |s.slots|, key, b)
    else
      PlacedAt(s.(nextEvict := (s.nextEvict + 1) % s.maxBuckets,
                  buckets := s.buckets - {Victim(s)}, positions := s.positions - {Victim(s)}),
               s.nextEvict, key, b)
  }

  function Deleted(s: Shard, key: Key): Shard
    requires InRange(s)
  {
    if key !in s.positions then s
    else s.(buckets := s.buckets - {key}, positions := s.positions - {key},
            slots := s.slots[s.positions[key] := ""], freeSlots := s.freeSlots + [s.positions[key]])
  }

  lemma DeletedInRange(s: Shard, key: Key)
    requires InRange(s)
    ensures InRange(Deleted(s, key)) && Deleted(s, key).maxBuckets == s.maxBuckets
  {
    if key in s.buckets {
      RemovedSize(s.buckets, key);
    } else {
      assert s.buckets - {key} == s.buckets;
    }
  }

  // ------------------------------------------------------------ the invariant

  lemma InvInRange(s: Shard)
    requires ShardInv(s)
    ensures InRange(s)
  {}

  lemma EmptyShardInv(maxBuckets: nat)
    requires 1 <= maxBuckets
    ensures ShardInv(EmptyShard(maxBuckets))
  {}

  /** A full shard has no free slot: the evictor always meets a live key, and never the one coming in. */
  lemma FullShardEvictsLiveKey(s: Shard, key: Key)
    requires ShardInv(s) && IsFull(s) && key !in s.buckets
    ensures s.freeSlots == [] && |s.slots| == s.maxBuckets == |s.buckets|
    ensures s.nextEvict < |s.slots| && Occupied(s, s.nextEvict)
    ensures Victim(s) in s.buckets && Victim(s) != key
  {}

  lemma AddedSize(m: map<Key, Bucket>, key: Key, b: Bucket)
    ensures |m[key := b]| == |m| + (if key in m then 0 else 1)
  {
    assert m[key := b].Keys == m.Keys + {key};
    assert |m.Keys| == |m| && |m[key := b].Keys| == |m[key := b]|;
  }

  lemma RemovedSize(m: map<Key, Bucket>, key: Key)
    requires key in m
    ensures |m - {key}| == |m| - 1
  {
    assert m.Keys == (m - {key}).Keys + {key};
    assert |m.Keys| == |m| && |(m - {key}).Keys| == |m - {key}|;
  }

  /** Putting an absent key into an unoccupied slot occupies that slot and no other. */
  lemma PlacingOccupies(s: Shard, slot: nat, key: Key, b: Bucket)
    requires Inverse(s) && key !in s.buckets && slot < |s.slots| && !Occupied(s, slot)
    ensures Inverse(PlacedAt(s, slot, key, b))
    ensures forall i | 0 <= i < |s.slots| :: Occupied(PlacedAt(s, slot, key, b), i) == (Occupied(s, i) || i == slot)
  {
    var t := PlacedAt(s, slot, key, b);
    forall k | k in t.positions ensures t.positions[k] < |t.slots| && t.slots[t.positions[k]] == k {
      if k != key {
        assert s.positions[k] != slot;
      }
    }
  }

  /** Taking a key out frees its slot and no other. */
  lemma RemovingFrees(s: Shard, key: Key, t: Shard)
    requires Inverse(s) && key in s.buckets
    requires t.buckets == s.buckets - {key} && t.positions == s.positions - {key}
    requires t.slots == s.slots || t.slots == s.slots[s.positions[key] := ""]
    ensures Inverse(t)
    ensures forall i | 0 <= i < |s.slots| :: Occupied(t, i) == (Occupied(s, i) && i != s.positions[key])
  {
    forall k | k in t.positions ensures t.positions[k] < |t.slots| && t.slots[t.positions[k]] == k {
      assert s.positions[k] != s.positions[key];
    }
  }

  /** Occupying the slot at the end of the free list, and popping it, keeps the list exact. */
  lemma PoppingKeepsFreeExact(s: Shard, t: Shard)
    requires FreeExact(s) && s.freeSlots != [] && |t.slots| == |s.slots|
    requires t.freeSlots == s.freeSlots[..|s.freeSlots| - 1]
    requires forall i | 0 <= i < |s.slots| :: Occupied(t, i) == (Occupied(s, i) || i == s.freeSlots[|s.freeSlots| - 1])
    ensures FreeExact(t)
  {
    var slot := s.freeSlots[|s.freeSlots| - 1];
    assert s.freeSlots == t.freeSlots + [slot];
    forall i | 0 <= i < |t.slots| && !Occupied(t, i) ensures i in t.freeSlots {
      assert i in s.freeSlots && i != slot;
    }
  }

  lemma ReusingKeepsInv(s: Shard, key: Key, b: Bucket)
    requires ShardInv(s) && key !in s.buckets && !IsFull(s) && s.freeSlots != []
    ensures ShardInv(Inserted(s, key, b))
  {
    var last := |s.freeSlots| - 1;
    var u := s.(freeSlots := s.freeSlots[..last]);
    assert forall i | 0 <= i < |s.slots| :: Occupied(u, i) == Occupied(s, i);
    PlacingOccupies(u, s.freeSlots[last], key, b);
    AddedSize(s.buckets, key, b);
    PoppingKeepsFreeExact(s, Inserted(s, key, b));
  }

  lemma AppendingKeepsInv(s: Shard, key: Key, b: Bucket)
    requires ShardInv(s) && key !in s.buckets && !IsFull(s) && s.freeSlots == []
    ensures ShardInv(Inserted(s, key, b))
  {
    var u := s.(slots := s.slots + [""]);
    assert forall i | 0 <= i < |s.slots| :: Occupied(u, i) == Occupied(s, i);
    PlacingOccupies(u, |s.slots|, key, b);
    AddedSize(s.buckets, key, b);
  }

  lemma EvictingKeepsInv(s: Shard, key: Key, b: Bucket)
    requires ShardInv(s) && key !in s.buckets && IsFull(s)
    ensures s.nextEvict < |s.slots| && ShardInv(Inserted(s, key, b))
  {
    FullShardEvictsLiveKey(s, key);
    var u := s.(nextEvict := (s.nextEvict + 1) % s.maxBuckets,
                buckets := s.buckets - {Victim(s)}, positions := s.positions - {Victim(s)});
    RemovingFrees(s, Victim(s), u);
    PlacingOccupies(u, s.nextEvict, key, b);
    RemovedSize(s.buckets, Victim(s));
    AddedSize(u.buckets, key, b);
  }

  /** Inserting an absent key keeps the index exact, adds that key, and removes the victim of a full shard. */
  lemma InsertKeepsInv(s: Shard, key: Key, b: Bucket)
    requires ShardInv(s) && key !in s.buckets
    ensures IsFull(s) ==> s.nextEvict < |s.slots| && Victim(s) in s.buckets && Victim(s) != key
    ensures ShardInv(Inserted(s, key, b)) && Inserted(s, key, b).maxBuckets == s.maxBuckets
    ensures Inserted(s, key, b).buckets == (if IsFull(s) then s.buckets - {Victim(s)} else s.buckets)[key := b]
    ensures |Inserted(s, key, b).buckets| == |s.buckets| + (if IsFull(s) then 0 else 1)
  {
    if IsFull(s) {
      EvictingKeepsInv(s, key, b);
      FullShardEvictsLiveKey(s, key);
      RemovedSize(s.buckets, Victim(s));
      AddedSize(s.buckets - {Victim(s)}, key, b);
    } else {
      AddedSize(s.buckets, key, b);
      if s.freeSlots == [] { AppendingKeepsInv(s, key, b); } else { ReusingKeepsInv(s, key, b); }
    }
  }

  /** Freeing an occupied slot, and putting it on the free list, keeps the list exact. */
  lemma PushingKeepsFreeExact(s: Shard, t: Shard, slot: nat)
    requires FreeExact(s) && slot < |s.slots| == |t.slots| && Occupied(s, slot)
    requires t.freeSlots == s.freeSlots + [slot]
    requires forall i | 0 <= i < |s.slots| :: Occupied(t, i) == (Occupied(s, i) && i != slot)
    ensures FreeExact(t)
  {
    forall i | 0 <= i < |t.slots| && !Occupied(t, i) ensures i in t.freeSlots {
      assert i in s.freeSlots || i == slot;
    }
  }

  lemma DeletePresent(s: Shard, key: Key)
    requires ShardInv(s) && key in s.buckets
    ensures InRange(s) && ShardInv(Deleted(s, key)) && |Deleted(s, key).buckets| == |s.buckets| - 1
  {
    var t := Deleted(s, key);
    RemovingFrees(s, key, t);
    RemovedSize(s.buckets, key);
    PushingKeepsFreeExact(s, t, s.positions[key]);
  }

  lemma DeleteKeepsInv(s: Shard, key: Key)
    requires ShardInv(s)
    ensures ShardInv(Deleted(s, key)) && Deleted(s, key).maxBuckets == s.maxBuckets
    ensures Deleted(s, key).buckets == s.buckets - {key}
    ensures |Deleted(s, key).buckets| == |s.buckets| - (if key in s.buckets then 1 else 0)
  {
    if key in s.buckets {
      DeletePresent(s, key);
    } else {
      assert s.buckets - {key} == s.buckets;
    }
  }

  /** Rewriting the bucket of a key that is present leaves the index alone. */
  lemma UpdateKeepsInv(s: Shard, key: Key, b: Bucket)
    requires ShardInv(s) && key in s.buckets
    ensures ShardInv(s.(buckets := s.buckets[key := b])) && |s.buckets[key := b]| == |s.buckets|
  {
    var t := s.(buckets := s.buckets[key := b]);
    AddedSize(s.buckets, key, b);
    assert t.buckets.Keys == s.buckets.Keys;
    assert forall i | 0 <= i < |s.slots| :: Occupied(t, i) == Occupied(s, i);
  }

  // ------------------------------------------------------------ eviction is first in, first out

  /** Never cleaned: no slot is free, and the evictor has only moved if the shard is full. */
  predicate NeverCleaned(s: Shard) {
    s.freeSlots == [] && (s.nextEvict == 0 || IsFull(s)) && s.nextEvict <= |s.slots|
  }

  /** The keys of such a shard, next victim first. */
  function Queue(s: Shard): seq<Key>
    requires s.nextEvict <= |s.slots|
  {
    Rotated(s.slots, s.nextEvict)
  }

  function Rotated(xs: seq<Key>, n: nat): seq<Key>
    requires n <= |xs|
  {
    xs[n..] + xs[..n]
  }

  lemma RotatedParts(a: seq<Key>, c: seq<Key>)
    ensures Rotated(a + c, |a|) == c + a
  {
    assert (a + c)[|a|..] == c && (a + c)[..|a|] == a;
  }

  lemma NextIndex(n: nat, size: nat)
    requires n < size
    ensures (n + 1) % size == if n + 1 == size then 0 else n + 1
  {}

  lemma TailOfRotation(xs: seq<Key>, n: nat)
    requires n < |xs|
    ensures Rotated(xs, n) == [xs[n]] + (xs[n + 1..] + xs[..n])
  {
    assert xs[n..] == [xs[n]] + xs[n + 1..];
  }

  /** Overwriting the head of a rotated sequence and turning it by one moves the head to the back. */
  lemma RotationAdvances(xs: seq<Key>, n: nat, key: Key)
    requires n < |xs|
    ensures (n + 1) % |xs| <= |xs|
    ensures Rotated(xs[n := key], (n + 1) % |xs|) == xs[n + 1..] + xs[..n] + [key]
  {
    NextIndex(n, |xs|);
    var a, c := xs[..n], xs[n + 1..];
    assert xs[n := key] == (a + [key]) + c;
    RotatedParts(a + [key], c);
    if c == [] {
      RotatedParts([], a + [key]);
      assert [] + (a + [key]) == (a + [key]) + c;
    }
    assert c + (a + [key]) == c + a + [key];
  }

  lemma InsertEnqueues(s: Shard, key: Key, b: Bucket)
    requires ShardInv(s) && NeverCleaned(s) && key !in s.buckets
    ensures IsFull(s) ==> s.nextEvict < |s.slots| && Queue(s) == [Victim(s)] + Queue(s)[1..]
    ensures ShardInv(Inserted(s, key, b)) && NeverCleaned(Inserted(s, key, b))
    ensures Queue(Inserted(s, key, b)) == (if IsFull(s) then Queue(s)[1..] else Queue(s)) + [key]
  {
    InsertKeepsInv(s, key, b);
    if IsFull(s) {
      FullInsertEnqueues(s, key, b);
    } else {
      RoomyInsertEnqueues(s, key, b);
    }
  }

  lemma RoomyInsertEnqueues(s: Shard, key: Key, b: Bucket)
    requires InRange(s) && !IsFull(s) && s.freeSlots == [] && s.nextEvict == 0
    ensures var t := Inserted(s, key, b); t.freeSlots == [] && t.nextEvict == 0 && Queue(t) == Queue(s) + [key]
  {
    assert Inserted(s, key, b).slots == s.slots + [key];
  }

  lemma FullInsertEnqueues(s: Shard, key: Key, b: Bucket)
    requires InRange(s) && IsFull(s) && |s.slots| == s.maxBuckets
    ensures Queue(s) == [Victim(s)] + Queue(s)[1..]
    ensures var t := Inserted(s, key, b); t.nextEvict <= |t.slots| && Queue(t) == Queue(s)[1..] + [key]
  {
    RotationAdvances(s.slots, s.nextEvict, key);
    TailOfRotation(s.slots, s.nextEvict);
  }

  /** A shard with the keys it was given and those it threw out, in order. */
  datatype Log = Log(shard: Shard, inserted: seq<Key>, evicted: seq<Key>)

  /** A key arrives: absent keys are inserted, present ones only have their bucket rewritten. */
  function Touch(l: Log, key: Key, b: Bucket): Log
    requires ShardInv(l.shard)
  {
    if key in l.shard.buckets then l.(shard := l.shard.(buckets := l.shard.buckets[key := b]))
    else
      InsertKeepsInv(l.shard, key, b);
      Log(Inserted(l.shard, key, b), l.inserted + [key], l.evicted + if IsFull(l.shard) then [Victim(l.shard)] else [])
  }

  ghost predicate Fifo(l: Log) {
    ShardInv(l.shard) && NeverCleaned(l.shard) && l.inserted == l.evicted + Queue(l.shard)
  }

  /** Moving the head of `q` over to `evicted` and a new key to its back keeps the whole in order. */
  lemma ShiftKeepsOrder(evicted: seq<Key>, q: seq<Key>, out: seq<Key>, rest: seq<Key>, key: Key)
    requires q == out + rest
    ensures evicted + q + [key] == (evicted + out) + (rest + [key])
  {}

  lemma InsertKeepsFifo(l: Log, key: Key, b: Bucket)
    requires Fifo(l) && key !in l.shard.buckets
    ensures Fifo(Touch(l, key, b)) && Touch(l, key, b).shard.maxBuckets == l.shard.maxBuckets
  {
    InsertKeepsInv(l.shard, key, b);
    InsertEnqueues(l.shard, key, b);
    var q := Queue(l.shard);
    ShiftKeepsOrder(l.evicted, q, if IsFull(l.shard) then [Victim(l.shard)] else [],
                    if IsFull(l.shard) then q[1..] else q, key);
  }

  lemma TouchKeepsFifo(l: Log, key: Key, b: Bucket)
    requires Fifo(l)
    ensures Fifo(Touch(l, key, b)) && Touch(l, key, b).shard.maxBuckets == l.shard.maxBuckets
  {
    if key in l.shard.buckets {
      UpdateKeepsInv(l.shard, key, b);
    } else {
      InsertKeepsFifo(l, key, b);
    }
  }

  function Touched(l: Log, es: seq<(Key, Bucket)>): (r: Log)
    requires Fifo(l)
    ensures Fifo(r) && r.shard.maxBuckets == l.shard.maxBuckets
    decreases |es|
  {
    if es == [] then l else
      TouchKeepsFifo(l, es[0].0, es[0].1);
      Touched(Touch(l, es[0].0, es[0].1), es[1..])
  }

  /** Without cleanup the keys thrown out are exactly the first ones put in, in the same order. */
  lemma EvictionIsFirstInFirstOut(maxBuckets: nat, es: seq<(Key, Bucket)>)
    requires 1 <= maxBuckets
    ensures Fifo(Log(EmptyShard(maxBuckets), [], []))
    ensures var end := Touched(Log(EmptyShard(maxBuckets), [], []), es);
            && |end.evicted| <= |end.inserted| && end.evicted == end.inserted[..|end.evicted|]
            && |end.inserted| - |end.evicted| == |end.shard.buckets| <= maxBuckets
  {
    var start := Log(EmptyShard(maxBuckets), [], []);
    EmptyShardInv(maxBuckets);
    var end := Touched(start, es);
    assert |Queue(end.shard)| == |end.shard.slots|;
  }
}
