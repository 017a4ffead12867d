/** One rate-limit bucket and the life of one key. Time is in seconds, tokens are reals. */
module TokenBuckets {
  import opened Common

  datatype Policy = Policy(capacity: int, refill: real)

  datatype Bucket = Bucket(capacity: int, tokens: real, refill: real, lastRefill: real, lastSeen: real)

  function Full(p: Policy, now: real): Bucket {
    Bucket(p.capacity, p.capacity as real, p.refill, now, now)
  }

  function RealMin(a: real, b: real): real { if a < b then a else b }

  function Refilled(b: Bucket, now: real): Bucket {
    if now - b.lastRefill <= 0.0 then b
    else b.(tokens := RealMin(b.capacity as real, b.tokens + Accrued(b.refill, b.lastRefill, now)), lastRefill := now)
  }

  function WithPolicy(b: Bucket, p: Policy, now: real): Bucket {
    if b.capacity == p.capacity && b.refill == p.refill then b
    else
      var r := Refilled(b, now);
      r.(capacity := p.capacity, refill := p.refill, tokens := RealMin(r.tokens, p.capacity as real))
  }

  /** What a request on this bucket leaves behind, and whether it passes. */
  function Taken(b: Bucket, p: Policy, now: real): (Bucket, bool) {
    var r := Refilled(WithPolicy(b, p, now), now);
    var allowed := r.tokens >= 1.0;
    (r.(tokens := if allowed then r.tokens - 1.0 else r.tokens, lastSeen := now), allowed)
  }

  /** A missing bucket stands for a full one. */
  function Found(b: Option<Bucket>, p: Policy, now: real): Bucket {
    if b.Some? then b.value else Full(p, now)
  }

  /** What `Peek` shows: the clock is read once for the policy and once for the refill. */
  function Peeked(b: Option<Bucket>, p: Policy, first: real, second: real): Bucket {
    if b.None? then Full(p, second) else Refilled(WithPolicy(b.value, p, first), second)
  }

  /** Peeking foretells taking: a request at that moment passes exactly if a whole token shows, and takes one. */
  lemma PeekForetellsTake(b: Option<Bucket>, p: Policy, now: real)
    ensures var seen := Peeked(b, p, now, now);
            var (after, allowed) := Taken(Found(b, p, now), p, now);
            allowed == (seen.tokens >= 1.0) && after.tokens == seen.tokens - (if allowed then 1.0 else 0.0)
  {}

  /** What a bucket holds: its tokens and what it has earned since at its own rate, up to its own capacity. */
  function Holding(b: Bucket, now: real): real {
    if now <= b.lastRefill then b.tokens else RealMin(b.capacity as real, b.tokens + (now - b.lastRefill) * b.refill)
  }

  lemma RefilledIsHolding(b: Bucket, now: real)
    ensures Refilled(b, now) == b.(tokens := Holding(b, now), lastRefill := if now <= b.lastRefill then b.lastRefill else now)
  {}

  /**
   What a request does to any bucket under any policy: the bucket takes on the policy; what it held, with what
   it earned at the old rate up to the old capacity, is cut to the new capacity; the request passes exactly if
   a whole token is left, and takes it.
   */
  lemma TakeUnderPolicy(b: Bucket, p: Policy, now: real)
    requires 0.0 <= b.tokens <= b.capacity as real && 0.0 <= b.refill && 1 <= p.capacity
    ensures var (after, allowed) := Taken(b, p, now);
            var level := RealMin(p.capacity as real, Holding(b, now));
            && after.capacity == p.capacity && after.refill == p.refill && after.lastSeen == now
            && after.lastRefill == (if now <= b.lastRefill then b.lastRefill else now)
            && (allowed <==> level >= 1.0)
            && after.tokens == level - (if allowed then 1.0 else 0.0) && 0.0 <= after.tokens <= p.capacity as real
  {
    assert p.capacity as real >= 1.0;
    RefillBounds(b, now);
    RefilledIsHolding(b, now);
    ChangedIsCut(b, p, now);
  }

  lemma ChangedIsCut(b: Bucket, p: Policy, now: real)
    requires b.tokens <= b.capacity as real
    ensures Refilled(WithPolicy(b, p, now), now) ==
            Refilled(b, now).(capacity := p.capacity, refill := p.refill, tokens := RealMin(p.capacity as real, Refilled(b, now).tokens))
  {}

  /** What a peek shows of any bucket under any policy: the same, read at one moment. */
  lemma PeekUnderPolicy(b: Bucket, p: Policy, first: real, second: real)
    requires 0.0 <= b.tokens <= b.capacity as real && 0.0 <= b.refill && Sensible(p) && first <= second
    ensures var seen := Peeked(Some(b), p, first, second);
            && seen.capacity == p.capacity && seen.refill == p.refill && 0.0 <= seen.tokens <= p.capacity as real
            && (first == second ==>
                  seen.tokens == RealMin(p.capacity as real, Holding(b, first)))
  {
    assert p.capacity as real >= 1.0;
    WithPolicyBounds(b, p, first);
    RefillBounds(WithPolicy(b, p, first), second);
    if first == second {
      RefilledIsHolding(b, first);
      ChangedIsCut(b, p, first);
    }
  }

  lemma RefillBounds(b: Bucket, now: real)
    requires 0.0 <= b.tokens <= b.capacity as real && 0.0 <= b.refill
    ensures 0.0 <= Refilled(b, now).tokens <= b.capacity as real
  {
    if now > b.lastRefill {
      AccruedGrows(b.refill, b.lastRefill, now);
      CappedBounds(b.capacity as real, b.tokens, Accrued(b.refill, b.lastRefill, now));
    }
  }

  lemma WithPolicyBounds(b: Bucket, p: Policy, now: real)
    requires 0.0 <= b.tokens <= b.capacity as real && 0.0 <= b.refill && 1 <= p.capacity
    ensures var c := WithPolicy(b, p, now);
            c.capacity == p.capacity && c.refill == p.refill && 0.0 <= c.tokens <= p.capacity as real
  {
    assert p.capacity as real >= 1.0;
    RefillBounds(b, now);
  }

  lemma CappedBounds(cap: real, tokens: real, g: real)
    requires 0.0 <= g && 0.0 <= tokens && 0.0 <= cap
    ensures 0.0 <= RealMin(cap, tokens + g) <= cap
  {}

  // ------------------------------------------------------------ the life of one key

  /** What can happen to a key. `Other` is any operation that leaves it alone. */
  datatype Event = Take(now: real, policy: Policy) | Reset(now: real, policy: Policy) | Drop(now: real) | Other(now: real)

  /** A key: its bucket, the requests let through, and how often it lost its history. */
  datatype Life = Life(bucket: Option<Bucket>, allowed: nat, losses: nat)

  predicate Sensible(p: Policy) { 1 <= p.capacity && 0.0 < p.refill }

  function Live(l: Life, ev: Event): Life {
    match ev
    case Take(now, p) =>
      var (b, allowed) := Taken(Found(l.bucket, p, now), p, now);
      Life(Some(b), l.allowed + if allowed then 1 else 0, l.losses)
    case Reset(now, p) => Life(Some(Full(p, now)), l.allowed, l.losses + 1)
    case Drop(_) => Life(None, l.allowed, l.losses + 1)
    case Other(_) => l
  }

  /** The same key in a store that never forgets: resets and drops do not reach it. */
  function Remember(l: Life, ev: Event): Life {
    if ev.Take? then Live(l, ev) else l
  }

  const Newborn := Life(None, 0, 0)

  predicate HasPolicy(ev: Event) { ev.Take? || ev.Reset? }

  predicate SensibleEvent(ev: Event) { HasPolicy(ev) ==> Sensible(ev.policy) }

  // ------------------------------------------------------------ levels

  /** Last touched no later than `now`, and within its bounds. */
  predicate Sound(b: Option<Bucket>, now: real) {
    b.Some? ==>
      && 1 <= b.value.capacity && 0.0 < b.value.refill
      && 0.0 <= b.value.tokens <= b.value.capacity as real
      && b.value.lastRefill == b.value.lastSeen <= now
  }

  /** Tokens in the bucket at `now`. */
  function Level(b: Bucket, now: real): real {
    RealMin(b.capacity as real, b.tokens + Accrued(b.refill, b.lastRefill, now))
  }

  /** Tokens a request under `p` would find at `now`. */
  function Reach(b: Option<Bucket>, p: Policy, now: real): real {
    if b.None? then p.capacity as real else RealMin(p.capacity as real, Level(b.value, now))
  }

  lemma CappedTwice(cap: real, tokens: real, g: real, h: real)
    requires 0.0 <= h
    ensures RealMin(cap, tokens + (g + h)) == RealMin(cap, RealMin(cap, tokens + g) + h)
  {}

  lemma LevelBounds(b: Bucket, now: real)
    requires Sound(Some(b), now)
    ensures 0.0 <= Level(b, now) <= b.capacity as real
  {
    AccruedGrows(b.refill, b.lastRefill, now);
    CappedBounds(b.capacity as real, b.tokens, Accrued(b.refill, b.lastRefill, now));
  }

  /** Time fills a bucket at the refill rate until it is full. */
  lemma LevelRises(b: Bucket, t: real, now: real)
    requires Sound(Some(b), t) && t <= now
    ensures 0.0 <= Accrued(b.refill, t, now) && Sound(Some(b), now)
    ensures Level(b, now) == RealMin(b.capacity as real, Level(b, t) + Accrued(b.refill, t, now))
  {
    AccruedGrows(b.refill, t, now);
    AccruedAdds(b.refill, b.lastRefill, t, now);
    CappedTwice(b.capacity as real, b.tokens, Accrued(b.refill, b.lastRefill, t), Accrued(b.refill, t, now));
  }

  lemma LevelAtTouch(b: Bucket)
    requires b.tokens <= b.capacity as real
    ensures Level(b, b.lastRefill) == b.tokens
  {
    AccruedNothing(b.refill, b.lastRefill);
  }

  lemma RefilledToLevel(b: Bucket, now: real)
    requires Sound(Some(b), now)
    ensures Refilled(b, now).tokens == Level(b, now) && Refilled(b, now).lastRefill == now
  {
    if b.lastRefill == now {
      LevelAtTouch(b);
    }
  }

  /** What a request leaves of a level, and the count of those that passed. */
  function Spent(level: real): real { if level >= 1.0 then level - 1.0 else level }

  function Counted(level: real, allowed: nat): nat { if level >= 1.0 then allowed + 1 else allowed }

  lemma ReachBounds(b: Option<Bucket>, p: Policy, now: real)
    requires Sound(b, now) && Sensible(p)
    ensures 1.0 <= p.capacity as real && 0.0 <= Reach(b, p, now) <= p.capacity as real
  {
    assert p.capacity as real >= 1.0;
    if b.Some? { LevelBounds(b.value, now); }
  }

  lemma TakenFromBucket(b: Bucket, p: Policy, now: real)
    requires Sound(Some(b), now) && Sensible(p)
    ensures var (after, allowed) := Taken(b, p, now);
            && after.capacity == p.capacity && after.refill == p.refill && after.lastRefill == after.lastSeen == now
            && after.tokens == Spent(Reach(Some(b), p, now)) && allowed == (Reach(Some(b), p, now) >= 1.0)
  {
    RefilledToLevel(b, now);
    ChangedIsCut(b, p, now);
  }

  /** A request finds what is within reach, passes if it is at least one, and lowers it by one if it passes. */
  lemma TakeReadsLevel(l: Life, p: Policy, now: real)
    requires Sound(l.bucket, now) && Sensible(p)
    ensures var next := Live(l, Take(now, p));
            && next.losses == l.losses && next.allowed == Counted(Reach(l.bucket, p, now), l.allowed)
            && next.bucket == Some(Bucket(p.capacity, Spent(Reach(l.bucket, p, now)), p.refill, now, now))
            && Sound(next.bucket, now)
  {
    ReachBounds(l.bucket, p, now);
    var b := Found(l.bucket, p, now);
    if l.bucket.None? {
      LevelAtTouch(b);
    }
    TakenFromBucket(b, p, now);
  }

  lemma LivesStaySound(l: Life, ev: Event)
    requires Sound(l.bucket, ev.now) && SensibleEvent(ev)
    ensures Sound(Live(l, ev).bucket, ev.now)
  {
    if ev.Take? {
      TakeReadsLevel(l, ev.policy, ev.now);
    } else if ev.Reset? {
      assert ev.policy.capacity as real >= 1.0;
    }
  }

  // ------------------------------------------------------------ forgetting only ever helps the client

  /** A lead of `n` requests covers a level lower by up to `n`. */
  predicate Covers(mine: real, theirs: real, lead: int) {
    0 <= lead && theirs - mine <= lead as real
  }

  lemma RiseKeepsCover(cap: real, mine: real, theirs: real, lead: int, gain: real)
    requires Covers(mine, theirs, lead) && 0.0 <= gain
    ensures Covers(RealMin(cap, mine + gain), RealMin(cap, theirs + gain), lead)
  {}

  lemma CutKeepsCover(cap: real, mine: real, theirs: real, lead: int)
    requires Covers(mine, theirs, lead)
    ensures Covers(RealMin(cap, mine), RealMin(cap, theirs), lead)
  {}

  lemma TakeKeepsCover(mine: real, theirs: real, m: nat, n: nat)
    requires Covers(mine, theirs, m - n)
    ensures Covers(Spent(mine), Spent(theirs), Counted(mine, m) - Counted(theirs, n))
  {
    if mine < 1.0 <= theirs {
      assert m - n >= 1;
    }
  }

  /** A request with a capacity of up to `most` would find a full bucket, now and later. */
  predicate Brimming(b: Option<Bucket>, most: int) {
    b.None? || (most <= b.value.capacity && b.value.tokens == b.value.capacity as real)
  }

  /** Both were last touched together, under one policy. */
  predicate InStep(a: Option<Bucket>, b: Option<Bucket>) {
    && a.Some? && b.Some? && a.value.capacity == b.value.capacity && a.value.refill == b.value.refill
    && a.value.lastRefill == b.value.lastRefill
  }

  /** `mine` has let through at least as many as `theirs`, and any lead covers what it has less in hand. */
  predicate Ahead(most: int, mine: Life, theirs: Life, now: real) {
    && Sound(mine.bucket, now) && Sound(theirs.bucket, now) && theirs.allowed <= mine.allowed
    && (Brimming(mine.bucket, most) ||
        (InStep(mine.bucket, theirs.bucket)
         && Covers(mine.bucket.value.tokens, theirs.bucket.value.tokens, mine.allowed - theirs.allowed)))
  }

  lemma BrimmingReachesAll(b: Option<Bucket>, most: int, p: Policy, now: real)
    requires Sound(b, now) && Brimming(b, most) && p.capacity <= most
    ensures Reach(b, p, now) == p.capacity as real
  {
    if b.Some? {
      AccruedGrows(b.value.refill, b.value.lastRefill, now);
      assert p.capacity as real <= b.value.capacity as real;
    }
  }

  lemma ReachIsCovered(most: int, mine: Life, theirs: Life, p: Policy, now: real)
    requires Ahead(most, mine, theirs, now) && Sensible(p) && p.capacity <= most
    ensures Covers(Reach(mine.bucket, p, now), Reach(theirs.bucket, p, now), mine.allowed - theirs.allowed)
  {
    if Brimming(mine.bucket, most) {
      BrimmingReachesAll(mine.bucket, most, p, now);
      ReachBounds(theirs.bucket, p, now);
    } else {
      var a, b, lead := mine.bucket.value, theirs.bucket.value, mine.allowed - theirs.allowed;
      AccruedGrows(a.refill, a.lastRefill, now);
      RiseKeepsCover(a.capacity as real, a.tokens, b.tokens, lead, Accrued(a.refill, a.lastRefill, now));
      CutKeepsCover(p.capacity as real, Level(a, now), Level(b, now), lead);
    }
  }

  lemma TakeKeepsAhead(most: int, mine: Life, theirs: Life, p: Policy, now: real)
    requires Ahead(most, mine, theirs, now) && Sensible(p) && p.capacity <= most
    ensures Ahead(most, Live(mine, Take(now, p)), Live(theirs, Take(now, p)), now)
  {
    ReachIsCovered(most, mine, theirs, p, now);
    TakeReadsLevel(mine, p, now);
    TakeReadsLevel(theirs, p, now);
    TakeKeepsCover(Reach(mine.bucket, p, now), Reach(theirs.bucket, p, now), mine.allowed, theirs.allowed);
  }

  /** Requests have capacities of at most `most`, and resets leave at least that many tokens. */
  predicate Generous(most: int, ev: Event) {
    SensibleEvent(ev) && (ev.Take? ==> ev.policy.capacity <= most) && (ev.Reset? ==> most <= ev.policy.capacity)
  }

  lemma EventKeepsAhead(most: int, mine: Life, theirs: Life, ev: Event)
    requires Ahead(most, mine, theirs, ev.now) && Generous(most, ev)
    ensures Ahead(most, Live(mine, ev), Remember(theirs, ev), ev.now)
  {
    if ev.Take? {
      TakeKeepsAhead(most, mine, theirs, ev.policy, ev.now);
    } else {
      LivesStaySound(mine, ev);
    }
  }

  // ------------------------------------------------------------ and only by a full bucket each time

  /** No bucket is larger than `most`, none refills faster than `rate`. */
  predicate Fits(ev: Event, most: int, rate: real) {
    SensibleEvent(ev) && (HasPolicy(ev) ==> ev.policy.capacity <= most && ev.policy.refill <= rate)
  }

  predicate FitsBucket(b: Option<Bucket>, most: int, rate: real) {
    b.Some? ==> b.value.capacity <= most && b.value.refill <= rate
  }

  /** What the key could be granted at once: a missing bucket counts as the largest. */
  function Stock(b: Option<Bucket>, most: int, now: real): real {
    if b.None? then most as real else Level(b.value, now)
  }

  /** Full buckets for `n` losses. */
  function Refunds(most: int, n: nat): real { most as real * n as real }

  lemma RefundsAdd(most: int, m: nat, n: nat)
    ensures Refunds(most, m) + Refunds(most, n) == Refunds(most, m + n)
  {
    assert (m + n) as real == m as real + n as real;
  }

  lemma RefundsOfFew(most: int)
    ensures Refunds(most, 0) == 0.0 && Refunds(most, 1) == most as real
  {}

  /** A full bucket for the start and for each loss, plus the refill. */
  function Ceiling(most: int, rate: real, losses: nat, from: real, now: real): real {
    Refunds(most, 1 + losses) + Accrued(rate, from, now)
  }

  /** From `a` at `from` to `b` at `now`, all that passed is paid for. */
  predicate Paid(most: int, rate: real, a: Life, from: real, b: Life, now: real) {
    && a.losses <= b.losses
    && b.allowed as real + Stock(b.bucket, most, now) <=
       a.allowed as real + Stock(a.bucket, most, from) + Refunds(most, b.losses - a.losses) + Accrued(rate, from, now)
  }

  lemma FasterEarnsMore(slow: real, fast: real, from: real, now: real)
    requires slow <= fast && from <= now
    ensures Accrued(slow, from, now) <= Accrued(fast, from, now)
  {
    ProductNonNegative(now - from, fast - slow);
    assert (now - from) * fast == (now - from) * slow + (now - from) * (fast - slow);
  }

  lemma StockRises(b: Option<Bucket>, most: int, rate: real, from: real, now: real)
    requires 1 <= most && Sound(b, from) && FitsBucket(b, most, rate) && from <= now && 0.0 < rate
    ensures 0.0 <= Stock(b, most, from) && 0.0 <= Accrued(rate, from, now) && Sound(b, now)
    ensures Stock(b, most, now) <= Stock(b, most, from) + Accrued(rate, from, now)
  {
    AccruedGrows(rate, from, now);
    assert most as real >= 1.0;
    if b.Some? {
      LevelBounds(b.value, from);
      LevelRises(b.value, from, now);
      FasterEarnsMore(b.value.refill, rate, from, now);
    }
  }

  lemma ReachIsInStock(b: Option<Bucket>, p: Policy, most: int, now: real)
    requires p.capacity <= most
    ensures Reach(b, p, now) <= Stock(b, most, now)
  {
    assert p.capacity as real <= most as real;
  }

  lemma TakePays(level: real, allowed: nat)
    ensures Counted(level, allowed) as real + Spent(level) == allowed as real + level
  {}

  lemma TakeIsPaid(l: Life, most: int, rate: real, p: Policy, now: real)
    requires 1 <= most && Sound(l.bucket, now) && Fits(Take(now, p), most, rate)
    ensures var next := Live(l, Take(now, p));
            && FitsBucket(next.bucket, most, rate) && next.losses == l.losses
            && next.allowed as real + Stock(next.bucket, most, now) <= l.allowed as real + Stock(l.bucket, most, now)
  {
    TakeReadsLevel(l, p, now);
    TakePays(Reach(l.bucket, p, now), l.allowed);
    ReachIsInStock(l.bucket, p, most, now);
    LevelAtTouch(Live(l, Take(now, p)).bucket.value);
  }

  lemma LossIsPaid(l: Life, most: int, rate: real, ev: Event)
    requires 1 <= most && Fits(ev, most, rate) && (ev.Reset? || ev.Drop?)
    ensures var next := Live(l, ev);
            FitsBucket(next.bucket, most, rate) && next.allowed == l.allowed && Stock(next.bucket, most, ev.now) <= most as real
  {
    if ev.Reset? {
      LevelAtTouch(Full(ev.policy, ev.now));
      assert ev.policy.capacity as real <= most as real;
    }
  }

  lemma EventIsPaid(l: Life, most: int, rate: real, from: real, ev: Event)
    requires 1 <= most && 0.0 < rate && Sound(l.bucket, from) && FitsBucket(l.bucket, most, rate)
    requires from <= ev.now && Fits(ev, most, rate)
    ensures FitsBucket(Live(l, ev).bucket, most, rate) && Paid(most, rate, l, from, Live(l, ev), ev.now)
  {
    StockRises(l.bucket, most, rate, from, ev.now);
    RefundsOfFew(most);
    match ev {
      case Take(now, p) => TakeIsPaid(l, most, rate, p, now);
      case Reset(_, _) => LossIsPaid(l, most, rate, ev);
      case Drop(_) => LossIsPaid(l, most, rate, ev);
      case Other(_) =>
    }
  }

  lemma PaidTransitive(most: int, rate: real, a: Life, s: real, b: Life, t: real, c: Life, u: real)
    requires Paid(most, rate, a, s, b, t) && Paid(most, rate, b, t, c, u)
    ensures Paid(most, rate, a, s, c, u)
  {
    AccruedAdds(rate, s, t, u);
    RefundsAdd(most, b.losses - a.losses, c.losses - b.losses);
  }

  // ------------------------------------------------------------ cleanups that cannot be noticed

  /** Under one policy a drop is harmless if the key had been idle long enough to be full. */
  predicate Harmless(p: Policy, l: Life, ev: Event) {
    (ev.Take? && ev.policy == p) || ev.Other? ||
    (ev.Drop? && (l.bucket.Some? ==> p.capacity as real <= Accrued(p.refill, l.bucket.value.lastSeen, ev.now)))
  }

  /** Both have only ever seen `p`, and a request would find the same. */
  predicate SameReach(p: Policy, mine: Life, theirs: Life, now: real) {
    && Sound(mine.bucket, now) && Sound(theirs.bucket, now) && Under(p, mine.bucket) && Under(p, theirs.bucket)
    && theirs.allowed == mine.allowed && Reach(theirs.bucket, p, now) == Reach(mine.bucket, p, now)
  }

  predicate Under(p: Policy, b: Option<Bucket>) {
    b.Some? ==> b.value.capacity == p.capacity && b.value.refill == p.refill
  }

  lemma ReachRises(p: Policy, b: Option<Bucket>, t: real, now: real)
    requires Sensible(p) && Sound(b, t) && Under(p, b) && t <= now
    ensures Sound(b, now) && Reach(b, p, now) == RealMin(p.capacity as real, Reach(b, p, t) + Accrued(p.refill, t, now))
  {
    AccruedGrows(p.refill, t, now);
    if b.Some? {
      LevelRises(b.value, t, now);
      LevelBounds(b.value, t);
      LevelBounds(b.value, now);
    }
  }

  lemma FullByThen(p: Policy, l: Life, ev: Event)
    requires Sensible(p) && Sound(l.bucket, ev.now) && Under(p, l.bucket) && ev.Drop? && Harmless(p, l, ev)
    ensures Reach(l.bucket, p, ev.now) == p.capacity as real
  {}

  lemma HarmlessKeepsReach(p: Policy, mine: Life, theirs: Life, ev: Event)
    requires Sensible(p) && SameReach(p, mine, theirs, ev.now) && Harmless(p, mine, ev)
    ensures SameReach(p, Live(mine, ev), Remember(theirs, ev), ev.now)
  {
    if ev.Take? {
      TakeReadsLevel(mine, p, ev.now);
      TakeReadsLevel(theirs, p, ev.now);
    } else if ev.Drop? {
      FullByThen(p, mine, ev);
    }
  }

  // ------------------------------------------------------------ whole lives side by side

  /** When the first `k` events are over. */
  function TimeAt(from: real, evs: seq<Event>, k: nat): real
    requires k <= |evs|
  {
    if k == 0 then from else evs[k - 1].now
  }

  predicate Advances(from: real, mine: seq<Life>, theirs: seq<Life>, evs: seq<Event>, i: nat)
    requires i < |evs| && |mine| == |theirs| == |evs| + 1
  {
    && TimeAt(from, evs, i) <= evs[i].now
    && mine[i + 1] == Live(mine[i], evs[i]) && theirs[i + 1] == Remember(theirs[i], evs[i])
  }

  /** One key in a store that may forget it and in one that does not, under the same events. */
  ghost predicate SideBySide(from: real, mine: seq<Life>, theirs: seq<Life>, evs: seq<Event>) {
    && |mine| == |theirs| == |evs| + 1 && mine[0] == theirs[0] == Newborn
    && forall i | 0 <= i < |evs| :: Advances(from, mine, theirs, evs, i)
  }

  /** Whatever is forgotten and whenever, and however policies change, no fewer requests pass. */
  lemma {:induction false} StaysAhead(most: int, from: real, mine: seq<Life>, theirs: seq<Life>, evs: seq<Event>, k: nat)
    requires SideBySide(from, mine, theirs, evs) && k <= |evs| && forall i | 0 <= i < k :: Generous(most, evs[i])
    ensures Ahead(most, mine[k], theirs[k], TimeAt(from, evs, k))
  {
    if k > 0 {
      assert Advances(from, mine, theirs, evs, k - 1);
      StaysAhead(most, from, mine, theirs, evs, k - 1);
      EventKeepsAhead(most, mine[k - 1], theirs[k - 1], evs[k - 1]);
    }
  }

  // ------------------------------------------------------------ when a reset can cost the client

  /** Requests come with capacities of at most `requested`, and resets leave at least `reset` tokens. */
  predicate Ranges(ev: Event, requested: int, reset: int) {
    SensibleEvent(ev) && (ev.Take? ==> ev.policy.capacity <= requested) && (ev.Reset? ==> reset <= ev.policy.capacity)
  }

  /** In no such life has the store that forgets let through fewer. */
  ghost predicate NeverCosts(requested: int, reset: int) {
    forall from: real, mine: seq<Life>, theirs: seq<Life>, evs: seq<Event> |
      SideBySide(from, mine, theirs, evs) && (forall i | 0 <= i < |evs| :: Ranges(evs[i], requested, reset)) ::
      theirs[|evs|].allowed <= mine[|evs|].allowed
  }

  /** Forgetting never costs a client a request if and only if no reset leaves fewer tokens than a request may ask for. */
  lemma NeverCostsIff(requested: int, reset: int)
    requires 1 <= requested && 1 <= reset
    ensures NeverCosts(requested, reset) <==> requested <= reset
  {
    if requested <= reset {
      forall from: real, mine: seq<Life>, theirs: seq<Life>, evs: seq<Event> |
        SideBySide(from, mine, theirs, evs) && (forall i | 0 <= i < |evs| :: Ranges(evs[i], requested, reset))
        ensures theirs[|evs|].allowed <= mine[|evs|].allowed
      {
        assert forall i | 0 <= i < |evs| :: Ranges(evs[i], requested, reset) ==> Generous(requested, evs[i]);
        StaysAhead(requested, from, mine, theirs, evs, |evs|);
      }
    } else {
      SmallResetCosts(requested, reset);
    }
  }

  /** The costly life: a reset, and then one request more than it left tokens for. */
  function CostlyEvent(requested: int, reset: int, k: nat): Event {
    if k == 0 then Reset(0.0, Policy(reset, 1.0)) else Take(0.0, Policy(requested, 1.0))
  }

  function AfterReset(requested: int, reset: int, k: nat): Life
    requires 1 <= reset
  {
    if k == 0 then Newborn
    else if k == 1 then Life(Some(Full(Policy(reset, 1.0), 0.0)), 0, 1)
    else Life(Some(Bucket(requested, (reset - Min(k - 1, reset)) as real, 1.0, 0.0, 0.0)), Min(k - 1, reset), 1)
  }

  function WithoutReset(requested: int, k: nat): Life {
    if k <= 1 then Newborn else Life(Some(Bucket(requested, (requested - (k - 1)) as real, 1.0, 0.0, 0.0)), k - 1, 0)
  }

  lemma CostlyStep(requested: int, reset: int, k: nat)
    requires 1 <= reset < requested && k <= reset + 1
    ensures AfterReset(requested, reset, k + 1) == Live(AfterReset(requested, reset, k), CostlyEvent(requested, reset, k))
    ensures WithoutReset(requested, k + 1) == Remember(WithoutReset(requested, k), CostlyEvent(requested, reset, k))
  {
    if k > 0 {
      var mine, theirs, p := AfterReset(requested, reset, k), WithoutReset(requested, k), Policy(requested, 1.0);
      LevelAtTouch(mine.bucket.value);
      TakeReadsLevel(mine, p, 0.0);
      if k > 1 { LevelAtTouch(theirs.bucket.value); }
      TakeReadsLevel(theirs, p, 0.0);
    }
  }

  lemma SmallResetCosts(requested: int, reset: int)
    requires 1 <= reset < requested
    ensures !NeverCosts(requested, reset)
  {
    var n := reset + 2;
    var evs := seq(n, k requires 0 <= k < n => CostlyEvent(requested, reset, k));
    var mine := seq(n + 1, k requires 0 <= k <= n => AfterReset(requested, reset, k));
    var theirs := seq(n + 1, k requires 0 <= k <= n => WithoutReset(requested, k));
    forall i | 0 <= i < n ensures Advances(0.0, mine, theirs, evs, i) {
      CostlyStep(requested, reset, i);
    }
    assert SideBySide(0.0, mine, theirs, evs);
    assert forall i | 0 <= i < n :: Ranges(evs[i], requested, reset);
    assert theirs[n].allowed == reset + 1 && mine[n].allowed == reset;
  }

  // ------------------------------------------------------------ whole lives, paid for and level

  /** And no more than full buckets and the refill pay for. */
  lemma {:induction false} StaysPaid(most: int, rate: real, from: real, mine: seq<Life>, theirs: seq<Life>, evs: seq<Event>, k: nat)
    requires 1 <= most && 0.0 < rate
    requires SideBySide(from, mine, theirs, evs) && k <= |evs| && forall i | 0 <= i < k :: Fits(evs[i], most, rate)
    ensures Sound(mine[k].bucket, TimeAt(from, evs, k)) && FitsBucket(mine[k].bucket, most, rate)
    ensures Paid(most, rate, Newborn, from, mine[k], TimeAt(from, evs, k))
  {
    if k == 0 {
      RefundsOfFew(most);
      AccruedNothing(rate, from);
    } else {
      var t, l, ev := TimeAt(from, evs, k - 1), mine[k - 1], evs[k - 1];
      assert Advances(from, mine, theirs, evs, k - 1);
      StaysPaid(most, rate, from, mine, theirs, evs, k - 1);
      EventIsPaid(l, most, rate, t, ev);
      LivesStaySound(l, ev);
      PaidTransitive(most, rate, Newborn, from, l, t, mine[k], ev.now);
    }
  }

  lemma PaidFromBirth(most: int, rate: real, from: real, l: Life, now: real)
    requires 1 <= most && Sound(l.bucket, now) && Paid(most, rate, Newborn, from, l, now)
    ensures l.allowed as real <= Ceiling(most, rate, l.losses, from, now)
  {
    if l.bucket.Some? { LevelBounds(l.bucket.value, now); }
    assert most as real >= 1.0;
    RefundsOfFew(most);
    RefundsAdd(most, 1, l.losses);
  }

  /** If every drop hits a bucket that is full by then, no decision differs. */
  lemma {:induction false} StaysLevel(p: Policy, from: real, mine: seq<Life>, theirs: seq<Life>, evs: seq<Event>, k: nat)
    requires Sensible(p) && SideBySide(from, mine, theirs, evs) && k <= |evs|
    requires forall i | 0 <= i < k :: Harmless(p, mine[i], evs[i])
    ensures SameReach(p, mine[k], theirs[k], TimeAt(from, evs, k))
  {
    if k > 0 {
      var t, ev := TimeAt(from, evs, k - 1), evs[k - 1];
      assert Advances(from, mine, theirs, evs, k - 1);
      StaysLevel(p, from, mine, theirs, evs, k - 1);
      ReachRises(p, mine[k - 1].bucket, t, ev.now);
      ReachRises(p, theirs[k - 1].bucket, t, ev.now);
      HarmlessKeepsReach(p, mine[k - 1], theirs[k - 1], ev);
    }
  }
}
