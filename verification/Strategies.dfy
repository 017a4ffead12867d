/** The selection strategies of `internal/balancer/strategies.go`, over the list a pool reports as available. */
module Strategies {
  import opened Common
  import opened WeightedPick

  type Id = string

  /** A backend as a strategy reads it. */
  datatype Peer = Peer(id: Id, weight: nat, ramp: nat, inflight: nat)

  /** Counters are 64 bits wide and wrap. */
  const Wrap: nat := 0x1_0000_0000_0000_0000

  type Counter = c: nat | c < Wrap

  function Next(c: Counter): Counter { (c + 1) % Wrap }

  predicate Eligible(peer: Peer, excluded: set<Id>) { peer.id !in excluded }

  predicate AllExcluded(peers: seq<Peer>, excluded: set<Id>) {
    forall i | 0 <= i < |peers| :: !Eligible(peers[i], excluded)
  }

  /** The whole part of the weight scaled by the slow-start percentage, and never less than one. */
  function EffectiveWeight(peer: Peer): (w: nat)
    ensures 1 <= w && (w == 1 || 100 * w <= peer.weight * peer.ramp) && peer.weight * peer.ramp < 100 * (w + 1)
  {
    var w := peer.weight * peer.ramp / 100;
    if w < 1 then 1 else w
  }

  // ------------------------------------------------------------ weighted round robin

  /** The weights one pass over the list reads; an excluded peer weighs nothing. */
  function Weights(peers: seq<Peer>, excluded: set<Id>): (ws: seq<nat>)
    ensures |ws| == |peers|
    ensures forall i | 0 <= i < |peers| ::
              ws[i] == if Eligible(peers[i], excluded) then EffectiveWeight(peers[i]) else 0
  {
    if peers == [] then []
    else [if Eligible(peers[0], excluded) then EffectiveWeight(peers[0]) else 0] + Weights(peers[1..], excluded)
  }

  lemma {:induction false} WeightsAppend(peers: seq<Peer>, peer: Peer, excluded: set<Id>)
    ensures Sum(Weights(peers + [peer], excluded)) ==
            Sum(Weights(peers, excluded)) + if Eligible(peer, excluded) then EffectiveWeight(peer) else 0
  {
    if peers != [] {
      assert (peers + [peer])[1..] == peers[1..] + [peer];
      WeightsAppend(peers[1..], peer, excluded);
    }
  }

  /** There is something to pick exactly if some peer is not excluded. */
  lemma {:induction false} NothingToWeigh(peers: seq<Peer>, excluded: set<Id>)
    ensures Sum(Weights(peers, excluded)) == 0 <==> AllExcluded(peers, excluded)
  {
    if peers != [] {
      NothingToWeigh(peers[1..], excluded);
      assert AllExcluded(peers, excluded) <==> !Eligible(peers[0], excluded) && AllExcluded(peers[1..], excluded);
    }
  }

  predicate NoWeightShrank(before: seq<Peer>, after: seq<Peer>) {
    |before| == |after| && forall i | 0 <= i < |before| ::
      before[i].id == after[i].id && EffectiveWeight(before[i]) <= EffectiveWeight(after[i])
  }

  class WeightedRoundRobin {
    var counter: Counter

    /**
     The list is walked twice, and a peer's weight may change in between: `first` and `second` are the
     same peers as the two passes read them.
     */
    method GetNextPeerExcluding(first: seq<Peer>, second: seq<Peer>, excluded: set<Id>) returns (chosen: Option<nat>)
      requires |first| == |second| && forall i | 0 <= i < |first| :: first[i].id == second[i].id
      modifies this
      ensures AllExcluded(first, excluded) ==> chosen.None? && counter == old(counter)
      ensures !AllExcluded(first, excluded) ==>
                && counter == Next(old(counter)) && Sum(Weights(first, excluded)) > 0
                && var i := Pick(Weights(second, excluded), old(counter) % Sum(Weights(first, excluded)));
                   chosen == if i < |second| then Some(i) else None
      ensures chosen.Some? ==> chosen.value < |first| && Eligible(first[chosen.value], excluded)
      ensures NoWeightShrank(first, second) ==> (chosen.None? <==> AllExcluded(first, excluded))
    {
      NothingToWeigh(first, excluded);
      var total := TotalWeight(first, excluded);
      if total == 0 {
        return None;
      }
      var position := counter % total;
      counter := Next(counter);
      chosen := Walk(second, excluded, position);
      if NoWeightShrank(first, second) {
        SumGrows(Weights(first, excluded), Weights(second, excluded));
      }
    }
  }

  method TotalWeight(peers: seq<Peer>, excluded: set<Id>) returns (total: nat)
    ensures total == Sum(Weights(peers, excluded))
  {
    total := 0;
    var i := 0;
    while i < |peers|
      invariant 0 <= i <= |peers|
      invariant total == Sum(Weights(peers[..i], excluded))
    {
      WeightsAppend(peers[..i], peers[i], excluded);
      assert peers[..i + 1] == peers[..i] + [peers[i]];
      if peers[i].id !in excluded {
        total := total + EffectiveWeight(peers[i]);
      }
      i := i + 1;
    }
    assert peers[..i] == peers;
  }

  /** Where a walk that has reached entry `i` with `left` to go ends up. */
  function PickFrom(peers: seq<Peer>, excluded: set<Id>, i: nat, left: nat): nat
    requires i <= |peers|
  {
    i + Pick(Weights(peers[i..], excluded), left)
  }

  lemma PickStep(peers: seq<Peer>, excluded: set<Id>, i: nat, left: nat)
    requires i < |peers|
    ensures var w := if Eligible(peers[i], excluded) then EffectiveWeight(peers[i]) else 0;
            PickFrom(peers, excluded, i, left) == if left < w then i else PickFrom(peers, excluded, i + 1, left - w)
  {
    assert peers[i..][1..] == peers[i + 1..];
    assert Weights(peers[i..], excluded)[1..] == Weights(peers[i + 1..], excluded);
  }

  method Walk(peers: seq<Peer>, excluded: set<Id>, position: nat) returns (chosen: Option<nat>)
    ensures var i := Pick(Weights(peers, excluded), position);
            chosen == if i < |peers| then Some(i) else None
    ensures chosen.Some? ==> chosen.value < |peers| && Eligible(peers[chosen.value], excluded)
  {
    var left := position;
    var i := 0;
    ghost var found := PickFrom(peers, excluded, 0, position);
    assert peers[0..] == peers;
    while i < |peers|
      invariant 0 <= i <= |peers|
      invariant found == PickFrom(peers, excluded, i, left)
    {
      PickStep(peers, excluded, i, left);
      if peers[i].id !in excluded {
        var weight := EffectiveWeight(peers[i]);
        if left < weight {
          return Some(i);
        }
        left := left - weight;
      }
      i := i + 1;
    }
    return None;
  }

  /** Calls from counter `c` on, with weights and exclusions fixed: how many of the next `n` choose peer `i`. */
  function Chosen(ws: seq<nat>, i: nat, c: Counter, n: nat): nat
    requires 0 < Sum(ws)
  {
    if n == 0 then 0 else Chosen(ws, i, c, n - 1) + Hit(ws, i, (c + n - 1) % Wrap)
  }

  lemma {:induction false} ChosenAreTickets(ws: seq<nat>, i: nat, c: Counter, n: nat)
    requires 0 < Sum(ws) && (c + n <= Wrap || Wrap % Sum(ws) == 0)
    ensures Chosen(ws, i, c, n) == Hits(ws, i, c, n)
  {
    if n > 0 {
      ChosenAreTickets(ws, i, c, n - 1);
      TicketsWrap(ws, i, c + n - 1);
    }
  }

  lemma TicketsWrap(ws: seq<nat>, i: nat, t: nat)
    requires 0 < Sum(ws) && (t < Wrap || Wrap % Sum(ws) == 0)
    ensures Hit(ws, i, t % Wrap) == Hit(ws, i, t)
  {
    if t < Wrap {
      ModIs(t, 0, t, Wrap);
    } else {
      ModOfMod(t, Wrap, Sum(ws));
    }
  }

  lemma Regroup(a: nat, b: nat, c: nat, n: nat)
    ensures a * (b * n) + c * n == (a * b + c) * n
  {
    assert a * (b * n) == (a * b) * n;
  }

  lemma ModOfMod(t: nat, m: nat, n: nat)
    requires 0 < n && 0 < m && m % n == 0
    ensures (t % m) % n == t % n
  {
    DivMod(t, m);
    DivMod(m, n);
    DivMod(t % m, n);
    Regroup(t / m, m / n, (t % m) / n, n);
    ModIs(t, (t / m) * (m / n) + (t % m) / n, (t % m) % n, n);
  }

  /**
   As long as the counter does not wrap inside the round, or the round divides its range, any `T` calls in a
   row, `T` the total weight, choose each eligible peer exactly as often as it weighs and no excluded one.
   */
  lemma WeightedRoundIsExact(peers: seq<Peer>, excluded: set<Id>, i: nat, c: Counter)
    requires i < |peers| && !AllExcluded(peers, excluded)
    requires var ws := Weights(peers, excluded); Sum(ws) > 0 && (c + Sum(ws) <= Wrap || Wrap % Sum(ws) == 0)
    ensures Chosen(Weights(peers, excluded), i, c, Sum(Weights(peers, excluded))) ==
            if Eligible(peers[i], excluded) then EffectiveWeight(peers[i]) else 0
  {
    var ws := Weights(peers, excluded);
    ChosenAreTickets(ws, i, c, Sum(ws));
    ExactlyProportional(ws, i, c);
  }

  // ------------------------------------------------------------ least request

  predicate LessLoaded(left: Peer, right: Peer) {
    (left.inflight + 1) * EffectiveWeight(right) < (right.inflight + 1) * EffectiveWeight(left)
  }

  function Load(peer: Peer): real {
    (peer.inflight + 1) as real / EffectiveWeight(peer) as real
  }

  lemma CrossMultiply(a: real, b: real, c: real, d: real)
    requires b > 0.0 && d > 0.0
    ensures a / b < c / d <==> a * d < c * b
  {
    var x, y := a / b, c / d;
    assert a == x * b && c == y * d;
    assert a * d == x * (b * d) && c * b == y * (b * d);
    assert b * d > 0.0;
    if x < y { ScaleUp(x, y, b * d); } else { ScaleUpWeak(y, x, b * d); }
  }

  lemma ScaleUp(x: real, y: real, k: real)
    requires x < y && k > 0.0
    ensures x * k < y * k
  {}

  lemma ScaleUpWeak(x: real, y: real, k: real)
    requires x <= y && k > 0.0
    ensures x * k <= y * k
  {}

  /** The integer comparison orders peers by requests per unit of weight. */
  lemma LessLoadedIsRatio(left: Peer, right: Peer)
    ensures LessLoaded(left, right) <==> Load(left) < Load(right)
  {
    var a, b, c, d := left.inflight + 1, EffectiveWeight(left), right.inflight + 1, EffectiveWeight(right);
    CrossMultiply(a as real, b as real, c as real, d as real);
    ProductInReals(a, d);
    ProductInReals(c, b);
  }

  lemma ProductInReals(a: nat, b: nat)
    ensures (a * b) as real == a as real * b as real
  {}

  function Rotate(start: nat, offset: nat, n: nat): (i: nat)
    requires 0 < n
    ensures i < n
  {
    (start + offset) % n
  }

  /** `best` is the offset of the first least loaded peer among the first `k` of the rotation. */
  ghost predicate FirstLeast(peers: seq<Peer>, excluded: set<Id>, start: nat, k: nat, best: nat)
    requires peers != []
  {
    && best < k && Eligible(peers[Rotate(start, best, |peers|)], excluded)
    && forall o | 0 <= o < k && Eligible(peers[Rotate(start, o, |peers|)], excluded) ::
         && Load(peers[Rotate(start, best, |peers|)]) <= Load(peers[Rotate(start, o, |peers|)])
         && (o < best ==> Load(peers[Rotate(start, best, |peers|)]) < Load(peers[Rotate(start, o, |peers|)]))
  }

  lemma RotationReaches(start: nat, i: nat, n: nat) returns (o: nat)
    requires i < n
    ensures o < n && Rotate(start, o, n) == i
  {
    DivMod(start, n);
    var r, q := start % n, start / n;
    if i >= r {
      o := i - r;
      ModIs(start + o, q, i, n);
    } else {
      o := i + n - r;
      assert (q + 1) * n == q * n + n;
      ModIs(start + o, q + 1, i, n);
    }
  }

  class LeastRequest {
    var counter: Counter

    /** The choice has a globally minimal load, and is the first such in rotation order. */
    method GetNextPeerExcluding(peers: seq<Peer>, excluded: set<Id>) returns (chosen: Option<nat>)
      modifies this
      ensures counter == if peers == [] then old(counter) else Next(old(counter))
      ensures chosen.None? <==> AllExcluded(peers, excluded)
      ensures chosen.Some? ==>
                && chosen.value < |peers| && Eligible(peers[chosen.value], excluded)
                && (forall i | 0 <= i < |peers| && Eligible(peers[i], excluded) :: Load(peers[chosen.value]) <= Load(peers[i]))
                && (exists best :: && FirstLeast(peers, excluded, old(counter) % |peers|, |peers|, best)
                                   && Rotate(old(counter) % |peers|, best, |peers|) == chosen.value)
    {
      if |peers| == 0 {
        return None;
      }
      var start := counter % |peers|;
      counter := Next(counter);
      chosen := ScanLeast(peers, excluded, start);
      ScanIsGlobal(peers, excluded, start, chosen);
    }
  }

  /** What a full scan from `start` found. */
  ghost predicate Scanned(peers: seq<Peer>, excluded: set<Id>, start: nat, k: nat, chosen: Option<nat>)
    requires peers != []
  {
    if chosen.None? then forall o | 0 <= o < k :: !Eligible(peers[Rotate(start, o, |peers|)], excluded)
    else exists best :: FirstLeast(peers, excluded, start, k, best) && Rotate(start, best, |peers|) == chosen.value
  }

  lemma ScanIsGlobal(peers: seq<Peer>, excluded: set<Id>, start: nat, chosen: Option<nat>)
    requires peers != [] && Scanned(peers, excluded, start, |peers|, chosen)
    ensures chosen.None? <==> AllExcluded(peers, excluded)
    ensures chosen.Some? ==>
              && chosen.value < |peers| && Eligible(peers[chosen.value], excluded)
              && forall i | 0 <= i < |peers| && Eligible(peers[i], excluded) :: Load(peers[chosen.value]) <= Load(peers[i])
  {
    forall i | 0 <= i < |peers|
      ensures Eligible(peers[i], excluded) ==> chosen.Some? && chosen.value < |peers| && Load(peers[chosen.value]) <= Load(peers[i])
    {
      var o := RotationReaches(start, i, |peers|);
    }
  }

  lemma ScanOne(peers: seq<Peer>, excluded: set<Id>, start: nat, k: nat, chosen: Option<nat>)
    requires peers != [] && Scanned(peers, excluded, start, k, chosen) && (chosen.Some? ==> chosen.value < |peers|)
    ensures var i := Rotate(start, k, |peers|);
            Scanned(peers, excluded, start, k + 1,
                    if Eligible(peers[i], excluded) && (chosen.None? || LessLoaded(peers[i], peers[chosen.value]))
                    then Some(i) else chosen)
  {
    var i := Rotate(start, k, |peers|);
    if chosen.Some? {
      LessLoadedIsRatio(peers[i], peers[chosen.value]);
      var best :| FirstLeast(peers, excluded, start, k, best) && Rotate(start, best, |peers|) == chosen.value;
      if Eligible(peers[i], excluded) && LessLoaded(peers[i], peers[chosen.value]) {
        assert FirstLeast(peers, excluded, start, k + 1, k);
      } else {
        assert FirstLeast(peers, excluded, start, k + 1, best);
      }
    } else if Eligible(peers[i], excluded) {
      assert FirstLeast(peers, excluded, start, k + 1, k);
    }
  }

  method ScanLeast(peers: seq<Peer>, excluded: set<Id>, start: nat) returns (chosen: Option<nat>)
    requires peers != []
    ensures Scanned(peers, excluded, start, |peers|, chosen)
  {
    chosen := None;
    var offset := 0;
    while offset < |peers|
      invariant 0 <= offset <= |peers|
      invariant chosen.Some? ==> chosen.value < |peers|
      invariant Scanned(peers, excluded, start, offset, chosen)
    {
      ScanOne(peers, excluded, start, offset, chosen);
      var candidate := (start + offset) % |peers|;
      if peers[candidate].id !in excluded && (chosen.None? || LessLoaded(peers[candidate], peers[chosen.value])) {
        chosen := Some(candidate);
      }
      offset := offset + 1;
    }
  }
}
