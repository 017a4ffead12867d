/** Round robin with slow start, and the one place where a 64-bit counter can break its rotation. */
module RoundRobins {
  import opened Common
  import opened WeightedPick
  import opened Strategies

  /** The index looked at after `offset` steps: the sum wraps before the remainder is taken. */
  function Visit(start: Counter, offset: nat, n: nat): (i: nat)
    requires 0 < n
    ensures i < n
  {
    ((start + offset) % Wrap) % n
  }

  /** A peer that is still warming up takes only some tickets. */
  predicate Admits(peer: Peer, start: Counter, offset: nat) {
    peer.ramp >= 100 || ((start + offset) % Wrap) % 100 < peer.ramp
  }

  predicate Usable(peers: seq<Peer>, excluded: set<Id>, start: Counter, o: nat)
    requires peers != []
  {
    Eligible(peers[Visit(start, o, |peers|)], excluded)
  }

  predicate NoneUsable(peers: seq<Peer>, excluded: set<Id>, start: Counter)
    requires peers != []
  {
    forall o | 0 <= o < |peers| :: !Usable(peers, excluded, start, o)
  }

  predicate Ready(peers: seq<Peer>, excluded: set<Id>, start: Counter, o: nat)
    requires peers != []
  {
    Usable(peers, excluded, start, o) && Admits(peers[Visit(start, o, |peers|)], start, o)
  }

  /** The first visit that is ready, or else the first that is usable. */
  ghost predicate Settles(peers: seq<Peer>, excluded: set<Id>, start: Counter, o: nat)
    requires peers != []
  {
    && o < |peers|
    && if Ready(peers, excluded, start, o)
       then forall e | 0 <= e < o :: !Ready(peers, excluded, start, e)
       else && Usable(peers, excluded, start, o)
            && (forall e | 0 <= e < |peers| :: !Ready(peers, excluded, start, e))
            && (forall e | 0 <= e < o :: !Usable(peers, excluded, start, e))
  }

  class RoundRobin {
    var counter: Counter

    /** Only usable peers are chosen; while the counter has room for the scan, one is missed only if all are excluded. */
    method GetNextPeerExcluding(peers: seq<Peer>, excluded: set<Id>) returns (chosen: Option<nat>)
      modifies this
      ensures counter == if peers == [] then old(counter) else Next(old(counter))
      ensures peers == [] ==> chosen.None?
      ensures peers != [] ==> (chosen.None? <==> NoneUsable(peers, excluded, old(counter)))
      ensures chosen.Some? ==>
                && chosen.value < |peers| && Eligible(peers[chosen.value], excluded)
                && exists o :: Settles(peers, excluded, old(counter), o) && chosen.value == Visit(old(counter), o, |peers|)
      ensures old(counter) + |peers| <= Wrap ==> (chosen.None? <==> AllExcluded(peers, excluded))
    {
      if |peers| == 0 {
        return None;
      }
      var start := counter;
      counter := Next(counter);
      chosen := Scan(peers, excluded, start);
      if start + |peers| <= Wrap && !AllExcluded(peers, excluded) {
        var i :| 0 <= i < |peers| && Eligible(peers[i], excluded);
        var o := VisitReaches(start, i, |peers|);
        assert Usable(peers, excluded, start, o);
      }
    }
  }

  method Scan(peers: seq<Peer>, excluded: set<Id>, start: Counter) returns (chosen: Option<nat>)
    requires peers != []
    ensures chosen.None? <==> NoneUsable(peers, excluded, start)
    ensures chosen.Some? ==>
              && chosen.value < |peers| && Eligible(peers[chosen.value], excluded)
              && exists o :: Settles(peers, excluded, start, o) && chosen.value == Visit(start, o, |peers|)
  {
    var fallback: Option<nat> := None;
    ghost var first := 0;
    var offset := 0;
    while offset < |peers|
      invariant 0 <= offset <= |peers|
      invariant forall e | 0 <= e < offset :: !Ready(peers, excluded, start, e)
      invariant fallback.None? ==> forall e | 0 <= e < offset :: !Usable(peers, excluded, start, e)
      invariant fallback.Some? ==>
                  && first < offset && Usable(peers, excluded, start, first) && fallback.value == Visit(start, first, |peers|)
                  && forall e | 0 <= e < first :: !Usable(peers, excluded, start, e)
    {
      var at := ((start + offset) % Wrap) % |peers|;
      if peers[at].id !in excluded {
        if fallback.None? {
          fallback, first := Some(at), offset;
        }
        if peers[at].ramp >= 100 || ((start + offset) % Wrap) % 100 < peers[at].ramp {
          assert Settles(peers, excluded, start, offset);
          return Some(at);
        }
      }
      offset := offset + 1;
    }
    assert fallback.Some? ==> Settles(peers, excluded, start, first);
    return fallback;
  }

  // ------------------------------------------------------------ when the rotation covers the list

  lemma VisitReaches(start: Counter, i: nat, n: nat) returns (o: nat)
    requires i < n && (start + n <= Wrap || Wrap % n == 0)
    ensures o < n && Visit(start, o, n) == i
  {
    o := RotationReaches(start, i, n);
    if start + o < Wrap {
      ModIs(start + o, 0, start + o, Wrap);
    } else {
      ModOfMod(start + o, Wrap, n);
    }
  }

  ghost predicate Looked(start: Counter, n: nat, i: nat)
    requires 0 < n
  {
    exists o | 0 <= o < n :: Visit(start, o, n) == i
  }

  ghost predicate CoversAll(start: Counter, n: nat)
    requires 0 < n
  {
    forall i | 0 <= i < n :: Looked(start, n, i)
  }

  /** Before the wrap: `j` steps short of it, the remainder counts down from that of the range. */
  lemma BeforeWrap(j: nat, n: nat)
    requires 1 <= j < n <= Wrap
    ensures (Wrap - j) % n == if j <= Wrap % n then Wrap % n - j else Wrap % n - j + n
  {
    DivMod(Wrap, n);
    var q, r := Wrap / n, Wrap % n;
    if j <= r {
      ModIs(Wrap - j, q, r - j, n);
    } else {
      assert q >= 1;
      assert (q - 1) * n == q * n - n;
      ModIs(Wrap - j, q - 1, r - j + n, n);
    }
  }

  /** An index that a scan across the wrap never looks at. */
  function Missed(start: Counter, n: nat): int
    requires 0 < n
  {
    var m, r := Wrap - start, Wrap % n;
    if r >= m then n - 1 else Max(r, n - m)
  }

  lemma NeverVisited(start: Counter, n: nat, o: nat)
    requires 0 < n <= Wrap && o < n && start + n > Wrap && Wrap % n != 0
    ensures 0 <= Missed(start, n) < n && Visit(start, o, n) != Missed(start, n)
  {
    var m := Wrap - start;
    if o < m {
      ModIs(start + o, 0, start + o, Wrap);
      BeforeWrap(m - o, n);
    } else {
      ModIs(start + o, 1, o - m, Wrap);
      ModIs(o - m, 0, o - m, n);
    }
  }

  /** A scan looks at every peer exactly if the counter does not wrap inside it or the list length divides its range. */
  lemma RotationCoversIff(start: Counter, n: nat)
    requires 0 < n <= Wrap
    ensures CoversAll(start, n) <==> start + n <= Wrap || Wrap % n == 0
  {
    if start + n <= Wrap || Wrap % n == 0 {
      forall i | 0 <= i < n ensures Looked(start, n, i) {
        var o := VisitReaches(start, i, n);
      }
    } else {
      NeverVisited(start, n, 0);
      forall o | 0 <= o < n ensures Visit(start, o, n) != Missed(start, n) {
        NeverVisited(start, n, o);
      }
      assert !Looked(start, n, Missed(start, n));
    }
  }

  /** So at the wrap three peers, of which only the last is left to try, yield none at all. */
  lemma WrapMissesPeer(a: Peer, b: Peer, c: Peer, excluded: set<Id>)
    requires a.id in excluded && b.id in excluded && c.id !in excluded
    ensures !AllExcluded([a, b, c], excluded)
    ensures NoneUsable([a, b, c], excluded, Wrap - 1)
  {
    var peers := [a, b, c];
    assert peers[2] == c;
    assert Visit(Wrap - 1, 0, 3) == 0 && Visit(Wrap - 1, 1, 3) == 0 && Visit(Wrap - 1, 2, 3) == 1;
    assert peers[0] == a && peers[1] == b;
  }

  // ------------------------------------------------------------ slow start

  /** Tickets `from .. from + n` that a peer still warming up would take if it came first. */
  function Admitted(ramp: nat, from: nat, n: nat): nat {
    if n == 0 then 0 else Admitted(ramp, from, n - 1) + if (from + n - 1) % 100 < ramp then 1 else 0
  }

  lemma {:induction false} AdmittedAreHits(ramp: nat, from: nat, n: nat)
    requires ramp <= 100
    ensures Sum([ramp, 100 - ramp]) == 100 && Admitted(ramp, from, n) == Hits([ramp, 100 - ramp], 0, from, n)
  {
    assert [ramp, 100 - ramp][1..] == [100 - ramp] && [100 - ramp][1..] == [];
    assert Sum([100 - ramp]) == 100 - ramp;
    if n > 0 {
      AdmittedAreHits(ramp, from, n - 1);
      PickIsShare([ramp, 100 - ramp], (from + n - 1) % 100, 0);
      assert [ramp, 100 - ramp][..0] == [];
    }
  }

  /** Of any hundred tickets in a row it takes exactly its percentage. */
  lemma SlowStartIsExact(ramp: nat, from: nat)
    requires ramp <= 100
    ensures Admitted(ramp, from, 100) == ramp
  {
    AdmittedAreHits(ramp, from, 100);
    ExactlyProportional([ramp, 100 - ramp], 0, from);
  }

  /** Short of a counter wrap these are the tickets `Admits` lets through. */
  lemma AdmitsByTicket(peer: Peer, start: Counter, offset: nat)
    requires start + offset < Wrap
    ensures Admits(peer, start, offset) <==> peer.ramp >= 100 || Admitted(peer.ramp, start + offset, 1) == 1
  {
    ModIs(start + offset, 0, start + offset, Wrap);
    assert Admitted(peer.ramp, start + offset, 0) == 0;
  }
}
