/** Rendezvous selection: the peer with the least score, first in the list among equals. */
module Rendezvous {
  import opened Common
  import opened Strategies

  /** Stands for the weighted hash of the request key and the peer. */
  type Score = Peer -> real

  /** Keeps the earlier candidate unless the later one scores strictly less. */
  function Better(score: Score, a: Option<Peer>, b: Option<Peer>): Option<Peer> {
    if a.None? then b
    else if b.Some? && score(b.value) < score(a.value) then b
    else a
  }

  function Candidate(peer: Peer, excluded: set<Id>): Option<Peer> {
    if Eligible(peer, excluded) then Some(peer) else None
  }

  function Select(score: Score, peers: seq<Peer>, excluded: set<Id>): Option<Peer> {
    if peers == [] then None
    else Better(score, Candidate(peers[0], excluded), Select(score, peers[1..], excluded))
  }

  method SelectBackend(score: Score, peers: seq<Peer>, excluded: set<Id>) returns (selected: Option<Peer>)
    ensures selected == Select(score, peers, excluded)
  {
    selected := None;
    var best := 0.0;
    var i := 0;
    while i < |peers|
      invariant 0 <= i <= |peers|
      invariant selected == Select(score, peers[..i], excluded)
      invariant selected.Some? ==> best == score(selected.value)
    {
      SelectJoins(score, peers[..i], [peers[i]], excluded);
      assert [peers[i]][1..] == [];
      assert peers[..i + 1] == peers[..i] + [peers[i]];
      if peers[i].id !in excluded && (selected.None? || score(peers[i]) < best) {
        best, selected := score(peers[i]), Some(peers[i]);
      }
      i := i + 1;
    }
    assert peers[..i] == peers;
  }

  lemma BetterAssociative(score: Score, a: Option<Peer>, b: Option<Peer>, c: Option<Peer>)
    ensures Better(score, Better(score, a, b), c) == Better(score, a, Better(score, b, c))
  {}

  /** The choice from two lists end to end is the better of their choices. */
  lemma {:induction false} SelectJoins(score: Score, xs: seq<Peer>, ys: seq<Peer>, excluded: set<Id>)
    ensures Select(score, xs + ys, excluded) == Better(score, Select(score, xs, excluded), Select(score, ys, excluded))
  {
    if xs == [] {
      assert xs + ys == ys;
    } else {
      assert (xs + ys)[1..] == xs[1..] + ys;
      SelectJoins(score, xs[1..], ys, excluded);
      BetterAssociative(score, Candidate(xs[0], excluded), Select(score, xs[1..], excluded), Select(score, ys, excluded));
    }
  }

  /** The choice at index `i` is eligible, scores no more than any eligible peer and less than any before it. */
  ghost predicate FirstBest(score: Score, peers: seq<Peer>, excluded: set<Id>, i: nat) {
    && i < |peers| && Eligible(peers[i], excluded)
    && (forall j | 0 <= j < |peers| && Eligible(peers[j], excluded) :: score(peers[i]) <= score(peers[j]))
    && (forall j | 0 <= j < i && Eligible(peers[j], excluded) :: score(peers[i]) < score(peers[j]))
  }

  lemma {:induction false} SelectIsFirstBest(score: Score, peers: seq<Peer>, excluded: set<Id>) returns (i: nat)
    ensures Select(score, peers, excluded).None? <==> AllExcluded(peers, excluded)
    ensures Select(score, peers, excluded).Some? ==>
              FirstBest(score, peers, excluded, i) && Select(score, peers, excluded).value == peers[i]
  {
    i := 0;
    if peers != [] {
      var tail := SelectIsFirstBest(score, peers[1..], excluded);
      assert AllExcluded(peers, excluded) <==> !Eligible(peers[0], excluded) && AllExcluded(peers[1..], excluded);
      if Select(score, peers[1..], excluded).Some? &&
         (!Eligible(peers[0], excluded) || score(peers[1..][tail]) < score(peers[0])) {
        i := tail + 1;
      }
      if Select(score, peers, excluded).Some? {
        assert forall j | 1 <= j < |peers| :: peers[j] == peers[1..][j - 1];
      }
    }
  }

  function Remaining(peers: seq<Peer>, excluded: set<Id>): seq<Peer> {
    if peers == [] then []
    else (if Eligible(peers[0], excluded) then [peers[0]] else []) + Remaining(peers[1..], excluded)
  }

  /** Excluding peers chooses as if they were not in the list. */
  lemma {:induction false} ExclusionIsRemoval(score: Score, peers: seq<Peer>, excluded: set<Id>)
    ensures Select(score, peers, excluded) == Select(score, Remaining(peers, excluded), {})
  {
    if peers != [] {
      ExclusionIsRemoval(score, peers[1..], excluded);
      if Eligible(peers[0], excluded) {
        assert ([peers[0]] + Remaining(peers[1..], excluded))[1..] == Remaining(peers[1..], excluded);
      } else {
        assert [] + Remaining(peers[1..], excluded) == Remaining(peers[1..], excluded);
      }
    }
  }

  function Without(peers: seq<Peer>, k: nat): seq<Peer>
    requires k < |peers|
  {
    peers[..k] + peers[k + 1..]
  }

  lemma SelectAround(score: Score, peers: seq<Peer>, excluded: set<Id>, k: nat)
    requires k < |peers|
    ensures Select(score, peers, excluded) ==
            Better(score, Select(score, peers[..k], excluded),
                   Better(score, Candidate(peers[k], excluded), Select(score, peers[k + 1..], excluded)))
    ensures Select(score, Without(peers, k), excluded) ==
            Better(score, Select(score, peers[..k], excluded), Select(score, peers[k + 1..], excluded))
  {
    assert peers == peers[..k] + peers[k..];
    assert peers[k..][1..] == peers[k + 1..];
    SelectJoins(score, peers[..k], peers[k..], excluded);
    SelectJoins(score, peers[..k], peers[k + 1..], excluded);
  }

  /**
   Minimal disruption: putting a peer anywhere into the list, or taking it out, moves requests only to or
   from that peer.
   */
  lemma MinimalDisruption(score: Score, peers: seq<Peer>, excluded: set<Id>, k: nat)
    requires k < |peers|
    ensures Select(score, peers, excluded) != Some(peers[k]) ==>
              Select(score, Without(peers, k), excluded) == Select(score, peers, excluded)
  {
    SelectAround(score, peers, excluded, k);
  }

  /** A peer that is newly excluded takes with it only the requests that chose it. */
  lemma {:induction false} ExcludingUnchosen(score: Score, peers: seq<Peer>, excluded: set<Id>, id: Id)
    requires Select(score, peers, excluded).Some? ==> Select(score, peers, excluded).value.id != id
    ensures Select(score, peers, excluded + {id}) == Select(score, peers, excluded)
  {
    var i := SelectIsFirstBest(score, peers, excluded);
    var j := SelectIsFirstBest(score, peers, excluded + {id});
    if Select(score, peers, excluded).Some? {
      assert Eligible(peers[i], excluded + {id});
      FirstBestUnique(score, peers, excluded, id, i, j);
    }
  }

  lemma FirstBestUnique(score: Score, peers: seq<Peer>, excluded: set<Id>, id: Id, i: nat, j: nat)
    requires FirstBest(score, peers, excluded, i) && peers[i].id != id && FirstBest(score, peers, excluded + {id}, j)
    ensures i == j
  {
    assert Eligible(peers[i], excluded + {id}) && Eligible(peers[j], excluded);
  }
}
