/** Walking a list of weights by ticket: the split behind weighted backends and weighted clusters. */
module WeightedPick {
  import opened Common

  function Sum(ws: seq<nat>): nat {
    if ws == [] then 0 else ws[0] + Sum(ws[1..])
  }

  /** The entry whose share of `[0, Sum(ws))` holds `position`, or the end of the list. */
  function Pick(ws: seq<nat>, position: nat): (i: nat)
    ensures i <= |ws|
    ensures i == |ws| <==> Sum(ws) <= position
  {
    if ws == [] then 0
    else if position < ws[0] then 0
    else 1 + Pick(ws[1..], position - ws[0])
  }

  /** `Pick` finds exactly the `i` with `Sum(ws[..i]) <= position < Sum(ws[..i]) + ws[i]`. */
  lemma {:induction false} PickIsShare(ws: seq<nat>, position: nat, i: nat)
    requires i < |ws|
    ensures Pick(ws, position) == i <==> Sum(ws[..i]) <= position < Sum(ws[..i]) + ws[i]
  {
    if i == 0 {
    } else {
      assert ws[..i][1..] == ws[1..][..i - 1];
      if position >= ws[0] {
        PickIsShare(ws[1..], position - ws[0], i - 1);
      }
    }
  }

  lemma {:induction false} ShareFits(ws: seq<nat>, i: nat)
    requires i < |ws|
    ensures Sum(ws[..i]) + ws[i] <= Sum(ws)
  {
    if i > 0 {
      assert ws[..i][1..] == ws[1..][..i - 1];
      ShareFits(ws[1..], i - 1);
    }
  }

  // ------------------------------------------------------------ exact proportion

  /** The entry that ticket `t` gets. */
  function Ticket(ws: seq<nat>, t: nat): nat
    requires 0 < Sum(ws)
  {
    Pick(ws, t % Sum(ws))
  }

  function Hit(ws: seq<nat>, i: nat, t: nat): nat
    requires 0 < Sum(ws)
  {
    if Ticket(ws, t) == i then 1 else 0
  }

  /** How many of the tickets `from .. from + n` go to entry `i`. */
  function Hits(ws: seq<nat>, i: nat, from: nat, n: nat): nat
    requires 0 < Sum(ws)
  {
    if n == 0 then 0 else Hits(ws, i, from, n - 1) + Hit(ws, i, from + n - 1)
  }

  lemma {:induction false} FirstHit(ws: seq<nat>, i: nat, from: nat, n: nat)
    requires 0 < Sum(ws)
    ensures Hits(ws, i, from, n + 1) == Hit(ws, i, from) + Hits(ws, i, from + 1, n)
  {
    if n > 0 {
      FirstHit(ws, i, from, n - 1);
      assert from + n == from + 1 + n - 1;
    }
  }

  lemma HitRepeats(ws: seq<nat>, i: nat, t: nat)
    requires 0 < Sum(ws)
    ensures Hit(ws, i, t + Sum(ws)) == Hit(ws, i, t)
  {
    AddDivisor(t, Sum(ws));
  }

  lemma AddDivisor(t: nat, n: nat)
    requires 0 < n
    ensures (t + n) % n == t % n
  {
    ModIs(t + n, t / n + 1, t % n, n);
  }

  lemma SmallerQuotient(q: nat, r: nat, q': nat, r': nat, n: nat)
    requires q < q' && r < n
    ensures q * n + r < q' * n + r'
  {
    assert q' * n == q * n + (q' - q) * n;
    assert (q' - q) * n == n + (q' - q - 1) * n;
  }

  lemma DivMod(x: nat, n: nat)
    requires 0 < n
    ensures x == (x / n) * n + x % n && x % n < n
  {}

  lemma ModIs(x: nat, q: nat, r: nat, n: nat)
    requires 0 < n && x == q * n + r && r < n
    ensures x % n == r && x / n == q
  {
    DivMod(x, n);
    if x / n < q {
      SmallerQuotient(x / n, x % n, q, r, n);
    } else if q < x / n {
      SmallerQuotient(q, r, x / n, x % n, n);
    }
  }

  /** A window of one whole round sees the same wherever it starts. */
  lemma {:induction false} WindowSlides(ws: seq<nat>, i: nat, from: nat)
    requires 0 < Sum(ws)
    ensures Hits(ws, i, from, Sum(ws)) == Hits(ws, i, 0, Sum(ws))
  {
    if from > 0 {
      var n := Sum(ws);
      WindowSlides(ws, i, from - 1);
      FirstHit(ws, i, from - 1, n - 1);
      HitRepeats(ws, i, from - 1);
      assert from - 1 + n == from + n - 1;
    }
  }

  lemma HitInFirstRound(ws: seq<nat>, i: nat, t: nat)
    requires i < |ws| && t < Sum(ws)
    ensures Hit(ws, i, t) == if Sum(ws[..i]) <= t < Sum(ws[..i]) + ws[i] then 1 else 0
  {
    ModIs(t, 0, t, Sum(ws));
    PickIsShare(ws, t, i);
  }

  lemma {:induction false} FirstRound(ws: seq<nat>, i: nat, n: nat)
    requires i < |ws| && 0 < Sum(ws) && n <= Sum(ws)
    ensures Hits(ws, i, 0, n) == Max(0, Min(n - Sum(ws[..i]), ws[i]))
  {
    if n > 0 {
      FirstRound(ws, i, n - 1);
      HitInFirstRound(ws, i, n - 1);
    }
  }

  /** Any `Sum(ws)` tickets in a row give each entry exactly its weight. */
  lemma ExactlyProportional(ws: seq<nat>, i: nat, from: nat)
    requires i < |ws| && 0 < Sum(ws)
    ensures Hits(ws, i, from, Sum(ws)) == ws[i]
  {
    WindowSlides(ws, i, from);
    FirstRound(ws, i, Sum(ws));
    ShareFits(ws, i);
  }

  /** If no weight shrank since the total was taken, the walk always ends inside the list. */
  lemma {:induction false} SumGrows(ws: seq<nat>, vs: seq<nat>)
    requires |ws| == |vs| && forall i | 0 <= i < |ws| :: ws[i] <= vs[i]
    ensures Sum(ws) <= Sum(vs)
  {
    if ws != [] {
      SumGrows(ws[1..], vs[1..]);
    }
  }
}
