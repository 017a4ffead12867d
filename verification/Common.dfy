/** Small types shared by every part of the gateway model. */
module Common {

  datatype Option<+T> = None | Some(value: T)

  function Min(a: int, b: int): int { if a <= b then a else b }

  function Max(a: int, b: int): int { if a <= b then b else a }

  predicate Distinct<T(==)>(xs: seq<T>) {
    forall i, j | 0 <= i < j < |xs| :: xs[i] != xs[j]
  }

  function Mapped<A, B>(f: A -> B, xs: seq<A>): (ys: seq<B>)
    ensures |ys| == |xs| && forall i | 0 <= i < |xs| :: ys[i] == f(xs[i])
  {
    seq(|xs|, i requires 0 <= i < |xs| => f(xs[i]))
  }

  /** Tokens a constant rate yields between two readings of the clock, in seconds. */
  function Accrued(refill: real, from: real, to: real): real {
    (to - from) * refill
  }

  lemma AccruedAdds(refill: real, a: real, b: real, c: real)
    ensures Accrued(refill, a, b) + Accrued(refill, b, c) == Accrued(refill, a, c)
  {}

  lemma AccruedNothing(refill: real, now: real)
    ensures Accrued(refill, now, now) == 0.0
  {
    assert now - now == 0.0;
  }

  lemma AccruedGrows(refill: real, a: real, b: real)
    requires 0.0 <= refill && a <= b
    ensures 0.0 <= Accrued(refill, a, b)
  {
    ProductNonNegative(b - a, refill);
  }

  lemma ProductNonNegative(a: real, b: real)
    requires a >= 0.0 && b >= 0.0
    ensures a * b >= 0.0
  {}
}
