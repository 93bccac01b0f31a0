/** `Math.random()` as a stream of draws in [0, 1) read from a cursor, and the
    `Math.floor(Math.random() * n)` idiom built on it. */
module Random {

  type Draw = r: real | 0.0 <= r < 1.0

  /** The successive results of `Math.random()`; position p is the p-th call. */
  type Stream = nat -> Draw

  /** `Math.floor(d * n)`: an index into a collection of n elements. */
  function Index(d: Draw, n: nat): (i: nat)
    ensures n > 0 ==> i < n
    ensures n == 0 ==> i == 0
  {
    assert d * n as real <= 1.0 * n as real;
    (d * n as real).Floor
  }

  /** Every index below n is the result of some draw, so `Index` ranges over
      exactly [0, n). */
  lemma IndexCovers(k: nat, n: nat)
    requires k < n
    ensures Index(Fraction(k, n), n) == k
  {
    var d := Fraction(k, n);
    assert d * n as real == k as real;
  }

  /** The draw k / n, where the k-th of n equal slices of [0, 1) begins. */
  function Fraction(k: nat, n: nat): (d: Draw)
    requires k < n
    ensures d * n as real == k as real
  {
    FractionBounds(k, n);
    k as real / n as real
  }

  lemma FractionBounds(k: nat, n: nat)
    requires k < n
    ensures 0.0 <= k as real / n as real < 1.0
    ensures (k as real / n as real) * n as real == k as real
  {
    var d := k as real / n as real;
    assert d * n as real == k as real;
    assert d * n as real < 1.0 * n as real;
  }

  /** A stream that, after any position, eventually draws an index other than
      the one drawn there. A redraw-until-different loop over n elements
      terminates on such a stream, and only when n >= 2 can one exist. */
  ghost predicate Fair(rng: Stream, n: nat)
  {
    forall p: nat :: ChangesAfter(rng, n, p)
  }

  /** Some draw after position p gives another index than the draw at p. */
  ghost predicate ChangesAfter(rng: Stream, n: nat, p: nat)
  {
    exists q: nat :: p < q && Index(rng(q), n) != Index(rng(p), n)
  }

  lemma FairNeedsTwo(rng: Stream, n: nat)
    requires Fair(rng, n)
    ensures n >= 2
  {
    assert ChangesAfter(rng, n, 0);
    var q: nat :| 0 < q && Index(rng(q), n) != Index(rng(0), n);
  }

  /** Two indices drawn as `getRandomTokenPair` does: the first from position
      `pos`, the second redrawn until it differs from the first. Returns the
      cursor after the last draw. */
  method DrawDistinct(rng: Stream, pos: nat, n: nat) returns (i: nat, j: nat, next: nat)
    requires Fair(rng, n)
    ensures i < n && j < n && i != j
    ensures i == Index(rng(pos), n) && next > pos + 1 && j == Index(rng(next - 1), n)
    ensures forall r :: pos < r < next - 1 ==> Index(rng(r), n) == i
  {
    FairNeedsTwo(rng, n);
    i := Index(rng(pos), n);
    var cur := pos + 1;
    j := Index(rng(cur), n);
    assert ChangesAfter(rng, n, pos);
    ghost var q: nat :| pos < q && Index(rng(q), n) != i;
    while j == i
      invariant pos < cur <= q
      invariant j == Index(rng(cur), n)
      invariant forall r :: pos < r < cur ==> Index(rng(r), n) == i
      decreases q - cur
    {
      cur := cur + 1;
      j := Index(rng(cur), n);
    }
    next := cur + 1;
  }
}
