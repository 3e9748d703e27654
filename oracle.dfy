/**
 * `Math.random()` as an input oracle: a fixed stream of draws and a cursor that
 * says how many of them the program has consumed. Everything that draws is then
 * deterministic given the stream.
 *
 * A draw is a double in [0, 1) on the grid of multiples of 2^-53, written as its
 * numerator u: the value is u / 2^53.
 */
module Oracle {
  /** The denominator of a draw. */
  const DrawScale: nat := 0x20_0000_0000_0000

  /** The numerator of a value `Math.random()` can return. */
  type Draw = u: int | 0 <= u < DrawScale

  /**
   * `Math.floor(Math.random() * n)`: the usual way the source turns a draw into an
   * index below `n`.
   */
  function Scale(u: Draw, n: nat): (k: int)
    requires n > 0
    ensures 0 <= k < n
  {
    assert u * n < DrawScale * n by { BelowScale(u, n); }
    u * n / DrawScale
  }

  lemma {:induction false} BelowScale(u: Draw, n: nat)
    requires n > 0
    ensures 0 <= u * n < DrawScale * n
  {
    if n > 1 {
      BelowScale(u, n - 1);
      assert u * n == u * (n - 1) + u;
      assert DrawScale * n == DrawScale * (n - 1) + DrawScale;
    }
  }

  /** `Scale(u, n)` is the integer part of (u / 2^53) * n: the unique k with k <= u * n / 2^53 < k + 1. */
  lemma ScaleIsFloor(u: Draw, n: nat, k: int)
    requires n > 0
    ensures Scale(u, n) == k <==> k * DrawScale <= u * n < (k + 1) * DrawScale
  {
    var q := Scale(u, n);
    assert q * DrawScale <= u * n < (q + 1) * DrawScale;
    if k < q {
      assert (k + 1) * DrawScale <= q * DrawScale;
    } else if k > q {
      assert (q + 1) * DrawScale <= k * DrawScale;
    }
  }

  /** The value of a draw, `Math.random()` itself: a real in [0, 1). */
  function Unit(u: Draw): (x: real)
    ensures 0.0 <= x < 1.0
  {
    u as real / DrawScale as real
  }

  /** The random source. `stream(i)` is the value of the i-th call to `Math.random()`. */
  class Random {
    const stream: nat -> Draw
    var used: nat

    constructor (stream: nat -> Draw)
      ensures this.stream == stream && used == 0
    {
      this.stream := stream;
      used := 0;
    }

    /** One call to `Math.random()`. */
    method Next() returns (u: Draw)
      modifies this`used
      ensures u == stream(old(used)) && used == old(used) + 1
    {
      u := stream(used);
      used := used + 1;
    }
  }
}
