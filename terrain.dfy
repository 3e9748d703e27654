/**
 * The height-map arithmetic of `addHill` and `generateTerrain`
 * (asg3/world.js and asg4/world.js, which are the same code).
 *
 * A hill stamp raises every in-grid cell strictly inside its radius to
 * `1 + floor(height * (1 - distance / radius))`, combined with the old height by `max`.
 * The model works with exact integers: with D = dx*dx + dz*dz the test
 * `distance < radius` is `D < radius * radius`, and the floor is the largest k in
 * [0, height] with `height^2 * D <= (height - k)^2 * radius^2`. Lemma
 * `IncreaseIsFloor` proves that this is the floor of the real-number formula.
 */
module Terrain {
  /** `g_worldSize`: the map is WorldSize x WorldSize cells. */
  const WorldSize: int := 32

  /** The arguments of one `addHill(centerX, centerZ, radius, height)` call. */
  datatype Hill = Hill(cx: int, cz: int, radius: int, height: nat)

  /** The hills `generateTerrain` always stamps first, in order. */
  const FixedHills: seq<Hill> := [
    Hill(WorldSize / 2, WorldSize / 2, 8, 6),
    Hill(10, 10, 5, 4),
    Hill(20, 8, 4, 3),
    Hill(5, 25, 6, 3),
    Hill(25, 20, 7, 5),
    Hill(15, 18, 3, 2)
  ]

  /** Number of random hills `generateTerrain` adds after the fixed ones. */
  const RandomHillCount: nat := 10

  function Max(a: int, b: int): int { if a >= b then a else b }
  function Min(a: int, b: int): int { if a <= b then a else b }

  predicate InGrid(x: int, z: int) { 0 <= x < WorldSize && 0 <= z < WorldSize }

  /** Squared distance of cell (x, z) from the hill centre. */
  function DistSq(h: Hill, x: int, z: int): nat
  {
    SqNonNeg(x - h.cx);
    SqNonNeg(z - h.cz);
    (x - h.cx) * (x - h.cx) + (z - h.cz) * (z - h.cz)
  }

  /** The loop range of `addHill` along one axis: max(0, c - r) <= x < min(WorldSize, c + r). */
  predicate InSweep(c: int, r: int, x: int) { Max(0, c - r) <= x < Min(WorldSize, c + r) }

  /** Cell (x, z) is visited by the loops of `addHill` and passes `distance < radius`. */
  predicate Covers(h: Hill, x: int, z: int)
  {
    InSweep(h.cx, h.radius, x) && InSweep(h.cz, h.radius, z) && DistSq(h, x, z) < h.radius * h.radius
  }

  /** k is small enough: h * sqrt(d) / r <= h - k, squared and cleared of the division. */
  predicate Fits(h: nat, r: int, d: nat, k: int)
  {
    h * h * d <= (h - k) * (h - k) * (r * r)
  }

  /** Search down from k for the largest value that fits. */
  function RiseFrom(h: nat, r: int, d: nat, k: int): (j: int)
    requires 0 < r && d < r * r && 0 <= k <= h
    ensures 0 <= j <= k
    decreases k
  {
    if Fits(h, r, d, k) then k
    else
      FitsAtZero(h, r, d);
      RiseFrom(h, r, d, k - 1)
  }

  /** The search finds a value that fits, and none above it up to k fits. */
  lemma {:induction false} RiseFromIsLargest(h: nat, r: int, d: nat, k: int)
    requires 0 < r && d < r * r && 0 <= k <= h
    ensures Fits(h, r, d, RiseFrom(h, r, d, k))
    ensures forall i :: RiseFrom(h, r, d, k) < i <= k ==> !Fits(h, r, d, i)
    decreases k
  {
    if !Fits(h, r, d, k) {
      FitsAtZero(h, r, d);
      RiseFromIsLargest(h, r, d, k - 1);
    }
  }

  /** `Math.floor(height * (1 - distance / radius))` for a cell at squared distance d < radius^2. */
  function HeightIncrease(hill: Hill, d: nat): (k: int)
    requires 0 < hill.radius && d < hill.radius * hill.radius
    ensures 0 <= k <= hill.height
    ensures d == 0 ==> k == hill.height
  {
    assert d == 0 ==> Fits(hill.height, hill.radius, d, hill.height);
    RiseFrom(hill.height, hill.radius, d, hill.height)
  }

  /** The increase is the largest value in [0, height] that fits. */
  lemma HeightIncreaseIsLargest(hill: Hill, d: nat)
    requires 0 < hill.radius && d < hill.radius * hill.radius
    ensures Fits(hill.height, hill.radius, d, HeightIncrease(hill, d))
    ensures forall i :: HeightIncrease(hill, d) < i <= hill.height ==> !Fits(hill.height, hill.radius, d, i)
  {
    RiseFromIsLargest(hill.height, hill.radius, d, hill.height);
  }

  /** The new value of one cell after `addHill(hill)`, given its old value v. */
  function Stamp(v: int, hill: Hill, x: int, z: int): (w: int)
    ensures w >= v
    ensures !Covers(hill, x, z) ==> w == v
    ensures Covers(hill, x, z) ==> w >= 1 && w <= Max(v, 1 + hill.height)
  {
    if Covers(hill, x, z) then Max(v, 1 + HeightIncrease(hill, DistSq(hill, x, z))) else v
  }

  /** The value of one cell after stamping `hills` in order. */
  function StampAll(v: int, hills: seq<Hill>, x: int, z: int): int
  {
    if hills == [] then v
    else Stamp(StampAll(v, hills[..|hills| - 1], x, z), hills[|hills| - 1], x, z)
  }

  // ---------------------------------------------------------------------------
  // Which cells a stamp touches

  /** A cell is covered exactly when it is in the grid and strictly inside the radius. */
  lemma CoversIff(h: Hill, x: int, z: int)
    ensures Covers(h, x, z) <==>
      InGrid(x, z) && 0 < h.radius && DistSq(h, x, z) < h.radius * h.radius
  {
    if InGrid(x, z) && 0 < h.radius && DistSq(h, x, z) < h.radius * h.radius {
      SqNonNeg(x - h.cx);
      SqNonNeg(z - h.cz);
      SqBelow(x - h.cx, h.radius);
      SqBelow(z - h.cz, h.radius);
    }
  }

  /** Stamping never lowers a cell, whatever the hills. */
  lemma {:induction false} StampAllNeverLowers(v: int, hills: seq<Hill>, x: int, z: int)
    ensures StampAll(v, hills, x, z) >= v
  {
    if hills != [] {
      StampAllNeverLowers(v, hills[..|hills| - 1], x, z);
    }
  }

  /** A cell that no hill covers keeps its value. */
  lemma {:induction false} StampAllUntouched(v: int, hills: seq<Hill>, x: int, z: int)
    requires forall i :: 0 <= i < |hills| ==> !Covers(hills[i], x, z)
    ensures StampAll(v, hills, x, z) == v
  {
    if hills != [] {
      StampAllUntouched(v, hills[..|hills| - 1], x, z);
    }
  }

  /** A cell that some hill covers ends at least as high as that hill raises it. */
  lemma {:induction false} StampAllReachesEachHill(v: int, hills: seq<Hill>, x: int, z: int, i: nat)
    requires i < |hills| && Covers(hills[i], x, z)
    ensures StampAll(v, hills, x, z) >= 1 + HeightIncrease(hills[i], DistSq(hills[i], x, z))
  {
    var n := |hills| - 1;
    if i < n {
      StampAllReachesEachHill(v, hills[..n], x, z, i);
    }
  }

  // ---------------------------------------------------------------------------
  // The order of the stamps does not matter (the `max` combinator commutes)

  lemma StampCommutes(v: int, a: Hill, b: Hill, x: int, z: int)
    ensures Stamp(Stamp(v, a, x, z), b, x, z) == Stamp(Stamp(v, b, x, z), a, x, z)
  {
  }

  lemma {:induction false} StampAllThrough(v: int, hills: seq<Hill>, h: Hill, x: int, z: int)
    ensures StampAll(Stamp(v, h, x, z), hills, x, z) == Stamp(StampAll(v, hills, x, z), h, x, z)
  {
    if hills != [] {
      var n := |hills| - 1;
      StampAllThrough(v, hills[..n], h, x, z);
      StampCommutes(StampAll(v, hills[..n], x, z), h, hills[n], x, z);
    }
  }

  lemma {:induction false} StampAllAppend(v: int, a: seq<Hill>, b: seq<Hill>, x: int, z: int)
    ensures StampAll(v, a + b, x, z) == StampAll(StampAll(v, a, x, z), b, x, z)
  {
    if b != [] {
      var n := |b| - 1;
      assert (a + b)[..|a + b| - 1] == a + b[..n];
      StampAllAppend(v, a, b[..n], x, z);
    } else {
      assert a + b == a;
    }
  }

  lemma {:induction false} StampAllSwap(v: int, a: seq<Hill>, b: seq<Hill>, x: int, z: int)
    ensures StampAll(StampAll(v, a, x, z), b, x, z) == StampAll(StampAll(v, b, x, z), a, x, z)
  {
    if b != [] {
      var n := |b| - 1;
      StampAllSwap(v, a, b[..n], x, z);
      StampAllThrough(StampAll(v, b[..n], x, z), a, b[n], x, z);
    }
  }

  /** Stamping a then b gives the same map as stamping b then a. */
  lemma StampOrderIrrelevant(v: int, a: seq<Hill>, b: seq<Hill>, x: int, z: int)
    ensures StampAll(v, a + b, x, z) == StampAll(v, b + a, x, z)
  {
    StampAllAppend(v, a, b, x, z);
    StampAllAppend(v, b, a, x, z);
    StampAllSwap(v, a, b, x, z);
  }

  // ---------------------------------------------------------------------------
  // The central mountain `addHill(16, 16, 8, 6)`

  /** On a base of 1 the centre becomes 1 + 6 = 7. */
  lemma CentralPeak()
    ensures Stamp(1, FixedHills[0], 16, 16) == 7
  {
  }

  /** A cell at distance 8 or more from the centre keeps height 1. */
  lemma CentralFoot(x: int, z: int)
    requires DistSq(FixedHills[0], x, z) >= 64
    ensures Stamp(1, FixedHills[0], x, z) == 1
  {
  }

  // ---------------------------------------------------------------------------
  // The exact-integer formulation agrees with the real-number formula

  /** `distance < radius` is `D < radius^2` when distance is the square root of D. */
  lemma DistanceTest(r: int, d: nat, s: real)
    requires 0 < r && 0.0 <= s && s * s == d as real
    ensures s < r as real <==> d < r * r
  {
    var R := r as real;
    CastSq(r);
    SqStrict(R, s);
    SqStrict(s, R);
  }

  /**
   * In exact real arithmetic, `HeightIncrease` is `floor(height * (1 - s / radius))`
   * where s is the distance, i.e. s >= 0 and s^2 = D. Stated without the division
   * (radius > 0): k * radius <= height * (radius - s) < (k + 1) * radius, which is `FloorOf`.
   * (JavaScript computes this in doubles, which may round differently at exact
   * boundaries.)
   */
  lemma IncreaseIsFloor(hill: Hill, d: nat, s: real)
    requires 0 < hill.radius && d < hill.radius * hill.radius
    requires 0.0 <= s && s * s == d as real
    ensures FloorOf(HeightIncrease(hill, d), hill.height, hill.radius, s)
  {
    IncreaseIsLastFit(hill, d);
    FloorBounds(hill.height, hill.radius, d, s, HeightIncrease(hill, d));
  }

  /** k is the integer part of h * (r - s) / r, stated without the division: k * r <= h * (r - s) < (k + 1) * r. */
  predicate FloorOf(k: int, h: nat, r: int, s: real)
  {
    k as real * r as real <= h as real * (r as real - s) < (k + 1) as real * r as real
  }

  lemma IncreaseIsLastFit(hill: Hill, d: nat)
    requires 0 < hill.radius && d < hill.radius * hill.radius
    ensures var k := HeightIncrease(hill, d);
      Fits(hill.height, hill.radius, d, k) && (k < hill.height ==> !Fits(hill.height, hill.radius, d, k + 1))
  {
    HeightIncreaseIsLargest(hill, d);
  }

  /** The largest k in [0, h] that fits lies within one radius of h * (r - s). */
  lemma FloorBounds(h: nat, r: int, d: nat, s: real, k: int)
    requires 0 < r && 0.0 <= s && s * s == d as real && 0 <= k <= h
    requires Fits(h, r, d, k) && (k < h ==> !Fits(h, r, d, k + 1))
    ensures FloorOf(k, h, r, s)
  {
    FloorLower(h, r, d, s, k);
    if k < h {
      FloorUpper(h, r, d, s, k);
    } else {
      FloorAtTop(h, r, s);
    }
  }

  /** A k that fits satisfies k * r <= h * (r - s). */
  lemma FloorLower(h: nat, r: int, d: nat, s: real, k: int)
    requires 0 < r && 0.0 <= s && s * s == d as real && k <= h && Fits(h, r, d, k)
    ensures k as real * r as real <= h as real * (r as real - s)
  {
    var H, R, K := h as real, r as real, k as real;
    NonNegProduct(H, s);
    NonNegProduct(H - K, R);
    SquaredInReals(h, r, d, s, k);
    SqLe(H * s, (H - K) * R);
    assert (H - K) * R == H * R - K * R;
    assert H * (R - s) == H * R - H * s;
  }

  /** If k + 1 does not fit, h * (r - s) < (k + 1) * r. */
  lemma FloorUpper(h: nat, r: int, d: nat, s: real, k: int)
    requires 0 < r && 0.0 <= s && s * s == d as real && k < h && !Fits(h, r, d, k + 1)
    ensures h as real * (r as real - s) < (k + 1) as real * r as real
  {
    var H, R, J := h as real, r as real, (k + 1) as real;
    NonNegProduct(H, s);
    SquaredInReals(h, r, d, s, k + 1);
    SqLt((H - J) * R, H * s);
    assert (H - J) * R == H * R - J * R;
    assert H * (R - s) == H * R - H * s;
  }

  /** At the full height: h * (r - s) <= h * r < (h + 1) * r. */
  lemma FloorAtTop(h: nat, r: int, s: real)
    requires 0 < r && 0.0 <= s
    ensures h as real * (r as real - s) < (h + 1) as real * r as real
  {
    var H, R := h as real, r as real;
    NonNegProduct(H, s);
    assert H * (R - s) == H * R - H * s;
    assert (h + 1) as real * R == H * R + R;
  }

  // ---------------------------------------------------------------------------
  // Arithmetic helpers

  lemma SqNonNeg(a: int)
    ensures a * a >= 0
  {
  }

  /** Directly stated: a value at or beyond +-r has a square at least r^2. */
  lemma SqOutside(a: int, r: int)
    requires 0 < r
    ensures (a >= r || a <= -r) ==> a * a >= r * r
  {
    if a >= r {
      assert a * a >= r * a >= r * r;
    } else if a <= -r {
      var b := -a;
      assert b * b >= r * b >= r * r;
      assert a * a == b * b;
    }
  }

  lemma SqBelow(a: int, r: int)
    requires 0 < r && a * a < r * r
    ensures -r < a < r
  {
    SqOutside(a, r);
  }

  lemma FitsAtZero(h: nat, r: int, d: nat)
    requires d < r * r
    ensures Fits(h, r, d, 0)
  {
    SqNonNeg(h);
    assert h * h * d <= h * h * (r * r);
  }

  lemma CastSq(r: int)
    ensures (r * r) as real == r as real * r as real
  {
  }

  /** The integer inequality of `Fits` read in the reals, with d = s * s. */
  lemma SquaredInReals(h: nat, r: int, d: nat, s: real, k: int)
    requires 0.0 <= s && s * s == d as real
    ensures Fits(h, r, d, k) <==>
      (h as real * s) * (h as real * s) <= ((h as real - k as real) * r as real) * ((h as real - k as real) * r as real)
  {
    var H, R, K := h as real, r as real, k as real;
    assert (h * h * d) as real == H * H * d as real;
    assert ((h - k) * (h - k) * (r * r)) as real == (H - K) * (H - K) * (R * R);
    assert (H * s) * (H * s) == H * H * (s * s);
    assert ((H - K) * R) * ((H - K) * R) == (H - K) * (H - K) * (R * R);
  }

  lemma PosMul(a: real, b: real)
    requires a > 0.0 && b > 0.0
    ensures a * b > 0.0
  {
  }

  lemma NonNegProduct(a: real, b: real)
    requires a >= 0.0 && b >= 0.0
    ensures a * b >= 0.0
  {
    if a > 0.0 && b > 0.0 { PosMul(a, b); }
  }

  /** Squaring is strictly monotone on the non-negative reals. */
  lemma SqStrict(a: real, b: real)
    ensures a > b >= 0.0 ==> a * a > b * b
  {
    if a > b >= 0.0 {
      PosMul(a - b, a + b);
      assert (a - b) * (a + b) == a * a - b * b;
    }
  }

  lemma SqLe(a: real, b: real)
    requires 0.0 <= b && a * a <= b * b
    ensures a <= b
  {
    SqStrict(a, b);
  }

  lemma SqLt(a: real, b: real)
    requires 0.0 <= b && a * a < b * b
    ensures a < b
  {
    SqStrict(a, b);
  }
}
