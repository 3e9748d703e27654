/**
 * The click-explosion particle pool of asg5/main.js: 1000 slots kept in four
 * Float32Arrays (positions, velocities and colours with three values per
 * slot, lifetimes with one), written in bursts of 50 at a cursor that wraps
 * around the pool, and advanced once per frame.
 *
 * The model views the arrays slot by slot (`Pool`, `Slots`) and specifies each
 * operation by a function on that view: `Explode` for a burst, `Advance` for a
 * frame. `Math.random()` is the oracle of module Oracle. The Three.js geometry
 * and material objects around the arrays are not modelled.
 */
module Particles {
  import opened Wrappers
  import opened Vectors
  import opened Oracle

  /** `particleCount` of `createParticleSystem`. */
  const PoolSize: nat := 1000

  /** `particleCount` of `createParticleExplosion`. */
  const BurstSize: nat := 50

  /** The lifetime, in seconds, of a freshly written particle. */
  const BurstLifetime: real := 2.0

  /** The downward acceleration `updateParticles` applies. */
  const GravityAccel: real := 9.8

  const Origin: Vec3 := Vec3(0.0, 0.0, 0.0)

  /** One slot of the pool: three position values, three velocity values, three colour values and the lifetime. */
  datatype Particle = Particle(pos: Vec3, vel: Vec3, color: Vec3, life: real)

  /** A slot left by `createParticleSystem`: at rest at the origin, dead, with a random colour from draws 3 s to 3 s + 2 after c. */
  function Idle(stream: nat -> Draw, c: nat, s: nat): Particle
  {
    Particle(Origin, Origin, Vec3(Unit(stream(c + 3 * s)), Unit(stream(c + 3 * s + 1)), Unit(stream(c + 3 * s + 2))), 0.0)
  }

  /**
   * The k-th particle of a burst at p whose draws start at c: six draws per
   * particle, three for the velocity (`(r - 0.5) * 10`, `r * 10`, `(r - 0.5) * 10`)
   * and three for the colour.
   */
  function Spawned(p: Vec3, stream: nat -> Draw, c: nat, k: nat): Particle
  {
    var d := c + 6 * k;
    Particle(
      p,
      Vec3(Spread(stream(d)), Upward(stream(d + 1)), Spread(stream(d + 2))),
      Vec3(Unit(stream(d + 3)), Unit(stream(d + 4)), Unit(stream(d + 5))),
      BurstLifetime)
  }

  /** A horizontal velocity component of a burst: `(Math.random() - 0.5) * 10`, in [-5, 5). */
  function Spread(u: Draw): (v: real)
    ensures -5.0 <= v < 5.0
  {
    (Unit(u) - 0.5) * 10.0
  }

  /** The vertical velocity component of a burst: `Math.random() * 10`, in [0, 10). */
  function Upward(u: Draw): (v: real)
    ensures 0.0 <= v < 10.0
  {
    Unit(u) * 10.0
  }

  /** How far after cursor a slot s comes, going round the pool. */
  function Offset(a: int, s: int): (k: int)
    ensures 0 <= k < PoolSize
  {
    (s - a) % PoolSize
  }

  /**
   * The pool after the first n particles of a burst at cursor a: slot s holds the
   * Offset(a, s)-th particle of the burst if that is below n, and what it held
   * before otherwise. A whole burst is n = 50.
   */
  function Explode(before: seq<Particle>, a: int, p: Vec3, stream: nat -> Draw, c: nat, n: nat): (after: seq<Particle>)
    requires |before| == PoolSize
    ensures |after| == PoolSize
  {
    seq(PoolSize, s requires 0 <= s < PoolSize => if Offset(a, s) < n then Spawned(p, stream, c, Offset(a, s)) else before[s])
  }

  /** The slot i places after cursor a, going round the pool: `(activeCount + i) % particleCount`. */
  function Index(a: int, i: int): (s: int)
    ensures 0 <= s < PoolSize
  {
    (a + i) % PoolSize
  }

  /** Slot (a + i) mod 1000 is i places after cursor a. */
  lemma OffsetOfIndex(a: int, i: int)
    requires 0 <= i < PoolSize
    ensures Offset(a, Index(a, i)) == i
  {
    var s := (a + i) % PoolSize;
    var q := (a + i) / PoolSize;
    assert s - a == i - PoolSize * q;
    ShiftMod(i, -q);
  }

  /** A slot Offset(a, s) places after cursor a is slot s. */
  lemma IndexOfOffset(a: int, s: int)
    requires 0 <= s < PoolSize
    ensures Index(a, Offset(a, s)) == s
  {
    var q := (s - a) / PoolSize;
    assert a + Offset(a, s) == s - PoolSize * q;
    ShiftMod(s, -q);
  }

  lemma ShiftMod(x: int, q: int)
    requires 0 <= x < PoolSize
    ensures (x + PoolSize * q) % PoolSize == x
  {
    var y := x + PoolSize * q;
    var r, d := y % PoolSize, y / PoolSize;
    assert PoolSize * (d - q) == x - r;
    assert x - r < PoolSize && r - x < PoolSize;
    assert d - q == 0;
  }

  /** A burst at cursor a writes its i-th particle to slot (a + i) mod 1000, for each i below 50. */
  lemma ExplodeWritesBurst(before: seq<Particle>, a: int, p: Vec3, stream: nat -> Draw, c: nat, i: nat)
    requires |before| == PoolSize && i < BurstSize
    ensures Explode(before, a, p, stream, c, BurstSize)[Index(a, i)] == Spawned(p, stream, c, i)
  {
    OffsetOfIndex(a, i);
  }

  /** Every slot that is not (a + i) mod 1000 for some i below 50 keeps its particle. */
  lemma ExplodeKeepsOthers(before: seq<Particle>, a: int, p: Vec3, stream: nat -> Draw, c: nat, s: nat)
    requires |before| == PoolSize && s < PoolSize
    requires forall i :: 0 <= i < BurstSize ==> Index(a, i) != s
    ensures Explode(before, a, p, stream, c, BurstSize)[s] == before[s]
  {
    IndexOfOffset(a, s);
  }

  /** Writing the n-th particle of a burst to its slot extends the first n writes to the first n + 1. */
  lemma ExplodeNext(before: seq<Particle>, a: int, p: Vec3, stream: nat -> Draw, c: nat, n: nat)
    requires |before| == PoolSize && n < PoolSize
    ensures Explode(before, a, p, stream, c, n)[Index(a, n) := Spawned(p, stream, c, n)] == Explode(before, a, p, stream, c, n + 1)
  {
    OffsetOfIndex(a, n);
    var written := Explode(before, a, p, stream, c, n)[Index(a, n) := Spawned(p, stream, c, n)];
    var next := Explode(before, a, p, stream, c, n + 1);
    forall s | 0 <= s < PoolSize
      ensures written[s] == next[s]
    {
      if s != Index(a, n) {
        assert Offset(a, s) != n by { IndexOfOffset(a, s); }
      }
    }
  }

  /** Before any write the pool is as it was. */
  lemma ExplodeNone(before: seq<Particle>, a: int, p: Vec3, stream: nat -> Draw, c: nat)
    requires |before| == PoolSize
    ensures Explode(before, a, p, stream, c, 0) == before
  {
  }

  /** One frame for a live particle: move by the old velocity times dt, fall, age, and go back to the origin once the lifetime runs out. */
  function Step(q: Particle, dt: real): Particle
  {
    var life := q.life - dt;
    var pos := if life <= 0.0 then Origin else Add(q.pos, Mul(q.vel, dt));
    Particle(pos, Vec3(q.vel.x, q.vel.y - GravityAccel * dt, q.vel.z), q.color, life)
  }

  /** One frame of `updateParticles`: every live slot steps, every other slot stays as it is. */
  function Advance(before: seq<Particle>, dt: real): (after: seq<Particle>)
    ensures |after| == |before|
  {
    seq(|before|, s requires 0 <= s < |before| => if before[s].life > 0.0 then Step(before[s], dt) else before[s])
  }

  /** A frame changes no dead slot, and in a live slot keeps the colour and the horizontal velocity, lowers the vertical velocity by 9.8 dt and the lifetime by dt. */
  lemma AdvanceSlot(before: seq<Particle>, dt: real, s: nat)
    requires s < |before|
    ensures before[s].life <= 0.0 ==> Advance(before, dt)[s] == before[s]
    ensures before[s].life > 0.0 ==>
      var q, r := before[s], Advance(before, dt)[s];
      && r.vel.x == q.vel.x && r.vel.z == q.vel.z && r.color == q.color
      && q.vel.y - r.vel.y == GravityAccel * dt
      && q.life - r.life == dt
      && (r.life <= 0.0 ==> r.pos == Origin)
      && (r.life > 0.0 ==> r.pos == Add(q.pos, Mul(q.vel, dt)))
  {
  }

  /** A single particle after n frames of length dt. */
  function Frames(q: Particle, dt: real, n: nat): Particle
  {
    if n == 0 then q
    else
      var r := Frames(q, dt, n - 1);
      if r.life > 0.0 then Step(r, dt) else r
  }

  lemma NextMultiple(m: nat, dt: real)
    ensures (m + 1) as real * dt == m as real * dt + dt
  {
  }

  /** While a particle lives, each frame takes dt off its lifetime. */
  lemma {:induction false} LifeCountsDown(q: Particle, dt: real, n: nat)
    requires dt > 0.0
    requires n == 0 || q.life - (n - 1) as real * dt > 0.0
    ensures Frames(q, dt, n).life == q.life - n as real * dt
  {
    if n > 0 {
      var m := n - 1;
      NextMultiple(m, dt);
      if m > 0 {
        NextMultiple(m - 1, dt);
        assert q.life - (m - 1) as real * dt > 0.0;
      }
      LifeCountsDown(q, dt, m);
      assert Frames(q, dt, m).life > 0.0;
    }
  }

  /** A live particle dies in the frame that takes its lifetime to zero or below, and is then at the origin. */
  lemma Expires(q: Particle, dt: real, n: nat)
    requires dt > 0.0 && n > 0
    requires (n - 1) as real * dt < q.life <= n as real * dt
    ensures Frames(q, dt, n).life <= 0.0 && Frames(q, dt, n).pos == Origin
  {
    var m := n - 1;
    NextMultiple(m, dt);
    if m > 0 {
      NextMultiple(m - 1, dt);
      assert q.life - (m - 1) as real * dt > 0.0;
    }
    LifeCountsDown(q, dt, m);
  }

  /** A dead particle stays as it is, frame after frame. */
  lemma {:induction false} DeadStaysPut(q: Particle, dt: real, n: nat)
    requires q.life <= 0.0
    ensures Frames(q, dt, n) == q
  {
    if n > 0 {
      DeadStaysPut(q, dt, n - 1);
    }
  }

  /** The componentwise form of the move in `Step`, as `updateParticles` writes it. */
  lemma MovedBy(p: Vec3, v: Vec3, px: real, py: real, pz: real, vx: real, vy: real, vz: real, dt: real)
    requires p == Vec3(px, py, pz) && v == Vec3(vx, vy, vz)
    ensures Add(p, Mul(v, dt)) == Vec3(px + vx * dt, py + vy * dt, pz + vz * dt)
  {
    assert Mul(v, dt) == Vec3(vx * dt, vy * dt, vz * dt);
  }

  /** Slot s of an array that keeps three values per slot, as a vector. */
  function At3(xs: seq<real>, s: nat): Vec3
    requires 3 * s + 2 < |xs|
  {
    Vec3(xs[3 * s], xs[3 * s + 1], xs[3 * s + 2])
  }

  /** The array with the three values of slot s set to v. */
  function Put3(xs: seq<real>, s: nat, v: Vec3): (ys: seq<real>)
    requires 3 * s + 2 < |xs|
    ensures |ys| == |xs|
  {
    xs[3 * s := v.x][3 * s + 1 := v.y][3 * s + 2 := v.z]
  }

  /** Setting slot s changes slot s and no other. */
  lemma At3Put3(xs: seq<real>, s: nat, v: Vec3, t: nat)
    requires 3 * s + 2 < |xs| && 3 * t + 2 < |xs|
    ensures At3(Put3(xs, s, v), t) == if s == t then v else At3(xs, t)
  {
  }

  /** Setting a slot twice keeps the second value. */
  lemma Put3Twice(xs: seq<real>, s: nat, v: Vec3, w: Vec3)
    requires 3 * s + 2 < |xs|
    ensures Put3(Put3(xs, s, v), s, w) == Put3(xs, s, w)
  {
  }

  /** Setting a slot to what it holds changes nothing. */
  lemma Put3Same(xs: seq<real>, s: nat)
    requires 3 * s + 2 < |xs|
    ensures Put3(xs, s, At3(xs, s)) == xs
  {
  }

  /** Array contents of the shape `createParticleSystem` allocates. */
  predicate Shaped(ps: seq<real>, vs: seq<real>, cs: seq<real>, ls: seq<real>)
  {
    |ps| == 3 * PoolSize && |vs| == 3 * PoolSize && |cs| == 3 * PoolSize && |ls| == PoolSize
  }

  /** The pool that the contents of the four arrays hold, slot by slot. */
  function Pool(ps: seq<real>, vs: seq<real>, cs: seq<real>, ls: seq<real>): (pool: seq<Particle>)
    requires Shaped(ps, vs, cs, ls)
    ensures |pool| == PoolSize
  {
    seq(PoolSize, s requires 0 <= s < PoolSize => Particle(At3(ps, s), At3(vs, s), At3(cs, s), ls[s]))
  }

  /** Writing the four parts of q into slot s of the arrays puts q into slot s of the pool and changes no other slot. */
  lemma PoolPut(ps: seq<real>, vs: seq<real>, cs: seq<real>, ls: seq<real>, s: nat, q: Particle)
    requires Shaped(ps, vs, cs, ls) && s < PoolSize
    ensures Shaped(Put3(ps, s, q.pos), Put3(vs, s, q.vel), Put3(cs, s, q.color), ls[s := q.life])
    ensures Pool(Put3(ps, s, q.pos), Put3(vs, s, q.vel), Put3(cs, s, q.color), ls[s := q.life]) == Pool(ps, vs, cs, ls)[s := q]
  {
    var after := Pool(Put3(ps, s, q.pos), Put3(vs, s, q.vel), Put3(cs, s, q.color), ls[s := q.life]);
    forall t | 0 <= t < PoolSize
      ensures after[t] == Pool(ps, vs, cs, ls)[s := q][t]
    {
      At3Put3(ps, s, q.pos, t);
      At3Put3(vs, s, q.vel, t);
      At3Put3(cs, s, q.color, t);
    }
  }

  /** `particleSystem`: the four typed arrays and `userData.activeCount`. */
  class ParticleSystem {
    var positions: array<real>
    var colors: array<real>
    var velocities: array<real>
    var lifetimes: array<real>
    var activeCount: int

    ghost predicate Valid()
      reads this
    {
      && positions.Length == 3 * PoolSize && colors.Length == 3 * PoolSize
      && velocities.Length == 3 * PoolSize && lifetimes.Length == PoolSize
      && positions != colors && positions != velocities && positions != lifetimes
      && colors != velocities && colors != lifetimes && velocities != lifetimes
      && 0 <= activeCount < PoolSize
    }

    /** The whole pool, slot by slot. */
    ghost function Slots(): (pool: seq<Particle>)
      requires Valid()
      reads this, positions, colors, velocities, lifetimes
      ensures |pool| == PoolSize
    {
      Pool(positions[..], velocities[..], colors[..], lifetimes[..])
    }

    /** `createParticleSystem()`: 1000 dead slots at rest at the origin, each with a random colour, and the cursor at 0. */
    constructor(rng: Random)
      modifies rng`used
      ensures Valid() && activeCount == 0
      ensures forall s :: 0 <= s < PoolSize ==> Slots()[s] == Idle(rng.stream, old(rng.used), s)
      ensures rng.used == old(rng.used) + 3 * PoolSize
      ensures fresh(positions) && fresh(colors) && fresh(velocities) && fresh(lifetimes)
    {
      var particleCount := PoolSize;
      positions := new real[particleCount * 3];
      colors := new real[particleCount * 3];
      velocities := new real[particleCount * 3];
      lifetimes := new real[particleCount];
      activeCount := 0;
      new;
      FillIdle(rng);
    }

    /** The loop of `createParticleSystem`: every slot at rest at the origin, dead, with three colour draws. */
    method FillIdle(rng: Random)
      requires Valid()
      modifies positions, colors, velocities, lifetimes, rng`used
      ensures Valid()
      ensures forall s :: 0 <= s < PoolSize ==> Slots()[s] == Idle(rng.stream, old(rng.used), s)
      ensures rng.used == old(rng.used) + 3 * PoolSize
    {
      var particleCount := PoolSize;
      ghost var c0 := rng.used;
      var i := 0;
      while i < particleCount
        invariant 0 <= i <= particleCount && rng.used == c0 + 3 * i
        invariant Valid()
        invariant forall s :: 0 <= s < i ==> Slots()[s] == Idle(rng.stream, c0, s)
      {
        var q := DrawIdle(rng, c0, i);
        PutParticle(i, q);
        i := i + 1;
      }
    }

    /** The three colour draws of one slot of `createParticleSystem`; everything else in the slot is zero. */
    static method DrawIdle(rng: Random, ghost c0: nat, ghost s: nat) returns (q: Particle)
      requires rng.used == c0 + 3 * s
      modifies rng`used
      ensures q == Idle(rng.stream, c0, s) && rng.used == old(rng.used) + 3
    {
      var r := rng.Next();
      var g := rng.Next();
      var b := rng.Next();
      q := Particle(Origin, Origin, Vec3(Unit(r), Unit(g), Unit(b)), 0.0);
    }

    /** The writes of one loop iteration of `createParticleSystem` or `createParticleExplosion`: slot `index` becomes q. */
    method PutParticle(index: int, q: Particle)
      requires Valid() && 0 <= index < PoolSize
      modifies positions, colors, velocities, lifetimes
      ensures Valid()
      ensures positions[..] == Put3(old(positions[..]), index, q.pos) && velocities[..] == Put3(old(velocities[..]), index, q.vel)
      ensures colors[..] == Put3(old(colors[..]), index, q.color) && lifetimes[..] == old(lifetimes[..])[index := q.life]
      ensures Slots() == old(Slots())[index := q]
    {
      ghost var ps, vs, cs, ls := positions[..], velocities[..], colors[..], lifetimes[..];
      positions[index * 3] := q.pos.x;
      positions[index * 3 + 1] := q.pos.y;
      positions[index * 3 + 2] := q.pos.z;
      velocities[index * 3] := q.vel.x;
      velocities[index * 3 + 1] := q.vel.y;
      velocities[index * 3 + 2] := q.vel.z;
      colors[index * 3] := q.color.x;
      colors[index * 3 + 1] := q.color.y;
      colors[index * 3 + 2] := q.color.z;
      lifetimes[index] := q.life;
      assert positions[..] == Put3(ps, index, q.pos);
      assert velocities[..] == Put3(vs, index, q.vel);
      assert colors[..] == Put3(cs, index, q.color);
      assert lifetimes[..] == ls[index := q.life];
      PoolPut(ps, vs, cs, ls, index, q);
    }

    /** `createParticleExplosion(position)`: the 50 slots from the cursor on, wrapping round, get new particles; the cursor moves 50 on. */
    method CreateParticleExplosion(position: Vec3, rng: Random)
      requires Valid()
      modifies positions, colors, velocities, lifetimes, this`activeCount, rng`used
      ensures Valid()
      ensures Slots() == Explode(old(Slots()), old(activeCount), position, rng.stream, old(rng.used), BurstSize)
      ensures activeCount == (old(activeCount) + BurstSize) % PoolSize
      ensures rng.used == old(rng.used) + 6 * BurstSize
    {
      var particleCount := BurstSize;
      ghost var before, c0, a0 := Slots(), rng.used, activeCount;
      ExplodeNone(before, a0, position, rng.stream, c0);
      var i := 0;
      while i < particleCount
        invariant 0 <= i <= particleCount && rng.used == c0 + 6 * i
        invariant Valid() && activeCount == a0
        invariant Slots() == Explode(before, a0, position, rng.stream, c0, i)
      {
        var index := Index(activeCount, i);
        var q := DrawParticle(position, rng, c0, i);
        PutParticle(index, q);
        ExplodeNext(before, a0, position, rng.stream, c0, i);
        i := i + 1;
      }
      activeCount := (activeCount + particleCount) % PoolSize;
    }

    /** The six draws of one particle of a burst, in the order of `createParticleExplosion`. */
    static method DrawParticle(position: Vec3, rng: Random, ghost c0: nat, ghost k: nat) returns (q: Particle)
      requires rng.used == c0 + 6 * k
      modifies rng`used
      ensures q == Spawned(position, rng.stream, c0, k) && rng.used == old(rng.used) + 6
    {
      var u0 := rng.Next();
      var u1 := rng.Next();
      var u2 := rng.Next();
      var vel := Vec3(Spread(u0), Upward(u1), Spread(u2));
      var r := rng.Next();
      var g := rng.Next();
      var b := rng.Next();
      q := Particle(position, vel, Vec3(Unit(r), Unit(g), Unit(b)), BurstLifetime);
    }

    /** The loop body of `updateParticles` for a live slot `i`. */
    method StepSlot(i: int, deltaTime: real)
      requires Valid() && 0 <= i < PoolSize && lifetimes[i] > 0.0
      modifies positions, velocities, lifetimes
      ensures Valid() && Slots() == old(Slots())[i := Step(old(Slots())[i], deltaTime)]
    {
      ghost var ps, vs, cs, ls := positions[..], velocities[..], colors[..], lifetimes[..];
      ghost var q := Slots()[i];
      ghost var r := Step(q, deltaTime);
      assert q == Particle(At3(ps, i), At3(vs, i), At3(cs, i), ls[i]);
      MoveSlot(positions, velocities, i, deltaTime);
      velocities[i * 3 + 1] := velocities[i * 3 + 1] - GravityAccel * deltaTime;
      assert velocities[..] == Put3(vs, i, r.vel);
      lifetimes[i] := lifetimes[i] - deltaTime;
      assert lifetimes[..] == ls[i := r.life];
      if lifetimes[i] <= 0.0 {
        ResetSlot(positions, i);
        Put3Twice(ps, i, Add(q.pos, Mul(q.vel, deltaTime)), Origin);
      }
      assert positions[..] == Put3(ps, i, r.pos);
      Put3Same(cs, i);
      PoolPut(ps, vs, cs, ls, i, r);
    }

    /** The three position writes of `updateParticles`: slot i moves by its velocity times dt. */
    static method MoveSlot(positions: array<real>, velocities: array<real>, i: int, deltaTime: real)
      requires positions != velocities && positions.Length == velocities.Length == 3 * PoolSize && 0 <= i < PoolSize
      modifies positions
      ensures positions[..] == Put3(old(positions[..]), i, Add(At3(old(positions[..]), i), Mul(At3(velocities[..], i), deltaTime)))
    {
      ghost var ps, vs := positions[..], velocities[..];
      MovedBy(At3(ps, i), At3(vs, i), ps[3 * i], ps[3 * i + 1], ps[3 * i + 2], vs[3 * i], vs[3 * i + 1], vs[3 * i + 2], deltaTime);
      positions[i * 3] := positions[i * 3] + velocities[i * 3] * deltaTime;
      positions[i * 3 + 1] := positions[i * 3 + 1] + velocities[i * 3 + 1] * deltaTime;
      positions[i * 3 + 2] := positions[i * 3 + 2] + velocities[i * 3 + 2] * deltaTime;
      ghost var moved := Vec3(ps[3 * i] + vs[3 * i] * deltaTime, ps[3 * i + 1] + vs[3 * i + 1] * deltaTime, ps[3 * i + 2] + vs[3 * i + 2] * deltaTime);
      assert positions[3 * i] == moved.x && positions[3 * i + 1] == moved.y && positions[3 * i + 2] == moved.z;
      assert forall j :: 0 <= j < 3 * PoolSize && j != 3 * i && j != 3 * i + 1 && j != 3 * i + 2 ==> positions[j] == ps[j];
      assert positions[..] == Put3(ps, i, moved);
      assert velocities[..] == vs;
      assert Add(At3(ps, i), Mul(At3(vs, i), deltaTime)) == moved;
    }

    /** The three position writes of an expired slot: back to the origin. */
    static method ResetSlot(positions: array<real>, i: int)
      requires positions.Length == 3 * PoolSize && 0 <= i < PoolSize
      modifies positions
      ensures positions[..] == Put3(old(positions[..]), i, Origin)
    {
      positions[i * 3] := 0.0;
      positions[i * 3 + 1] := 0.0;
      positions[i * 3 + 2] := 0.0;
    }

    /** The loop of `updateParticles(deltaTime)`: one frame for every live slot; colours are never written. */
    method Update(deltaTime: real)
      requires Valid()
      modifies positions, velocities, lifetimes
      ensures Valid()
      ensures Slots() == Advance(old(Slots()), deltaTime)
    {
      ghost var before := Slots();
      var i := 0;
      while i < PoolSize
        invariant 0 <= i <= PoolSize && Valid()
        invariant forall s :: 0 <= s < PoolSize ==> Slots()[s] == (if s < i then Advance(before, deltaTime)[s] else before[s])
      {
        if lifetimes[i] > 0.0 {
          StepSlot(i, deltaTime);
        }
        i := i + 1;
      }
    }
  }

  /** `updateParticles(deltaTime)`: nothing at all before the system exists. */
  method UpdateParticles(particleSystem: ParticleSystem?, deltaTime: real)
    requires particleSystem != null ==> particleSystem.Valid()
    modifies if particleSystem == null then {} else {particleSystem.positions, particleSystem.velocities, particleSystem.lifetimes}
    ensures particleSystem != null ==> particleSystem.Valid() && particleSystem.Slots() == Advance(old(particleSystem.Slots()), deltaTime)
  {
    if particleSystem == null {
      return;
    }
    particleSystem.Update(deltaTime);
  }

  /** The centre of `createRandomExplosion`: three draws from c on, x and z in [-10, 10), y in [1, 6). */
  function RandomPoint(stream: nat -> Draw, c: nat): (p: Vec3)
    ensures -10.0 <= p.x < 10.0 && 1.0 <= p.y < 6.0 && -10.0 <= p.z < 10.0
  {
    Vec3((Unit(stream(c)) - 0.5) * 20.0, Unit(stream(c + 1)) * 5.0 + 1.0, (Unit(stream(c + 2)) - 0.5) * 20.0)
  }

  /** `createRandomExplosion()`: a burst at a random point above the ground, drawn before the burst's own draws. */
  method CreateRandomExplosion(particleSystem: ParticleSystem, rng: Random)
    requires particleSystem.Valid()
    modifies particleSystem.positions, particleSystem.colors, particleSystem.velocities, particleSystem.lifetimes
    modifies particleSystem`activeCount, rng`used
    ensures particleSystem.Valid()
    ensures particleSystem.Slots() == Explode(old(particleSystem.Slots()), old(particleSystem.activeCount), RandomPoint(rng.stream, old(rng.used)), rng.stream, old(rng.used) + 3, BurstSize)
    ensures particleSystem.activeCount == (old(particleSystem.activeCount) + BurstSize) % PoolSize
    ensures rng.used == old(rng.used) + 3 + 6 * BurstSize
  {
    var randomPosition := DrawPoint(rng);
    particleSystem.CreateParticleExplosion(randomPosition, rng);
  }

  /** The three draws of `createRandomExplosion`, in order x, y, z. */
  method DrawPoint(rng: Random) returns (p: Vec3)
    modifies rng`used
    ensures p == RandomPoint(rng.stream, old(rng.used)) && rng.used == old(rng.used) + 3
  {
    var u0 := rng.Next();
    var u1 := rng.Next();
    var u2 := rng.Next();
    p := Vec3((Unit(u0) - 0.5) * 20.0, Unit(u1) * 5.0 + 1.0, (Unit(u2) - 0.5) * 20.0);
  }

  /** An entry of `animatedObjects`: its current speed and the speed first seen by the slider, once captured. */
  class Animated {
    var speed: real
    var originalSpeed: Option<real>

    constructor(speed: real)
      ensures this.speed == speed && originalSpeed == None
    {
      this.speed := speed;
      originalSpeed := None;
    }

    /** The handler's body for one object. */
    method ChangeSpeed(value: real)
      modifies this
      ensures originalSpeed == Some(Base(old(originalSpeed), old(speed)))
      ensures speed == Base(old(originalSpeed), old(speed)) * value
    {
      if originalSpeed == None {
        originalSpeed := Some(speed);
      }
      speed := originalSpeed.value * value;
    }
  }

  /** The speed an object's multiplier applies to: the captured original, or the current speed when none is captured yet. */
  function Base(originalSpeed: Option<real>, speed: real): real
  {
    if originalSpeed.Some? then originalSpeed.value else speed
  }

  /**
   * The `onChange` handler of the Speed slider: every object captures its speed the
   * first time, and its speed becomes the captured speed times `value`. A repeated
   * entry is harmless: its second visit finds the capture and writes the same speed.
   */
  method OnSpeedChange(animatedObjects: seq<Animated>, value: real)
    modifies set o | o in animatedObjects
    ensures forall o :: o in animatedObjects ==>
      && o.originalSpeed == Some(Base(old(o.originalSpeed), old(o.speed)))
      && o.speed == Base(old(o.originalSpeed), old(o.speed)) * value
  {
    var j := 0;
    while j < |animatedObjects|
      invariant 0 <= j <= |animatedObjects|
      invariant forall o :: o in animatedObjects[..j] ==>
        && o.originalSpeed == Some(Base(old(o.originalSpeed), old(o.speed)))
        && o.speed == Base(old(o.originalSpeed), old(o.speed)) * value
      invariant forall o :: o in animatedObjects && o !in animatedObjects[..j] ==>
        o.originalSpeed == old(o.originalSpeed) && o.speed == old(o.speed)
    {
      var obj := animatedObjects[j];
      obj.ChangeSpeed(value);
      assert animatedObjects[..j + 1] == animatedObjects[..j] + [obj];
      j := j + 1;
    }
    assert animatedObjects[..j] == animatedObjects;
  }

  /** Moving the slider twice does not compound: the speed is the first captured speed times the latest value. */
  method SpeedChangesDoNotCompound(animatedObjects: seq<Animated>, first: real, second: real)
    modifies set o | o in animatedObjects
    ensures forall o :: o in animatedObjects ==>
      && o.originalSpeed == Some(Base(old(o.originalSpeed), old(o.speed)))
      && o.speed == Base(old(o.originalSpeed), old(o.speed)) * second
  {
    OnSpeedChange(animatedObjects, first);
    OnSpeedChange(animatedObjects, second);
  }

  /** `guiParams`: the values the controls edit. */
  class GuiParams {
    var animationSpeed: real
    var lightIntensity: real
    var particleSize: real
    var showWireframe: bool
    var rotateModel: bool

    /** The initial values of `guiParams`. */
    constructor()
      ensures animationSpeed == 1.0 && lightIntensity == 1.0 && particleSize == 0.1
      ensures !showWireframe && rotateModel
    {
      animationSpeed := 1.0;
      lightIntensity := 1.0;
      particleSize := 0.1;
      showWireframe := false;
      rotateModel := true;
    }

    /** The parameter part of `resetScene()`: four values back to their initial ones; `rotateModel` is left alone. */
    method ResetScene()
      modifies this
      ensures animationSpeed == 1.0 && lightIntensity == 1.0 && particleSize == 0.1 && !showWireframe
      ensures rotateModel == old(rotateModel)
    {
      animationSpeed := 1.0;
      lightIntensity := 1.0;
      particleSize := 0.1;
      showWireframe := false;
    }
  }
}
