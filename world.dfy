/**
 * The voxel world of asg3/world.js and asg4/world.js: the height map
 * `g_worldMap`, the animal and flower lists and the sphere list, built by
 * `initWorldMap`. The two files hold the same terrain and placement code; asg4
 * adds `addSpheres` at the end of `initWorldMap`.
 *
 * `Math.random()` is the oracle `Oracle.Random`, so every operation is
 * deterministic given the stream of draws.
 */
module World {
  import opened Terrain
  import opened Oracle
  import opened Wrappers

  /** A grid cell (x, z) as the samplers draw it. */
  datatype Cell = Cell(x: int, z: int)

  /** The animal type code: 0 = pig, 1 = cow. */
  datatype AnimalKind = Pig | Cow

  /** An entry `[x, z, animalType]` of `g_animalPositions`. */
  datatype Animal = Animal(x: int, z: int, kind: AnimalKind)

  /** An entry `[x, z, color]` of `g_flowerPositions` (0 = red, 1 = yellow, 2 = white). */
  datatype Flower = Flower(x: int, z: int, color: int)

  /** An entry of `g_spherePositions`. */
  datatype SphereSpot = SphereSpot(x: real, y: real, z: real, radius: real, color: seq<real>, textureNum: int)

  const PigCount: nat := 8
  const CowCount: nat := 6
  const FlowerCount: nat := 24
  /** The attempt budget of every single-entity placer. */
  const MaxAttempts: nat := 50
  /** Number of flower colours: `Math.floor(Math.random() * 3)`. */
  const FlowerColors: nat := 3

  /** The four spheres `addSpheres` pushes, in order. */
  const SphereSpots: seq<SphereSpot> := [
    SphereSpot(5.0, 3.0, 5.0, 1.5, [1.0, 0.3, 0.3, 1.0], -2),
    SphereSpot(-8.0, 2.0, 10.0, 1.0, [0.3, 1.0, 0.3, 1.0], -2),
    SphereSpot(12.0, 4.0, -6.0, 2.0, [0.3, 0.3, 1.0, 1.0], -2),
    SphereSpot(-5.0, 2.0, -8.0, 1.2, [1.0, 1.0, 1.0, 1.0], 0)
  ]

  function Abs(a: int): nat { if a < 0 then -a else a }

  /**
   * The cell drawn by attempt j of a placer that started at cursor c, when every
   * earlier attempt failed (each failed attempt draws x then z).
   */
  function AttemptCell(stream: nat -> Draw, c: nat, j: nat): (cell: Cell)
    ensures InGrid(cell.x, cell.z)
  {
    Cell(Scale(stream(c + 2 * j), WorldSize), Scale(stream(c + 2 * j + 1), WorldSize))
  }

  /** The hill one iteration of the random loop of `generateTerrain` stamps, drawing from cursor c. */
  function RandomHill(stream: nat -> Draw, c: nat): (h: Hill)
    ensures InGrid(h.cx, h.cz)
    ensures 2 <= h.radius <= 4 && 1 <= h.height <= 2
  {
    Hill(Scale(stream(c), WorldSize), Scale(stream(c + 1), WorldSize),
         2 + Scale(stream(c + 2), 3), 1 + Scale(stream(c + 3), 2))
  }

  /** The first n random hills, drawn four values each from cursor c. */
  function RandomHills(stream: nat -> Draw, c: nat, n: nat): (hs: seq<Hill>)
    ensures |hs| == n
  {
    if n == 0 then [] else RandomHills(stream, c, n - 1) + [RandomHill(stream, c + 4 * (n - 1))]
  }

  /** The hill list of `generateTerrain` grows by one random hill per iteration. */
  lemma HillsSnoc(hills: seq<Hill>, hill: Hill, stream: nat -> Draw, c: nat, n: nat)
    requires hills == FixedHills + RandomHills(stream, c, n)
    requires hill == RandomHill(stream, c + 4 * n)
    ensures hills + [hill] == FixedHills + RandomHills(stream, c, n + 1)
  {
    assert RandomHills(stream, c, n + 1) == RandomHills(stream, c, n) + [RandomHill(stream, c + 4 * n)];
  }

  /** Stamping one more hill on top of a stamped list is stamping the longer list. */
  lemma StampedOnce(hills: seq<Hill>, h: Hill, v: int, x: int, z: int)
    ensures StampAll(v, hills + [h], x, z) == Stamp(StampAll(v, hills, x, z), h, x, z)
  {
    assert (hills + [h])[..|hills|] == hills;
  }

  predicate AnimalOccupied(animals: seq<Animal>, c: Cell)
  {
    exists i :: 0 <= i < |animals| && animals[i].x == c.x && animals[i].z == c.z
  }

  predicate FlowerOccupied(flowers: seq<Flower>, c: Cell)
  {
    exists i :: 0 <= i < |flowers| && flowers[i].x == c.x && flowers[i].z == c.z
  }

  /** The animal of the given kind standing on cell c. */
  function AnimalAt(c: Cell, kind: AnimalKind): Animal
  {
    Animal(c.x, c.z, kind)
  }

  /** The flower accepted at attempt j: the drawn cell and the colour drawn right after it. */
  function FoundFlower(stream: nat -> Draw, c: nat, j: nat): (f: Flower)
    ensures 0 <= f.color < FlowerColors
  {
    var cell := AttemptCell(stream, c, j);
    Flower(cell.x, cell.z, Scale(stream(c + 2 * j + 2), FlowerColors))
  }

  predicate Sized(grid: array2<int>)
  {
    grid.Length0 == WorldSize && grid.Length1 == WorldSize
  }

  /** A WorldSize x WorldSize grid of heights held as values. */
  ghost predicate GridShaped(g: seq<seq<int>>)
  {
    |g| == WorldSize && forall a :: 0 <= a < WorldSize ==> |g[a]| == WorldSize
  }

  /** The heights of a map, as values. */
  ghost function Cells(m: array2<int>): (g: seq<seq<int>>)
    requires Sized(m)
    reads m
    ensures GridShaped(g)
    ensures forall a, b :: 0 <= a < WorldSize && 0 <= b < WorldSize ==> g[a][b] == m[a, b]
  {
    seq(WorldSize, a reads m requires 0 <= a < WorldSize => seq(WorldSize, b reads m requires 0 <= b < WorldSize => m[a, b]))
  }

  /** Every cell of m is its value in init with `hills` stamped on it in order. */
  ghost predicate StampedFrom(m: array2<int>, init: seq<seq<int>>, hills: seq<Hill>)
    requires Sized(m) && GridShaped(init)
    reads m
  {
    forall a, b :: 0 <= a < WorldSize && 0 <= b < WorldSize ==> m[a, b] == StampAll(init[a][b], hills, a, b)
  }

  /** Every in-grid 8-neighbour of c differs from c's height by at most 1. */
  predicate Flat(grid: array2<int>, c: Cell)
    reads grid
    requires Sized(grid) && InGrid(c.x, c.z)
  {
    forall nx, nz :: c.x - 1 <= nx <= c.x + 1 && c.z - 1 <= nz <= c.z + 1 && InGrid(nx, nz) ==>
      Abs(grid[nx, nz] - grid[c.x, c.z]) <= 1
  }

  /** `isSuitableForAnimal(x, z)` against the given animal list. Flowers are not considered. */
  predicate AnimalSuitable(grid: array2<int>, animals: seq<Animal>, c: Cell)
    reads grid
    requires Sized(grid)
  {
    && InGrid(c.x, c.z)
    && !AnimalOccupied(animals, c)
    && 1 <= grid[c.x, c.z] <= 3
    && Flat(grid, c)
  }

  /** `isSuitableForFlower(x, z)` against the given flower list. */
  predicate FlowerSuitable(grid: array2<int>, flowers: seq<Flower>, c: Cell)
    reads grid
    requires Sized(grid)
  {
    && InGrid(c.x, c.z)
    && !FlowerOccupied(flowers, c)
    && 1 <= grid[c.x, c.z] <= 4
  }

  /**
   * The first attempt, from attempt j up to the budget, whose drawn cell is suitable for
   * an animal: the attempt `placeSingleAnimal` accepts when it reaches attempt j.
   */
  function FirstAnimalSpot(grid: array2<int>, animals: seq<Animal>, stream: nat -> Draw, c: nat, j: nat): Option<nat>
    reads grid
    requires Sized(grid)
    decreases MaxAttempts - j
  {
    if j >= MaxAttempts then None
    else if AnimalSuitable(grid, animals, AttemptCell(stream, c, j)) then Some(j)
    else FirstAnimalSpot(grid, animals, stream, c, j + 1)
  }

  /** As `FirstAnimalSpot`, for `placeSingleFlower`. */
  function FirstFlowerSpot(grid: array2<int>, flowers: seq<Flower>, stream: nat -> Draw, c: nat, j: nat): Option<nat>
    reads grid
    requires Sized(grid)
    decreases MaxAttempts - j
  {
    if j >= MaxAttempts then None
    else if FlowerSuitable(grid, flowers, AttemptCell(stream, c, j)) then Some(j)
    else FirstFlowerSpot(grid, flowers, stream, c, j + 1)
  }

  /** One step of the animal search. */
  lemma FirstAnimalSpotStep(grid: array2<int>, animals: seq<Animal>, stream: nat -> Draw, c: nat, j: nat)
    requires Sized(grid) && j < MaxAttempts
    ensures FirstAnimalSpot(grid, animals, stream, c, j) ==
      if AnimalSuitable(grid, animals, AttemptCell(stream, c, j)) then Some(j)
      else FirstAnimalSpot(grid, animals, stream, c, j + 1)
  {
  }

  /** One step of the flower search. */
  lemma FirstFlowerSpotStep(grid: array2<int>, flowers: seq<Flower>, stream: nat -> Draw, c: nat, j: nat)
    requires Sized(grid) && j < MaxAttempts
    ensures FirstFlowerSpot(grid, flowers, stream, c, j) ==
      if FlowerSuitable(grid, flowers, AttemptCell(stream, c, j)) then Some(j)
      else FirstFlowerSpot(grid, flowers, stream, c, j + 1)
  {
  }

  /**
   * The search finds the first attempt from j on whose cell is suitable; it finds
   * nothing only when no attempt's cell within the budget is suitable.
   */
  lemma {:induction false} FirstAnimalSpotSpec(grid: array2<int>, animals: seq<Animal>, stream: nat -> Draw, c: nat, j: nat)
    requires Sized(grid)
    ensures match FirstAnimalSpot(grid, animals, stream, c, j)
      case None => forall i :: j <= i < MaxAttempts ==> !AnimalSuitable(grid, animals, AttemptCell(stream, c, i))
      case Some(k) =>
        && j <= k < MaxAttempts
        && AnimalSuitable(grid, animals, AttemptCell(stream, c, k))
        && forall i :: j <= i < k ==> !AnimalSuitable(grid, animals, AttemptCell(stream, c, i))
    decreases MaxAttempts - j
  {
    if j < MaxAttempts {
      FirstAnimalSpotSpec(grid, animals, stream, c, j + 1);
    }
  }

  /** The flower counterpart of `FirstAnimalSpotSpec`. */
  lemma {:induction false} FirstFlowerSpotSpec(grid: array2<int>, flowers: seq<Flower>, stream: nat -> Draw, c: nat, j: nat)
    requires Sized(grid)
    ensures match FirstFlowerSpot(grid, flowers, stream, c, j)
      case None => forall i :: j <= i < MaxAttempts ==> !FlowerSuitable(grid, flowers, AttemptCell(stream, c, i))
      case Some(k) =>
        && j <= k < MaxAttempts
        && FlowerSuitable(grid, flowers, AttemptCell(stream, c, k))
        && forall i :: j <= i < k ==> !FlowerSuitable(grid, flowers, AttemptCell(stream, c, i))
    decreases MaxAttempts - j
  {
    if j < MaxAttempts {
      FirstFlowerSpotSpec(grid, flowers, stream, c, j + 1);
    }
  }

  /** Every animal was suitable against the animals accepted before it. */
  predicate ValidAnimals(grid: array2<int>, animals: seq<Animal>)
    reads grid
    requires Sized(grid)
  {
    forall i :: 0 <= i < |animals| ==> AnimalSuitable(grid, animals[..i], Cell(animals[i].x, animals[i].z))
  }

  /** Every flower was suitable against the flowers accepted before it and has a colour code in [0, 3). */
  predicate ValidFlowers(grid: array2<int>, flowers: seq<Flower>)
    reads grid
    requires Sized(grid)
  {
    forall i :: 0 <= i < |flowers| ==>
      FlowerSuitable(grid, flowers[..i], Cell(flowers[i].x, flowers[i].z)) && 0 <= flowers[i].color < FlowerColors
  }

  /** The first p animals are pigs, the rest cows; at most 8 pigs and at most 6 cows. */
  predicate SplitAt(animals: seq<Animal>, p: int)
  {
    && 0 <= p <= PigCount && p <= |animals| <= p + CowCount
    && (forall i :: 0 <= i < p ==> animals[i].kind == Pig)
    && (forall i :: p <= i < |animals| ==> animals[i].kind == Cow)
  }

  /** A list of pigs followed by cows, at most 8 pigs, at most 6 cows. */
  predicate PigsThenCows(animals: seq<Animal>)
  {
    exists p :: 0 <= p <= PigCount && SplitAt(animals, p)
  }

  lemma ValidAnimalsExtend(grid: array2<int>, animals: seq<Animal>, a: Animal)
    requires Sized(grid) && ValidAnimals(grid, animals)
    requires AnimalSuitable(grid, animals, Cell(a.x, a.z))
    ensures ValidAnimals(grid, animals + [a])
  {
    var s := animals + [a];
    forall i | 0 <= i < |s|
      ensures AnimalSuitable(grid, s[..i], Cell(s[i].x, s[i].z))
    {
      if i < |animals| { assert s[..i] == animals[..i]; } else { assert s[..i] == animals; }
    }
  }

  lemma ValidFlowersExtend(grid: array2<int>, flowers: seq<Flower>, f: Flower)
    requires Sized(grid) && ValidFlowers(grid, flowers)
    requires FlowerSuitable(grid, flowers, Cell(f.x, f.z)) && 0 <= f.color < FlowerColors
    ensures ValidFlowers(grid, flowers + [f])
  {
    var s := flowers + [f];
    forall i | 0 <= i < |s|
      ensures FlowerSuitable(grid, s[..i], Cell(s[i].x, s[i].z)) && 0 <= s[i].color < FlowerColors
    {
      if i < |flowers| { assert s[..i] == flowers[..i]; } else { assert s[..i] == flowers; }
    }
  }

  /** No two accepted animals share a cell. */
  lemma AcceptedAnimalsDistinct(grid: array2<int>, animals: seq<Animal>, i: nat, j: nat)
    requires Sized(grid) && ValidAnimals(grid, animals)
    requires i < j < |animals|
    ensures animals[i].x != animals[j].x || animals[i].z != animals[j].z
  {
    assert AnimalSuitable(grid, animals[..j], Cell(animals[j].x, animals[j].z));
    assert animals[..j][i] == animals[i];
  }

  /** Every accepted animal stands in the grid, at height 1 to 3, on flat ground. */
  lemma AcceptedAnimalFacts(grid: array2<int>, animals: seq<Animal>, i: nat)
    requires Sized(grid) && ValidAnimals(grid, animals) && i < |animals|
    ensures InGrid(animals[i].x, animals[i].z)
    ensures 1 <= grid[animals[i].x, animals[i].z] <= 3
    ensures Flat(grid, Cell(animals[i].x, animals[i].z))
  {
    assert AnimalSuitable(grid, animals[..i], Cell(animals[i].x, animals[i].z));
  }

  /** No two accepted flowers share a cell. */
  lemma AcceptedFlowersDistinct(grid: array2<int>, flowers: seq<Flower>, i: nat, j: nat)
    requires Sized(grid) && ValidFlowers(grid, flowers)
    requires i < j < |flowers|
    ensures flowers[i].x != flowers[j].x || flowers[i].z != flowers[j].z
  {
    assert FlowerSuitable(grid, flowers[..j], Cell(flowers[j].x, flowers[j].z));
    assert flowers[..j][i] == flowers[i];
  }

  /** Every accepted flower stands in the grid at height 1 to 4 and has colour 0, 1 or 2. */
  lemma AcceptedFlowerFacts(grid: array2<int>, flowers: seq<Flower>, i: nat)
    requires Sized(grid) && ValidFlowers(grid, flowers) && i < |flowers|
    ensures InGrid(flowers[i].x, flowers[i].z)
    ensures 1 <= grid[flowers[i].x, flowers[i].z] <= 4
    ensures flowers[i].color in {0, 1, 2}
  {
    assert FlowerSuitable(grid, flowers[..i], Cell(flowers[i].x, flowers[i].z));
  }

  /**
   * The outcome of the `placeSingleAnimal(kind)` loop once it reaches attempt j with
   * nothing placed: the list it leaves and the oracle cursor after its draws.
   */
  function AnimalSearch(grid: array2<int>, animals: seq<Animal>, stream: nat -> Draw, c: nat, kind: AnimalKind, j: nat): (seq<Animal>, nat)
    reads grid
    requires Sized(grid)
    decreases MaxAttempts - j
  {
    if j >= MaxAttempts then (animals, c + 2 * MaxAttempts)
    else if AnimalSuitable(grid, animals, AttemptCell(stream, c, j)) then
      (animals + [AnimalAt(AttemptCell(stream, c, j), kind)], c + 2 * (j + 1))
    else AnimalSearch(grid, animals, stream, c, kind, j + 1)
  }

  /** One `placeSingleAnimal(kind)` call from cursor c. */
  function AnimalStep(grid: array2<int>, animals: seq<Animal>, stream: nat -> Draw, c: nat, kind: AnimalKind): (seq<Animal>, nat)
    reads grid
    requires Sized(grid)
  {
    AnimalSearch(grid, animals, stream, c, kind, 0)
  }

  /** The loop appends the animal of the first suitable attempt, costing two draws per attempt, or nothing after 50 attempts. */
  lemma {:induction false} AnimalSearchFinds(grid: array2<int>, animals: seq<Animal>, stream: nat -> Draw, c: nat, kind: AnimalKind, j: nat)
    requires Sized(grid)
    ensures AnimalSearch(grid, animals, stream, c, kind, j) ==
      match FirstAnimalSpot(grid, animals, stream, c, j)
      case None => (animals, c + 2 * MaxAttempts)
      case Some(k) => (animals + [AnimalAt(AttemptCell(stream, c, k), kind)], c + 2 * (k + 1))
    decreases MaxAttempts - j
  {
    if j < MaxAttempts {
      AnimalSearchFinds(grid, animals, stream, c, kind, j + 1);
    }
  }

  /** n calls of `placeSingleAnimal(kind)` in a row, starting from the list `animals` and cursor c. */
  function AnimalRun(grid: array2<int>, animals: seq<Animal>, stream: nat -> Draw, c: nat, kind: AnimalKind, n: nat): (seq<Animal>, nat)
    reads grid
    requires Sized(grid)
    decreases n
  {
    if n == 0 then (animals, c)
    else
      var prev := AnimalRun(grid, animals, stream, c, kind, n - 1);
      AnimalStep(grid, prev.0, stream, prev.1, kind)
  }

  /** The list `placeAnimals` builds from cursor c, and the cursor after it: 8 pig placements, then 6 cow placements. */
  function PlacedAnimals(grid: array2<int>, stream: nat -> Draw, c: nat): (seq<Animal>, nat)
    reads grid
    requires Sized(grid)
  {
    var pigs := AnimalRun(grid, [], stream, c, Pig, PigCount);
    AnimalRun(grid, pigs.0, stream, pigs.1, Cow, CowCount)
  }

  /** The outcome of the `placeSingleFlower()` loop once it reaches attempt j with nothing placed. */
  function FlowerSearch(grid: array2<int>, flowers: seq<Flower>, stream: nat -> Draw, c: nat, j: nat): (seq<Flower>, nat)
    reads grid
    requires Sized(grid)
    decreases MaxAttempts - j
  {
    if j >= MaxAttempts then (flowers, c + 2 * MaxAttempts)
    else if FlowerSuitable(grid, flowers, AttemptCell(stream, c, j)) then
      (flowers + [FoundFlower(stream, c, j)], c + 2 * j + 3)
    else FlowerSearch(grid, flowers, stream, c, j + 1)
  }

  /** One `placeSingleFlower()` call from cursor c. */
  function FlowerStep(grid: array2<int>, flowers: seq<Flower>, stream: nat -> Draw, c: nat): (seq<Flower>, nat)
    reads grid
    requires Sized(grid)
  {
    FlowerSearch(grid, flowers, stream, c, 0)
  }

  /** The loop appends the flower of the first suitable attempt, whose colour is a third draw, or nothing after 50 attempts. */
  lemma {:induction false} FlowerSearchFinds(grid: array2<int>, flowers: seq<Flower>, stream: nat -> Draw, c: nat, j: nat)
    requires Sized(grid)
    ensures FlowerSearch(grid, flowers, stream, c, j) ==
      match FirstFlowerSpot(grid, flowers, stream, c, j)
      case None => (flowers, c + 2 * MaxAttempts)
      case Some(k) => (flowers + [FoundFlower(stream, c, k)], c + 2 * k + 3)
    decreases MaxAttempts - j
  {
    if j < MaxAttempts {
      FlowerSearchFinds(grid, flowers, stream, c, j + 1);
    }
  }

  /** n calls of `placeSingleFlower()` in a row. */
  function FlowerRun(grid: array2<int>, flowers: seq<Flower>, stream: nat -> Draw, c: nat, n: nat): (seq<Flower>, nat)
    reads grid
    requires Sized(grid)
    decreases n
  {
    if n == 0 then (flowers, c)
    else
      var prev := FlowerRun(grid, flowers, stream, c, n - 1);
      FlowerStep(grid, prev.0, stream, prev.1)
  }

  /** The list `addFlowers` builds from cursor c, and the cursor after it: 24 flower placements. */
  function PlacedFlowers(grid: array2<int>, stream: nat -> Draw, c: nat): (seq<Flower>, nat)
    reads grid
    requires Sized(grid)
  {
    FlowerRun(grid, [], stream, c, FlowerCount)
  }

  /** One animal placement keeps the list valid, appends at most one animal, of the given kind, and draws 2 to 100 values. */
  lemma AnimalStepFacts(grid: array2<int>, animals: seq<Animal>, stream: nat -> Draw, c: nat, kind: AnimalKind)
    requires Sized(grid) && ValidAnimals(grid, animals)
    ensures var r := AnimalStep(grid, animals, stream, c, kind);
      && ValidAnimals(grid, r.0)
      && (r.0 == animals || (|r.0| == |animals| + 1 && r.0[..|animals|] == animals && r.0[|animals|].kind == kind))
      && c + 2 <= r.1 <= c + 2 * MaxAttempts
  {
    AnimalSearchFinds(grid, animals, stream, c, kind, 0);
    FirstAnimalSpotSpec(grid, animals, stream, c, 0);
    match FirstAnimalSpot(grid, animals, stream, c, 0)
    case None =>
    case Some(j) =>
      var a := AnimalAt(AttemptCell(stream, c, j), kind);
      ValidAnimalsExtend(grid, animals, a);
      assert (animals + [a])[..|animals|] == animals;
  }

  /**
   * n animal placements keep the list valid, only append, append at most n animals,
   * all of the given kind, and draw at least 2 values each.
   */
  lemma {:induction false} AnimalRunFacts(grid: array2<int>, animals: seq<Animal>, stream: nat -> Draw, c: nat, kind: AnimalKind, n: nat)
    requires Sized(grid) && ValidAnimals(grid, animals)
    ensures var r := AnimalRun(grid, animals, stream, c, kind, n);
      && ValidAnimals(grid, r.0)
      && |animals| <= |r.0| <= |animals| + n && animals <= r.0
      && (forall i :: |animals| <= i < |r.0| ==> r.0[i].kind == kind)
      && c + 2 * n <= r.1
    decreases n
  {
    if n > 0 {
      AnimalRunFacts(grid, animals, stream, c, kind, n - 1);
      var prev := AnimalRun(grid, animals, stream, c, kind, n - 1);
      AnimalStepFacts(grid, prev.0, stream, prev.1, kind);
    }
  }

  /** `placeAnimals` yields a valid list of at most 8 pigs followed by at most 6 cows. */
  lemma PlacedAnimalsValid(grid: array2<int>, stream: nat -> Draw, c: nat)
    requires Sized(grid)
    ensures var r := PlacedAnimals(grid, stream, c);
      ValidAnimals(grid, r.0) && PigsThenCows(r.0) && |r.0| <= PigCount + CowCount
      && c + 2 * (PigCount + CowCount) <= r.1
  {
    var pigs := AnimalRun(grid, [], stream, c, Pig, PigCount);
    AnimalRunFacts(grid, [], stream, c, Pig, PigCount);
    AnimalRunFacts(grid, pigs.0, stream, pigs.1, Cow, CowCount);
    var r := AnimalRun(grid, pigs.0, stream, pigs.1, Cow, CowCount);
    forall i | 0 <= i < |pigs.0|
      ensures r.0[i].kind == Pig
    {
      assert r.0[i] == pigs.0[i];
    }
    assert SplitAt(r.0, |pigs.0|);
  }

  /** One flower placement keeps the list valid, appends at most one flower, and draws 3 to 101 values. */
  lemma FlowerStepFacts(grid: array2<int>, flowers: seq<Flower>, stream: nat -> Draw, c: nat)
    requires Sized(grid) && ValidFlowers(grid, flowers)
    ensures var r := FlowerStep(grid, flowers, stream, c);
      && ValidFlowers(grid, r.0)
      && (r.0 == flowers || (|r.0| == |flowers| + 1 && r.0[..|flowers|] == flowers))
      && c + 3 <= r.1 <= c + 2 * MaxAttempts + 1
  {
    FlowerSearchFinds(grid, flowers, stream, c, 0);
    FirstFlowerSpotSpec(grid, flowers, stream, c, 0);
    match FirstFlowerSpot(grid, flowers, stream, c, 0)
    case None =>
    case Some(j) =>
      var f := FoundFlower(stream, c, j);
      ValidFlowersExtend(grid, flowers, f);
      assert (flowers + [f])[..|flowers|] == flowers;
  }

  /** n flower placements keep the list valid, only append, append at most n flowers, and draw at least 3 values each. */
  lemma {:induction false} FlowerRunFacts(grid: array2<int>, flowers: seq<Flower>, stream: nat -> Draw, c: nat, n: nat)
    requires Sized(grid) && ValidFlowers(grid, flowers)
    ensures var r := FlowerRun(grid, flowers, stream, c, n);
      && ValidFlowers(grid, r.0)
      && |flowers| <= |r.0| <= |flowers| + n && flowers <= r.0
      && c + 3 * n <= r.1
    decreases n
  {
    if n > 0 {
      FlowerRunFacts(grid, flowers, stream, c, n - 1);
      var prev := FlowerRun(grid, flowers, stream, c, n - 1);
      FlowerStepFacts(grid, prev.0, stream, prev.1);
    }
  }

  /** `addFlowers` yields a valid list of at most 24 flowers. */
  lemma PlacedFlowersValid(grid: array2<int>, stream: nat -> Draw, c: nat)
    requires Sized(grid)
    ensures var r := PlacedFlowers(grid, stream, c);
      ValidFlowers(grid, r.0) && |r.0| <= FlowerCount
      && c + 3 * FlowerCount <= r.1
  {
    FlowerRunFacts(grid, [], stream, c, FlowerCount);
  }

  /** Every hill of the random loop has radius 2, 3 or 4 and height 1 or 2. */
  lemma {:induction false} RandomHillsShape(stream: nat -> Draw, c: nat, n: nat, i: nat)
    requires i < n
    ensures RandomHills(stream, c, n)[i] == RandomHill(stream, c + 4 * i)
    ensures RandomHills(stream, c, n)[i].radius in {2, 3, 4}
    ensures RandomHills(stream, c, n)[i].height in {1, 2}
  {
    if i < n - 1 {
      RandomHillsShape(stream, c, n - 1, i);
    }
  }

  /** The session's world state: the globals of world.js. */
  class World {
    /** `g_worldMap[x][z]`: the column height of cell (x, z). */
    var worldMap: array2<int>
    var animals: seq<Animal>
    var flowers: seq<Flower>
    var spheres: seq<SphereSpot>
    var dayNightCycle: bool
    var timeOfDay: real

    /** What `initWorldMap` establishes: a 32 x 32 map of heights >= 1 and lists that obey the placement rules. */
    ghost predicate Generated()
      reads this, worldMap
    {
      && Sized(worldMap)
      && (forall x, z :: 0 <= x < WorldSize && 0 <= z < WorldSize ==> worldMap[x, z] >= 1)
      && ValidAnimals(worldMap, animals)
      && ValidFlowers(worldMap, flowers)
    }

    /** The globals before `initWorldMap` runs. */
    constructor ()
      ensures worldMap.Length0 == 0 && worldMap.Length1 == 0
      ensures animals == [] && flowers == [] && spheres == []
      ensures !dayNightCycle && timeOfDay == 0.0
    {
      worldMap := new int[0, 0];
      animals, flowers, spheres := [], [], [];
      dayNightCycle, timeOfDay := false, 0.0;
    }

    /** `toggleDayNight`: flip the cycle flag; turning it off resets the time of day. */
    method ToggleDayNight()
      modifies this`dayNightCycle, this`timeOfDay
      ensures dayNightCycle == !old(dayNightCycle)
      ensures timeOfDay == if dayNightCycle then old(timeOfDay) else 0.0
    {
      dayNightCycle := !dayNightCycle;
      if !dayNightCycle {
        timeOfDay := 0.0;
      }
    }

    /** `addHill`: raise every cell the hill covers to max(old, 1 + increase); no other cell changes. */
    method AddHill(hill: Hill)
      requires Sized(worldMap)
      modifies worldMap
      ensures forall a, b :: 0 <= a < WorldSize && 0 <= b < WorldSize ==>
        worldMap[a, b] == Stamp(old(worldMap[a, b]), hill, a, b)
    {
      var x := Max(0, hill.cx - hill.radius);
      var xEnd := Min(WorldSize, hill.cx + hill.radius);
      while x < xEnd
        invariant 0 <= x
        invariant forall a, b :: 0 <= a < WorldSize && 0 <= b < WorldSize ==>
          worldMap[a, b] == if a < x then Stamp(old(worldMap[a, b]), hill, a, b) else old(worldMap[a, b])
      {
        var z := Max(0, hill.cz - hill.radius);
        var zEnd := Min(WorldSize, hill.cz + hill.radius);
        while z < zEnd
          invariant 0 <= z
          invariant forall a, b :: 0 <= a < WorldSize && 0 <= b < WorldSize ==>
            worldMap[a, b] == if a < x || (a == x && b < z) then Stamp(old(worldMap[a, b]), hill, a, b) else old(worldMap[a, b])
        {
          var d := DistSq(hill, x, z);
          if d < hill.radius * hill.radius {
            worldMap[x, z] := Max(worldMap[x, z], 1 + HeightIncrease(hill, d));
          }
          z := z + 1;
        }
        x := x + 1;
      }
    }

    /** One `addHill` call inside `generateTerrain`: the map goes from `hills` stamped on `init` to `hills + [hill]`. */
    method StampHill(hill: Hill, ghost init: seq<seq<int>>, ghost hills: seq<Hill>)
      requires Sized(worldMap) && GridShaped(init) && StampedFrom(worldMap, init, hills)
      modifies worldMap
      ensures StampedFrom(worldMap, init, hills + [hill])
    {
      AddHill(hill);
      forall a, b | 0 <= a < WorldSize && 0 <= b < WorldSize
        ensures worldMap[a, b] == StampAll(init[a][b], hills + [hill], a, b)
      {
        assert old(worldMap[a, b]) == StampAll(init[a][b], hills, a, b);
        StampedOnce(hills, hill, init[a][b], a, b);
      }
    }

    /** The four draws of one random hill in `generateTerrain`: centre x, centre z, radius, height. */
    static method DrawHill(rng: Random) returns (hill: Hill)
      modifies rng
      ensures hill == RandomHill(rng.stream, old(rng.used)) && rng.used == old(rng.used) + 4
    {
      ghost var c := rng.used;
      var ux := rng.Next();
      var uz := rng.Next();
      var ur := rng.Next();
      var uh := rng.Next();
      hill := Hill(Scale(ux, WorldSize), Scale(uz, WorldSize), 2 + Scale(ur, 3), 1 + Scale(uh, 2));
      assert ux == rng.stream(c) && uz == rng.stream(c + 1) && ur == rng.stream(c + 2) && uh == rng.stream(c + 3);
    }

    /** `generateTerrain`: the six fixed hills, then ten hills drawn from the oracle. */
    method GenerateTerrain(rng: Random) returns (ghost hills: seq<Hill>)
      requires Sized(worldMap)
      modifies worldMap, rng
      ensures hills == FixedHills + RandomHills(rng.stream, old(rng.used), RandomHillCount)
      ensures rng.used == old(rng.used) + 4 * RandomHillCount
      ensures forall a, b :: 0 <= a < WorldSize && 0 <= b < WorldSize ==>
        worldMap[a, b] == StampAll(old(worldMap[a, b]), hills, a, b)
    {
      ghost var init := Cells(worldMap);
      hills := [];
      var i := 0;
      while i < |FixedHills|
        invariant 0 <= i <= |FixedHills| && hills == FixedHills[..i]
        invariant rng.used == old(rng.used)
        invariant StampedFrom(worldMap, init, hills)
      {
        StampHill(FixedHills[i], init, hills);
        hills := hills + [FixedHills[i]];
        i := i + 1;
      }
      var k := 0;
      ghost var c0 := rng.used;
      while k < RandomHillCount
        invariant 0 <= k <= RandomHillCount
        invariant rng.used == c0 + 4 * k
        invariant hills == FixedHills + RandomHills(rng.stream, c0, k)
        invariant StampedFrom(worldMap, init, hills)
      {
        ghost var c := rng.used;
        var hill := DrawHill(rng);
        StampHill(hill, init, hills);
        assert c == c0 + 4 * k;
        HillsSnoc(hills, hill, rng.stream, c0, k);
        hills := hills + [hill];
        k := k + 1;
      }
    }

    /** `isSuitableForAnimal(x, z)`: bounds, no animal there yet, height in [1, 3], flat neighbourhood. */
    method IsSuitableForAnimal(x: int, z: int) returns (ok: bool)
      requires Sized(worldMap)
      ensures ok == AnimalSuitable(worldMap, animals, Cell(x, z))
    {
      if x < 0 || x >= WorldSize || z < 0 || z >= WorldSize {
        return false;
      }
      var i := 0;
      while i < |animals|
        invariant 0 <= i <= |animals|
        invariant forall j :: 0 <= j < i ==> !(animals[j].x == x && animals[j].z == z)
      {
        if animals[i].x == x && animals[i].z == z {
          return false;
        }
        i := i + 1;
      }
      var height := worldMap[x, z];
      if height <= 0 || height > 3 {
        return false;
      }
      var dx := -1;
      while dx <= 1
        invariant -1 <= dx <= 2
        invariant forall nx, nz :: x - 1 <= nx < x + dx && z - 1 <= nz <= z + 1 && InGrid(nx, nz) ==>
          Abs(worldMap[nx, nz] - height) <= 1
      {
        var dz := -1;
        var nx := x + dx;
        while dz <= 1
          invariant -1 <= dz <= 2
          invariant forall nx, nz :: x - 1 <= nx < x + dx && z - 1 <= nz <= z + 1 && InGrid(nx, nz) ==>
            Abs(worldMap[nx, nz] - height) <= 1
          invariant forall nz :: z - 1 <= nz < z + dz && InGrid(nx, nz) ==> Abs(worldMap[nx, nz] - height) <= 1
        {
          var nz := z + dz;
          if nx >= 0 && nx < WorldSize && nz >= 0 && nz < WorldSize {
            if Abs(worldMap[nx, nz] - height) > 1 {
              return false;
            }
          }
          dz := dz + 1;
        }
        dx := dx + 1;
      }
      return true;
    }

    /** `isSuitableForFlower(x, z)`: bounds, no flower there yet, height in [1, 4]. */
    method IsSuitableForFlower(x: int, z: int) returns (ok: bool)
      requires Sized(worldMap)
      ensures ok == FlowerSuitable(worldMap, flowers, Cell(x, z))
    {
      if x < 0 || x >= WorldSize || z < 0 || z >= WorldSize {
        return false;
      }
      var i := 0;
      while i < |flowers|
        invariant 0 <= i <= |flowers|
        invariant forall j :: 0 <= j < i ==> !(flowers[j].x == x && flowers[j].z == z)
      {
        if flowers[i].x == x && flowers[i].z == z {
          return false;
        }
        i := i + 1;
      }
      var height := worldMap[x, z];
      if height <= 0 || height > 4 {
        return false;
      }
      return true;
    }

    /** The two draws of attempt j of a placer that started at cursor c0: `Math.floor(Math.random() * g_worldSize)` for x, then z. */
    static method DrawAttempt(rng: Random, ghost c0: nat, ghost j: nat) returns (x: int, z: int)
      requires rng.used == c0 + 2 * j
      modifies rng
      ensures Cell(x, z) == AttemptCell(rng.stream, c0, j) && rng.used == old(rng.used) + 2
    {
      var ux := rng.Next();
      var uz := rng.Next();
      x, z := Scale(ux, WorldSize), Scale(uz, WorldSize);
    }

    /** The colour draw after an accepted flower cell, `Math.floor(Math.random() * 3)`. */
    static method DrawFlower(rng: Random, x: int, z: int, ghost c0: nat, ghost j: nat) returns (f: Flower)
      requires rng.used == c0 + 2 * j + 2 && Cell(x, z) == AttemptCell(rng.stream, c0, j)
      modifies rng
      ensures f == FoundFlower(rng.stream, c0, j) && rng.used == old(rng.used) + 1
    {
      var uc := rng.Next();
      f := Flower(x, z, Scale(uc, FlowerColors));
    }

    /** One iteration of the `placeSingleAnimal(kind)` loop: draw attempt j's cell and append the animal there if the cell is suitable. */
    method AttemptAnimal(kind: AnimalKind, rng: Random, ghost c0: nat, j: nat) returns (placed: bool)
      requires Sized(worldMap) && j < MaxAttempts && rng.used == c0 + 2 * j
      modifies this`animals, rng
      ensures !placed ==> animals == old(animals) && rng.used == c0 + 2 * (j + 1)
      ensures !placed ==> AnimalSearch(worldMap, old(animals), rng.stream, c0, kind, j) == AnimalSearch(worldMap, old(animals), rng.stream, c0, kind, j + 1)
      ensures placed ==> (animals, rng.used) == AnimalSearch(worldMap, old(animals), rng.stream, c0, kind, j)
    {
      var x, z := DrawAttempt(rng, c0, j);
      var ok := IsSuitableForAnimal(x, z);
      if ok {
        animals := animals + [Animal(x, z, kind)];
      }
      placed := ok;
    }

    /**
     * `placeSingleAnimal(kind)`: at most 50 attempts of two draws each; the first
     * suitable drawn cell is appended, and if none is found nothing is.
     */
    method PlaceSingleAnimal(kind: AnimalKind, rng: Random)
      requires Sized(worldMap)
      modifies this`animals, rng
      ensures (animals, rng.used) == AnimalStep(worldMap, old(animals), rng.stream, old(rng.used), kind)
    {
      ghost var a0, c0 := animals, rng.used;
      var attempts := 0;
      var placed := false;
      while !placed && attempts < MaxAttempts
        invariant 0 <= attempts <= MaxAttempts
        invariant !placed ==> animals == a0 && rng.used == c0 + 2 * attempts
        invariant !placed ==> AnimalSearch(worldMap, a0, rng.stream, c0, kind, attempts) == AnimalStep(worldMap, a0, rng.stream, c0, kind)
        invariant placed ==> (animals, rng.used) == AnimalStep(worldMap, a0, rng.stream, c0, kind)
      {
        placed := AttemptAnimal(kind, rng, c0, attempts);
        attempts := attempts + 1;
      }
    }

    /** One iteration of the `placeSingleFlower()` loop: draw attempt j's cell and, if it is suitable, the colour, and append the flower. */
    method AttemptFlower(rng: Random, ghost c0: nat, j: nat) returns (placed: bool)
      requires Sized(worldMap) && j < MaxAttempts && rng.used == c0 + 2 * j
      modifies this`flowers, rng
      ensures !placed ==> flowers == old(flowers) && rng.used == c0 + 2 * (j + 1)
      ensures !placed ==> FlowerSearch(worldMap, old(flowers), rng.stream, c0, j) == FlowerSearch(worldMap, old(flowers), rng.stream, c0, j + 1)
      ensures placed ==> (flowers, rng.used) == FlowerSearch(worldMap, old(flowers), rng.stream, c0, j)
    {
      var x, z := DrawAttempt(rng, c0, j);
      var ok := IsSuitableForFlower(x, z);
      if ok {
        var flower := DrawFlower(rng, x, z, c0, j);
        flowers := flowers + [flower];
      }
      placed := ok;
    }

    /**
     * `placeSingleFlower()`: like `PlaceSingleAnimal`, but an accepted cell costs a third
     * draw, the colour `Math.floor(Math.random() * 3)`.
     */
    method PlaceSingleFlower(rng: Random)
      requires Sized(worldMap)
      modifies this`flowers, rng
      ensures (flowers, rng.used) == FlowerStep(worldMap, old(flowers), rng.stream, old(rng.used))
    {
      ghost var f0, c0 := flowers, rng.used;
      var attempts := 0;
      var placed := false;
      while !placed && attempts < MaxAttempts
        invariant 0 <= attempts <= MaxAttempts
        invariant !placed ==> flowers == f0 && rng.used == c0 + 2 * attempts
        invariant !placed ==> FlowerSearch(worldMap, f0, rng.stream, c0, attempts) == FlowerStep(worldMap, f0, rng.stream, c0)
        invariant placed ==> (flowers, rng.used) == FlowerStep(worldMap, f0, rng.stream, c0)
      {
        placed := AttemptFlower(rng, c0, attempts);
        attempts := attempts + 1;
      }
    }

    /** One of the two `for` loops of `placeAnimals`: n calls of `placeSingleAnimal(kind)`. */
    method PlaceAnimalsOfKind(kind: AnimalKind, n: nat, rng: Random)
      requires Sized(worldMap)
      modifies this`animals, rng
      ensures (animals, rng.used) == AnimalRun(worldMap, old(animals), rng.stream, old(rng.used), kind, n)
    {
      ghost var a0, c0 := animals, rng.used;
      var i := 0;
      while i < n
        invariant 0 <= i <= n
        invariant (animals, rng.used) == AnimalRun(worldMap, a0, rng.stream, c0, kind, i)
      {
        PlaceSingleAnimal(kind, rng);
        i := i + 1;
      }
    }

    /** `placeAnimals`: reset the list, then try 8 pigs and 6 cows. */
    method PlaceAnimals(rng: Random)
      requires Sized(worldMap)
      modifies this`animals, rng
      ensures (animals, rng.used) == PlacedAnimals(worldMap, rng.stream, old(rng.used))
      ensures ValidAnimals(worldMap, animals) && PigsThenCows(animals) && |animals| <= PigCount + CowCount
    {
      ghost var c0 := rng.used;
      animals := [];
      PlaceAnimalsOfKind(Pig, PigCount, rng);
      PlaceAnimalsOfKind(Cow, CowCount, rng);
      PlacedAnimalsValid(worldMap, rng.stream, c0);
    }

    /** `addFlowers`: reset the list, then try 24 flowers. */
    method AddFlowers(rng: Random)
      requires Sized(worldMap)
      modifies this`flowers, rng
      ensures (flowers, rng.used) == PlacedFlowers(worldMap, rng.stream, old(rng.used))
      ensures ValidFlowers(worldMap, flowers) && |flowers| <= FlowerCount
    {
      ghost var c0 := rng.used;
      flowers := [];
      var i := 0;
      while i < FlowerCount
        invariant 0 <= i <= FlowerCount
        invariant (flowers, rng.used) == FlowerRun(worldMap, [], rng.stream, c0, i)
      {
        ghost var before := (flowers, rng.used);
        PlaceSingleFlower(rng);
        assert FlowerRun(worldMap, [], rng.stream, c0, i + 1) == FlowerStep(worldMap, before.0, rng.stream, before.1);
        i := i + 1;
      }
      PlacedFlowersValid(worldMap, rng.stream, c0);
    }

    /** `addSpheres` (asg4 only): reset the list and push the four spheres. */
    method AddSpheres()
      modifies this`spheres
      ensures spheres == SphereSpots
    {
      spheres := [];
      spheres := spheres + [SphereSpots[0]];
      spheres := spheres + [SphereSpots[1]];
      spheres := spheres + [SphereSpots[2]];
      spheres := spheres + [SphereSpots[3]];
    }

    /** The first loop of `initWorldMap`: a fresh 32 x 32 map whose every height is the base height 1. */
    static method FlatMap() returns (grid: array2<int>)
      ensures fresh(grid) && Sized(grid)
      ensures forall a, b :: 0 <= a < WorldSize && 0 <= b < WorldSize ==> grid[a, b] == 1
    {
      grid := new int[WorldSize, WorldSize];
      var i := 0;
      while i < WorldSize
        invariant 0 <= i <= WorldSize
        invariant forall a, b :: 0 <= a < i && 0 <= b < WorldSize ==> grid[a, b] == 1
        modifies grid
      {
        var j := 0;
        while j < WorldSize
          invariant 0 <= j <= WorldSize
          invariant forall a, b :: 0 <= a < i && 0 <= b < WorldSize ==> grid[a, b] == 1
          invariant forall b :: 0 <= b < j ==> grid[i, b] == 1
          modifies grid
        {
          grid[i, j] := 1;
          j := j + 1;
        }
        i := i + 1;
      }
    }

    /**
     * `initWorldMap` of asg3: a fresh 32 x 32 map of 1s, the terrain, the animals,
     * the flowers.
     */
    method InitWorldMap(rng: Random) returns (ghost hills: seq<Hill>)
      modifies this`worldMap, this`animals, this`flowers, rng
      ensures fresh(worldMap) && Generated()
      ensures hills == FixedHills + RandomHills(rng.stream, old(rng.used), RandomHillCount)
      ensures forall a, b :: 0 <= a < WorldSize && 0 <= b < WorldSize ==> worldMap[a, b] == StampAll(1, hills, a, b)
      ensures var herd := PlacedAnimals(worldMap, rng.stream, old(rng.used) + 4 * RandomHillCount);
        var bed := PlacedFlowers(worldMap, rng.stream, herd.1);
        animals == herd.0 && flowers == bed.0 && rng.used == bed.1
      ensures PigsThenCows(animals) && |animals| <= PigCount + CowCount && |flowers| <= FlowerCount
    {
      var grid := FlatMap();
      worldMap := grid;
      hills := GenerateTerrain(rng);
      forall a, b | 0 <= a < WorldSize && 0 <= b < WorldSize
        ensures worldMap[a, b] >= 1
      {
        StampAllNeverLowers(1, hills, a, b);
      }
      ghost var c1 := rng.used;
      assert c1 == old(rng.used) + 4 * RandomHillCount;
      PlaceAnimals(rng);
      ghost var herd := (animals, rng.used);
      AddFlowers(rng);
      assert herd == PlacedAnimals(worldMap, rng.stream, c1);
    }

    /** `initWorldMap` of asg4: the asg3 version followed by `addSpheres`. */
    method InitWorldMapWithSpheres(rng: Random) returns (ghost hills: seq<Hill>)
      modifies this`worldMap, this`animals, this`flowers, this`spheres, rng
      ensures fresh(worldMap) && Generated()
      ensures hills == FixedHills + RandomHills(rng.stream, old(rng.used), RandomHillCount)
      ensures forall a, b :: 0 <= a < WorldSize && 0 <= b < WorldSize ==> worldMap[a, b] == StampAll(1, hills, a, b)
      ensures var herd := PlacedAnimals(worldMap, rng.stream, old(rng.used) + 4 * RandomHillCount);
        var bed := PlacedFlowers(worldMap, rng.stream, herd.1);
        animals == herd.0 && flowers == bed.0 && rng.used == bed.1
      ensures PigsThenCows(animals) && |animals| <= PigCount + CowCount && |flowers| <= FlowerCount
      ensures spheres == SphereSpots && dayNightCycle == old(dayNightCycle) && timeOfDay == old(timeOfDay)
    {
      hills := InitWorldMap(rng);
      AddSpheres();
    }
  }

  /** `addSpheres` yields exactly four spheres, each with a positive radius. */
  lemma SphereSpotsShape()
    ensures |SphereSpots| == 4
    ensures forall i :: 0 <= i < |SphereSpots| ==> SphereSpots[i].radius > 0.0
  {
  }
}
