/**
 * The mesh layout of asg4/sphere.js: a (L + 1) x (M + 1) grid of vertices
 * (L latitude bands, M longitude bands) with positions, normals and texture
 * coordinates, and two triangles per grid quad in a 16-bit index buffer.
 *
 * `Math.sin` and `Math.cos` are given as two abstract functions; only the
 * layout, the counts, the index topology and the texture coordinates are
 * specified. Vertex k of the grid is latitude k / (M + 1), longitude k % (M + 1);
 * quad q is latitude q / M, longitude q % M.
 */
module SphereMesh {
  import opened Wrappers
  import opened Trigonometry

  /** The largest value plus one a `Uint16Array` entry can hold. */
  const Uint16Range: nat := 0x1_0000

  /** The parameters a sphere's geometry depends on. */
  datatype Shape = Shape(radius: real, lat: nat, long: nat)

  /** The three per-vertex buffers. */
  datatype Attribute = Positions | Normals | Uvs

  /** Values per vertex in each buffer. */
  function Width(b: Attribute): nat
  {
    match b
    case Uvs => 2
    case _ => 3
  }

  /** A shape with at least one band each way: the generator divides by both counts. */
  predicate Banded(s: Shape)
  {
    s.lat > 0 && s.long > 0
  }

  function VertexCount(s: Shape): nat
  {
    (s.lat + 1) * (s.long + 1)
  }

  function QuadCount(s: Shape): nat
  {
    s.lat * s.long
  }

  datatype Point = Point(x: real, y: real, z: real)

  /** The polar angle of latitude a: `latNumber * Math.PI / latitudeBands`. */
  function Theta(s: Shape, a: nat): real
    requires Banded(s)
  {
    (a as real * Pi) / s.lat as real
  }

  /** The azimuth of longitude c: `longNumber * 2 * Math.PI / longitudeBands`. */
  function Phi(s: Shape, c: nat): real
    requires Banded(s)
  {
    (c as real * 2.0 * Pi) / s.long as real
  }

  /** The texture coordinates of longitude c and latitude a: `1 - longNumber / longitudeBands`, `1 - latNumber / latitudeBands`. */
  function TexU(s: Shape, c: nat): real
    requires Banded(s)
  {
    1.0 - c as real / s.long as real
  }

  function TexV(s: Shape, a: nat): real
    requires Banded(s)
  {
    1.0 - a as real / s.lat as real
  }

  /** The unit-sphere point at latitude a and longitude b: (cos phi sin theta, cos theta, sin phi sin theta). */
  function UnitPoint(s: Shape, t: Trig, a: nat, b: nat): Point
    requires Banded(s)
  {
    var sinTheta, cosTheta := t.sin(Theta(s, a)), t.cos(Theta(s, a));
    var sinPhi, cosPhi := t.sin(Phi(s, b)), t.cos(Phi(s, b));
    Point(cosPhi * sinTheta, cosTheta, sinPhi * sinTheta)
  }

  /** The values one grid vertex contributes to buffer b. */
  function VertexValues(s: Shape, t: Trig, b: Attribute, a: nat, c: nat): (r: seq<real>)
    requires Banded(s)
    ensures |r| == Width(b)
  {
    match b
    case Positions =>
      var p := UnitPoint(s, t, a, c);
      [s.radius * p.x, s.radius * p.y, s.radius * p.z]
    case Normals =>
      var p := UnitPoint(s, t, a, c);
      [p.x, p.y, p.z]
    case Uvs => [TexU(s, c), TexV(s, a)]
  }

  /** The values of grid vertex k in buffer b. */
  function Chunk(s: Shape, t: Trig, b: Attribute, k: nat): (r: seq<real>)
    requires Banded(s)
    ensures |r| == Width(b)
  {
    VertexValues(s, t, b, k / (s.long + 1), k % (s.long + 1))
  }

  /** Row a of buffer b: the values of longitudes 0 to c - 1 at latitude a, in generation order. */
  function Row(s: Shape, t: Trig, b: Attribute, a: nat, c: nat): seq<real>
    requires Banded(s)
  {
    if c == 0 then [] else Row(s, t, b, a, c - 1) + VertexValues(s, t, b, a, c - 1)
  }

  /** Buffer b for latitudes 0 to a - 1, each with all M + 1 longitudes. */
  function Rows(s: Shape, t: Trig, b: Attribute, a: nat): seq<real>
    requires Banded(s)
  {
    if a == 0 then [] else Rows(s, t, b, a - 1) + Row(s, t, b, a - 1, s.long + 1)
  }

  /** The whole buffer b `generateSphere` builds. */
  function Buffer(s: Shape, t: Trig, b: Attribute): seq<real>
    requires Banded(s)
  {
    Rows(s, t, b, s.lat + 1)
  }

  /** The six indices of quad (a, c): (first, second, first + 1) and (second, second + 1, first + 1). */
  function QuadAt(s: Shape, a: nat, c: nat): (r: seq<int>)
    ensures |r| == 6
  {
    var first := a * (s.long + 1) + c;
    var second := first + s.long + 1;
    [first, second, first + 1, second, second + 1, first + 1]
  }

  function Quad(s: Shape, q: nat): (r: seq<int>)
    requires Banded(s)
    ensures |r| == 6
  {
    QuadAt(s, q / s.long, q % s.long)
  }

  /** The index list for the first n quads, before the conversion to 16 bits. */
  function Indices(s: Shape, n: nat): seq<int>
    requires Banded(s)
  {
    if n == 0 then [] else Indices(s, n - 1) + Quad(s, n - 1)
  }

  /** `new Uint16Array(indices)`: every entry taken modulo 2^16. */
  function ToUint16(a: seq<int>): (r: seq<int>)
    ensures |r| == |a|
    ensures forall i :: 0 <= i < |a| ==> r[i] == a[i] % Uint16Range
  {
    if a == [] then [] else ToUint16(a[..|a| - 1]) + [a[|a| - 1] % Uint16Range]
  }

  // ---------------------------------------------------------------------------
  // Arithmetic of the grid numbering

  lemma MulMono(x: int, y: int, d: nat)
    ensures x <= y ==> x * d <= y * d
  {
    if x <= y {
      assert y * d == x * d + (y - x) * d;
    }
  }

  /** Position a * d + c with c < d has quotient a and remainder c. */
  lemma DivModOf(a: nat, c: nat, d: nat)
    requires c < d
    ensures (a * d + c) / d == a && (a * d + c) % d == c
  {
    var n := a * d + c;
    MulMono(n / d + 1, a, d);
    MulMono(a + 1, n / d, d);
  }

  /** The row of an index below rows * d is below rows. */
  lemma RowBelow(k: nat, rows: nat, d: nat)
    requires d > 0 && k < rows * d
    ensures k / d < rows
  {
    MulMono(rows, k / d, d);
  }

  // ---------------------------------------------------------------------------
  // Counts

  lemma SlotBelow(w: nat, j: nat, n: nat, i: nat)
    requires i < w && j < n
    ensures w * j + i < w * n
  {
    MulMono(j + 1, n, w);
    assert w * (j + 1) == w * j + w;
  }

  lemma {:induction false} RowLength(s: Shape, t: Trig, b: Attribute, a: nat, c: nat)
    requires Banded(s)
    ensures |Row(s, t, b, a, c)| == Width(b) * c
  {
    if c > 0 {
      RowLength(s, t, b, a, c - 1);
    }
  }

  lemma {:induction false} RowsLength(s: Shape, t: Trig, b: Attribute, a: nat)
    requires Banded(s)
    ensures |Rows(s, t, b, a)| == Width(b) * (a * (s.long + 1))
  {
    if a > 0 {
      RowsLength(s, t, b, a - 1);
      RowLength(s, t, b, a - 1, s.long + 1);
      assert Width(b) * ((a - 1) * (s.long + 1)) + Width(b) * (s.long + 1) == Width(b) * (a * (s.long + 1));
    }
  }

  /** Each buffer holds Width(b) values per vertex: 3 (L + 1)(M + 1) positions and normals, 2 (L + 1)(M + 1) UVs. */
  lemma BufferLength(s: Shape, t: Trig, b: Attribute)
    requires Banded(s)
    ensures |Buffer(s, t, b)| == Width(b) * VertexCount(s)
  {
    RowsLength(s, t, b, s.lat + 1);
  }

  lemma {:induction false} RowAt(s: Shape, t: Trig, b: Attribute, a: nat, c: nat, c0: nat, i: nat)
    requires Banded(s) && c0 < c && i < Width(b)
    ensures Width(b) * c0 + i < |Row(s, t, b, a, c)|
    ensures Row(s, t, b, a, c)[Width(b) * c0 + i] == VertexValues(s, t, b, a, c0)[i]
  {
    RowLength(s, t, b, a, c);
    RowLength(s, t, b, a, c - 1);
    SlotBelow(Width(b), c0, c, i);
    if c0 < c - 1 {
      RowAt(s, t, b, a, c - 1, c0, i);
    }
  }

  /** The rows generated first stay a prefix of the buffer. */
  lemma {:induction false} RowsPrefix(s: Shape, t: Trig, b: Attribute, a0: nat, a: nat)
    requires Banded(s) && a0 <= a
    ensures Rows(s, t, b, a0) <= Rows(s, t, b, a)
  {
    if a0 < a {
      RowsPrefix(s, t, b, a0, a - 1);
    }
  }

  /** Value i of vertex k sits at Width(b) * k + i of the buffer. */
  lemma BufferAt(s: Shape, t: Trig, b: Attribute, k: nat, i: nat)
    requires Banded(s) && k < VertexCount(s) && i < Width(b)
    ensures Width(b) * k + i < |Buffer(s, t, b)|
    ensures Buffer(s, t, b)[Width(b) * k + i] == Chunk(s, t, b, k)[i]
  {
    var d := s.long + 1;
    RowBelow(k, s.lat + 1, d);
    GridAt(s, t, b, k / d, k % d, i);
    IndexSplit(k, d, Width(b), i);
  }

  /** Value i of the vertex at latitude a0, longitude c0 sits after the a0 rows before it. */
  lemma GridAt(s: Shape, t: Trig, b: Attribute, a0: nat, c0: nat, i: nat)
    requires Banded(s) && a0 <= s.lat && c0 < s.long + 1 && i < Width(b)
    ensures Width(b) * (a0 * (s.long + 1)) + (Width(b) * c0 + i) < |Buffer(s, t, b)|
    ensures Buffer(s, t, b)[Width(b) * (a0 * (s.long + 1)) + (Width(b) * c0 + i)] == VertexValues(s, t, b, a0, c0)[i]
  {
    var d := s.long + 1;
    RowsLength(s, t, b, a0);
    RowLength(s, t, b, a0, d);
    RowAt(s, t, b, a0, d, c0, i);
    RowsPrefix(s, t, b, a0 + 1, s.lat + 1);
    var pre, row := Rows(s, t, b, a0), Row(s, t, b, a0, d);
    assert Rows(s, t, b, a0 + 1) == pre + row;
    PrefixAt(pre, row, Buffer(s, t, b), Width(b) * c0 + i);
  }

  /** Index w k + i, split at the row of k. */
  lemma IndexSplit(k: nat, d: nat, w: nat, i: nat)
    requires d > 0
    ensures w * k + i == w * (k / d * d) + (w * (k % d) + i)
  {
    DivSplit(k, d);
    Distribute(w, k / d * d, k % d, i);
  }

  lemma DivSplit(k: nat, d: nat)
    requires d > 0
    ensures k == k / d * d + k % d
  {
  }

  lemma Distribute(w: nat, x: nat, c: nat, i: nat)
    ensures w * (x + c) + i == w * x + (w * c + i)
  {
  }

  /** An element of a block that follows a prefix of a sequence sits after that prefix. */
  lemma PrefixAt(pre: seq<real>, block: seq<real>, full: seq<real>, j: nat)
    requires pre + block <= full && j < |block|
    ensures |pre| + j < |full| && full[|pre| + j] == block[j]
  {
    assert (pre + block)[|pre| + j] == block[j];
  }

  lemma {:induction false} IndicesLength(s: Shape, n: nat)
    requires Banded(s)
    ensures |Indices(s, n)| == 6 * n
  {
    if n > 0 {
      IndicesLength(s, n - 1);
    }
  }

  /** Index i of quad q sits at 6 q + i of the index list. */
  lemma {:induction false} IndicesAt(s: Shape, n: nat, q: nat, i: nat)
    requires Banded(s) && q < n && i < 6
    ensures 6 * n == |Indices(s, n)|
    ensures Indices(s, n)[6 * q + i] == Quad(s, q)[i]
  {
    IndicesLength(s, n);
    IndicesLength(s, n - 1);
    if q < n - 1 {
      IndicesAt(s, n - 1, q, i);
    }
  }

  // ---------------------------------------------------------------------------
  // Topology and texture coordinates

  /** Every index of a quad of the grid names an existing vertex. */
  lemma QuadInRange(s: Shape, q: nat)
    requires Banded(s) && q < QuadCount(s)
    ensures forall i :: 0 <= i < 6 ==> 0 <= Quad(s, q)[i] < VertexCount(s)
  {
    var a, c := q / s.long, q % s.long;
    RowBelow(q, s.lat, s.long);
    QuadAtInRange(s, a, c);
  }

  lemma QuadAtInRange(s: Shape, a: nat, c: nat)
    requires a < s.lat && c < s.long
    ensures forall i :: 0 <= i < 6 ==> 0 <= QuadAt(s, a, c)[i] < VertexCount(s)
  {
    var d := s.long + 1;
    MulMono(a, s.lat - 1, d);
    assert VertexCount(s) == (s.lat - 1) * d + 2 * d by {
      assert (s.lat + 1) * d == (s.lat - 1) * d + 2 * d;
    }
    var first := a * d + c;
    assert 0 <= first && first + d + 1 < VertexCount(s);
  }

  /** Every entry of the index buffer is below the vertex count. */
  lemma IndicesInRange(s: Shape, j: nat)
    requires Banded(s) && j < |Indices(s, QuadCount(s))|
    ensures 0 <= Indices(s, QuadCount(s))[j] < VertexCount(s)
  {
    IndicesLength(s, QuadCount(s));
    var q, i := j / 6, j % 6;
    RowBelow(j, QuadCount(s), 6);
    IndicesAt(s, QuadCount(s), q, i);
    QuadInRange(s, q);
  }

  /** Quad number a * M + c is the quad at latitude a, longitude c. */
  lemma QuadNumbering(s: Shape, a: nat, c: nat)
    requires Banded(s) && c < s.long
    ensures Quad(s, a * s.long + c) == QuadAt(s, a, c)
  {
    DivModOf(a, c, s.long);
  }

  /** Both texture coordinates of every grid vertex lie in [0, 1]. */
  lemma UvInUnit(s: Shape, t: Trig, k: nat)
    requires Banded(s) && k < VertexCount(s)
    ensures 0.0 <= Chunk(s, t, Uvs, k)[0] <= 1.0 && 0.0 <= Chunk(s, t, Uvs, k)[1] <= 1.0
  {
    var a, c := k / (s.long + 1), k % (s.long + 1);
    RowBelow(k, s.lat + 1, s.long + 1);
    FractionInUnit(c, s.long);
    FractionInUnit(a, s.lat);
  }

  lemma FractionInUnit(a: nat, n: nat)
    requires 0 < n && a <= n
    ensures 0.0 <= a as real / n as real <= 1.0
  {
  }

  /** With at most 2^16 vertices the 16-bit conversion changes no index. */
  lemma NoWrap(s: Shape)
    requires Banded(s) && VertexCount(s) <= Uint16Range
    ensures ToUint16(Indices(s, QuadCount(s))) == Indices(s, QuadCount(s))
  {
    var a := Indices(s, QuadCount(s));
    forall j | 0 <= j < |a|
      ensures 0 <= a[j] < Uint16Range
    {
      IndicesInRange(s, j);
    }
    SmallKept(a);
  }

  /** Entries already in [0, 2^16) pass the 16-bit conversion unchanged. */
  lemma SmallKept(a: seq<int>)
    requires forall j :: 0 <= j < |a| ==> 0 <= a[j] < Uint16Range
    ensures ToUint16(a) == a
  {
    forall j | 0 <= j < |a|
      ensures ToUint16(a)[j] == a[j]
    {
      ModSmall(a[j]);
    }
  }

  lemma ModSmall(x: int)
    requires 0 <= x < Uint16Range
    ensures x % Uint16Range == x
  {
  }

  /** The default 30 x 30 sphere has 961 vertices and 5400 indices, all kept by the 16-bit buffer. */
  lemma DefaultSphereFits(radius: real)
    ensures VertexCount(Shape(radius, 30, 30)) == 961 && QuadCount(Shape(radius, 30, 30)) * 6 == 5400
    ensures ToUint16(Indices(Shape(radius, 30, 30), 900)) == Indices(Shape(radius, 30, 30), 900)
  {
    NoWrap(Shape(radius, 30, 30));
  }

  class Sphere {
    var radius: real
    var latitudeBands: nat
    var longitudeBands: nat
    var vertices: seq<real>
    var normals: seq<real>
    var uvs: seq<real>
    var indices: seq<int>
    /** The WebGL buffers `render` creates on demand; None is `null`. */
    var vertexBuffer: Option<nat>
    var normalBuffer: Option<nat>
    var uvBuffer: Option<nat>
    var indexBuffer: Option<nat>
    var color: seq<real>
    var textureNum: int
    const trig: Trig

    function CurrentShape(): Shape
      reads this`radius, this`latitudeBands, this`longitudeBands
    {
      Shape(radius, latitudeBands, longitudeBands)
    }

    /** The four geometry arrays are what `generateSphere` computes from the current shape. */
    ghost predicate Generated()
      reads this`radius, this`latitudeBands, this`longitudeBands
      reads this`vertices, this`normals, this`uvs, this`indices
    {
      && Banded(CurrentShape())
      && vertices == Buffer(CurrentShape(), trig, Positions)
      && normals == Buffer(CurrentShape(), trig, Normals)
      && uvs == Buffer(CurrentShape(), trig, Uvs)
      && indices == ToUint16(Indices(CurrentShape(), QuadCount(CurrentShape())))
    }

    ghost predicate BuffersReset()
      reads this`vertexBuffer, this`normalBuffer, this`uvBuffer, this`indexBuffer
    {
      vertexBuffer == None && normalBuffer == None && uvBuffer == None && indexBuffer == None
    }

    /** `new Sphere(radius, latitudeBands, longitudeBands)` (defaults 0.5, 30, 30): white, solid colour, no buffers. */
    constructor (radius: real, latitudeBands: nat, longitudeBands: nat, trig: Trig)
      requires latitudeBands > 0 && longitudeBands > 0
      ensures this.radius == radius && this.latitudeBands == latitudeBands && this.longitudeBands == longitudeBands
      ensures this.trig == trig && Generated() && BuffersReset()
      ensures color == [1.0, 1.0, 1.0, 1.0] && textureNum == -2
    {
      this.radius := radius;
      this.latitudeBands := latitudeBands;
      this.longitudeBands := longitudeBands;
      this.trig := trig;
      vertexBuffer, normalBuffer, uvBuffer, indexBuffer := None, None, None, None;
      color := [1.0, 1.0, 1.0, 1.0];
      textureNum := -2;
      new;
      GenerateSphere();
    }

    /** `generateSphere()`: the vertex loops over the grid, then the index loops over the quads. */
    method GenerateSphere()
      requires Banded(CurrentShape())
      modifies this`vertices, this`normals, this`uvs, this`indices
      ensures Generated()
    {
      var vs, ns, ts := GenerateVertices(CurrentShape(), trig);
      var ix := GenerateIndices();
      vertices, normals, uvs := vs, ns, ts;
      indices := ToUint16(ix);
    }

    /** The inner-loop body of `generateSphere`: the values of one vertex for the three buffers. */
    static method VertexAt(s: Shape, trig: Trig, sinTheta: real, cosTheta: real, latNumber: nat, longNumber: nat)
      returns (pos: seq<real>, nrm: seq<real>, uv: seq<real>)
      requires Banded(s)
      requires sinTheta == trig.sin(Theta(s, latNumber)) && cosTheta == trig.cos(Theta(s, latNumber))
      ensures pos == VertexValues(s, trig, Positions, latNumber, longNumber)
      ensures nrm == VertexValues(s, trig, Normals, latNumber, longNumber)
      ensures uv == VertexValues(s, trig, Uvs, latNumber, longNumber)
    {
      var phi := Phi(s, longNumber);
      var sinPhi, cosPhi := trig.sin(phi), trig.cos(phi);
      var x, y, z := cosPhi * sinTheta, cosTheta, sinPhi * sinTheta;
      var u, v := TexU(s, longNumber), TexV(s, latNumber);
      assert UnitPoint(s, trig, latNumber, longNumber) == Point(x, y, z);
      pos, nrm, uv := [s.radius * x, s.radius * y, s.radius * z], [x, y, z], [u, v];
      assert |pos| == 3;
      assert pos[0] == VertexValues(s, trig, Positions, latNumber, longNumber)[0];
      assert pos[1] == VertexValues(s, trig, Positions, latNumber, longNumber)[1];
      assert pos[2] == VertexValues(s, trig, Positions, latNumber, longNumber)[2];
    }

    /** The first pair of loops of `generateSphere`: one vertex per grid point, row by row. */
    static method GenerateVertices(s: Shape, trig: Trig) returns (vs: seq<real>, ns: seq<real>, ts: seq<real>)
      requires Banded(s)
      ensures vs == Buffer(s, trig, Positions) && ns == Buffer(s, trig, Normals) && ts == Buffer(s, trig, Uvs)
    {
      vs, ns, ts := [], [], [];
      var latNumber := 0;
      while latNumber <= s.lat
        invariant 0 <= latNumber <= s.lat + 1
        invariant vs == Rows(s, trig, Positions, latNumber)
        invariant ns == Rows(s, trig, Normals, latNumber)
        invariant ts == Rows(s, trig, Uvs, latNumber)
      {
        vs, ns, ts := AppendRow(s, trig, latNumber, vs, ns, ts);
        latNumber := latNumber + 1;
      }
    }

    /** One iteration of the outer vertex loop: the buffers built so far extended by latitude row latNumber. */
    static method AppendRow(s: Shape, trig: Trig, latNumber: nat, vs: seq<real>, ns: seq<real>, ts: seq<real>)
      returns (vs': seq<real>, ns': seq<real>, ts': seq<real>)
      requires Banded(s)
      ensures vs' == vs + Row(s, trig, Positions, latNumber, s.long + 1)
      ensures ns' == ns + Row(s, trig, Normals, latNumber, s.long + 1)
      ensures ts' == ts + Row(s, trig, Uvs, latNumber, s.long + 1)
    {
      var theta := Theta(s, latNumber);
      var sinTheta, cosTheta := trig.sin(theta), trig.cos(theta);
      var pos, nrm, uv := RowVertices(s, trig, sinTheta, cosTheta, latNumber);
      vs', ns', ts' := vs + pos, ns + nrm, ts + uv;
    }

    /** The inner loop of the first pair: the values of one latitude row, longitudes 0 to M. */
    static method RowVertices(s: Shape, trig: Trig, sinTheta: real, cosTheta: real, latNumber: nat)
      returns (pos: seq<real>, nrm: seq<real>, uv: seq<real>)
      requires Banded(s)
      requires sinTheta == trig.sin(Theta(s, latNumber)) && cosTheta == trig.cos(Theta(s, latNumber))
      ensures pos == Row(s, trig, Positions, latNumber, s.long + 1)
      ensures nrm == Row(s, trig, Normals, latNumber, s.long + 1)
      ensures uv == Row(s, trig, Uvs, latNumber, s.long + 1)
    {
      pos, nrm, uv := [], [], [];
      var longNumber := 0;
      while longNumber <= s.long
        invariant 0 <= longNumber <= s.long + 1
        invariant pos == Row(s, trig, Positions, latNumber, longNumber)
        invariant nrm == Row(s, trig, Normals, latNumber, longNumber)
        invariant uv == Row(s, trig, Uvs, latNumber, longNumber)
      {
        var p, n, t := VertexAt(s, trig, sinTheta, cosTheta, latNumber, longNumber);
        pos, nrm, uv := pos + p, nrm + n, uv + t;
        longNumber := longNumber + 1;
      }
    }

    /** The second pair of loops of `generateSphere`: two triangles per quad, row by row. */
    method GenerateIndices() returns (ix: seq<int>)
      requires Banded(CurrentShape())
      ensures ix == Indices(CurrentShape(), QuadCount(CurrentShape()))
    {
      var s := CurrentShape();
      var m := longitudeBands;
      ix := [];
      var latNumber := 0;
      while latNumber < latitudeBands
        invariant 0 <= latNumber <= latitudeBands
        invariant ix == Indices(s, latNumber * m)
      {
        var longNumber := 0;
        while longNumber < longitudeBands
          invariant 0 <= longNumber <= m
          invariant ix == Indices(s, latNumber * m + longNumber)
        {
          var first := (latNumber * (longitudeBands + 1)) + longNumber;
          var second := first + longitudeBands + 1;
          DivModOf(latNumber, longNumber, m);
          ix := ix + [first, second, first + 1, second, second + 1, first + 1];
          longNumber := longNumber + 1;
        }
        assert latNumber * m + m == (latNumber + 1) * m;
        latNumber := latNumber + 1;
      }
    }

    /** The `drawElements` count of `render`: the length of the index buffer. */
    function DrawCount(): (n: nat)
      reads this`radius, this`latitudeBands, this`longitudeBands
      reads this`vertices, this`normals, this`uvs, this`indices
      requires Generated()
      ensures n == 6 * latitudeBands * longitudeBands
    {
      IndicesLength(CurrentShape(), QuadCount(CurrentShape()));
      |indices|
    }

    /** `setRadius(radius)`: regenerate the geometry for the new radius and drop the buffers. */
    method SetRadius(radius: real)
      requires Banded(CurrentShape())
      modifies this
      ensures this.radius == radius
      ensures latitudeBands == old(latitudeBands) && longitudeBands == old(longitudeBands)
      ensures Generated() && BuffersReset()
      ensures color == old(color) && textureNum == old(textureNum)
    {
      this.radius := radius;
      vertexBuffer, normalBuffer, uvBuffer, indexBuffer := None, None, None, None;
      GenerateSphere();
    }

    /** `setResolution(latBands, longBands)`: regenerate the geometry for the new band counts and drop the buffers. */
    method SetResolution(latBands: nat, longBands: nat)
      requires latBands > 0 && longBands > 0
      modifies this
      ensures latitudeBands == latBands && longitudeBands == longBands
      ensures radius == old(radius)
      ensures Generated() && BuffersReset()
      ensures color == old(color) && textureNum == old(textureNum)
    {
      latitudeBands := latBands;
      longitudeBands := longBands;
      vertexBuffer, normalBuffer, uvBuffer, indexBuffer := None, None, None, None;
      GenerateSphere();
    }
  }

  /** The default band count of both `latitudeBands` and `longitudeBands`. */
  const DefaultBands: nat := 30

  /** `new Sphere(radius)`, as `drawSpheres` calls it: the other two arguments take their defaults. */
  method SphereOfRadius(radius: real, trig: Trig) returns (s: Sphere)
    ensures fresh(s) && s.radius == radius && s.latitudeBands == DefaultBands && s.longitudeBands == DefaultBands
    ensures s.Generated() && s.BuffersReset()
  {
    s := new Sphere(radius, DefaultBands, DefaultBands, trig);
  }
}
