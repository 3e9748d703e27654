/**
 * The triangle-fan disc of asg3/circle.js: `segments` triangles, each made of
 * the origin and two consecutive rim points in the z = 0 plane, stored in two
 * Float32Arrays (9 positions and 6 texture coordinates per triangle).
 *
 * `Math.sin` and `Math.cos` are abstract; the model specifies the layout of
 * both arrays, the shared rim points and the validated setters.
 */
module CircleMesh {
  import opened Trigonometry

  /** The angle of rim point i of an n-segment fan: `(i / segments) * Math.PI * 2`. */
  function Angle(n: int, i: int): real
    requires n > 0
  {
    (i as real / n as real) * Pi * 2.0
  }

  /** Rim point i of a fan of radius r: `radius * Math.cos(angle)`, `radius * Math.sin(angle)`. */
  function RimX(t: Trig, r: real, n: int, i: int): real
    requires n > 0
  {
    r * t.cos(Angle(n, i))
  }

  function RimY(t: Trig, r: real, n: int, i: int): real
    requires n > 0
  {
    r * t.sin(Angle(n, i))
  }

  /** The nine position values of triangle i: the centre, then rim points i and i + 1. */
  function FanTriangle(t: Trig, r: real, n: int, i: int): (v: seq<real>)
    requires n > 0
    ensures |v| == 9
  {
    [0.0, 0.0, 0.0, RimX(t, r, n, i), RimY(t, r, n, i), 0.0, RimX(t, r, n, i + 1), RimY(t, r, n, i + 1), 0.0]
  }

  /** The six texture coordinates of triangle i: the centre of the texture, then the two rim points mapped into [0, 1]. */
  function FanUv(t: Trig, n: int, i: int): (v: seq<real>)
    requires n > 0
    ensures |v| == 6
  {
    var u1, v1 := 0.5 + 0.5 * t.cos(Angle(n, i)), 0.5 + 0.5 * t.sin(Angle(n, i));
    var u2, v2 := 0.5 + 0.5 * t.cos(Angle(n, i + 1)), 0.5 + 0.5 * t.sin(Angle(n, i + 1));
    [0.5, 0.5, u1, v1, u2, v2]
  }

  /** Consecutive triangles share a rim point: the second of triangle i is the first of triangle i + 1. */
  lemma RimShared(t: Trig, r: real, n: int, i: int)
    requires n > 0
    ensures FanTriangle(t, r, n, i)[6..9] == FanTriangle(t, r, n, i + 1)[3..6]
    ensures FanUv(t, n, i)[4..6] == FanUv(t, n, i + 1)[2..4]
  {
  }

  /** The texture coordinates of a rim point are its position scaled to the unit circle and moved to the centre of the texture. */
  lemma UvFollowsPosition(t: Trig, r: real, n: int, i: int)
    requires n > 0 && r != 0.0
    ensures FanUv(t, n, i)[2] == 0.5 + 0.5 * (FanTriangle(t, r, n, i)[3] / r)
    ensures FanUv(t, n, i)[3] == 0.5 + 0.5 * (FanTriangle(t, r, n, i)[4] / r)
    ensures FanUv(t, n, i)[4] == 0.5 + 0.5 * (FanTriangle(t, r, n, i)[6] / r)
    ensures FanUv(t, n, i)[5] == 0.5 + 0.5 * (FanTriangle(t, r, n, i)[7] / r)
  {
    var uv, p := FanUv(t, n, i), FanTriangle(t, r, n, i);
    var c1, s1 := t.cos(Angle(n, i)), t.sin(Angle(n, i));
    var c2, s2 := t.cos(Angle(n, i + 1)), t.sin(Angle(n, i + 1));
    assert uv[2] == 0.5 + 0.5 * c1 && uv[3] == 0.5 + 0.5 * s1;
    assert uv[4] == 0.5 + 0.5 * c2 && uv[5] == 0.5 + 0.5 * s2;
    assert p[3] == r * c1 && p[4] == r * s1 && p[6] == r * c2 && p[7] == r * s2;
    Unscale(r, c1);
    Unscale(r, s1);
    Unscale(r, c2);
    Unscale(r, s2);
  }

  lemma Unscale(r: real, c: real)
    requires r != 0.0
    ensures (r * c) / r == c
  {
  }

  /** The first i triangles of an n-segment fan of radius r are in place in a, nine values each. */
  ghost predicate FanFilled(a: seq<real>, t: Trig, r: real, n: int, i: int)
    requires n > 0
  {
    && 9 * i <= |a|
    && forall k, o :: 0 <= k < i && 0 <= o < 9 ==> a[9 * k + o] == FanTriangle(t, r, n, k)[o]
  }

  /** The first i triangles' texture coordinates are in place in a, six values each. */
  ghost predicate FanUvFilled(a: seq<real>, t: Trig, n: int, i: int)
    requires n > 0
  {
    && 6 * i <= |a|
    && forall k, o :: 0 <= k < i && 0 <= o < 6 ==> a[6 * k + o] == FanUv(t, n, k)[o]
  }

  /** Writing triangle i after the first i keeps them and adds it. */
  lemma FanStep(a: seq<real>, before: seq<real>, t: Trig, r: real, n: int, i: int, x1: real, y1: real, x2: real, y2: real)
    requires n > 0 && 0 <= i && |a| == |before| && 9 * i + 9 <= |a|
    requires FanFilled(before, t, r, n, i)
    requires forall j :: 0 <= j < 9 * i ==> a[j] == before[j]
    requires x1 == RimX(t, r, n, i) && y1 == RimY(t, r, n, i)
    requires x2 == RimX(t, r, n, i + 1) && y2 == RimY(t, r, n, i + 1)
    requires a[9 * i] == 0.0 && a[9 * i + 1] == 0.0 && a[9 * i + 2] == 0.0
    requires a[9 * i + 3] == x1 && a[9 * i + 4] == y1 && a[9 * i + 5] == 0.0
    requires a[9 * i + 6] == x2 && a[9 * i + 7] == y2 && a[9 * i + 8] == 0.0
    ensures FanFilled(a, t, r, n, i + 1)
  {
    forall k, o | 0 <= k < i + 1 && 0 <= o < 9
      ensures a[9 * k + o] == FanTriangle(t, r, n, k)[o]
    {
      if k < i {
        assert before[9 * k + o] == FanTriangle(t, r, n, k)[o];
      } else {
      }
    }
  }

  /** Writing the texture coordinates of triangle i after the first i keeps them and adds it. */
  lemma FanUvStep(a: seq<real>, before: seq<real>, t: Trig, n: int, i: int, u1: real, v1: real, u2: real, v2: real)
    requires n > 0 && 0 <= i && |a| == |before| && 6 * i + 6 <= |a|
    requires FanUvFilled(before, t, n, i)
    requires forall j :: 0 <= j < 6 * i ==> a[j] == before[j]
    requires u1 == 0.5 + 0.5 * t.cos(Angle(n, i)) && v1 == 0.5 + 0.5 * t.sin(Angle(n, i))
    requires u2 == 0.5 + 0.5 * t.cos(Angle(n, i + 1)) && v2 == 0.5 + 0.5 * t.sin(Angle(n, i + 1))
    requires a[6 * i] == 0.5 && a[6 * i + 1] == 0.5
    requires a[6 * i + 2] == u1 && a[6 * i + 3] == v1
    requires a[6 * i + 4] == u2 && a[6 * i + 5] == v2
    ensures FanUvFilled(a, t, n, i + 1)
  {
    forall k, o | 0 <= k < i + 1 && 0 <= o < 6
      ensures a[6 * k + o] == FanUv(t, n, k)[o]
    {
      if k < i {
        assert before[6 * k + o] == FanUv(t, n, k)[o];
      } else {
      }
    }
  }

  class Circle {
    /** `this.vertices` and `this.uvs`: Float32Arrays the generators allocate and fill. */
    var vertices: array<real>
    var uvs: array<real>
    var color: seq<real>
    var textureNum: int
    var segments: int
    var radius: real
    const trig: Trig

    /** `this.vertices` holds triangle i's nine values at 9 i to 9 i + 8, for every segment. */
    ghost predicate VerticesFilled()
      reads this`vertices, this`segments, this`radius, vertices
    {
      && segments > 0
      && vertices.Length == 9 * segments
      && FanFilled(vertices[..], trig, radius, segments, segments)
    }

    /** `this.uvs` holds triangle i's six texture coordinates at 6 i to 6 i + 5, for every segment. */
    ghost predicate UvsFilled()
      reads this`uvs, this`segments, uvs
    {
      && segments > 0
      && uvs.Length == 6 * segments
      && FanUvFilled(uvs[..], trig, segments, segments)
    }

    /** The state every public operation keeps: at least three segments, a positive radius and both arrays generated. */
    ghost predicate Valid()
      reads this, vertices, uvs
    {
      segments >= 3 && radius > 0.0 && VerticesFilled() && UvsFilled()
    }

    /** `new Circle()`: white, solid colour, 36 segments of radius 0.5. */
    constructor(trig: Trig)
      ensures this.trig == trig
      ensures color == [1.0, 1.0, 1.0, 1.0] && textureNum == -2
      ensures segments == 36 && radius == 0.5
      ensures Valid()
    {
      this.trig := trig;
      color := [1.0, 1.0, 1.0, 1.0];
      textureNum := -2;
      segments := 36;
      radius := 0.5;
      vertices := new real[0];
      uvs := new real[0];
      new;
      GenerateVertices();
      GenerateUVs();
    }

    /** `generateVertices()`: a fresh array of 9 values per segment, triangle by triangle. */
    method GenerateVertices()
      requires segments > 0
      modifies this`vertices
      ensures fresh(vertices) && VerticesFilled()
    {
      var n, r := segments, radius;
      var numVertices := n * 3;
      var a := new real[numVertices * 3];
      var i := 0;
      while i < n
        invariant 0 <= i <= n
        invariant FanFilled(a[..], trig, r, n, i)
      {
        var angle1 := Angle(n, i);
        var angle2 := Angle(n, i + 1);
        var x1, y1 := r * trig.cos(angle1), r * trig.sin(angle1);
        var x2, y2 := r * trig.cos(angle2), r * trig.sin(angle2);
        ghost var before := a[..];
        PutTriangle(a, i * 9, x1, y1, x2, y2);
        FanStep(a[..], before, trig, r, n, i, x1, y1, x2, y2);
        i := i + 1;
      }
      vertices := a;
    }

    /** The nine writes of one loop iteration of `generateVertices`: the centre, then the two rim points, all with z = 0. */
    static method PutTriangle(a: array<real>, vertexIndex: int, x1: real, y1: real, x2: real, y2: real)
      requires 0 <= vertexIndex && vertexIndex + 9 <= a.Length
      modifies a
      ensures a[vertexIndex] == 0.0 && a[vertexIndex + 1] == 0.0 && a[vertexIndex + 2] == 0.0
      ensures a[vertexIndex + 3] == x1 && a[vertexIndex + 4] == y1 && a[vertexIndex + 5] == 0.0
      ensures a[vertexIndex + 6] == x2 && a[vertexIndex + 7] == y2 && a[vertexIndex + 8] == 0.0
      ensures forall j :: 0 <= j < vertexIndex ==> a[j] == old(a[j])
    {
      a[vertexIndex] := 0.0;
      a[vertexIndex + 1] := 0.0;
      a[vertexIndex + 2] := 0.0;
      a[vertexIndex + 3] := x1;
      a[vertexIndex + 4] := y1;
      a[vertexIndex + 5] := 0.0;
      a[vertexIndex + 6] := x2;
      a[vertexIndex + 7] := y2;
      a[vertexIndex + 8] := 0.0;
    }

    /** `generateUVs()`: a fresh array of 6 texture coordinates per segment, in the order of the vertices. */
    method GenerateUVs()
      requires segments > 0
      modifies this`uvs
      ensures fresh(uvs) && UvsFilled()
    {
      var n := segments;
      var numVertices := n * 3;
      var a := new real[numVertices * 2];
      var i := 0;
      while i < n
        invariant 0 <= i <= n
        invariant FanUvFilled(a[..], trig, n, i)
      {
        var angle1 := Angle(n, i);
        var angle2 := Angle(n, i + 1);
        var u1, v1 := 0.5 + 0.5 * trig.cos(angle1), 0.5 + 0.5 * trig.sin(angle1);
        var u2, v2 := 0.5 + 0.5 * trig.cos(angle2), 0.5 + 0.5 * trig.sin(angle2);
        ghost var before := a[..];
        PutUvs(a, i * 6, u1, v1, u2, v2);
        FanUvStep(a[..], before, trig, n, i, u1, v1, u2, v2);
        i := i + 1;
      }
      uvs := a;
    }

    /** The six writes of one loop iteration of `generateUVs`: the centre of the texture, then the two rim points. */
    static method PutUvs(a: array<real>, uvIndex: int, u1: real, v1: real, u2: real, v2: real)
      requires 0 <= uvIndex && uvIndex + 6 <= a.Length
      modifies a
      ensures a[uvIndex] == 0.5 && a[uvIndex + 1] == 0.5
      ensures a[uvIndex + 2] == u1 && a[uvIndex + 3] == v1
      ensures a[uvIndex + 4] == u2 && a[uvIndex + 5] == v2
      ensures forall j :: 0 <= j < uvIndex ==> a[j] == old(a[j])
    {
      a[uvIndex] := 0.5;
      a[uvIndex + 1] := 0.5;
      a[uvIndex + 2] := u1;
      a[uvIndex + 3] := v1;
      a[uvIndex + 4] := u2;
      a[uvIndex + 5] := v2;
    }

    /** `setSegments(segments)`: below 3 nothing changes; otherwise both arrays are regenerated. */
    method SetSegments(n: int)
      requires Valid()
      modifies this
      ensures Valid()
      ensures n < 3 ==> segments == old(segments) && vertices == old(vertices) && uvs == old(uvs)
      ensures n >= 3 ==> segments == n && fresh(vertices) && fresh(uvs)
      ensures radius == old(radius) && color == old(color) && textureNum == old(textureNum)
    {
      if n >= 3 {
        segments := n;
        GenerateVertices();
        GenerateUVs();
      }
    }

    /** `setRadius(radius)`: a non-positive radius changes nothing; otherwise only the vertices are regenerated. */
    method SetRadius(r: real)
      requires Valid()
      modifies this
      ensures Valid()
      ensures r <= 0.0 ==> radius == old(radius) && vertices == old(vertices)
      ensures r > 0.0 ==> radius == r && fresh(vertices)
      ensures uvs == old(uvs) && segments == old(segments) && color == old(color) && textureNum == old(textureNum)
    {
      if r > 0.0 {
        radius := r;
        GenerateVertices();
      }
    }

    /** The vertex count `render` passes to `drawArrays`: three per segment, one per position triple and per UV pair. */
    function DrawCount(): (n: int)
      reads this, vertices, uvs
      ensures VerticesFilled() ==> 3 * n == vertices.Length
      ensures UvsFilled() ==> 2 * n == uvs.Length
    {
      segments * 3
    }
  }

  /** Every vertex a filled circle holds lies in the z = 0 plane. */
  lemma FlatDisc(c: Circle, m: int)
    requires c.VerticesFilled() && 0 <= m < 3 * c.segments
    ensures c.vertices[3 * m + 2] == 0.0
  {
    var i, p := m / 3, m % 3;
    assert 3 * m + 2 == 9 * i + (3 * p + 2);
    assert c.vertices[9 * i + (3 * p + 2)] == FanTriangle(c.trig, c.radius, c.segments, i)[3 * p + 2];
  }

  /** Every triangle of a filled circle starts at the origin, with texture coordinate (0.5, 0.5). */
  lemma CentreFirst(c: Circle, i: int)
    requires c.VerticesFilled() && c.UvsFilled() && 0 <= i < c.segments
    ensures c.vertices[9 * i] == 0.0 && c.vertices[9 * i + 1] == 0.0 && c.vertices[9 * i + 2] == 0.0
    ensures c.uvs[6 * i] == 0.5 && c.uvs[6 * i + 1] == 0.5
  {
    assert c.vertices[9 * i + 0] == FanTriangle(c.trig, c.radius, c.segments, i)[0];
    assert c.uvs[6 * i + 0] == FanUv(c.trig, c.segments, i)[0];
    assert c.vertices[9 * i + 1] == FanTriangle(c.trig, c.radius, c.segments, i)[1];
    assert c.vertices[9 * i + 2] == FanTriangle(c.trig, c.radius, c.segments, i)[2];
    assert c.uvs[6 * i + 1] == FanUv(c.trig, c.segments, i)[1];
  }

  /** Consecutive triangles of a filled circle share their rim point, in the array itself. */
  lemma ArrayRimShared(c: Circle, i: int)
    requires c.VerticesFilled() && 0 <= i && i + 1 < c.segments
    ensures c.vertices[9 * i + 6] == c.vertices[9 * (i + 1) + 3]
    ensures c.vertices[9 * i + 7] == c.vertices[9 * (i + 1) + 4]
  {
    var t, r, n := c.trig, c.radius, c.segments;
    assert c.vertices[9 * i + 6] == FanTriangle(t, r, n, i)[6];
    assert c.vertices[9 * i + 7] == FanTriangle(t, r, n, i)[7];
    assert c.vertices[9 * (i + 1) + 3] == FanTriangle(t, r, n, i + 1)[3];
    assert c.vertices[9 * (i + 1) + 4] == FanTriangle(t, r, n, i + 1)[4];
    RimShared(t, r, n, i);
  }
}
