/**
 * The single textured triangle of asg3/triangle.js: a default triangle in the
 * z = 0 plane and two setters that accept only arrays of the right length.
 */
module TriangleMesh {
  import opened Geometry

  /** The table of `generateVertices`: top, bottom-left and bottom-right vertices. */
  const DefaultVertices: seq<real> := [
    0.0, 0.5, 0.0,
    -0.5, -0.5, 0.0,
    0.5, -0.5, 0.0
  ]

  /** The table of `generateUVs`, one (u, v) pair per vertex. */
  const DefaultUvs: seq<real> := [
    0.5, 1.0,
    0.0, 0.0,
    1.0, 0.0
  ]

  /** The default triangle lies in z = 0, faces the viewer (counter-clockwise) and has texture coordinates in [0, 1]. */
  lemma DefaultShape()
    ensures |DefaultVertices| == 9 && |DefaultUvs| == 6
    ensures forall m :: 0 <= m < 3 ==> DefaultVertices[3 * m + 2] == 0.0
    ensures var v := DefaultVertices; SignedArea2(v[0], v[1], v[3], v[4], v[6], v[7]) > 0.0
    ensures forall j :: 0 <= j < 6 ==> 0.0 <= DefaultUvs[j] <= 1.0
  {
  }

  /** The default texture coordinates are the positions moved by (0.5, 0.5): the texture covers the triangle's bounding square. */
  lemma DefaultUvsFollowPositions()
    ensures forall m :: 0 <= m < 3 ==> DefaultUvs[2 * m] == DefaultVertices[3 * m] + 0.5 && DefaultUvs[2 * m + 1] == DefaultVertices[3 * m + 1] + 0.5
  {
  }

  class Triangle {
    var vertices: seq<real>
    var uvs: seq<real>
    var color: seq<real>
    var textureNum: int

    /** The shape the setters keep: three vertices of three coordinates and three (u, v) pairs. */
    ghost predicate Valid()
      reads this
    {
      |vertices| == 9 && |uvs| == 6
    }

    /** `new Triangle()`: white, solid colour, the default tables. */
    constructor()
      ensures Valid()
      ensures vertices == DefaultVertices && uvs == DefaultUvs
      ensures color == [1.0, 1.0, 1.0, 1.0] && textureNum == -2
    {
      color := [1.0, 1.0, 1.0, 1.0];
      textureNum := -2;
      vertices := DefaultVertices;
      uvs := DefaultUvs;
    }

    /** `generateVertices()`. */
    method GenerateVertices()
      modifies this`vertices
      ensures vertices == DefaultVertices
    {
      vertices := DefaultVertices;
    }

    /** `generateUVs()`. */
    method GenerateUVs()
      modifies this`uvs
      ensures uvs == DefaultUvs
    {
      uvs := DefaultUvs;
    }

    /** `setVertices(vertices)`: replaces the array exactly when it has 9 values. */
    method SetVertices(v: seq<real>)
      modifies this`vertices
      ensures |v| == 9 ==> vertices == v
      ensures |v| != 9 ==> vertices == old(vertices)
      ensures old(Valid()) ==> Valid()
    {
      if |v| == 9 {
        vertices := v;
      }
    }

    /** `setUVs(uvs)`: replaces the array exactly when it has 6 values. */
    method SetUVs(t: seq<real>)
      modifies this`uvs
      ensures |t| == 6 ==> uvs == t
      ensures |t| != 6 ==> uvs == old(uvs)
      ensures old(Valid()) ==> Valid()
    {
      if |t| == 6 {
        uvs := t;
      }
    }

    /** The vertex count `render` passes to `drawArrays`: always 3, which is every vertex of a valid triangle. */
    function DrawCount(): (n: int)
      reads this
      ensures Valid() ==> 3 * n == |vertices| && 2 * n == |uvs|
    {
      3
    }
  }
}
