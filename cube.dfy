/**
 * The unit cubes of asg3/cube.js and asg2/src/cube.js: constant tables of
 * 36 vertices (6 faces, 2 triangles each) centred on the origin, and the
 * texture-coordinate table of asg3. The table predicates are shared by both
 * cube models.
 */
module CubeMesh {
  /** Every coordinate of the table is -0.5 or 0.5: each vertex is a corner of the unit cube. */
  ghost predicate OnCubeCorners(v: seq<real>)
  {
    forall j :: 0 <= j < |v| ==> v[j] == 0.5 || v[j] == -0.5
  }

  /** Every value of the table is 0 or 1. */
  ghost predicate InUnitSquareCorners(v: seq<real>)
  {
    forall j :: 0 <= j < |v| ==> v[j] == 0.0 || v[j] == 1.0
  }

  /** The six vertices of a face (18 values) all have coordinate `axis` equal to `value`. */
  ghost predicate FaceOnPlane(face: seq<real>, axis: nat, value: real)
    requires |face| == 18 && axis < 3
  {
    forall j :: 0 <= j < 6 ==> face[3 * j + axis] == value
  }

  lemma CornersAppend(a: seq<real>, b: seq<real>)
    requires OnCubeCorners(a) && OnCubeCorners(b)
    ensures OnCubeCorners(a + b)
  {
  }

  lemma UnitAppend(a: seq<real>, b: seq<real>)
    requires InUnitSquareCorners(a) && InUnitSquareCorners(b)
    ensures InUnitSquareCorners(a + b)
  {
  }

  // The faces of `Cube.generateVertices`, two triangles each.
  const Front: seq<real> := [
    -0.5, 0.5, 0.5,    -0.5, -0.5, 0.5,    0.5, -0.5, 0.5,
    -0.5, 0.5, 0.5,    0.5, -0.5, 0.5,     0.5, 0.5, 0.5]
  const Left: seq<real> := [
    -0.5, 0.5, -0.5,   -0.5, -0.5, -0.5,   -0.5, -0.5, 0.5,
    -0.5, 0.5, -0.5,   -0.5, -0.5, 0.5,    -0.5, 0.5, 0.5]
  const Right: seq<real> := [
    0.5, 0.5, 0.5,     0.5, -0.5, 0.5,     0.5, -0.5, -0.5,
    0.5, 0.5, 0.5,     0.5, -0.5, -0.5,    0.5, 0.5, -0.5]
  const Top: seq<real> := [
    -0.5, 0.5, -0.5,   -0.5, 0.5, 0.5,     0.5, 0.5, 0.5,
    -0.5, 0.5, -0.5,   0.5, 0.5, 0.5,      0.5, 0.5, -0.5]
  const Back: seq<real> := [
    0.5, 0.5, -0.5,    0.5, -0.5, -0.5,    -0.5, -0.5, -0.5,
    0.5, 0.5, -0.5,    -0.5, -0.5, -0.5,   -0.5, 0.5, -0.5]
  const Bottom: seq<real> := [
    -0.5, -0.5, 0.5,   -0.5, -0.5, -0.5,   0.5, -0.5, -0.5,
    -0.5, -0.5, 0.5,   0.5, -0.5, -0.5,    0.5, -0.5, 0.5]

  /** The vertex table of `Cube.generateVertices`: front, left, right, top, back and bottom faces. */
  const CubeVertices: seq<real> := Front + Left + Right + Top + Back + Bottom

  // The texture coordinates of each face, in the order of its vertices.
  const FrontUvs: seq<real> := [
    0.0, 1.0,    0.0, 0.0,    1.0, 0.0,
    0.0, 1.0,    1.0, 0.0,    1.0, 1.0]
  const LeftUvs: seq<real> := [
    1.0, 1.0,    1.0, 0.0,    0.0, 0.0,
    1.0, 1.0,    0.0, 0.0,    0.0, 1.0]
  const RightUvs: seq<real> := [
    0.0, 1.0,    0.0, 0.0,    1.0, 0.0,
    0.0, 1.0,    1.0, 0.0,    1.0, 1.0]
  const TopUvs: seq<real> := [
    0.0, 0.0,    0.0, 1.0,    1.0, 1.0,
    0.0, 0.0,    1.0, 1.0,    1.0, 0.0]
  const BackUvs: seq<real> := [
    0.0, 1.0,    0.0, 0.0,    1.0, 0.0,
    0.0, 1.0,    1.0, 0.0,    1.0, 1.0]
  const BottomUvs: seq<real> := [
    1.0, 1.0,    1.0, 0.0,    0.0, 0.0,
    1.0, 1.0,    0.0, 0.0,    0.0, 1.0]

  /** The texture-coordinate table of `Cube.generateUVs`, one (u, v) pair per vertex. */
  const CubeUvs: seq<real> := FrontUvs + LeftUvs + RightUvs + TopUvs + BackUvs + BottomUvs

  /** The vertex count `renderfaster` passes to `drawArrays` without looking at the table. */
  const RenderFasterCount: nat := 36

  /** 108 values, 36 vertices of three coordinates each, all cube corners. */
  lemma CubeVerticesShape()
    ensures |CubeVertices| == 3 * RenderFasterCount
    ensures OnCubeCorners(CubeVertices)
  {
    CornersAppend(Front, Left);
    CornersAppend(Front + Left, Right);
    CornersAppend(Front + Left + Right, Top);
    CornersAppend(Front + Left + Right + Top, Back);
    CornersAppend(Front + Left + Right + Top + Back, Bottom);
  }

  /** Each face of the table lies on its side of the cube: front z = 0.5, left x = -0.5, right x = 0.5. */
  lemma CubeSideFaces()
    ensures FaceOnPlane(Front, 2, 0.5) && FaceOnPlane(Left, 0, -0.5) && FaceOnPlane(Right, 0, 0.5)
  {
  }

  /** Top y = 0.5, back z = -0.5, bottom y = -0.5. */
  lemma CubeOtherFaces()
    ensures FaceOnPlane(Top, 1, 0.5) && FaceOnPlane(Back, 2, -0.5) && FaceOnPlane(Bottom, 1, -0.5)
  {
  }

  /** 72 texture coordinates, one pair per vertex, each 0 or 1. */
  lemma CubeUvsShape()
    ensures 2 * |CubeVertices| == 3 * |CubeUvs|
    ensures InUnitSquareCorners(CubeUvs)
  {
    UnitAppend(FrontUvs, LeftUvs);
    UnitAppend(FrontUvs + LeftUvs, RightUvs);
    UnitAppend(FrontUvs + LeftUvs + RightUvs, TopUvs);
    UnitAppend(FrontUvs + LeftUvs + RightUvs + TopUvs, BackUvs);
    UnitAppend(FrontUvs + LeftUvs + RightUvs + TopUvs + BackUvs, BottomUvs);
  }

  class Cube {
    var vertices: seq<real>
    var uvs: seq<real>
    var color: seq<real>
    var textureNum: int

    /** `new Cube()`: white, solid colour, with both tables loaded. */
    constructor()
      ensures vertices == CubeVertices && uvs == CubeUvs
      ensures color == [1.0, 1.0, 1.0, 1.0] && textureNum == -2
    {
      color := [1.0, 1.0, 1.0, 1.0];
      textureNum := -2;
      vertices := CubeVertices;
      uvs := CubeUvs;
    }

    /** `generateVertices()`. */
    method GenerateVertices()
      modifies this`vertices
      ensures vertices == CubeVertices
    {
      vertices := CubeVertices;
    }

    /** `generateUVs()`. */
    method GenerateUVs()
      modifies this`uvs
      ensures uvs == CubeUvs
    {
      uvs := CubeUvs;
    }

    /** The vertex count `render` passes to `drawArrays`: `vertices.length / 3`, the same as `renderfaster`'s 36 for the cube table. */
    function RenderCount(): (n: int)
      reads this
      ensures vertices == CubeVertices ==> n == RenderFasterCount
      ensures |vertices| % 3 == 0 ==> 3 * n == |vertices|
    {
      |vertices| / 3
    }
  }
}
