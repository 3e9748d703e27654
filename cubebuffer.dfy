/**
 * The shared cube vertex buffer of asg2/src/cube.js: the module-level
 * `cubeBuffer` and `cubeVCount`, set once by `initCubeVertexBuffer` and read
 * by `drawCube`. `gl.createBuffer()` is a parameter: it may return null.
 */
module CubeBuffer {
  import opened Wrappers
  import CubeMesh

  // The faces of the table in `initCubeVertexBuffer`: front, right, back, left, top, bottom.
  const Front: seq<real> := [
    -0.5, -0.5, 0.5,  0.5, -0.5, 0.5,  0.5, 0.5, 0.5,  -0.5, -0.5, 0.5,  0.5, 0.5, 0.5,  -0.5, 0.5, 0.5]
  const Right: seq<real> := [
    0.5, -0.5, 0.5,  0.5, -0.5, -0.5, 0.5, 0.5, -0.5,  0.5, -0.5, 0.5,  0.5, 0.5, -0.5, 0.5, 0.5, 0.5]
  const Back: seq<real> := [
    0.5, -0.5, -0.5, -0.5, -0.5, -0.5, -0.5, 0.5, -0.5,  0.5, -0.5, -0.5, -0.5, 0.5, -0.5, 0.5, 0.5, -0.5]
  const Left: seq<real> := [
    -0.5, -0.5, -0.5, -0.5, -0.5, 0.5, -0.5, 0.5, 0.5,  -0.5, -0.5, -0.5, -0.5, 0.5, 0.5, -0.5, 0.5, -0.5]
  const Top: seq<real> := [
    -0.5, 0.5, 0.5,  0.5, 0.5, 0.5,  0.5, 0.5, -0.5,  -0.5, 0.5, 0.5,  0.5, 0.5, -0.5, -0.5, 0.5, -0.5]
  const Bottom: seq<real> := [
    -0.5, -0.5, -0.5, 0.5, -0.5, -0.5, 0.5, -0.5, 0.5,  -0.5, -0.5, -0.5, 0.5, -0.5, 0.5, -0.5, -0.5, 0.5]

  /** `verts` of `initCubeVertexBuffer`. */
  const Verts: seq<real> := Front + Right + Back + Left + Top + Bottom

  /** 36 vertices of three coordinates, all cube corners. */
  lemma VertsShape()
    ensures |Verts| == 108 && |Verts| / 3 == 36
    ensures CubeMesh.OnCubeCorners(Verts)
  {
    CubeMesh.CornersAppend(Front, Right);
    CubeMesh.CornersAppend(Front + Right, Back);
    CubeMesh.CornersAppend(Front + Right + Back, Left);
    CubeMesh.CornersAppend(Front + Right + Back + Left, Top);
    CubeMesh.CornersAppend(Front + Right + Back + Left + Top, Bottom);
  }

  /** Each face block fixes one axis: front z = 0.5, right x = 0.5, back z = -0.5. */
  lemma VertsSideFaces()
    ensures CubeMesh.FaceOnPlane(Front, 2, 0.5) && CubeMesh.FaceOnPlane(Right, 0, 0.5) && CubeMesh.FaceOnPlane(Back, 2, -0.5)
  {
  }

  /** Left x = -0.5, top y = 0.5, bottom y = -0.5. */
  lemma VertsOtherFaces()
    ensures CubeMesh.FaceOnPlane(Left, 0, -0.5) && CubeMesh.FaceOnPlane(Top, 1, 0.5) && CubeMesh.FaceOnPlane(Bottom, 1, -0.5)
  {
  }

  /** The two module-level variables; `None` is `null`. */
  class SharedCube {
    var cubeBuffer: Option<nat>
    var cubeVCount: int

    /** The count is 0 before the first initialisation and 36, the cube's vertices, after it; a stored buffer always comes with 36. */
    ghost predicate Valid()
      reads this
    {
      (cubeVCount == 0 || cubeVCount == 36) && (cubeBuffer.Some? ==> cubeVCount == 36)
    }

    /** The state before the first call: `cubeBuffer = null`, `cubeVCount = 0`. */
    constructor()
      ensures Valid()
      ensures cubeBuffer == None && cubeVCount == 0
    {
      cubeBuffer := None;
      cubeVCount := 0;
    }

    /** `initCubeVertexBuffer(gl)`: returns at once when a buffer exists; otherwise sets the count and stores what `createBuffer` gave. */
    method InitCubeVertexBuffer(created: Option<nat>)
      requires Valid()
      modifies this
      ensures Valid() && cubeVCount == 36
      ensures old(cubeBuffer).Some? ==> cubeBuffer == old(cubeBuffer) && cubeVCount == old(cubeVCount)
      ensures old(cubeBuffer).None? ==> cubeBuffer == created && cubeVCount == |Verts| / 3
    {
      if cubeBuffer.Some? {
        return;
      }
      var verts := Verts;
      VertsShape();
      cubeVCount := |verts| / 3;
      cubeBuffer := created;
    }

    /** The vertex count `drawCube` passes to `drawArrays`. */
    function DrawCount(): (n: int)
      reads this
      ensures n == cubeVCount
      ensures Valid() ==> 0 <= 3 * n <= |Verts|
      ensures Valid() && cubeBuffer.Some? ==> n == 36 && 3 * n == |Verts|
    {
      VertsShape();
      cubeVCount
    }
  }

  /** Once a buffer exists, every further initialisation leaves both variables as they are. */
  method InitTwice(c: SharedCube, first: Option<nat>, second: Option<nat>)
    requires c.Valid() && c.cubeBuffer == None && first.Some?
    modifies c
    ensures c.cubeBuffer == first && c.cubeVCount == 36 && c.DrawCount() == 36
  {
    c.InitCubeVertexBuffer(first);
    c.InitCubeVertexBuffer(second);
    VertsShape();
  }
}
