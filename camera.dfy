/**
 * The first-person camera of asg4/camera.js: eye and look-at points moved
 * together, a mouse-look latch with a clamped pitch accumulator, a jump
 * state machine, and a grid collision query.
 *
 * `Vector3.normalize` and the rotation of a direction by `Matrix4.setRotate(angle, axis)`
 * belong to cuon-matrix, which is not part of this model: the camera is given them
 * as two functions, `normalize` and `rotate`, and nothing is assumed about them.
 */
module FirstPersonCamera {
  import opened Vectors
  import opened Wrappers

  /** The pitch accumulator is kept in [-PitchLimit, PitchLimit] degrees. */
  const PitchLimit: real := 89.0

  /** The eye height a landing snaps back to. */
  const GroundLevel: real := 2.0

  /** Initial upward velocity of a jump and its loss per tick. */
  const JumpStart: real := 0.2
  const Gravity: real := 0.01

  /** A jump started from rest lands on this tick. */
  const LandingTick: nat := 41

  /** `Math.max(-89, Math.min(89, p))`. */
  function Clamp(p: real): (r: real)
    ensures -PitchLimit <= r <= PitchLimit
    ensures -PitchLimit <= p <= PitchLimit ==> r == p
    ensures p > PitchLimit ==> r == PitchLimit
    ensures p < -PitchLimit ==> r == -PitchLimit
  {
    var m := if PitchLimit <= p then PitchLimit else p;
    if -PitchLimit >= m then -PitchLimit else m
  }

  /** Clamping twice is clamping once. */
  lemma ClampIdempotent(p: real)
    ensures Clamp(Clamp(p)) == Clamp(p)
  {
  }

  /** The jump velocity after n ticks of a jump. */
  function Velocity(n: nat): real
  {
    JumpStart - n as real * Gravity
  }

  /** The jump height after n ticks: the sum of the first n velocities, 0.2 n - 0.005 n (n - 1). */
  function Height(n: nat): real
  {
    (n * (LandingTick - n)) as real * 0.005
  }

  /** One tick adds the current velocity to the height. */
  lemma HeightStep(n: nat)
    ensures Height(n) + Velocity(n) == Height(n + 1)
  {
    assert (n + 1) * (LandingTick - (n + 1)) == n * (LandingTick - n) + 40 - 2 * n;
  }

  /** The height is positive strictly between take-off and tick 41, and 0 at tick 41. */
  lemma HeightPositive(n: nat)
    ensures 0 < n < LandingTick ==> Height(n) > 0.0
    ensures Height(LandingTick) == 0.0
  {
    if 0 < n < LandingTick {
      assert n * (LandingTick - n) > 0 by { PositiveProduct(n, LandingTick - n); }
    }
  }

  lemma PositiveProduct(a: int, b: int)
    requires a > 0 && b > 0
    ensures a * b > 0
  {
  }

  /** `Math.floor` of each coordinate: the grid cell a point lies in. */
  function GridCell(p: Vec3): (c: (int, int, int))
    ensures c.0 as real <= p.x < c.0 as real + 1.0
    ensures c.1 as real <= p.y < c.1 as real + 1.0
    ensures c.2 as real <= p.z < c.2 as real + 1.0
  {
    (p.x.Floor, p.y.Floor, p.z.Floor)
  }

  /**
   * The block test of `checkCollision` for the floored target cell (gx, gy, gz):
   * the cell must be within `worldGrid.length` and `worldGrid[0].length`, and a
   * row shorter than that reads `undefined`, which is not greater than anything.
   */
  function Blocked(worldGrid: seq<seq<int>>, gx: int, gy: int, gz: int): bool
  {
    if 0 <= gx < |worldGrid| && 0 <= gz < |worldGrid[0]| then
      gz < |worldGrid[gx]| && worldGrid[gx][gz] > gy
    else
      false
  }

  /** A non-empty grid whose rows all have the length of the first, as `initWorldMap` builds it. */
  ghost predicate Rectangular(worldGrid: seq<seq<int>>)
  {
    |worldGrid| > 0 && forall i :: 0 <= i < |worldGrid| ==> |worldGrid[i]| == |worldGrid[0]|
  }

  class Camera {
    var eye: Vec3
    var at: Vec3
    const up: Vec3
    var fov: real
    const speed: real
    const rotationSpeed: real
    var jumpHeight: real
    var isJumping: bool
    var jumpVelocity: real
    var mouseLook: bool
    const mouseSensitivity: real
    var previousMouseX: Option<real>
    var previousMouseY: Option<real>
    var pitchAngle: real

    /** `Vector3.normalize`. */
    const normalize: Vec3 -> Vec3
    /** `rotate(angle, axis, v)`: v multiplied by `Matrix4.setRotate(angle, axis)`. */
    const rotate: (real, Vec3, Vec3) -> Vec3

    /** Ticks of `updateJump` since the current jump started. */
    ghost var airTicks: nat

    /**
     * What every method keeps: the pitch within the clamp, both previous mouse
     * coordinates set or both cleared, a grounded camera at jump height 0, and a
     * jumping one on the trajectory of its tick count, not yet past tick 40.
     */
    ghost predicate Valid()
      reads this
    {
      && -PitchLimit <= pitchAngle <= PitchLimit
      && (previousMouseX.None? <==> previousMouseY.None?)
      && (!isJumping ==> jumpHeight == 0.0)
      && (isJumping ==> airTicks < LandingTick && jumpHeight == Height(airTicks) && jumpVelocity == Velocity(airTicks))
    }

    /** `constructor()`: eye (16, 2, 16) looking along +x, up +y, fov 60, speed 0.2, grounded, mouse look off. */
    constructor (normalize: Vec3 -> Vec3, rotate: (real, Vec3, Vec3) -> Vec3)
      ensures Valid()
      ensures eye == Vec3(16.0, 2.0, 16.0) && at == Vec3(17.0, 2.0, 16.0) && up == Vec3(0.0, 1.0, 0.0)
      ensures fov == 60.0 && speed == 0.2 && rotationSpeed == 3.0 && mouseSensitivity == 0.2
      ensures jumpHeight == 0.0 && !isJumping && !mouseLook && pitchAngle == 0.0
      ensures previousMouseX == None && previousMouseY == None
      ensures this.normalize == normalize && this.rotate == rotate
    {
      eye := Vec3(16.0, 2.0, 16.0);
      at := Vec3(17.0, 2.0, 16.0);
      up := Vec3(0.0, 1.0, 0.0);
      fov := 60.0;
      speed := 0.2;
      rotationSpeed := 3.0;
      jumpHeight := 0.0;
      isJumping := false;
      jumpVelocity := 0.0;
      mouseLook := false;
      mouseSensitivity := 0.2;
      previousMouseX := None;
      previousMouseY := None;
      pitchAngle := 0.0;
      this.normalize := normalize;
      this.rotate := rotate;
      airTicks := 0;
    }

    /** `getForwardVector()`: the normalised view direction. */
    function ForwardVector(): (f: Vec3)
      reads this
      ensures f == normalize(Sub(at, eye))
      ensures forall d: Vec3 :: f == normalize(Sub(Add(at, d), Add(eye, d)))
    {
      assert forall d: Vec3 :: Sub(Add(at, d), Add(eye, d)) == Sub(at, eye);
      normalize(Sub(at, eye))
    }

    /** `getRightVector()`: the normalised cross product of forward and up. */
    function RightVector(): (r: Vec3)
      reads this
      ensures r == normalize(Cross(ForwardVector(), up))
      ensures Dot(Cross(ForwardVector(), up), ForwardVector()) == 0.0 && Dot(Cross(ForwardVector(), up), up) == 0.0
    {
      CrossOrthogonal(ForwardVector(), up);
      normalize(Cross(ForwardVector(), up))
    }

    /** Add d to both eye and at; nothing else changes. */
    method Translate(d: Vec3)
      requires Valid()
      modifies this`eye, this`at
      ensures Valid()
      ensures eye == Add(old(eye), d) && at == Add(old(at), d)
      ensures Sub(at, eye) == old(Sub(at, eye))
      ensures ForwardVector() == old(ForwardVector()) && RightVector() == old(RightVector())
    {
      TranslationKeepsDifference(at, eye, d);
      eye := Add(eye, d);
      at := Add(at, d);
    }

    /** `forward()`: move by speed along the view direction. */
    method Forward()
      requires Valid()
      modifies this`eye, this`at
      ensures Valid()
      ensures eye == Add(old(eye), Mul(old(ForwardVector()), speed)) && at == Add(old(at), Mul(old(ForwardVector()), speed))
      ensures Sub(at, eye) == old(Sub(at, eye))
      ensures ForwardVector() == old(ForwardVector()) && RightVector() == old(RightVector())
    {
      Translate(Mul(ForwardVector(), speed));
    }

    /** `backward()`: move by speed against the view direction. */
    method Backward()
      requires Valid()
      modifies this`eye, this`at
      ensures Valid()
      ensures eye == Add(old(eye), Mul(old(ForwardVector()), -speed)) && at == Add(old(at), Mul(old(ForwardVector()), -speed))
      ensures Sub(at, eye) == old(Sub(at, eye))
      ensures ForwardVector() == old(ForwardVector()) && RightVector() == old(RightVector())
    {
      Translate(Mul(ForwardVector(), -speed));
    }

    /** `left()`: strafe by speed against the right vector. */
    method Left()
      requires Valid()
      modifies this`eye, this`at
      ensures Valid()
      ensures eye == Add(old(eye), Mul(old(RightVector()), -speed)) && at == Add(old(at), Mul(old(RightVector()), -speed))
      ensures Sub(at, eye) == old(Sub(at, eye))
      ensures ForwardVector() == old(ForwardVector()) && RightVector() == old(RightVector())
    {
      Translate(Mul(RightVector(), -speed));
    }

    /** `right()`: strafe by speed along the right vector. */
    method Right()
      requires Valid()
      modifies this`eye, this`at
      ensures Valid()
      ensures eye == Add(old(eye), Mul(old(RightVector()), speed)) && at == Add(old(at), Mul(old(RightVector()), speed))
      ensures Sub(at, eye) == old(Sub(at, eye))
      ensures ForwardVector() == old(ForwardVector()) && RightVector() == old(RightVector())
    {
      Translate(Mul(RightVector(), speed));
    }

    /** `rotLeft()` and `rotRight()`: turn the view direction about up by +-rotationSpeed; the eye stays. */
    method Rotate(angle: real)
      requires Valid()
      modifies this`at
      ensures Valid()
      ensures at == Add(rotate(angle, up, old(Sub(at, eye))), eye)
    {
      at := Add(rotate(angle, up, Sub(at, eye)), eye);
    }

    /**
     * `handleMouseMove(event)` with the event's client coordinates. Off while
     * mouse look is off; the first event after a toggle only records the position;
     * later events record it and turn the view by the movement since the last one.
     * The eye never moves.
     */
    method HandleMouseMove(clientX: real, clientY: real)
      requires Valid()
      modifies this`at, this`previousMouseX, this`previousMouseY, this`pitchAngle
      ensures Valid()
      ensures !old(mouseLook) ==>
        (at == old(at) && previousMouseX == old(previousMouseX)
         && previousMouseY == old(previousMouseY) && pitchAngle == old(pitchAngle))
      ensures old(mouseLook) ==> previousMouseX == Some(clientX) && previousMouseY == Some(clientY)
      ensures old(mouseLook) && old(previousMouseX).None? ==> at == old(at) && pitchAngle == old(pitchAngle)
      ensures old(mouseLook) && old(previousMouseX).Some? ==>
        pitchAngle == PitchAfter(old(pitchAngle), clientY - old(previousMouseY).value)
      ensures old(mouseLook) && old(previousMouseX).Some? ==>
        at == old(LookAt(clientX - previousMouseX.value, clientY - previousMouseY.value))
      ensures (old(mouseLook) && old(previousMouseX) == Some(clientX)
               && old(previousMouseY) == Some(clientY)) ==> at == old(at)
    {
      if !mouseLook {
        return;
      }
      if previousMouseX.None? {
        previousMouseX := Some(clientX);
        previousMouseY := Some(clientY);
        return;
      }
      var deltaX := clientX - previousMouseX.value;
      var deltaY := clientY - previousMouseY.value;
      previousMouseX := Some(clientX);
      previousMouseY := Some(clientY);
      Look(deltaX, deltaY);
    }

    /** The pitch accumulator after a vertical movement deltaY: unchanged for 0, else clamped. */
    function PitchAfter(pitch: real, deltaY: real): (p: real)
      reads this
      ensures -PitchLimit <= pitch <= PitchLimit ==> -PitchLimit <= p <= PitchLimit
      ensures deltaY == 0.0 ==> p == pitch
    {
      if deltaY != 0.0 then Clamp(pitch + deltaY * mouseSensitivity) else pitch
    }

    /** The look-at point after the yaw step: the view direction turned about up by -deltaX * sensitivity degrees, for deltaX != 0. */
    function YawedAt(deltaX: real): Vec3
      reads this
    {
      if deltaX != 0.0 then Add(rotate(-deltaX * mouseSensitivity, up, Sub(at, eye)), eye) else at
    }

    /**
     * The look-at point the pitch step builds from target and the pitch accumulator:
     * the horizontal part of the view direction tilted about the right vector,
     * normalised, from the eye.
     */
    function PitchedAt(target: Vec3, pitch: real): Vec3
      reads this
    {
      var viewDir := Sub(target, eye);
      var rightVector := normalize(Cross(viewDir, up));
      var horizontalDir := normalize(Vec3(viewDir.x, 0.0, viewDir.z));
      Add(normalize(rotate(pitch, rightVector, horizontalDir)), eye)
    }

    /** The look-at point after a movement (deltaX, deltaY): the yaw step, then the pitch step when deltaY != 0. */
    function LookAt(deltaX: real, deltaY: real): Vec3
      reads this
    {
      if deltaY != 0.0 then PitchedAt(YawedAt(deltaX), PitchAfter(pitchAngle, deltaY)) else YawedAt(deltaX)
    }

    /**
     * The pitch is absolute: with up = +y the vertical part of the old view
     * direction is discarded, so two targets that agree horizontally give the
     * same look-at point for the same accumulator.
     */
    lemma PitchForgetsVertical(a1: Vec3, a2: Vec3, pitch: real)
      requires up == Vec3(0.0, 1.0, 0.0)
      requires Sub(a1, eye).x == Sub(a2, eye).x && Sub(a1, eye).z == Sub(a2, eye).z
      ensures PitchedAt(a1, pitch) == PitchedAt(a2, pitch)
    {
      var v1, v2 := Sub(a1, eye), Sub(a2, eye);
      assert Cross(v1, up) == Vec3(-v1.z, 0.0, v1.x);
      assert Cross(v2, up) == Vec3(-v2.z, 0.0, v2.x);
      assert Vec3(v1.x, 0.0, v1.z) == Vec3(v2.x, 0.0, v2.z);
    }

    /**
     * The turn of `handleMouseMove`: yaw the view direction about up by
     * -deltaX * sensitivity degrees, then rebuild it from the clamped pitch
     * accumulator, the horizontal part of the view direction and the right vector.
     */
    method Look(deltaX: real, deltaY: real)
      requires Valid()
      modifies this`at, this`pitchAngle
      ensures Valid()
      ensures pitchAngle == PitchAfter(old(pitchAngle), deltaY)
      ensures at == old(LookAt(deltaX, deltaY))
      ensures deltaY == 0.0 ==> at == old(YawedAt(deltaX))
      ensures deltaX == 0.0 && deltaY == 0.0 ==> at == old(at)
    {
      if deltaX != 0.0 {
        var yawAmount := -deltaX * mouseSensitivity;
        at := Add(rotate(yawAmount, up, Sub(at, eye)), eye);
      }
      if deltaY != 0.0 {
        pitchAngle := Clamp(pitchAngle + deltaY * mouseSensitivity);
        var viewDir := Sub(at, eye);
        var rightVector := normalize(Cross(viewDir, up));
        var horizontalDir := normalize(Vec3(viewDir.x, 0.0, viewDir.z));
        var newDir := normalize(rotate(pitchAngle, rightVector, horizontalDir));
        at := Add(newDir, eye);
      }
    }

    /** `toggleMouseLook()`: flip the flag and forget the previous mouse position. */
    method ToggleMouseLook() returns (enabled: bool)
      requires Valid()
      modifies this`mouseLook, this`previousMouseX, this`previousMouseY
      ensures Valid()
      ensures mouseLook == !old(mouseLook) && enabled == mouseLook
      ensures previousMouseX == None && previousMouseY == None
    {
      mouseLook := !mouseLook;
      previousMouseX := None;
      previousMouseY := None;
      enabled := mouseLook;
    }

    /** `jump()`: start a jump from rest; a no-op in the air. */
    method Jump()
      requires Valid()
      modifies this`isJumping, this`jumpHeight, this`jumpVelocity, this`airTicks
      ensures Valid()
      ensures old(isJumping) ==> isJumping && jumpHeight == old(jumpHeight) && jumpVelocity == old(jumpVelocity)
      ensures !old(isJumping) ==> isJumping && jumpHeight == 0.0 && jumpVelocity == JumpStart && airTicks == 0
    {
      if !isJumping {
        isJumping := true;
        jumpHeight := 0.0;
        jumpVelocity := JumpStart;
        airTicks := 0;
      }
    }

    /**
     * `updateJump()`: one tick of the jump. The height grows by the velocity, the
     * velocity drops by 0.01, eye and at rise by the new velocity; when the height
     * is no longer positive the camera lands and the eye snaps to height 2. A
     * jump started from rest lands on its 41st tick. at.y - eye.y and the x and z
     * coordinates are kept throughout.
     */
    method UpdateJump()
      requires Valid()
      modifies this`isJumping, this`jumpHeight, this`jumpVelocity, this`eye, this`at, this`airTicks
      ensures Valid()
      ensures !old(isJumping) ==>
        (isJumping == old(isJumping) && eye == old(eye) && at == old(at)
         && jumpHeight == old(jumpHeight) && jumpVelocity == old(jumpVelocity))
      ensures old(isJumping) ==> jumpVelocity == old(jumpVelocity) - Gravity
      ensures old(isJumping) ==> (isJumping <==> old(jumpHeight) + old(jumpVelocity) > 0.0)
      ensures old(isJumping) ==> (isJumping <==> old(airTicks) + 1 < LandingTick)
      ensures old(isJumping) && isJumping ==>
        jumpHeight == old(jumpHeight) + old(jumpVelocity) && eye.y == old(eye.y) + jumpVelocity
      ensures old(isJumping) && !isJumping ==> jumpHeight == 0.0 && eye.y == GroundLevel
      ensures eye.x == old(eye.x) && eye.z == old(eye.z) && at.x == old(at.x) && at.z == old(at.z)
      ensures at.y - eye.y == old(at.y - eye.y)
    {
      if isJumping {
        HeightStep(airTicks);
        HeightPositive(airTicks + 1);
        jumpHeight := jumpHeight + jumpVelocity;
        jumpVelocity := jumpVelocity - Gravity;
        eye := eye.(y := eye.y + jumpVelocity);
        at := at.(y := at.y + jumpVelocity);
        airTicks := airTicks + 1;
        if jumpHeight <= 0.0 {
          isJumping := false;
          jumpHeight := 0.0;
          var heightDiff := GroundLevel - eye.y;
          eye := eye.(y := GroundLevel);
          at := at.(y := at.y + heightDiff);
        }
      }
    }

    /**
     * `checkCollision(worldGrid)`: whether the point one step ahead, eye + speed *
     * forward, lies below the top of the column of its floored grid cell.
     */
    function CheckCollision(worldGrid: seq<seq<int>>): (hit: bool)
      reads this
      ensures var p := Add(eye, Mul(ForwardVector(), speed)); var c := GridCell(p);
        hit ==> 0 <= c.0 < |worldGrid| && 0 <= c.2 < |worldGrid[c.0]| && worldGrid[c.0][c.2] as real > p.y
      ensures var c := GridCell(Add(eye, Mul(ForwardVector(), speed)));
        !(0 <= c.0 < |worldGrid| && 0 <= c.2 < |worldGrid[0]|) ==> !hit
      ensures var p := Add(eye, Mul(ForwardVector(), speed)); var c := GridCell(p);
        Rectangular(worldGrid) && 0 <= c.0 < |worldGrid| && 0 <= c.2 < |worldGrid[0]| ==>
          (hit <==> worldGrid[c.0][c.2] as real > p.y)
    {
      var c := GridCell(Add(eye, Mul(ForwardVector(), speed)));
      Blocked(worldGrid, c.0, c.1, c.2)
    }
  }

  /** A target cell outside the grid never collides. */
  lemma OutsideNeverCollides(worldGrid: seq<seq<int>>, gx: int, gy: int, gz: int)
    requires gx < 0 || gx >= |worldGrid| || gz < 0 || (|worldGrid| > 0 && gz >= |worldGrid[0]|)
    ensures !Blocked(worldGrid, gx, gy, gz)
  {
  }

  /** On a rectangular grid, an in-grid target collides exactly when its column is taller than gy. */
  lemma InsideCollidesIffTaller(worldGrid: seq<seq<int>>, gx: int, gy: int, gz: int)
    requires Rectangular(worldGrid)
    requires 0 <= gx < |worldGrid| && 0 <= gz < |worldGrid[0]|
    ensures Blocked(worldGrid, gx, gy, gz) <==> worldGrid[gx][gz] > gy
  {
  }

  /**
   * A full jump: from rest, the height after n ticks is Height(n), positive for
   * 0 < n < 41, and the 41st tick lands.
   */
  lemma {:induction false} JumpTrajectory(n: nat)
    ensures Height(0) == 0.0 && Velocity(0) == JumpStart
    ensures n < LandingTick ==> Height(n) + Velocity(n) == Height(n + 1)
    ensures Height(n + 1) <= 0.0 <==> n + 1 >= LandingTick
  {
    HeightStep(n);
    HeightPositive(n + 1);
    if n + 1 > LandingTick {
      assert (n + 1) * (LandingTick - (n + 1)) < 0 by { NegativeProduct(n + 1, LandingTick - (n + 1)); }
    }
  }

  lemma NegativeProduct(a: int, b: int)
    requires a > 0 && b < 0
    ensures a * b < 0
  {
    PositiveProduct(a, -b);
  }
}
