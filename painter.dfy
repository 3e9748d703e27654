/**
 * The 2D painter of asg1/src/asg1.js: a list of shapes that every click (or
 * drag) extends, the UI selections each new shape copies, the clear button,
 * and the flashing sun. Events reach the model as their client coordinates;
 * the canvas rectangle and size are parameters, and `setInterval` is modelled
 * by the timer handle it returns.
 */
module Painter {
  import opened Wrappers
  import opened Trigonometry
  import opened Geometry

  datatype Point2 = Point2(x: real, y: real)

  /** `g_selectedType`: the values of the constants POINT, TRIANGLE and CIRCLE. */
  datatype ShapeKind = PointKind | TriangleKind | CircleKind

  /** The three shape classes, with the fields `click` sets. */
  datatype Shape =
    | Point(position: Point2, color: seq<real>, size: real)
    | Triangle(position: Point2, color: seq<real>, size: real, flipX: bool)
    | Circle(position: Point2, color: seq<real>, size: real, segments: int)

  /** `convertCoordinatesEventToGL`: client coordinates to clip coordinates, for a canvas of width w and height h whose corner is (left, top). */
  function ToGL(clientX: real, clientY: real, left: real, top: real, w: real, h: real): (p: Point2)
    requires w > 0.0 && h > 0.0
    ensures -1.0 <= p.x <= 1.0 <==> left <= clientX <= left + w
    ensures -1.0 <= p.y <= 1.0 <==> top <= clientY <= top + h
    ensures p.x < 0.0 <==> clientX < left + w / 2.0
    ensures p.y < 0.0 <==> clientY > top + h / 2.0
  {
    UnitRatio((clientX - left) - w / 2.0, w / 2.0);
    UnitRatio(h / 2.0 - (clientY - top), h / 2.0);
    Point2(((clientX - left) - w / 2.0) / (w / 2.0), (h / 2.0 - (clientY - top)) / (h / 2.0))
  }

  /** A quotient by a positive d lies in [-1, 1] exactly when the numerator lies in [-d, d], and has the numerator's sign. */
  lemma UnitRatio(n: real, d: real)
    requires d > 0.0
    ensures -1.0 <= n / d <= 1.0 <==> -d <= n <= d
    ensures n / d < 0.0 <==> n < 0.0
  {
    var q := n / d;
    assert q * d == n;
    if q < -1.0 { assert q * d < -1.0 * d; }
    if q > 1.0 { assert q * d > 1.0 * d; }
    if -1.0 <= q <= 1.0 { assert -1.0 * d <= q * d <= 1.0 * d; }
    if q < 0.0 { assert q * d < 0.0; }
    if q >= 0.0 { assert q * d >= 0.0; }
  }

  /** The client position of a clip-space point: the inverse of `ToGL`. */
  function ToClient(p: Point2, left: real, top: real, w: real, h: real): (c: Point2)
    requires w > 0.0 && h > 0.0
  {
    Point2(left + w / 2.0 + p.x * (w / 2.0), top + h / 2.0 - p.y * (h / 2.0))
  }

  /** The centre of the canvas maps to (0, 0), its left and right edges to x = -1 and 1, its top and bottom edges to y = 1 and -1. */
  lemma EdgesAndCentre(left: real, top: real, w: real, h: real, clientX: real, clientY: real)
    requires w > 0.0 && h > 0.0
    ensures ToGL(left + w / 2.0, top + h / 2.0, left, top, w, h) == Point2(0.0, 0.0)
    ensures ToGL(left, clientY, left, top, w, h).x == -1.0 && ToGL(left + w, clientY, left, top, w, h).x == 1.0
    ensures ToGL(clientX, top, left, top, w, h).y == 1.0 && ToGL(clientX, top + h, left, top, w, h).y == -1.0
  {
    Cancel(1.0, h / 2.0);
    Cancel(-1.0, h / 2.0);
    assert h / 2.0 - (top - top) == 1.0 * (h / 2.0);
    assert h / 2.0 - (top + h - top) == -1.0 * (h / 2.0);
  }

  /** Converting a clip-space point to client coordinates and back gives the point. */
  lemma FromClientAndBack(p: Point2, left: real, top: real, w: real, h: real)
    requires w > 0.0 && h > 0.0
    ensures var c := ToClient(p, left, top, w, h); ToGL(c.x, c.y, left, top, w, h) == p
  {
    var c := ToClient(p, left, top, w, h);
    Cancel(p.x, w / 2.0);
    Cancel(p.y, h / 2.0);
    assert (c.x - left) - w / 2.0 == p.x * (w / 2.0);
    assert h / 2.0 - (c.y - top) == p.y * (h / 2.0);
  }

  /** Converting client coordinates to clip space and back gives them back. */
  lemma ToGLAndBack(clientX: real, clientY: real, left: real, top: real, w: real, h: real)
    requires w > 0.0 && h > 0.0
    ensures ToClient(ToGL(clientX, clientY, left, top, w, h), left, top, w, h) == Point2(clientX, clientY)
  {
    var p := ToGL(clientX, clientY, left, top, w, h);
    Uncancel((clientX - left) - w / 2.0, w / 2.0);
    Uncancel(h / 2.0 - (clientY - top), h / 2.0);
    assert p.x * (w / 2.0) == (clientX - left) - w / 2.0;
    assert p.y * (h / 2.0) == h / 2.0 - (clientY - top);
  }

  lemma Cancel(a: real, k: real)
    requires k > 0.0
    ensures (a * k) / k == a
  {
  }

  lemma Uncancel(a: real, k: real)
    requires k > 0.0
    ensures (a / k) * k == a
  {
  }

  /** The one shape `click` builds: of the selected kind, at p, with a copy of the selected colour and size; a circle also takes the selected segment count. */
  function NewShape(kind: ShapeKind, p: Point2, color: seq<real>, size: real, segments: int): (s: Shape)
    ensures s.position == p && s.color == color && s.size == size
    ensures s.Point? <==> kind == PointKind
    ensures s.Triangle? <==> kind == TriangleKind
    ensures s.Triangle? ==> !s.flipX
    ensures s.Circle? <==> kind == CircleKind
    ensures s.Circle? ==> s.segments == segments
  {
    match kind
    case PointKind => Point(p, color, size)
    case TriangleKind => Triangle(p, color, size, false)
    case CircleKind => Circle(p, color, size, segments)
  }

  /** The vertex array `Triangle.render` passes to `drawTriangle`: the corner, one point d along x (to the left when flipped) and one point d up, with d = size / 200. */
  function TriangleVertices(p: Point2, size: real, flipX: bool): (v: seq<real>)
    ensures |v| == 6
  {
    var d := size / 200.0;
    if flipX then [p.x, p.y, p.x - d, p.y, p.x, p.y + d]
    else [p.x, p.y, p.x + d, p.y, p.x, p.y + d]
  }

  /** The triangle has a right angle at the position and legs of length size / 200 along the axes, and runs counter-clockwise. */
  lemma TriangleShape(p: Point2, size: real)
    requires size > 0.0
    ensures var v := TriangleVertices(p, size, false);
      && v[0] == p.x && v[1] == p.y
      && v[2] - v[0] == size / 200.0 && v[3] == v[1]
      && v[4] == v[0] && v[5] - v[1] == size / 200.0
      && SignedArea2(v[0], v[1], v[2], v[3], v[4], v[5]) > 0.0
  {
    var d := size / 200.0;
    var v := TriangleVertices(p, size, false);
    AreaOfRightTriangle(v, d, d);
  }

  /** The flipped triangle is the mirror image of the unflipped one in the vertical line through the position, with the opposite orientation. */
  lemma FlippedTriangle(p: Point2, size: real)
    ensures var v, f := TriangleVertices(p, size, false), TriangleVertices(p, size, true);
      && (forall m :: 0 <= m < 3 ==> f[2 * m] == 2.0 * p.x - v[2 * m] && f[2 * m + 1] == v[2 * m + 1])
      && SignedArea2(f[0], f[1], f[2], f[3], f[4], f[5]) == -SignedArea2(v[0], v[1], v[2], v[3], v[4], v[5])
  {
    var d := size / 200.0;
    AreaOfRightTriangle(TriangleVertices(p, size, false), d, d);
    AreaOfRightTriangle(TriangleVertices(p, size, true), -d, d);
    assert (-d) * d == -(d * d);
  }

  /** A triangle with legs a along x and b along y from its first vertex has signed double area a b. */
  lemma AreaOfRightTriangle(v: seq<real>, a: real, b: real)
    requires |v| == 6 && v[2] - v[0] == a && v[3] == v[1] && v[4] == v[0] && v[5] - v[1] == b
    ensures SignedArea2(v[0], v[1], v[2], v[3], v[4], v[5]) == a * b
    ensures a > 0.0 && b > 0.0 ==> SignedArea2(v[0], v[1], v[2], v[3], v[4], v[5]) > 0.0
  {
  }

  /** The sun of `drawSun`: centre, radius and number of rim segments. */
  const SunCenter: Point2 := Point2(0.0, 0.3)
  const SunRadius: real := 0.40
  const SunSegments: nat := 20

  /** The angle of rim point i: `i * 2 * Math.PI / segments`. */
  function SunAngle(i: nat): real
  {
    i as real * 2.0 * Pi / SunSegments as real
  }

  function SunX(trig: Trig, i: nat): real
  {
    SunCenter.x + SunRadius * trig.cos(SunAngle(i))
  }

  function SunY(trig: Trig, i: nat): real
  {
    SunCenter.y + SunRadius * trig.sin(SunAngle(i))
  }

  /** The sun's fan so far: the centre, then rim points 0 to n - 1. */
  ghost predicate SunFanUpTo(v: seq<real>, trig: Trig, n: nat)
  {
    && |v| == 2 + 2 * n && v[0] == SunCenter.x && v[1] == SunCenter.y
    && forall k :: 0 <= k < n ==> v[2 + 2 * k] == SunX(trig, k) && v[3 + 2 * k] == SunY(trig, k)
  }

  /** The fan vertices of `drawSun`: the centre, then rim points 0 to 20, 22 points in all, the count it passes to `drawArrays`. */
  method SunVertices(trig: Trig) returns (vertices: seq<real>)
    ensures SunFanUpTo(vertices, trig, SunSegments + 1)
    ensures |vertices| / 2 == SunSegments + 2
  {
    var sunCenter := SunCenter;
    var r := SunRadius;
    var segments := SunSegments;
    vertices := [sunCenter.x, sunCenter.y];
    var i := 0;
    while i <= segments
      invariant 0 <= i <= segments + 1
      invariant SunFanUpTo(vertices, trig, i)
    {
      var angle := i as real * 2.0 * Pi / segments as real;
      var x := sunCenter.x + r * trig.cos(angle);
      var y := sunCenter.y + r * trig.sin(angle);
      assert x == SunX(trig, i) && y == SunY(trig, i);
      vertices := vertices + [x, y];
      i := i + 1;
    }
  }

  /** A flicker step of the sun timer: full brightness becomes half, anything else full. */
  function Toggle(b: real): (r: real)
    ensures r == 0.5 || r == 1.0
    ensures (b == 1.0 || b == 0.5) ==> r != b
  {
    if b == 1.0 then 0.5 else 1.0
  }

  /** The brightness only takes the values 1 and 0.5, and two ticks bring it back. */
  lemma ToggleTwice(b: real)
    requires b == 1.0 || b == 0.5
    ensures Toggle(b) == 0.5 || Toggle(b) == 1.0
    ensures Toggle(b) != b && Toggle(Toggle(b)) == b
  {
  }

  /** The page state: the globals of asg1.js. */
  class Painter {
    const canvasWidth: real
    const canvasHeight: real
    var shapes: seq<Shape>
    var selectedColor: seq<real>
    var selectedSize: real
    var selectedType: ShapeKind
    var circleSegments: int
    var sunInterval: Option<nat>
    var sunBrightness: real

    /** What the handlers keep: a four-channel colour selection and a brightness of 1 or 0.5. */
    ghost predicate Valid()
      reads this
    {
      canvasWidth > 0.0 && canvasHeight > 0.0 && |selectedColor| == 4 && (sunBrightness == 1.0 || sunBrightness == 0.5)
    }

    /** The initial values of the globals. */
    constructor(canvasWidth: real, canvasHeight: real)
      requires canvasWidth > 0.0 && canvasHeight > 0.0
      ensures Valid() && this.canvasWidth == canvasWidth && this.canvasHeight == canvasHeight
      ensures shapes == [] && selectedColor == [1.0, 1.0, 1.0, 1.0] && selectedSize == 10.0
      ensures selectedType == PointKind && circleSegments == 8
      ensures sunInterval == None && sunBrightness == 1.0
    {
      this.canvasWidth := canvasWidth;
      this.canvasHeight := canvasHeight;
      shapes := [];
      selectedColor := [1.0, 1.0, 1.0, 1.0];
      selectedSize := 10.0;
      selectedType := PointKind;
      circleSegments := 8;
      sunInterval := None;
      sunBrightness := 1.0;
    }

    /** `click(ev)`: exactly one shape is appended, built from the current selections at the converted position. */
    method Click(clientX: real, clientY: real, left: real, top: real)
      requires Valid()
      modifies this`shapes
      ensures Valid()
      ensures shapes == old(shapes) + [NewShape(selectedType, ToGL(clientX, clientY, left, top, canvasWidth, canvasHeight), selectedColor, selectedSize, circleSegments)]
    {
      var p := ToGL(clientX, clientY, left, top, canvasWidth, canvasHeight);
      var shape := NewShape(selectedType, p, selectedColor, selectedSize, circleSegments);
      shapes := shapes + [shape];
    }

    /** The clear button: no shapes, and the sun timer, if any, stopped. */
    method Clear()
      requires Valid()
      modifies this`shapes, this`sunInterval
      ensures Valid() && shapes == [] && sunInterval == None
    {
      shapes := [];
      if sunInterval.Some? {
        sunInterval := None;
      }
    }

    /** The red, green and blue sliders: channel k becomes value / 100; the shapes already drawn keep their colours. */
    method SetColorChannel(k: int, value: real)
      requires Valid() && 0 <= k < 3
      modifies this`selectedColor
      ensures Valid() && selectedColor == old(selectedColor)[k := value / 100.0]
      ensures shapes == old(shapes)
    {
      selectedColor := selectedColor[k := value / 100.0];
    }

    /** The red and green buttons: a fresh colour selection. */
    method SetColor(color: seq<real>)
      requires Valid() && |color| == 4
      modifies this`selectedColor
      ensures Valid() && selectedColor == color && shapes == old(shapes)
    {
      selectedColor := color;
    }

    /** The size slider. */
    method SetSize(value: real)
      modifies this`selectedSize
      ensures selectedSize == value
    {
      selectedSize := value;
    }

    /** The segment slider. */
    method SetSegments(value: int)
      modifies this`circleSegments
      ensures circleSegments == value
    {
      circleSegments := value;
    }

    /** The point, triangle and circle buttons. */
    method SetType(kind: ShapeKind)
      modifies this`selectedType
      ensures selectedType == kind
    {
      selectedType := kind;
    }

    /** `startFlashingSun()`: any running timer is replaced by the new one. */
    method StartFlashingSun(timer: nat)
      modifies this`sunInterval
      ensures sunInterval == Some(timer)
    {
      sunInterval := Some(timer);
    }

    /** One tick of the sun timer: the brightness flips between 1 and 0.5. */
    method SunTick()
      requires Valid()
      modifies this`sunBrightness
      ensures Valid() && sunBrightness == Toggle(old(sunBrightness)) && sunBrightness != old(sunBrightness)
    {
      sunBrightness := if sunBrightness == 1.0 then 0.5 else 1.0;
    }
  }

  /** Later colour edits never reach a shape already in the list: the shape stores a copy. */
  method ColorIsCopied(painter: Painter, clientX: real, clientY: real, left: real, top: real, value: real)
    requires painter.Valid()
    modifies painter
    ensures painter.Valid() && |painter.shapes| == |old(painter.shapes)| + 1
    ensures painter.shapes[|painter.shapes| - 1].color == old(painter.selectedColor)
    ensures painter.selectedColor[0] == value / 100.0
  {
    painter.Click(clientX, clientY, left, top);
    painter.SetColorChannel(0, value);
  }
}
