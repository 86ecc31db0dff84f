/** Drawable circles (src/objects/Circle.js), drawn as a fan of SLICES points around the centre. */
module Circles {
  import opened JsValues
  import opened Points
  import opened Colors
  import opened MatrixMath
  import opened Shapes

  /** `Circle.SLICES`: the number of points on the rim. */
  const SLICES: nat := 36

  /** `Math.PI`, as the double the source uses. */
  const PI: real := 3.141592653589793

  /** `angleD = 2 * Math.PI / Circle.SLICES`: the angle between neighbouring rim points. */
  const ANGLE_STEP: real := 2.0 * PI / (SLICES as real)

  /** The loop's `angle` after k steps: it starts at 0 and grows by ANGLE_STEP each slice. */
  function Angle(k: nat): real
  {
    if k == 0 then 0.0 else Angle(k - 1) + ANGLE_STEP
  }

  /** The accumulated angle is k times the step (exactly, since reals do not round). */
  lemma {:induction false} AngleIsMultiple(k: nat)
    ensures Angle(k) == (k as real) * ANGLE_STEP
  {
    if k > 0 {
      AngleIsMultiple(k - 1);
      assert (k as real) * ANGLE_STEP == ((k - 1) as real) * ANGLE_STEP + ANGLE_STEP;
    }
  }

  /** After all SLICES steps the angle has gone once round the circle, so the rim points
      sit at 0, 1, ..., SLICES - 1 steps and the fan does not repeat its first point. */
  lemma FanCoversOneTurn()
    ensures Angle(SLICES) == 2.0 * PI
    ensures Angle(SLICES - 1) < 2.0 * PI
  {
    AngleIsMultiple(SLICES);
    AngleIsMultiple(SLICES - 1);
  }

  /** The untransformed rim point at angle a: the centre offset by (cos a, sin a) * radius,
      at the centre's z. */
  function RimPoint(trig: Trig, center: Coord, radius: real, a: real): Coord
  {
    Coord(center.x + trig.cos(a) * radius, center.y + trig.sin(a) * radius, center.z)
  }

  /** The loop's `new Point(center.x + cos(angle) * radius, center.y + sin(angle) * radius, center.z)`. */
  method NewRimPoint(trig: Trig, center: Point, radius: real, angle: real) returns (P: Point)
    requires center.Defined()
    ensures fresh(P) && P.Defined()
    ensures P.Coords() == RimPoint(trig, center.Coords(), radius, angle)
  {
    P := new Point(Num(center.x.value + trig.cos(angle) * radius),
                   Num(center.y.value + trig.sin(angle) * radius),
                   Num(center.z.value));
    assert P.x.value == RimPoint(trig, center.Coords(), radius, angle).x;
    assert P.y.value == RimPoint(trig, center.Coords(), radius, angle).y;
    assert P.z.value == RimPoint(trig, center.Coords(), radius, angle).z;
  }

  /** Where cos and sin satisfy the Pythagorean identity, a rim point is at distance `radius`
      from the centre. */
  lemma RimPointOnCircle(trig: Trig, center: Coord, radius: real, a: real)
    requires trig.cos(a) * trig.cos(a) + trig.sin(a) * trig.sin(a) == 1.0
    ensures var p := RimPoint(trig, center, radius, a);
      (p.x - center.x) * (p.x - center.x) + (p.y - center.y) * (p.y - center.y) == radius * radius
  {
    var co, si := trig.cos(a), trig.sin(a);
    calc {
      (co * radius) * (co * radius) + (si * radius) * (si * radius);
      (co * co + si * si) * (radius * radius);
      radius * radius;
    }
  }

  /** Vertex k of the fan: the rim point at the k-th accumulated angle, transformed by M. */
  function FanVertex(trig: Trig, center: Coord, radius: real, M: Matrix, k: nat): Coord
  {
    TransformCoord(RimPoint(trig, center, radius, Angle(k)), M)
  }

  /** A transformed rim point lies on the circle of the same radius around the transformed
      centre (again where cos and sin satisfy the Pythagorean identity). */
  lemma FanVertexOnCircle(trig: Trig, center: Coord, radius: real, M: Matrix, k: nat)
    requires trig.cos(Angle(k)) * trig.cos(Angle(k)) + trig.sin(Angle(k)) * trig.sin(Angle(k)) == 1.0
    ensures var v, o := FanVertex(trig, center, radius, M, k), TransformCoord(center, M);
      (v.x - o.x) * (v.x - o.x) + (v.y - o.y) * (v.y - o.y) == radius * radius
  {
    var v, o, p := FanVertex(trig, center, radius, M, k), TransformCoord(center, M), RimPoint(trig, center, radius, Angle(k));
    RimPointOnCircle(trig, center, radius, Angle(k));
    assert v.x - o.x == p.x - center.x && v.y - o.y == p.y - center.y;
  }

  /** The loop's `pointData` after n slices: x, y and z of the first n fan vertices. */
  function FanData(trig: Trig, center: Coord, radius: real, M: Matrix, n: nat): (d: seq<real>)
    ensures |d| == 3 * n
  {
    if n == 0 then []
    else
      var v := FanVertex(trig, center, radius, M, n - 1);
      FanData(trig, center, radius, M, n - 1) + [v.x, v.y, v.z]
  }

  /** Fan vertex k occupies entries 3k, 3k + 1 and 3k + 2 of the vertex array. */
  lemma {:induction false} FanDataAt(trig: Trig, center: Coord, radius: real, M: Matrix, n: nat)
    ensures forall k: nat | k < n ::
      && FanData(trig, center, radius, M, n)[3 * k] == FanVertex(trig, center, radius, M, k).x
      && FanData(trig, center, radius, M, n)[3 * k + 1] == FanVertex(trig, center, radius, M, k).y
      && FanData(trig, center, radius, M, n)[3 * k + 2] == FanVertex(trig, center, radius, M, k).z
  {
    if n > 0 {
      FanDataAt(trig, center, radius, M, n - 1);
    }
  }

  /** Every z entry of a circle's vertex array is 1. */
  lemma CircleZColumn(trig: Trig, center: Coord, radius: real, M: Matrix)
    ensures var d := FanData(trig, center, radius, M, SLICES);
      forall i | 0 <= i < |d| && i % 3 == 2 :: d[i] == 1.0
  {
    var d := FanData(trig, center, radius, M, SLICES);
    FanDataAt(trig, center, radius, M, SLICES);
    forall i | 0 <= i < |d| && i % 3 == 2
      ensures d[i] == 1.0
    {
      var k: nat := i / 3;
      assert i == 3 * k + 2;
      assert d[3 * k + 2] == FanVertex(trig, center, radius, M, k).z;
    }
  }

  class Circle {
    /** The state a circle shares with every shape. */
    const shape: Shape
    var center: Point
    var radius: real
    /** `_positions`: the vertex data handed to WebGL. */
    var positions: seq<real>

    /** The centre has all three coordinates. */
    ghost predicate Valid()
      reads this, center
    {
      center.Defined()
    }

    /** `new Circle(gl, center, radius, color, filled)`: the circle counter goes up by exactly
        one and becomes the id, the type is 'circle', the centre is the caller's own point,
        and the initial `updateBuffers` uses the identity matrix. */
    constructor (counts: ShapeCounts, newCenter: Point, newRadius: real, color: JsVal, filled: JsVal,
                 white: Color, trig: Trig)
      requires counts.Valid() && newCenter.Defined()
      modifies counts
      ensures counts.Valid()
      ensures counts.count == old(counts.count)[CircleType := old(counts.count[CircleType]) + 1]
      ensures fresh(shape) && shape.id == counts.count[CircleType] && shape.shapeType == CircleType
      ensures shape.color == ColorSetter(None, WithDefault(color, Obj(white)))
      ensures shape.filled == FilledSetter(None, WithDefault(filled, Bool(true)))
      ensures shape.M == Identity()
      ensures center == newCenter && radius == newRadius && Valid()
      ensures positions == FanData(trig, center.Coords(), radius, Identity(), SLICES)
    {
      var s := new Shape(color, filled, white);
      counts.Increment(CircleType);
      s.shapeType := CircleType;
      s.id := counts.count[CircleType];
      shape := s;
      center, radius := newCenter, newRadius;
      positions := [];
      new;
      UpdateBuffers(trig);
    }

    /** `computeCentroid`: the centre point itself, not a copy. */
    method ComputeCentroid() returns (c: Point)
      ensures c == center
    {
      c := center;
    }

    /** `updateBuffers`: one transformed rim point per slice, x, y and z each; only the
        vertex array changes, so calling it again with the same state gives the same array. */
    method UpdateBuffers(trig: Trig)
      requires Valid()
      modifies this`positions
      ensures positions == FanData(trig, center.Coords(), radius, shape.M, SLICES)
      ensures |positions| == 3 * SLICES
    {
      ghost var c, M := center.Coords(), shape.M;
      var pointData: seq<real> := [];
      var angle := 0.0;
      var angleD := 2.0 * PI / (SLICES as real);
      for slice := 0 to SLICES
        invariant pointData == FanData(trig, c, radius, M, slice)
        invariant angle == Angle(slice)
      {
        var P := NewRimPoint(trig, center, radius, angle);
        var newP := TransformPoint(P, shape.M);
        pointData := pointData + [newP.x.value, newP.y.value, newP.z.value];
        angle := angle + angleD;
      }
      positions := pointData;
    }
  }
}
