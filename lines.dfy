/** Drawable lines (src/objects/Line.js). Unlike the other shapes, a line's `updateBuffers`
    replaces its own endpoints by their transformed images, so every call moves it again. */
module Lines {
  import opened JsValues
  import opened Points
  import opened Colors
  import opened MatrixMath
  import opened Shapes

  /** The centre of a line: halfway between the endpoints in x and y, in the plane z = 0. */
  function Midpoint(a: Coord, b: Coord): (m: Coord)
    ensures m.x - a.x == b.x - m.x && m.y - a.y == b.y - m.y
    ensures m.z == 0.0
  {
    Coord((a.x + b.x) / 2.0, (a.y + b.y) / 2.0, 0.0)
  }

  /** Moving both endpoints by a matrix moves the midpoint by its translation cells. */
  lemma MidpointFollowsTransform(a: Coord, b: Coord, M: Matrix)
    ensures Midpoint(TransformCoord(a, M), TransformCoord(b, M))
         == Coord(Midpoint(a, b).x + M[6], Midpoint(a, b).y + M[7], 0.0)
  {
  }

  /** Where an endpoint is after n calls of `updateBuffers` with the same matrix. */
  function Moved(p: Coord, M: Matrix, n: nat): Coord
  {
    if n == 0 then p else TransformCoord(Moved(p, M, n - 1), M)
  }

  /** Repeated calls compound: after n >= 1 calls the endpoint has moved by n times
      (M[6], M[7]), and its z is 1. */
  lemma {:induction false} MovedCompounds(p: Coord, M: Matrix, n: nat)
    requires n >= 1
    ensures Moved(p, M, n) == Coord(p.x + (n as real) * M[6], p.y + (n as real) * M[7], 1.0)
  {
    if n > 1 {
      MovedCompounds(p, M, n - 1);
      assert (n as real) * M[6] == ((n - 1) as real) * M[6] + M[6];
      assert (n as real) * M[7] == ((n - 1) as real) * M[7] + M[7];
    }
  }

  /** The vertex array of a line: both endpoints, x, y and z each. */
  function LinePositions(a: Coord, b: Coord): (ps: seq<real>)
    ensures |ps| == 6
    ensures ps == [a.x, a.y, a.z, b.x, b.y, b.z]
  {
    var ends := [a, b];
    assert ends[0] == a && ends[1] == b;
    FlattenIndex(ends);
    Flatten(ends)
  }

  class Line {
    /** The state a line shares with every shape. */
    const shape: Shape
    var P1: Point
    var P2: Point
    /** `_positions`: the vertex data handed to WebGL. */
    var positions: seq<real>

    /** Both endpoints have all three coordinates. */
    ghost predicate Valid()
      reads this, P1, P2
    {
      P1.Defined() && P2.Defined()
    }

    /** `new Line(gl, newP1, newP2, color, filled)`: the line counter goes up by exactly one
        and becomes the id, the type is 'line', and the initial `updateBuffers` with the
        identity matrix keeps each endpoint's x and y and sets its z to 1. */
    constructor (counts: ShapeCounts, newP1: Point, newP2: Point, color: JsVal, filled: JsVal, white: Color)
      requires counts.Valid() && newP1.Defined() && newP2.Defined()
      modifies counts
      ensures counts.Valid()
      ensures counts.count == old(counts.count)[LineType := old(counts.count[LineType]) + 1]
      ensures fresh(shape) && shape.id == counts.count[LineType] && shape.shapeType == LineType
      ensures shape.color == ColorSetter(None, WithDefault(color, Obj(white)))
      ensures shape.filled == FilledSetter(None, WithDefault(filled, Bool(true)))
      ensures shape.M == Identity()
      ensures Valid() && fresh(P1) && fresh(P2)
      ensures P1.Coords() == Homogeneous(newP1.Coords())
      ensures P2.Coords() == Homogeneous(newP2.Coords())
      ensures positions == LinePositions(P1.Coords(), P2.Coords())
    {
      var s := new Shape(color, filled, white);
      counts.Increment(LineType);
      s.shapeType := LineType;
      s.id := counts.count[LineType];
      shape := s;
      P1, P2 := newP1, newP2;
      positions := [];
      new;
      UpdateBuffers();
      TransformIdentity(newP1.Coords());
      TransformIdentity(newP2.Coords());
    }

    /** `computeCentroid`: a new point at the midpoint of the endpoints. */
    method ComputeCentroid() returns (center: Point)
      requires Valid()
      ensures fresh(center) && center.Defined()
      ensures center.Coords() == Midpoint(P1.Coords(), P2.Coords())
    {
      center := new Point(Num((P1.x.value + P2.x.value) / 2.0), Num((P1.y.value + P2.y.value) / 2.0), Undefined);
    }

    /** `updateBuffers`: the endpoints are replaced by new points transformed by M, and the
        vertex array holds the new endpoints. */
    method UpdateBuffers()
      requires Valid()
      modifies this
      ensures Valid() && fresh(P1) && fresh(P2)
      ensures P1.Coords() == TransformCoord(old(P1.Coords()), shape.M)
      ensures P2.Coords() == TransformCoord(old(P2.Coords()), shape.M)
      ensures positions == LinePositions(P1.Coords(), P2.Coords())
      ensures positions[2] == 1.0 && positions[5] == 1.0
    {
      P1 := TransformPoint(P1, shape.M);
      P2 := TransformPoint(P2, shape.M);
      positions := [P1.x.value, P1.y.value, P1.z.value, P2.x.value, P2.y.value, P2.z.value];
    }
  }
}
