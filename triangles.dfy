/** Drawable triangles (src/objects/Triangle.js). `updateBuffers` transforms copies of the
    vertices; the vertices themselves never change. */
module Triangles {
  import opened JsValues
  import opened Points
  import opened Colors
  import opened MatrixMath
  import opened Shapes

  /** The centre of a triangle: the mean of its vertices in x, y and z. */
  function Centroid(a: Coord, b: Coord, c: Coord): (g: Coord)
    ensures (a.x - g.x) + (b.x - g.x) + (c.x - g.x) == 0.0
    ensures (a.y - g.y) + (b.y - g.y) + (c.y - g.y) == 0.0
    ensures (a.z - g.z) + (b.z - g.z) + (c.z - g.z) == 0.0
  {
    Coord((a.x + b.x + c.x) / 3.0, (a.y + b.y + c.y) / 3.0, (a.z + b.z + c.z) / 3.0)
  }

  /** The centroid is a vertex when the triangle is a single point. */
  lemma CentroidOfPoint(a: Coord)
    ensures Centroid(a, a, a) == a
  {
  }

  /** Shifting all three vertices shifts the centroid by the same amount. */
  lemma CentroidFollowsShift(a: Coord, b: Coord, c: Coord, dx: real, dy: real, dz: real)
    ensures Centroid(Coord(a.x + dx, a.y + dy, a.z + dz), Coord(b.x + dx, b.y + dy, b.z + dz),
                     Coord(c.x + dx, c.y + dy, c.z + dz))
         == Coord(Centroid(a, b, c).x + dx, Centroid(a, b, c).y + dy, Centroid(a, b, c).z + dz)
  {
  }

  /** The vertex array of a triangle: the three vertices transformed by M, in order. */
  function TrianglePositions(a: Coord, b: Coord, c: Coord, M: Matrix): (ps: seq<real>)
    ensures |ps| == 9
    ensures ps[0] == a.x + M[6] && ps[1] == a.y + M[7]
    ensures ps[3] == b.x + M[6] && ps[4] == b.y + M[7]
    ensures ps[6] == c.x + M[6] && ps[7] == c.y + M[7]
    ensures ps[2] == 1.0 && ps[5] == 1.0 && ps[8] == 1.0
  {
    var vs := [TransformCoord(a, M), TransformCoord(b, M), TransformCoord(c, M)];
    assert vs[0] == TransformCoord(a, M) && vs[1] == TransformCoord(b, M) && vs[2] == TransformCoord(c, M);
    FlattenIndex(vs);
    Flatten(vs)
  }

  class Triangle {
    /** The state a triangle shares with every shape. */
    const shape: Shape
    var P1: Point
    var P2: Point
    var P3: Point
    /** `_positions`: the vertex data handed to WebGL. */
    var positions: seq<real>

    /** All three vertices have all three coordinates. */
    ghost predicate Valid()
      reads this, P1, P2, P3
    {
      P1.Defined() && P2.Defined() && P3.Defined()
    }

    /** `new Triangle(gl, newP1, newP2, newP3, color, filled)`: the triangle counter goes up by
        exactly one and becomes the id, the type is 'triangle', the vertices are the caller's own
        points, and the initial `updateBuffers` uses the identity matrix. */
    constructor (counts: ShapeCounts, newP1: Point, newP2: Point, newP3: Point, color: JsVal, filled: JsVal, white: Color)
      requires counts.Valid() && newP1.Defined() && newP2.Defined() && newP3.Defined()
      modifies counts
      ensures counts.Valid()
      ensures counts.count == old(counts.count)[TriangleType := old(counts.count[TriangleType]) + 1]
      ensures fresh(shape) && shape.id == counts.count[TriangleType] && shape.shapeType == TriangleType
      ensures shape.color == ColorSetter(None, WithDefault(color, Obj(white)))
      ensures shape.filled == FilledSetter(None, WithDefault(filled, Bool(true)))
      ensures shape.M == Identity()
      ensures P1 == newP1 && P2 == newP2 && P3 == newP3 && Valid()
      ensures positions == TrianglePositions(P1.Coords(), P2.Coords(), P3.Coords(), Identity())
    {
      var s := new Shape(color, filled, white);
      counts.Increment(TriangleType);
      s.shapeType := TriangleType;
      s.id := counts.count[TriangleType];
      shape := s;
      P1, P2, P3 := newP1, newP2, newP3;
      positions := [];
      new;
      UpdateBuffers();
    }

    /** `computeCentroid`: a new point at the mean of the vertices. */
    method ComputeCentroid() returns (center: Point)
      requires Valid()
      ensures fresh(center) && center.Defined()
      ensures center.Coords() == Centroid(P1.Coords(), P2.Coords(), P3.Coords())
    {
      center := new Point(Num((P1.x.value + P2.x.value + P3.x.value) / 3.0),
                          Num((P1.y.value + P2.y.value + P3.y.value) / 3.0),
                          Num((P1.z.value + P2.z.value + P3.z.value) / 3.0));
    }

    /** `updateBuffers`: only the vertex array changes; it holds the transformed vertices.
        Since neither the vertices nor M change, calling it again gives the same array. */
    method UpdateBuffers()
      requires Valid()
      modifies this`positions
      ensures positions == TrianglePositions(P1.Coords(), P2.Coords(), P3.Coords(), shape.M)
    {
      var Q1 := TransformPoint(P1, shape.M);
      var Q2 := TransformPoint(P2, shape.M);
      var Q3 := TransformPoint(P3, shape.M);
      positions := [Q1.x.value, Q1.y.value, Q1.z.value,
                    Q2.x.value, Q2.y.value, Q2.z.value,
                    Q3.x.value, Q3.y.value, Q3.z.value];
    }
  }
}
