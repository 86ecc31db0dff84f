/** `rebuildTransformationMatrix` (src/matrix_math.js): composes a shape's translation,
    rotation and scale into its matrix M. As written, the rotation pivot cancels out and the
    centroid-scaled matrix it builds is never used, so M is always T . R . S. */
module ShapeTransform {
  import opened Points
  import opened MatrixMath
  import opened Shapes
  import opened Lines
  import opened Triangles
  import opened Circles

  /** Any shape the composer may be given; `computeCentroid` dispatches on the variant. */
  datatype AnyShape =
    | BaseShape(s: Shape)
    | LineShape(line: Line)
    | TriangleShape(tri: Triangle)
    | CircleShape(circle: Circle)
  {
    /** The state every shape has (tx, ty, sx, sy, rotAngle, rotAroundCenter, M). */
    function Base(): Shape
    {
      match this
      case BaseShape(s) => s
      case LineShape(l) => l.shape
      case TriangleShape(t) => t.shape
      case CircleShape(c) => c.shape
    }
  }

  /** `shape.computeCentroid()` for whichever shape it is; the point it returns has coordinates. */
  method ComputeCentroid(shape: AnyShape, origin: Point) returns (center: Point)
    requires origin.Defined()
    requires shape.LineShape? ==> shape.line.Valid()
    requires shape.TriangleShape? ==> shape.tri.Valid()
    requires shape.CircleShape? ==> shape.circle.Valid()
    ensures center.Defined()
    ensures shape.BaseShape? ==> center == origin
    ensures shape.LineShape? ==> center.Coords() == Midpoint(shape.line.P1.Coords(), shape.line.P2.Coords())
    ensures shape.TriangleShape? ==> center.Coords() == Centroid(shape.tri.P1.Coords(), shape.tri.P2.Coords(), shape.tri.P3.Coords())
    ensures shape.CircleShape? ==> center == shape.circle.center
  {
    match shape
    case BaseShape(s) =>
      center := s.ComputeCentroid(origin);
    case LineShape(l) =>
      center := l.ComputeCentroid();
    case TriangleShape(t) =>
      center := t.ComputeCentroid();
    case CircleShape(c) =>
      center := c.ComputeCentroid();
  }

  /** The matrix the composer stores: translation times rotation times scale. */
  function Composite(trig: Trig, tx: real, ty: real, sx: real, sy: real, rotAngle: real): Matrix
  {
    Multiply(Multiply(Translation(tx, ty), Rotation(trig, rotAngle)), Scale(sx, sy))
  }

  /** Rotating about a pivot as the source does, R . toOrigin . fromOrigin, is just R:
      the two translations cancel each other. */
  lemma RotationPivotCancels(R: Matrix, cx: real, cy: real)
    ensures Multiply(Multiply(R, Translation(-cx, -cy)), Translation(cx, cy)) == R
  {
    MultiplyAssociative(R, Translation(-cx, -cy), Translation(cx, cy));
    TranslationInverse(cx, cy);
    MultiplyIdentity(R);
  }

  /** The composite's translation column is exactly (tx, ty), whatever the rotation and scale. */
  lemma CompositeTranslationCells(trig: Trig, tx: real, ty: real, sx: real, sy: real, rotAngle: real)
    ensures Composite(trig, tx, ty, sx, sy, rotAngle)[6] == tx
    ensures Composite(trig, tx, ty, sx, sy, rotAngle)[7] == ty
  {
    var TR := Multiply(Translation(tx, ty), Rotation(trig, rotAngle));
    assert TR[6] == tx && TR[7] == ty;
  }

  /** On screen a shape only moves: `transformPoint` with the composite adds (tx, ty), so
      the scale and the rotation stored in M have no visible effect. */
  lemma RenderedEffectIsTranslation(trig: Trig, tx: real, ty: real, sx: real, sy: real, rotAngle: real, p: Coord)
    ensures TransformCoord(p, Composite(trig, tx, ty, sx, sy, rotAngle)) == Coord(p.x + tx, p.y + ty, 1.0)
  {
    CompositeTranslationCells(trig, tx, ty, sx, sy, rotAngle);
  }

  /** With the default properties (no translation, unit scale, angle 0) the composite is the
      identity, given cos 0 = 1 and sin 0 = 0. */
  lemma DefaultsGiveIdentity(trig: Trig)
    requires trig.cos(0.0) == 1.0 && trig.sin(0.0) == 0.0
    ensures Composite(trig, 0.0, 0.0, 1.0, 1.0, 0.0) == Identity()
  {
    assert Translation(0.0, 0.0) == Identity();
    assert Rotation(trig, 0.0) == Identity();
    assert Scale(1.0, 1.0) == Identity();
    MultiplyIdentity(Identity());
  }

  /** The matrix `m` the source builds and then drops: scaling about the centroid
      (fromOrigin . S . toOrigin). */
  function ScaleAboutCenter(cx: real, cy: real, sx: real, sy: real): Matrix
  {
    Multiply(Translation(cx, cy), Multiply(Scale(sx, sy), Translation(-cx, -cy)))
  }

  /** Had it been used, `m` would keep the centroid fixed. */
  lemma ScaleAboutCenterFixesCenter(cx: real, cy: real, sx: real, sy: real)
    ensures MatVec(ScaleAboutCenter(cx, cy, sx, sy), Coord(cx, cy, 1.0)) == Coord(cx, cy, 1.0)
  {
    var c := Coord(cx, cy, 1.0);
    MatVecMultiply(Translation(cx, cy), Multiply(Scale(sx, sy), Translation(-cx, -cy)), c);
    MatVecMultiply(Scale(sx, sy), Translation(-cx, -cy), c);
    assert MatVec(Translation(-cx, -cy), c) == Coord(0.0, 0.0, 1.0);
    assert MatVec(Scale(sx, sy), Coord(0.0, 0.0, 1.0)) == Coord(0.0, 0.0, 1.0);
  }

  /** `rebuildTransformationMatrix(shape)`: only M changes, and it becomes T . R . S whatever
      the centroid is and whichever way `rotAroundCenter` is set. */
  method RebuildTransformationMatrix(shape: AnyShape, trig: Trig, origin: Point)
    requires origin.Defined()
    requires shape.LineShape? ==> shape.line.Valid()
    requires shape.TriangleShape? ==> shape.tri.Valid()
    requires shape.CircleShape? ==> shape.circle.Valid()
    modifies shape.Base()`M
    ensures shape.Base().M == Composite(trig, shape.Base().tx, shape.Base().ty,
                                        shape.Base().sx, shape.Base().sy, shape.Base().rotAngle)
  {
    var s := shape.Base();
    var compositeMatrix: Matrix;

    var center := ComputeCentroid(shape, origin);
    var toOrigin := Translation(-center.x.value, -center.y.value);
    var fromOrigin := Translation(center.x.value, center.y.value);

    var translationMatrix := Translation(s.tx, s.ty);
    var m := toOrigin;
    var scaleMatrix := Scale(s.sx, s.sy);
    m := Multiply(scaleMatrix, m);
    m := Multiply(fromOrigin, m);

    var rotationMatrix: Matrix;
    compositeMatrix := m;

    if s.rotAroundCenter {
      rotationMatrix := Rotation(trig, s.rotAngle);
      rotationMatrix := Multiply(rotationMatrix, toOrigin);
      rotationMatrix := Multiply(rotationMatrix, fromOrigin);
      RotationPivotCancels(Rotation(trig, s.rotAngle), center.x.value, center.y.value);
    } else {
      rotationMatrix := Rotation(trig, s.rotAngle);
    }

    compositeMatrix := Multiply(translationMatrix, rotationMatrix);
    compositeMatrix := Multiply(compositeMatrix, scaleMatrix);
    s.M := compositeMatrix;
  }
}
