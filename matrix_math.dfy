/** The 3x3 matrix primitives of src/matrix_math.js. A matrix is nine reals in
    column-major order: cell 3*c + r holds row r of column c, so cells 6 and 7 are
    the translation column. */
module MatrixMath {
  import opened JsValues
  import opened Points

  type Matrix = m: seq<real> | |m| == 9 witness [1.0, 0.0, 0.0, 0.0, 1.0, 0.0, 0.0, 0.0, 1.0]

  /** The 4x4 (sixteen-cell, column-major) matrices built by `orthoMatrix`. */
  type Matrix4 = m: seq<real> | |m| == 16
    witness [1.0, 0.0, 0.0, 0.0, 0.0, 1.0, 0.0, 0.0, 0.0, 0.0, 1.0, 0.0, 0.0, 0.0, 0.0, 1.0]

  /** `Math.cos` and `Math.sin`, which the model does not interpret. */
  datatype Trig = Trig(cos: real -> real, sin: real -> real)

  /** The entry in row r and column c. */
  function At(M: Matrix, r: int, c: int): real
    requires 0 <= r < 3 && 0 <= c < 3
  {
    M[3 * c + r]
  }

  /** Two matrices are equal when all nine entries are. */
  lemma EqualByEntries(L: Matrix, R: Matrix)
    requires forall r, c | 0 <= r < 3 && 0 <= c < 3 :: At(L, r, c) == At(R, r, c)
    ensures L == R
  {
    forall i | 0 <= i < 9
      ensures L[i] == R[i]
    {
      assert L[i] == At(L, i % 3, i / 3) && R[i] == At(R, i % 3, i / 3);
    }
  }

  // ---------------------------------------------------------------------------
  // Constructors

  function Identity(): (I: Matrix)
    ensures forall r, c | 0 <= r < 3 && 0 <= c < 3 :: At(I, r, c) == if r == c then 1.0 else 0.0
  {
    [1.0, 0.0, 0.0,
     0.0, 1.0, 0.0,
     0.0, 0.0, 1.0]
  }

  /** `makeTranslationMatrix`: the identity with tx and ty poked into cells 6 and 7. */
  function Translation(tx: real, ty: real): (T: Matrix)
    ensures T[6] == tx && T[7] == ty
    ensures forall i | 0 <= i < 9 && i != 6 && i != 7 :: T[i] == Identity()[i]
  {
    Identity()[6 := tx][7 := ty]
  }

  /** `makeScaleMatrix`: the identity with sx and sy on the first two diagonal cells. */
  function Scale(sx: real, sy: real): (S: Matrix)
    ensures S[0] == sx && S[4] == sy
    ensures forall i | 0 <= i < 9 && i != 0 && i != 4 :: S[i] == Identity()[i]
  {
    Identity()[0 := sx][4 := sy]
  }

  /** `makeRotationMatrix(thetaInDegrees)`: the angle goes to cos and sin exactly as given,
      with no conversion from degrees to radians. */
  function Rotation(trig: Trig, thetaInDegrees: real): (R: Matrix)
    ensures R[0] == trig.cos(thetaInDegrees) && R[4] == trig.cos(thetaInDegrees)
    ensures R[1] == trig.sin(thetaInDegrees) && R[3] == -trig.sin(thetaInDegrees)
    ensures forall i | 0 <= i < 9 && i != 0 && i != 1 && i != 3 && i != 4 :: R[i] == Identity()[i]
  {
    Identity()[0 := trig.cos(thetaInDegrees)]
              [1 := trig.sin(thetaInDegrees)]
              [3 := -trig.sin(thetaInDegrees)]
              [4 := trig.cos(thetaInDegrees)]
  }

  // ---------------------------------------------------------------------------
  // Product

  /** The sum of three products, one term per row of a column (or column of a row). */
  function Dot(a0: real, a1: real, a2: real, b0: real, b1: real, b2: real): real
  {
    a0 * b0 + a1 * b1 + a2 * b2
  }

  /** `multiplyMatrices(M1, M2)`, cell by cell as the source writes it. */
  function Multiply(M1: Matrix, M2: Matrix): Matrix
  {
    [Dot(M1[0], M1[3], M1[6], M2[0], M2[1], M2[2]),
     Dot(M1[1], M1[4], M1[7], M2[0], M2[1], M2[2]),
     Dot(M1[2], M1[5], M1[8], M2[0], M2[1], M2[2]),

     Dot(M1[0], M1[3], M1[6], M2[3], M2[4], M2[5]),
     Dot(M1[1], M1[4], M1[7], M2[3], M2[4], M2[5]),
     Dot(M1[2], M1[5], M1[8], M2[3], M2[4], M2[5]),

     Dot(M1[0], M1[3], M1[6], M2[6], M2[7], M2[8]),
     Dot(M1[1], M1[4], M1[7], M2[6], M2[7], M2[8]),
     Dot(M1[2], M1[5], M1[8], M2[6], M2[7], M2[8])]
  }

  /** Row r of A times column c of B. */
  function RowTimesColumn(A: Matrix, B: Matrix, r: int, c: int): real
    requires 0 <= r < 3 && 0 <= c < 3
  {
    Dot(At(A, r, 0), At(A, r, 1), At(A, r, 2), At(B, 0, c), At(B, 1, c), At(B, 2, c))
  }

  /** C is the linear-algebra product A x B: every one of its nine entries. */
  ghost predicate IsProduct(A: Matrix, B: Matrix, C: Matrix)
  {
    forall r, c | 0 <= r < 3 && 0 <= c < 3 :: At(C, r, c) == RowTimesColumn(A, B, r, c)
  }

  /** `multiplyMatrices` computes all nine cells of the true product,
      M3[3c + r] = sum over k of M1[3k + r] * M2[3c + k]. */
  lemma MultiplyIsProduct(A: Matrix, B: Matrix)
    ensures IsProduct(A, B, Multiply(A, B))
  {
    forall r, c | 0 <= r < 3 && 0 <= c < 3
      ensures At(Multiply(A, B), r, c) == RowTimesColumn(A, B, r, c)
    {
      if c == 0 {
        if r == 0 {} else if r == 1 {} else {}
      } else if c == 1 {
        if r == 0 {} else if r == 1 {} else {}
      } else {
        if r == 0 {} else if r == 1 {} else {}
      }
    }
  }

  /** One entry of an associativity proof, on scalars: d is B's column times c and
      e is a's row times B, so a . d == e . c. */
  lemma DotAssociative(a0: real, a1: real, a2: real,
                       b00: real, b01: real, b02: real,
                       b10: real, b11: real, b12: real,
                       b20: real, b21: real, b22: real,
                       c0: real, c1: real, c2: real,
                       d0: real, d1: real, d2: real,
                       e0: real, e1: real, e2: real)
    requires d0 == b00 * c0 + b01 * c1 + b02 * c2
    requires d1 == b10 * c0 + b11 * c1 + b12 * c2
    requires d2 == b20 * c0 + b21 * c1 + b22 * c2
    requires e0 == a0 * b00 + a1 * b10 + a2 * b20
    requires e1 == a0 * b01 + a1 * b11 + a2 * b21
    requires e2 == a0 * b02 + a1 * b12 + a2 * b22
    ensures a0 * d0 + a1 * d1 + a2 * d2 == e0 * c0 + e1 * c1 + e2 * c2
  {
  }

  /** Associativity stated on products named by IsProduct, so that no product is unfolded. */
  lemma ProductAssociative(A: Matrix, B: Matrix, C: Matrix, BC: Matrix, AB: Matrix, L: Matrix, R: Matrix)
    requires IsProduct(B, C, BC) && IsProduct(A, B, AB)
    requires IsProduct(A, BC, L) && IsProduct(AB, C, R)
    ensures L == R
  {
    forall r, c | 0 <= r < 3 && 0 <= c < 3
      ensures At(L, r, c) == At(R, r, c)
    {
      DotAssociative(At(A, r, 0), At(A, r, 1), At(A, r, 2),
                     At(B, 0, 0), At(B, 0, 1), At(B, 0, 2),
                     At(B, 1, 0), At(B, 1, 1), At(B, 1, 2),
                     At(B, 2, 0), At(B, 2, 1), At(B, 2, 2),
                     At(C, 0, c), At(C, 1, c), At(C, 2, c),
                     At(BC, 0, c), At(BC, 1, c), At(BC, 2, c),
                     At(AB, r, 0), At(AB, r, 1), At(AB, r, 2));
    }
    EqualByEntries(L, R);
  }

  lemma MultiplyAssociative(A: Matrix, B: Matrix, C: Matrix)
    ensures Multiply(A, Multiply(B, C)) == Multiply(Multiply(A, B), C)
  {
    MultiplyIsProduct(B, C);
    MultiplyIsProduct(A, B);
    MultiplyIsProduct(A, Multiply(B, C));
    MultiplyIsProduct(Multiply(A, B), C);
    ProductAssociative(A, B, C, Multiply(B, C), Multiply(A, B),
                       Multiply(A, Multiply(B, C)), Multiply(Multiply(A, B), C));
  }

  /** The identity is a left and a right neutral element of the product. */
  lemma MultiplyIdentity(M: Matrix)
    ensures Multiply(Identity(), M) == M
    ensures Multiply(M, Identity()) == M
  {
    MultiplyIsProduct(Identity(), M);
    MultiplyIsProduct(M, Identity());
    EqualByEntries(Multiply(Identity(), M), M);
    EqualByEntries(Multiply(M, Identity()), M);
  }

  /** Translations compose by adding their offsets. */
  lemma TranslationsCompose(a: real, b: real, c: real, d: real)
    ensures Multiply(Translation(a, b), Translation(c, d)) == Translation(a + c, b + d)
  {
    var L, R := Multiply(Translation(a, b), Translation(c, d)), Translation(a + c, b + d);
    MultiplyIsProduct(Translation(a, b), Translation(c, d));
    EqualByEntries(L, R);
  }

  /** A translation followed by its opposite is the identity (toOrigin . fromOrigin). */
  lemma TranslationInverse(cx: real, cy: real)
    ensures Multiply(Translation(-cx, -cy), Translation(cx, cy)) == Identity()
    ensures Multiply(Translation(cx, cy), Translation(-cx, -cy)) == Identity()
  {
    TranslationsCompose(-cx, -cy, cx, cy);
    TranslationsCompose(cx, cy, -cx, -cy);
    assert Translation(0.0, 0.0) == Identity();
  }

  // ---------------------------------------------------------------------------
  // Points

  /** The matrix-vector product M . (x, y, z): the reference against which
      `transformPoint` is compared. */
  function MatVec(M: Matrix, p: Coord): Coord
  {
    Coord(Dot(M[0], M[3], M[6], p.x, p.y, p.z),
          Dot(M[1], M[4], M[7], p.x, p.y, p.z),
          Dot(M[2], M[5], M[8], p.x, p.y, p.z))
  }

  /** Row r of a product applied to p is row r of its first factor applied to B . p. */
  lemma ProductRowActsOnVector(A: Matrix, B: Matrix, AB: Matrix, p: Coord, r: nat)
    requires IsProduct(A, B, AB) && r < 3
    ensures var q := MatVec(B, p);
      Dot(At(AB, r, 0), At(AB, r, 1), At(AB, r, 2), p.x, p.y, p.z)
      == Dot(At(A, r, 0), At(A, r, 1), At(A, r, 2), q.x, q.y, q.z)
  {
    var q := MatVec(B, p);
    assert At(AB, r, 0) == RowTimesColumn(A, B, r, 0);
    assert At(AB, r, 1) == RowTimesColumn(A, B, r, 1);
    assert At(AB, r, 2) == RowTimesColumn(A, B, r, 2);
    DotAssociative(At(A, r, 0), At(A, r, 1), At(A, r, 2),
                   At(B, 0, 0), At(B, 0, 1), At(B, 0, 2),
                   At(B, 1, 0), At(B, 1, 1), At(B, 1, 2),
                   At(B, 2, 0), At(B, 2, 1), At(B, 2, 2),
                   p.x, p.y, p.z, q.x, q.y, q.z,
                   At(AB, r, 0), At(AB, r, 1), At(AB, r, 2));
  }

  /** A product acts on a vector as its second factor followed by its first. */
  lemma ProductActsOnVectors(A: Matrix, B: Matrix, AB: Matrix, p: Coord)
    requires IsProduct(A, B, AB)
    ensures MatVec(AB, p) == MatVec(A, MatVec(B, p))
  {
    ProductRowActsOnVector(A, B, AB, p, 0);
    ProductRowActsOnVector(A, B, AB, p, 1);
    ProductRowActsOnVector(A, B, AB, p, 2);
  }

  /** Multiplying matrices composes their actions on vectors. */
  lemma MatVecMultiply(A: Matrix, B: Matrix, p: Coord)
    ensures MatVec(Multiply(A, B), p) == MatVec(A, MatVec(B, p))
  {
    MultiplyIsProduct(A, B);
    ProductActsOnVectors(A, B, Multiply(A, B), p);
  }

  /** The homogeneous form (x, y, 1) of a 2D point. */
  function Homogeneous(p: Coord): Coord
  {
    Coord(p.x, p.y, 1.0)
  }

  /** What `transformPoint(P, M)` returns: the point moved by M's translation column only;
      the linear cells 0-5 and cell 8 play no part. */
  function TransformCoord(p: Coord, M: Matrix): Coord
  {
    Coord(M[6] + p.x, M[7] + p.y, 1.0)
  }

  /** What `transformPoint` computes is the product of the pure translation by M's cells 6
      and 7 with the homogeneous point (x, y, 1). */
  lemma TransformIsTranslationProduct(p: Coord, M: Matrix)
    ensures TransformCoord(p, M) == MatVec(Translation(M[6], M[7]), Homogeneous(p))
  {
  }

  /** `transformPoint(P, M)`: a brand-new point; P itself is not changed. */
  method TransformPoint(P: Point, M: Matrix) returns (myPoint: Point)
    requires P.Defined()
    ensures fresh(myPoint) && myPoint.Defined()
    ensures myPoint.Coords() == TransformCoord(P.Coords(), M)
  {
    myPoint := new Point(P.GetX(), P.GetY(), Num(1.0));
    myPoint.SetX(Num(M[6] + P.x.value));
    myPoint.SetY(Num(M[7] + P.y.value));
    myPoint.SetZ(Num(1.0));
  }

  /** With the identity matrix a point keeps its x and y and gets z = 1. */
  lemma TransformIdentity(p: Coord)
    ensures TransformCoord(p, Identity()) == Homogeneous(p)
  {
  }

  /** Matrices that agree on cells 6 and 7 transform every point alike. */
  lemma TransformUsesOnlyTranslationCells(p: Coord, M: Matrix, N: Matrix)
    requires M[6] == N[6] && M[7] == N[7]
    ensures TransformCoord(p, M) == TransformCoord(p, N)
  {
  }

  /** M is a pure translation. */
  predicate IsTranslation(M: Matrix)
  {
    M == Translation(M[6], M[7])
  }

  /** `transformPoint` agrees with the matrix-vector product for every point exactly
      when the matrix is a pure translation. */
  lemma TransformIsMatVecIffTranslation(M: Matrix)
    ensures (forall p: Coord :: TransformCoord(p, M) == MatVec(M, Homogeneous(p))) <==> IsTranslation(M)
  {
    if forall p: Coord :: TransformCoord(p, M) == MatVec(M, Homogeneous(p)) {
      var o, ex, ey := Coord(0.0, 0.0, 0.0), Coord(1.0, 0.0, 0.0), Coord(0.0, 1.0, 0.0);
      assert TransformCoord(o, M) == MatVec(M, Homogeneous(o));
      assert TransformCoord(ex, M) == MatVec(M, Homogeneous(ex));
      assert TransformCoord(ey, M) == MatVec(M, Homogeneous(ey));
      assert M[8] == 1.0 && M[2] == 0.0 && M[5] == 0.0;
      assert M[0] == 1.0 && M[1] == 0.0 && M[3] == 0.0 && M[4] == 1.0;
      EqualByEntries(M, Translation(M[6], M[7]));
    }
    if IsTranslation(M) {
      forall p: Coord
        ensures TransformCoord(p, M) == MatVec(M, Homogeneous(p))
      {
      }
    }
  }

  /** Transforming twice adds both translation columns. */
  lemma TransformTwice(p: Coord, M: Matrix, N: Matrix)
    ensures TransformCoord(TransformCoord(p, M), N) == TransformCoord(p, Translation(M[6] + N[6], M[7] + N[7]))
  {
  }

  // ---------------------------------------------------------------------------
  // Orthographic projection

  /** The near face actually used: -1 when it is omitted. */
  function NearFace(near: Option<real>): real
  {
    if near.Some? then near.value else -1.0
  }

  /** The far face actually used: 1 when it is omitted. */
  function FarFace(far: Option<real>): real
  {
    if far.Some? then far.value else 1.0
  }

  /** `orthoMatrix(b, t, l, r, n = -1, f = 1)`: an omitted near or far face takes its default.
      The source divides by r - l, t - b and f - n, so a degenerate volume is excluded. */
  function OrthoMatrix(b: real, t: real, l: real, r: real, near: Option<real>, far: Option<real>): (M: Matrix4)
    requires r != l && t != b && FarFace(far) != NearFace(near)
    ensures M[15] == 1.0
    ensures forall i | i in {1, 2, 3, 4, 6, 7, 8, 9, 11} :: M[i] == 0.0
  {
    var n := NearFace(near);
    var f := FarFace(far);
    var A1 := 2.0 / (r - l);
    var B1 := 2.0 / (t - b);
    var C1 := -2.0 / (f - n);
    var A2 := -(r + l) / (r - l);
    var B2 := -(t + b) / (t - b);
    var C2 := -(f + n) / (f - n);
    [A1, 0.0, 0.0, 0.0,
     0.0, B1, 0.0, 0.0,
     0.0, 0.0, C1, 0.0,
     A2, B2, C2, 1.0]
  }

  /** The clip-space image of (x, y, z, 1) under a 4x4 column-major matrix. */
  function Project(M: Matrix4, x: real, y: real, z: real): Coord
  {
    Coord(M[0] * x + M[4] * y + M[8] * z + M[12],
          M[1] * x + M[5] * y + M[9] * z + M[13],
          M[2] * x + M[6] * y + M[10] * z + M[14])
  }

  /** The affine map x' = 2x/(hi - lo) - (hi + lo)/(hi - lo) sends lo to -1 and hi to +1. */
  lemma NormalizeEnds(lo: real, hi: real)
    requires hi != lo
    ensures 2.0 / (hi - lo) * lo + -(hi + lo) / (hi - lo) == -1.0
    ensures 2.0 / (hi - lo) * hi + -(hi + lo) / (hi - lo) == 1.0
  {
    var d := hi - lo;
    assert 2.0 / d * lo == 2.0 * lo / d;
    assert 2.0 / d * hi == 2.0 * hi / d;
    assert 2.0 * lo / d + -(hi + lo) / d == (2.0 * lo - (hi + lo)) / d;
    assert 2.0 * hi / d + -(hi + lo) / d == (2.0 * hi - (hi + lo)) / d;
  }

  /** The projection sends the left face x = l to -1 and the right face x = r to +1,
      whatever y and z are. */
  lemma OrthoMapsLeftRight(b: real, t: real, l: real, r: real, near: Option<real>, far: Option<real>, y: real, z: real)
    requires r != l && t != b && FarFace(far) != NearFace(near)
    ensures Project(OrthoMatrix(b, t, l, r, near, far), l, y, z).x == -1.0
    ensures Project(OrthoMatrix(b, t, l, r, near, far), r, y, z).x == 1.0
  {
    var M := OrthoMatrix(b, t, l, r, near, far);
    assert M[0] == 2.0 / (r - l) && M[12] == -(r + l) / (r - l);
    NormalizeEnds(l, r);
  }

  /** The projection sends the bottom face y = b to -1 and the top face y = t to +1. */
  lemma OrthoMapsBottomTop(b: real, t: real, l: real, r: real, near: Option<real>, far: Option<real>, x: real, z: real)
    requires r != l && t != b && FarFace(far) != NearFace(near)
    ensures Project(OrthoMatrix(b, t, l, r, near, far), x, b, z).y == -1.0
    ensures Project(OrthoMatrix(b, t, l, r, near, far), x, t, z).y == 1.0
  {
    var M := OrthoMatrix(b, t, l, r, near, far);
    assert M[5] == 2.0 / (t - b) && M[13] == -(t + b) / (t - b);
    NormalizeEnds(b, t);
  }

  /** The projection sends the near face z = -n to -1 and the far face z = -f to +1
      (the view looks down the negative z axis). */
  lemma OrthoMapsNearFar(b: real, t: real, l: real, r: real, near: Option<real>, far: Option<real>, x: real, y: real)
    requires r != l && t != b && FarFace(far) != NearFace(near)
    ensures Project(OrthoMatrix(b, t, l, r, near, far), x, y, -NearFace(near)).z == -1.0
    ensures Project(OrthoMatrix(b, t, l, r, near, far), x, y, -FarFace(far)).z == 1.0
  {
    var M := OrthoMatrix(b, t, l, r, near, far);
    var n, f := NearFace(near), FarFace(far);
    assert M[10] == -2.0 / (f - n) && M[14] == -(f + n) / (f - n);
    NormalizeEnds(-n, -f);
    assert -2.0 / (f - n) == 2.0 / (-f - -n);
    assert -(f + n) / (f - n) == -(-f + -n) / (-f - -n);
  }
}
