# shapes2dwebGL: the 2D transform pipeline in Dafny

This project models the core of shapes2dwebGL, a small WebGL editor for circles, lines and
triangles:

- the 3x3 column-major matrix primitives of `src/matrix_math.js`;
- the value objects `Point` and `Color`, whose setters ignore values they reject;
- the `Shape` base class and its `Line`, `Triangle` and `Circle` variants, which build their
  vertex arrays by passing their points through `transformPoint`.

Numbers are mathematical reals. `Math.cos` and `Math.sin` are a `Trig` value passed in as a
parameter. The static members `Point.ORIGIN`, `Color.WHITE` and `Shape.shapeCount` are objects
passed to the code that uses them. Inheritance becomes composition: each variant holds a `Shape`
with the common state. `rebuildTransformationMatrix` dispatches over the `AnyShape` datatype.

The model follows the code as written. The proofs show what that code does:

- `transformPoint` reads only the translation cells 6 and 7 of its matrix. It agrees with the
  matrix-vector product exactly when the matrix is a pure translation.
- In `rebuildTransformationMatrix` the "rotate around centre" branch computes
  `R . toOrigin . fromOrigin`. The two translations cancel, so it equals `R`. The
  centroid-scaled matrix `m` is built and then discarded. The stored matrix is therefore
  `T . R . S` whatever the centroid and the pivot flag are.
- Drawing with that matrix only moves a shape by `(tx, ty)`. Scale and rotation have no
  visible effect.
- `Line.updateBuffers` replaces the endpoints by their transformed images. Every call moves
  the line again, and n calls move it by n times `(tx, ty)`.
- `makeRotationMatrix` hands its angle to cos and sin unchanged, although the caller's value is
  documented as degrees.

The source's own comments promise more than its code does, and the model follows the code:

- The comment before `transformPoint` (src/matrix_math.js:74-75) calls it a simple
  matrix-vector multiplication. The code only adds cells 6 and 7, which is that product only
  for pure translations (`MatrixMath.TransformIsMatVecIffTranslation`).
- The comment before `rebuildTransformationMatrix` (src/matrix_math.js:101-102) says scaling
  always happens about the shape's centre, and rotation about the origin unless
  `rotAroundCenter` is set. The code scales about the origin and rotates about the origin in
  both cases (`ShapeTransform.RebuildTransformationMatrix`).

## Model

| member | source | states |
|---|---|---|
| Points.NumberSetter | src/objects/Point.js:27-41 | a number replaces the stored coordinate; any other value leaves it unchanged |
| Points.Point.constructor | src/objects/Point.js:9-14 | each argument goes through its setter; an omitted Z becomes 0 before it does |
| Points.Point.GetX | src/objects/Point.js:19 | returns the stored x, and `undefined` exactly when nothing is stored |
| Points.Point.GetY | src/objects/Point.js:20 | returns the stored y, and `undefined` exactly when nothing is stored |
| Points.Point.GetZ | src/objects/Point.js:21 | returns the stored z, and `undefined` exactly when nothing is stored |
| Points.Point.SetX | src/objects/Point.js:27-31 | x becomes the number or stays the same; y and z are unchanged; a number set is read back |
| Points.Point.SetY | src/objects/Point.js:32-36 | y becomes the number or stays the same; x and z are unchanged; a number set is read back |
| Points.Point.SetZ | src/objects/Point.js:37-41 | z becomes the number or stays the same; x and y are unchanged; a number set is read back |
| Points.MakeOrigin | src/objects/Point.js:46 | `Point.ORIGIN` is (0, 0, 0), with z taken from the default |
| MatrixMath.Identity | src/matrix_math.js:5-12 | entry (r, c) is 1 on the diagonal and 0 elsewhere |
| MatrixMath.Translation | src/matrix_math.js:18-25 | cells 6 and 7 are tx and ty; every other cell is the identity's |
| MatrixMath.Scale | src/matrix_math.js:27-34 | cells 0 and 4 are sx and sy; every other cell is the identity's |
| MatrixMath.Rotation | src/matrix_math.js:36-45 | cells 0 and 4 are cos of the angle as given, cell 1 is sin, cell 3 is -sin; the rest is the identity |
| MatrixMath.Multiply | src/matrix_math.js:50-70 | the nine cells of `multiplyMatrices`, each a row of M1 times a column of M2; its contract is `MultiplyIsProduct` |
| MatrixMath.MultiplyIsProduct | src/matrix_math.js:50-70 | all nine cells are the linear-algebra product: cell 3c + r is row r of M1 times column c of M2 |
| MatrixMath.ProductAssociative | src/matrix_math.js:50-70 | any two ways of bracketing a product of three matrices give the same matrix |
| MatrixMath.MultiplyAssociative | src/matrix_math.js:50-70 | `multiplyMatrices` is associative |
| MatrixMath.MultiplyIdentity | src/matrix_math.js:50-70 | the identity is a left and a right neutral element |
| MatrixMath.TranslationsCompose | src/matrix_math.js:18-25 | translation(a, b) times translation(c, d) is translation(a + c, b + d) |
| MatrixMath.TranslationInverse | src/matrix_math.js:110-111 | toOrigin . fromOrigin and fromOrigin . toOrigin are the identity |
| MatrixMath.ProductActsOnVectors | src/matrix_math.js:50-70 | a product applied to a vector is its second factor applied first, then its first |
| MatrixMath.MatVecMultiply | src/matrix_math.js:50-70 | `multiplyMatrices` composes the matrices' actions on vectors |
| MatrixMath.TransformPoint | src/matrix_math.js:79-89 | a fresh point (M[6] + x, M[7] + y, 1); the argument point is not modified |
| MatrixMath.TransformCoord | src/matrix_math.js:79-89 | the coordinates `transformPoint` returns; characterised by `TransformIsTranslationProduct` and `TransformIsMatVecIffTranslation` |
| MatrixMath.TransformIsTranslationProduct | src/matrix_math.js:79-89 | the result is the product of the pure translation by cells 6 and 7 with (x, y, 1) |
| MatrixMath.TransformUsesOnlyTranslationCells | src/matrix_math.js:81-82 | matrices that agree on cells 6 and 7 transform every point alike |
| MatrixMath.TransformIsMatVecIffTranslation | src/matrix_math.js:79-89 | `transformPoint` equals M . (x, y, 1) for every point if and only if M is a pure translation |
| MatrixMath.TransformIdentity | src/matrix_math.js:79-89 | with the identity a point keeps x and y and gets z = 1 |
| MatrixMath.TransformTwice | src/matrix_math.js:79-89 | transforming by M and then by N adds both translation columns |
| MatrixMath.OrthoMatrix | src/matrix_math.js:160-179 | sixteen cells, cell 15 is 1 and the off-diagonal linear cells are 0; omitted n and f default to -1 and 1 |
| MatrixMath.OrthoMapsLeftRight | src/matrix_math.js:160-179 | x = l goes to -1 and x = r to +1 |
| MatrixMath.OrthoMapsBottomTop | src/matrix_math.js:160-179 | y = b goes to -1 and y = t to +1 |
| MatrixMath.OrthoMapsNearFar | src/matrix_math.js:160-179 | z = -n goes to -1 and z = -f to +1 |
| Colors.ChannelSetter | src/objects/Color.js:39-53 | a number in [0, 1] replaces the channel; anything else leaves it unchanged |
| Colors.ChannelSetterKeepsRange | src/objects/Color.js:39-53 | a channel in [0, 1] stays in [0, 1] whatever the setter is given |
| Colors.Color.constructor | src/objects/Color.js:9-15 | starts from [0, 0, 0] and passes each argument through its setter; all channels are in [0, 1] |
| Colors.Color.R | src/objects/Color.js:31 | returns slot 0 of `_c`, which is in [0, 1] |
| Colors.Color.G | src/objects/Color.js:32 | returns slot 1 of `_c`, which is in [0, 1] |
| Colors.Color.B | src/objects/Color.js:33 | returns slot 2 of `_c`, which is in [0, 1] |
| Colors.Color.SetR | src/objects/Color.js:39-43 | slot 0 follows the channel rule; slots 1 and 2 are unchanged; the range invariant is kept |
| Colors.Color.SetG | src/objects/Color.js:44-48 | slot 1 follows the channel rule; slots 0 and 2 are unchanged; the range invariant is kept |
| Colors.Color.SetB | src/objects/Color.js:49-53 | slot 2 follows the channel rule; slots 0 and 1 are unchanged; the range invariant is kept |
| Colors.MakeWhite | src/objects/Color.js:67 | `Color.WHITE` has all three channels 1 |
| Shapes.ShapeCounts.constructor | src/objects/Shape.js:108-113 | every type has a counter, and all counters start at 0 |
| Shapes.ShapeCounts.Increment | src/objects/Line.js:31 | only the counter of the given type changes, and it goes up by exactly one |
| Shapes.ColorSetter | src/objects/Shape.js:61-65 | a Color object replaces the stored colour; anything else leaves it unchanged |
| Shapes.FilledSetter | src/objects/Shape.js:69-73 | a boolean replaces the stored flag; anything else leaves it unchanged |
| Shapes.WithDefault | src/objects/Shape.js:17-18 | an omitted argument is replaced by its default; a passed one is kept, even an unacceptable one |
| Shapes.OmittedArgumentsGiveDefaults | src/objects/Shape.js:17-18 | with both arguments omitted a shape is white and filled |
| Shapes.NonColorLeavesColorUndefined | src/objects/Shape.js:17-18 | a defined non-Color colour argument leaves the colour undefined; the white default is not applied |
| Shapes.Shape.constructor | src/objects/Shape.js:14-51 | colour and fill through the setters with their defaults; id -1, type 'unknown', tx = ty = 0, sx = sy = 1, angle 0, pivot flag false, M the identity |
| Shapes.Shape.SetColor | src/objects/Shape.js:61-65 | only the colour field can change, by the colour rule |
| Shapes.Shape.SetFilled | src/objects/Shape.js:69-73 | only the fill field can change, by the fill rule |
| Shapes.Shape.ComputeCentroid | src/objects/Shape.js:81 | the base centroid is the shared origin object itself |
| Shapes.Shape.UpdateBuffers | src/objects/Shape.js:88-90 | the base class changes nothing and reports the abstract-call error message |
| Shapes.Flatten | src/objects/Triangle.js:72-76 | a vertex array has three entries per point |
| Shapes.FlattenIndex | src/objects/Triangle.js:72-76 | point k occupies entries 3k, 3k + 1 and 3k + 2, as x, y, z |
| Lines.Midpoint | src/objects/Line.js:56-58 | the centre is equidistant from both endpoints in x and in y, with z = 0 |
| Lines.MidpointFollowsTransform | src/objects/Line.js:50-62 | transforming both endpoints moves the centre by cells 6 and 7 |
| Lines.MovedCompounds | src/objects/Line.js:75-76 | after n >= 1 calls of `updateBuffers` with one matrix, an endpoint has moved by n times (M[6], M[7]) and has z = 1 |
| Lines.LinePositions | src/objects/Line.js:89 | the six entries are x, y, z of the first endpoint, then of the second |
| Lines.Line.constructor | src/objects/Line.js:26-43 | the line counter goes up by one and is the id; type 'line'; the identity leaves each endpoint's x and y and sets z to 1 |
| Lines.Line.ComputeCentroid | src/objects/Line.js:50-62 | a fresh point at the midpoint of the endpoints |
| Lines.Line.UpdateBuffers | src/objects/Line.js:70-94 | the endpoints are replaced by fresh transformed points; the positions are theirs, with both z entries 1 |
| Triangles.Centroid | src/objects/Triangle.js:49-55 | the deviations of the three vertices from the centre sum to zero in x, y and z |
| Triangles.CentroidOfPoint | src/objects/Triangle.js:49-55 | the centre of a triangle collapsed to one point is that point |
| Triangles.CentroidFollowsShift | src/objects/Triangle.js:49-55 | shifting all vertices shifts the centre by the same amount |
| Triangles.TrianglePositions | src/objects/Triangle.js:65-76 | nine entries, each vertex moved by (M[6], M[7]) in order, every z entry 1 |
| Triangles.Triangle.constructor | src/objects/Triangle.js:24-42 | the triangle counter goes up by one and is the id; type 'triangle'; the vertices are the caller's points |
| Triangles.Triangle.ComputeCentroid | src/objects/Triangle.js:49-55 | a fresh point at the mean of the vertices |
| Triangles.Triangle.UpdateBuffers | src/objects/Triangle.js:63-81 | only the positions change; the vertices and M do not, so a second call gives the same array |
| Circles.AngleIsMultiple | src/objects/Circle.js:63-81 | the accumulated angle after k slices is k times 2 pi / SLICES |
| Circles.FanCoversOneTurn | src/objects/Circle.js:64-81 | after SLICES steps the angle is 2 pi, and the last rim point is before it |
| Circles.NewRimPoint | src/objects/Circle.js:71-74 | a fresh point at the centre plus (cos a, sin a) times the radius, at the centre's z |
| Circles.RimPointOnCircle | src/objects/Circle.js:71-74 | given cos^2 + sin^2 = 1, a rim point is at distance `radius` from the centre |
| Circles.FanVertexOnCircle | src/objects/Circle.js:71-77 | the transformed rim point is at distance `radius` from the transformed centre |
| Circles.FanData | src/objects/Circle.js:67-82 | after n slices `pointData` has 3n entries |
| Circles.FanDataAt | src/objects/Circle.js:67-82 | vertex k, the transformed rim point at the k-th angle, fills entries 3k to 3k + 2 |
| Circles.CircleZColumn | src/objects/Circle.js:77-78 | every z entry of the vertex array is 1 |
| Circles.Circle.constructor | src/objects/Circle.js:23-40 | the circle counter goes up by one and is the id; type 'circle'; the centre is the caller's point |
| Circles.Circle.ComputeCentroid | src/objects/Circle.js:47-49 | the centre object itself |
| Circles.Circle.UpdateBuffers | src/objects/Circle.js:58-90 | 3 * SLICES = 108 entries, vertex by vertex; centre, radius and M do not change |
| ShapeTransform.ComputeCentroid | src/matrix_math.js:109 | dispatches `computeCentroid` to the variant; the centre has coordinates |
| ShapeTransform.Composite | src/matrix_math.js:142-144 | the stored T . R . S; `CompositeTranslationCells` gives its translation column |
| ShapeTransform.RotationPivotCancels | src/matrix_math.js:129-131 | R . toOrigin . fromOrigin equals R |
| ShapeTransform.CompositeTranslationCells | src/matrix_math.js:114-144 | cells 6 and 7 of the stored matrix are tx and ty |
| ShapeTransform.RenderedEffectIsTranslation | src/matrix_math.js:142-144 | transforming a point by the stored matrix adds (tx, ty) and nothing else |
| ShapeTransform.DefaultsGiveIdentity | src/matrix_math.js:142-144 | with the default properties (and cos 0 = 1, sin 0 = 0) the matrix is the identity |
| ShapeTransform.ScaleAboutCenterFixesCenter | src/matrix_math.js:116-119 | the discarded `m` would have kept the centroid fixed |
| ShapeTransform.RebuildTransformationMatrix | src/matrix_math.js:105-145 | only M changes, and it becomes T . R . S whatever the centroid and the pivot flag |

## Left out

- Floating point: numbers are reals, so NaN, the infinities, rounding and `Float32Array`
  precision are not modelled. `Point` would accept NaN, since `typeof NaN` is 'number'. `Color`
  rejects NaN through its comparisons.
- Trigonometry: cos and sin are uninterpreted functions passed as `Trig`. Properties that need
  cos 0 = 1, sin 0 = 0 or cos^2 + sin^2 = 1 take them as preconditions. Math.PI is the exact real
  3.141592653589793, and the accumulated circle angle has no rounding drift.
- NanoGL buffer creation, the `gl` parameter, the `buffer` field and `Color.passToShader`:
  these are calls into the GPU library.
- The predefined colour table other than `Color.WHITE`, and `Color.predefinedNames`: these are
  static data and reflection.
- The `console.error` of the abstract `updateBuffers` becomes its returned message.
- The `id` and `type` getters of `Shape` read fields the model exposes directly.
- Lines.Line.constructor, Triangles.Triangle.constructor, Circles.Circle.constructor: they require
  points whose x, y and z are all set. The program builds every such point from a click with two
  numbers and the default z of 0 (src/interface.js:112-113), so it never passes a point with an
  unset coordinate. Such a point, built by other code, is not modelled. For x and y the
  arithmetic would give NaN. An unset z would be harmless in `transformPoint`, which writes
  z = 1, and in `Line.computeCentroid`, which ignores z. It would make
  `Triangle.computeCentroid` give NaN.
- ShapeTransform.RebuildTransformationMatrix: `rotAroundCenter` is a boolean, so the loose
  comparison `== true` with a non-boolean value is not modelled. The properties tx, ty, sx,
  sy and rotAngle are reals; values such as a NaN from `parseFloat` are not modelled.
- MatrixMath.OrthoMatrix: requires r != l, t != b and f != n. In JavaScript a degenerate
  volume divides by zero and yields Infinity or NaN, which reals cannot express.
- Circles.Circle.UpdateBuffers: the radius is a real. The source does not check its type.
- Successive ids are not stated by a separate lemma. Each constructor's postcondition gives
  id = previous count + 1, and the counter keeps that value.
- src/interface.js (DOM and event wiring), src/utils.js (WebGL context and canvas set-up) and
  the webpack configuration are not part of this model.
