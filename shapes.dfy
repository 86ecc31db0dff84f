/** The drawable-shape base class (src/objects/Shape.js): colour and fill behind guarded
    setters, the transformation properties and their defaults, the shape-type enumeration
    and the per-type creation counters. */
module Shapes {
  import opened JsValues
  import opened Points
  import opened Colors
  import opened MatrixMath

  /** `Shape.SHAPE_TYPE`. */
  datatype ShapeType = Unknown | CircleType | LineType | TriangleType
  {
    /** The string the source uses for the type, which is also its key in `shapeCount`. */
    function Name(): string
    {
      match this
      case Unknown => "unknown"
      case CircleType => "circle"
      case LineType => "line"
      case TriangleType => "triangle"
    }
  }

  /** `Shape.shapeCount`: how many shapes of each type have been created. The model passes
      this table to the shape constructors instead of keeping it global. */
  class ShapeCounts {
    var count: map<ShapeType, int>

    /** Every type has a counter. */
    ghost predicate Valid()
      reads this
    {
      forall t: ShapeType :: t in count
    }

    /** All four counters start at 0. */
    constructor ()
      ensures Valid()
      ensures forall t: ShapeType :: count[t] == 0
    {
      count := map[Unknown := 0, CircleType := 0, LineType := 0, TriangleType := 0];
      new;
      forall t: ShapeType
        ensures t in count && count[t] == 0
      {
        match t
        case Unknown =>
        case CircleType =>
        case LineType =>
        case TriangleType =>
      }
    }

    /** `Shape.shapeCount[t]++`: only the counter of t moves, by exactly one. */
    method Increment(t: ShapeType)
      requires Valid()
      modifies this
      ensures Valid()
      ensures count == old(count)[t := old(count)[t] + 1]
    {
      count := count[t := count[t] + 1];
    }
  }

  /** The value the `color` setter leaves behind: a Color object replaces the stored one,
      anything else keeps it (possibly still undefined). */
  function ColorSetter(prev: Option<Color>, v: JsVal): (r: Option<Color>)
    ensures v.Obj? && v.o is Color ==> r.Some? && r.value as object == v.o
    ensures !(v.Obj? && v.o is Color) ==> r == prev
  {
    if v.Obj? && v.o is Color then Some(v.o as Color) else prev
  }

  /** The value the `filled` setter leaves behind: a boolean replaces it, anything else keeps it. */
  function FilledSetter(prev: Option<bool>, v: JsVal): (r: Option<bool>)
    ensures IsBoolean(v) ==> r == Some(v.b)
    ensures !IsBoolean(v) ==> r == prev
  {
    if v.Bool? then Some(v.b) else prev
  }

  /** A constructor argument that was not passed is replaced by its default before the setter
      sees it; a passed argument, even an unacceptable one, is not. */
  function WithDefault(v: JsVal, default: JsVal): (r: JsVal)
    ensures IsDefined(v) ==> r == v
    ensures !IsDefined(v) ==> r == default
  {
    if v.Undefined? then default else v
  }

  /** With both arguments omitted, a shape is white and filled. */
  lemma OmittedArgumentsGiveDefaults(white: Color)
    ensures ColorSetter(None, WithDefault(Undefined, Obj(white))) == Some(white)
    ensures FilledSetter(None, WithDefault(Undefined, Bool(true))) == Some(true)
  {
  }

  /** A colour argument that is defined but not a Color leaves the colour undefined:
      the default is not applied to it. */
  lemma NonColorLeavesColorUndefined(v: JsVal, white: Color)
    requires IsDefined(v) && !(v.Obj? && v.o is Color)
    ensures ColorSetter(None, WithDefault(v, Obj(white))) == None
  {
  }

  class Shape {
    var color: Option<Color>
    var filled: Option<bool>
    var id: int
    var shapeType: ShapeType
    var tx: real
    var ty: real
    var sx: real
    var sy: real
    /** The rotation angle, which the source documents as degrees. */
    var rotAngle: real
    var rotAroundCenter: bool
    /** The pre-computed transformation matrix. */
    var M: Matrix

    /** `new Shape(C, fill)`: the colour defaults to white and the fill to true when omitted,
        each goes through its setter; id -1 and type 'unknown' until a subclass overwrites them;
        no translation, unit scale, no rotation, and the identity matrix. */
    constructor (C: JsVal, fill: JsVal, white: Color)
      ensures color == ColorSetter(None, WithDefault(C, Obj(white)))
      ensures filled == FilledSetter(None, WithDefault(fill, Bool(true)))
      ensures id == -1 && shapeType == Unknown
      ensures tx == 0.0 && ty == 0.0 && sx == 1.0 && sy == 1.0
      ensures rotAngle == 0.0 && !rotAroundCenter
      ensures M == Identity()
    {
      color, filled := None, None;
      id := -1;
      shapeType := Unknown;
      tx, ty := 0.0, 0.0;
      sx, sy := 1.0, 1.0;
      rotAngle := 0.0;
      rotAroundCenter := false;
      M := Identity();
      new;
      SetColor(WithDefault(C, Obj(white)));
      SetFilled(WithDefault(fill, Bool(true)));
    }

    /** `set color`: only a Color object is stored; nothing else about the shape changes. */
    method SetColor(C: JsVal)
      modifies this`color
      ensures color == ColorSetter(old(color), C)
    {
      if C.Obj? && C.o is Color {
        color := Some(C.o as Color);
      }
    }

    /** `set filled`: only a boolean is stored; nothing else about the shape changes. */
    method SetFilled(fill: JsVal)
      modifies this`filled
      ensures filled == FilledSetter(old(filled), fill)
    {
      if fill.Bool? {
        filled := Some(fill.b);
      }
    }

    /** The base `computeCentroid`: the shared origin point itself, not a copy. */
    method ComputeCentroid(origin: Point) returns (center: Point)
      ensures center == origin
    {
      center := origin;
    }

    /** The base `updateBuffers` is abstract: it changes nothing and only returns the error
        message the source writes to the console. */
    method UpdateBuffers() returns (error: string)
      ensures error == ABSTRACT_UPDATE_ERROR
    {
      error := ABSTRACT_UPDATE_ERROR;
    }
  }

  /** The message the abstract `updateBuffers` reports. */
  const ABSTRACT_UPDATE_ERROR: string := "ERROR: Abstract Shape.updateBuffers() called."

  /** The rows of a vertex array: the x, y and z of each point in turn, as the
      `Float32Array` every shape hands to WebGL. */
  function Flatten(ps: seq<Coord>): (r: seq<real>)
    ensures |r| == 3 * |ps|
  {
    if |ps| == 0 then []
    else Flatten(ps[..|ps| - 1]) + [ps[|ps| - 1].x, ps[|ps| - 1].y, ps[|ps| - 1].z]
  }

  /** Point k occupies entries 3k, 3k + 1 and 3k + 2 of the vertex array. */
  lemma {:induction false} FlattenIndex(ps: seq<Coord>)
    ensures forall k | 0 <= k < |ps| ::
      Flatten(ps)[3 * k] == ps[k].x && Flatten(ps)[3 * k + 1] == ps[k].y && Flatten(ps)[3 * k + 2] == ps[k].z
  {
    if |ps| > 0 {
      var init := ps[..|ps| - 1];
      FlattenIndex(init);
      forall k | 0 <= k < |ps|
        ensures Flatten(ps)[3 * k] == ps[k].x && Flatten(ps)[3 * k + 1] == ps[k].y && Flatten(ps)[3 * k + 2] == ps[k].z
      {
        if k < |ps| - 1 {
          assert ps[k] == init[k];
        }
      }
    }
  }
}
