/** Points in space (src/objects/Point.js): three coordinates behind guarded setters. */
module Points {
  import opened JsValues

  /** The coordinates of a point whose three components are all set. */
  datatype Coord = Coord(x: real, y: real, z: real)

  /** The value the `x`, `y` and `z` setters leave behind: a number replaces the
      stored coordinate, anything else keeps the previous one (possibly still unset). */
  function NumberSetter(prev: Option<real>, v: JsVal): (r: Option<real>)
    ensures IsNumber(v) ==> r == Some(v.n)
    ensures !IsNumber(v) ==> r == prev
  {
    if v.Num? then Some(v.n) else prev
  }

  class Point {
    var x: Option<real>
    var y: Option<real>
    var z: Option<real>

    /** All three coordinates hold numbers. */
    ghost predicate Defined()
      reads this
    {
      x.Some? && y.Some? && z.Some?
    }

    function Coords(): (c: Coord)
      reads this
      requires Defined()
    {
      Coord(x.value, y.value, z.value)
    }

    /** `new Point(X, Y, Z = 0)`: each argument goes through its setter, and an omitted
        (undefined) Z is replaced by the default 0 before it does. */
    constructor (X: JsVal, Y: JsVal, Z: JsVal)
      ensures x == NumberSetter(None, X)
      ensures y == NumberSetter(None, Y)
      ensures z == NumberSetter(None, if Z.Undefined? then Num(0.0) else Z)
    {
      x, y, z := None, None, None;
      new;
      SetX(X);
      SetY(Y);
      SetZ(if Z.Undefined? then Num(0.0) else Z);
    }

    /** The getters return exactly what is stored, `undefined` when nothing is. */
    function GetX(): (r: JsVal)
      reads this
      ensures r.Num? <==> x.Some?
      ensures x.Some? ==> r == Num(x.value)
      ensures x.None? ==> r == Undefined
    {
      FromOption(x)
    }

    function GetY(): (r: JsVal)
      reads this
      ensures r.Num? <==> y.Some?
      ensures y.Some? ==> r == Num(y.value)
      ensures y.None? ==> r == Undefined
    {
      FromOption(y)
    }

    function GetZ(): (r: JsVal)
      reads this
      ensures r.Num? <==> z.Some?
      ensures z.Some? ==> r == Num(z.value)
      ensures z.None? ==> r == Undefined
    {
      FromOption(z)
    }

    method SetX(X: JsVal)
      modifies this
      ensures x == NumberSetter(old(x), X)
      ensures y == old(y) && z == old(z)
      ensures IsNumber(X) ==> GetX() == X
    {
      if X.Num? {
        x := Some(X.n);
      }
    }

    method SetY(Y: JsVal)
      modifies this
      ensures y == NumberSetter(old(y), Y)
      ensures x == old(x) && z == old(z)
      ensures IsNumber(Y) ==> GetY() == Y
    {
      if Y.Num? {
        y := Some(Y.n);
      }
    }

    method SetZ(Z: JsVal)
      modifies this
      ensures z == NumberSetter(old(z), Z)
      ensures x == old(x) && y == old(y)
      ensures IsNumber(Z) ==> GetZ() == Z
    {
      if Z.Num? {
        z := Some(Z.n);
      }
    }
  }

  /** `Point.ORIGIN = new Point(0, 0)`: the shared point (0, 0, 0). */
  method MakeOrigin() returns (o: Point)
    ensures fresh(o) && o.Defined() && o.Coords() == Coord(0.0, 0.0, 0.0)
  {
    o := new Point(Num(0.0), Num(0.0), Undefined);
  }
}
