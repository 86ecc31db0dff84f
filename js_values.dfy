/** JavaScript values as the guarded setters of the editor's value objects see them.
    Every number is a mathematical real; NaN and the infinities are not modelled. */
module JsValues {

  /** A value that may be missing: a property that was never assigned reads as `undefined`. */
  datatype Option<+T> = None | Some(value: T)

  /** The dynamic value passed to a setter or a constructor argument. */
  datatype JsVal =
    | Undefined
    | Null
    | Num(n: real)
    | Bool(b: bool)
    | Str(s: string)
    | Obj(o: object)

  /** `typeof v === 'number'` */
  predicate IsNumber(v: JsVal) { v.Num? }

  /** `typeof v === 'boolean'` */
  predicate IsBoolean(v: JsVal) { v.Bool? }

  /** `typeof v !== 'undefined'` */
  predicate IsDefined(v: JsVal) { !v.Undefined? }

  /** Reading a numeric property: a stored number, or `undefined` when it was never set. */
  function FromOption(v: Option<real>): (r: JsVal)
    ensures r.Num? <==> v.Some?
    ensures v.Some? ==> r.n == v.value
    ensures v.None? ==> r == Undefined
  {
    match v
    case Some(x) => Num(x)
    case None => Undefined
  }
}
