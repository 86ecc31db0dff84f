/** Colours as red-green-blue triples (src/objects/Color.js): three channels kept in a
    three-slot array behind range-guarded setters. */
module Colors {
  import opened JsValues

  /** A channel value the setters accept: a number between 0 and 1 inclusive. */
  predicate InUnit(v: real)
  {
    0.0 <= v <= 1.0
  }

  /** The value a channel setter leaves behind: a number in [0, 1] replaces the
      channel, anything else (a non-number, or a number out of range) keeps it. */
  function ChannelSetter(prev: real, v: JsVal): (r: real)
    ensures IsNumber(v) && InUnit(v.n) ==> r == v.n
    ensures !(IsNumber(v) && InUnit(v.n)) ==> r == prev
  {
    if v.Num? && v.n >= 0.0 && v.n <= 1.0 then v.n else prev
  }

  /** Whatever a setter is given, a channel that was in range stays in range. */
  lemma ChannelSetterKeepsRange(prev: real, v: JsVal)
    requires InUnit(prev)
    ensures InUnit(ChannelSetter(prev, v))
  {
  }

  class Color {
    /** `_c`: red, green and blue in slots 0, 1 and 2. */
    const c: array<real>

    /** Three channels, each in [0, 1]. */
    ghost predicate Valid()
      reads this, c
    {
      c.Length == 3 && InUnit(c[0]) && InUnit(c[1]) && InUnit(c[2])
    }

    /** `new Color(R, G, B)`: starts from black and passes each argument through its setter,
        so a channel whose argument is rejected stays 0. */
    constructor (R: JsVal, G: JsVal, B: JsVal)
      ensures Valid() && fresh(c)
      ensures c[..] == [ChannelSetter(0.0, R), ChannelSetter(0.0, G), ChannelSetter(0.0, B)]
    {
      c := new real[3](i => 0.0);
      new;
      SetR(R);
      SetG(G);
      SetB(B);
    }

    /** The getters read the three slots. */
    function R(): (r: real)
      reads this, c
      requires Valid()
      ensures r == c[0] && InUnit(r)
    {
      c[0]
    }

    function G(): (g: real)
      reads this, c
      requires Valid()
      ensures g == c[1] && InUnit(g)
    {
      c[1]
    }

    function B(): (b: real)
      reads this, c
      requires Valid()
      ensures b == c[2] && InUnit(b)
    {
      c[2]
    }

    /** `set r`: writes slot 0 only when the value is a number in [0, 1]. */
    method SetR(R: JsVal)
      requires Valid()
      modifies c
      ensures Valid()
      ensures c[..] == [ChannelSetter(old(c[0]), R), old(c[1]), old(c[2])]
    {
      if R.Num? && R.n >= 0.0 && R.n <= 1.0 {
        c[0] := R.n;
      }
    }

    /** `set g`: writes slot 1 only when the value is a number in [0, 1]. */
    method SetG(G: JsVal)
      requires Valid()
      modifies c
      ensures Valid()
      ensures c[..] == [old(c[0]), ChannelSetter(old(c[1]), G), old(c[2])]
    {
      if G.Num? && G.n >= 0.0 && G.n <= 1.0 {
        c[1] := G.n;
      }
    }

    /** `set b`: writes slot 2 only when the value is a number in [0, 1]. */
    method SetB(B: JsVal)
      requires Valid()
      modifies c
      ensures Valid()
      ensures c[..] == [old(c[0]), old(c[1]), ChannelSetter(old(c[2]), B)]
    {
      if B.Num? && B.n >= 0.0 && B.n <= 1.0 {
        c[2] := B.n;
      }
    }
  }

  /** `Color.WHITE = new Color(1, 1, 1)`: the default colour of every shape. */
  method MakeWhite() returns (w: Color)
    ensures fresh(w) && fresh(w.c) && w.Valid()
    ensures w.R() == 1.0 && w.G() == 1.0 && w.B() == 1.0
  {
    w := new Color(Num(1.0), Num(1.0), Num(1.0));
  }
}
