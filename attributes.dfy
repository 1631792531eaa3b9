/** The element's scale attributes and the property accessors over them:
    `initialScale` and `minScale` (defined together in a loop), and `maxScale`. */
module Attributes {

  /** An attribute value as the accessors see it, after the host's
      `getAttribute` and, where they apply it, `Number()`. */
  datatype AttrValue =
    | Absent            // getAttribute returned null; Number(null) is 0
    | ContainWord       // the string "contain"
    | CoverWord         // the string "cover"
    | Numeric(n: real)  // a string Number() reads as a finite number ("" and "0" read as 0)
    | NotANumber        // a string Number() reads as NaN

  /** The attributes the element observes. */
  datatype AttrName = InitialScaleAttr | MinScaleAttr | MaxScaleAttr | ControlsAttr

  /** What the `initialScale` and `minScale` getters return: one of the two
      keywords, or a non-zero number. */
  datatype ScaleSpec = Contain | Cover | Fixed(value: real)

  /** An upper bound on the scale: `this.maxScale || Infinity`. */
  datatype Bound = Unbounded | AtMost(limit: real)

  /** The `initialScale` / `minScale` getter: a keyword verbatim, a number
      when Number() gives a truthy (non-zero, non-NaN) value, and 'contain'
      otherwise. The getter's `initialZoom` default is never taken: the
      property names are `initialScale` and `minScale`. */
  function ScaleSpecOf(attr: AttrValue): (r: ScaleSpec)
    ensures r == Cover <==> attr == CoverWord
    ensures r.Fixed? <==> attr.Numeric? && attr.n != 0.0
    ensures r.Fixed? ==> r.value == attr.n
    ensures r == Contain <==> attr != CoverWord && !(attr.Numeric? && attr.n != 0.0)
  {
    match attr
    case ContainWord => Contain
    case CoverWord => Cover
    case Numeric(n) => if n != 0.0 then Fixed(n) else Contain
    case Absent => Contain
    case NotANumber => Contain
  }

  /** What the `initialScale` / `minScale` setter stores for a JavaScript value:
      a keyword verbatim, anything else converted by Number() (null becomes "0"). */
  function StoredScaleValue(val: AttrValue): (r: AttrValue)
    ensures r != Absent
    ensures ScaleSpecOf(r) == ScaleSpecOf(val)
  {
    match val
    case Absent => Numeric(0.0)
    case _ => val
  }

  /** The `maxScale` getter: `Number(attr) || 0`. The keywords are NaN to
      Number() and so read as 0, as does a missing attribute. */
  function MaxScaleOf(attr: AttrValue): (r: real)
    ensures r != 0.0 <==> attr.Numeric? && attr.n != 0.0
    ensures r != 0.0 ==> r == attr.n
  {
    match attr
    case Numeric(n) => n
    case _ => 0.0
  }

  /** What the `maxScale` setter stores: `Number(val)`, written back as a string. */
  function StoredMaxValue(val: AttrValue): (r: AttrValue)
    ensures r.Numeric? || r == NotANumber
    ensures MaxScaleOf(r) == MaxScaleOf(val)
  {
    match val
    case Absent => Numeric(0.0)
    case Numeric(n) => Numeric(n)
    case _ => NotANumber
  }

  /** `maxScale || Infinity`: a zero maximum means no maximum. */
  function UpperBound(maxScale: real): (b: Bound)
    ensures b.Unbounded? <==> maxScale == 0.0
    ensures b.AtMost? ==> b.limit == maxScale
  {
    if maxScale == 0.0 then Unbounded else AtMost(maxScale)
  }
}
