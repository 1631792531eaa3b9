/** The geometry the host hands the engine: bounding boxes, sizes and touch
    points, all in CSS pixels, with JavaScript's Math.min and Math.max. */
module Geometry {

  datatype Size = Size(width: real, height: real)

  /** A bounding client rectangle (getBoundingClientRect). */
  datatype Rect = Rect(left: real, top: real, width: real, height: real)

  /** One entry of a TouchEvent's `touches` list. */
  datatype Touch = Touch(identifier: int, clientX: real, clientY: real)

  function Min(a: real, b: real): (r: real)
    ensures r <= a && r <= b
    ensures r == a || r == b
  {
    if a <= b then a else b
  }

  function Max(a: real, b: real): (r: real)
    ensures r >= a && r >= b
    ensures r == a || r == b
  {
    if a >= b then a else b
  }

  function Dims(r: Rect): Size {
    Size(r.width, r.height)
  }

  function Abs(x: real): real {
    if x < 0.0 then -x else x
  }

  /** The bounding box size of content whose layout size is `content` under
      `translate(x, y) scale(s)` with `transform-origin: 0 0`: |s| times the
      layout size (a negative scale mirrors the content about its origin). */
  function ScaledSize(content: Size, s: real): Size {
    Size(Abs(content.width * s), Abs(content.height * s))
  }

  /** The identifiers of a touch list, in order (`[...touches].map(t => t.identifier)`). */
  function Identifiers(touches: seq<Touch>): (ids: seq<int>)
    ensures |ids| == |touches|
    ensures forall i :: 0 <= i < |touches| ==> ids[i] == touches[i].identifier
  {
    if touches == [] then [] else [touches[0].identifier] + Identifiers(touches[1..])
  }

  /** The squared Euclidean distance between two touch points; the host's
      Math.sqrt of it is handed to the engine as a parameter. Page and client
      coordinates differ by the same page scroll for both touches, so their
      differences agree. */
  function SquaredDistance(t1: Touch, t2: Touch): real {
    (t1.clientX - t2.clientX) * (t1.clientX - t2.clientX)
    + (t1.clientY - t2.clientY) * (t1.clientY - t2.clientY)
  }

  predicate IsTouchDistance(distance: real, t1: Touch, t2: Touch) {
    distance >= 0.0 && distance * distance == SquaredDistance(t1, t2)
  }
}
