/** The arithmetic of a pinch: the focal point, the clamped scale factor
    while moving and at settle, the per-axis boundary correction and the
    composite transform the move handler renders. */
module Gesture {
  import opened Affine
  import opened Geometry
  import opened Attributes

  /** The midpoint of two touches in viewport-local coordinates. */
  function Midpoint(t1: Touch, t2: Touch, viewport: Rect): (m: Vec2)
    ensures (t1.clientX - viewport.left) - m.x == m.x - (t2.clientX - viewport.left)
    ensures (t1.clientY - viewport.top) - m.y == m.y - (t2.clientY - viewport.top)
  {
    var x1 := t1.clientX - viewport.left;
    var x2 := t2.clientX - viewport.left;
    var y1 := t1.clientY - viewport.top;
    var y2 := t2.clientY - viewport.top;
    Vec2((x1 + x2) / 2.0, (y1 + y2) / 2.0)
  }

  /** `scaleAmount`: the factor a move applies on top of the pinch's start
      scale, the distance ratio clamped to [minScale / elScale,
      (maxScale || Infinity) / elScale]. Never above the upper bound; at least
      the lower bound whenever the bounds are in order; the ratio itself when
      it is already in bounds. */
  function MoveFactor(ratio: real, minScale: real, maxBound: Bound, elScale: real): (k: real)
    requires elScale > 0.0
    ensures maxBound.AtMost? ==> k <= maxBound.limit / elScale
    ensures maxBound.Unbounded? || minScale <= maxBound.limit ==> k >= minScale / elScale
    ensures minScale / elScale <= ratio && (maxBound.Unbounded? || ratio <= maxBound.limit / elScale)
            ==> k == ratio
    ensures ratio < minScale / elScale && (maxBound.Unbounded? || minScale <= maxBound.limit)
            ==> k == minScale / elScale
    ensures maxBound.AtMost? && (ratio > maxBound.limit / elScale || minScale > maxBound.limit)
            ==> k == maxBound.limit / elScale
    ensures k == ratio || k == minScale / elScale || (maxBound.AtMost? && k == maxBound.limit / elScale)
  {
    var lower := Max(ratio, minScale / elScale);
    match maxBound
    case Unbounded => lower
    case AtMost(m) =>
      assert minScale <= m <==> minScale / elScale <= m / elScale by {
        assert m / elScale - minScale / elScale == (m - minScale) / elScale;
      }
      Min(lower, m / elScale)
  }

  /** The absolute clamp of a scale into [minScale, maxScale || Infinity]. */
  function ClampScale(s: real, minScale: real, maxBound: Bound): (r: real)
    ensures maxBound.AtMost? ==> r <= maxBound.limit
    ensures maxBound.Unbounded? || minScale <= maxBound.limit ==> r >= minScale
    ensures minScale <= s && (maxBound.Unbounded? || s <= maxBound.limit) ==> r == s
    ensures s < minScale && (maxBound.Unbounded? || minScale <= maxBound.limit) ==> r == minScale
    ensures maxBound.AtMost? && (s > maxBound.limit || minScale > maxBound.limit) ==> r == maxBound.limit
    ensures r == s || r == minScale || (maxBound.AtMost? && r == maxBound.limit)
  {
    var lower := Max(s, minScale);
    match maxBound
    case Unbounded => lower
    case AtMost(m) => Min(lower, m)
  }

  /** The scale committed at the end of a pinch: the start scale times the
      last distance ratio, clamped. */
  function SettleScale(scale: real, endDistance: real, startDistance: real,
                       minScale: real, maxBound: Bound): (r: real)
    requires startDistance != 0.0
    ensures maxBound.AtMost? ==> r <= maxBound.limit
    ensures maxBound.Unbounded? || minScale <= maxBound.limit ==> r >= minScale
  {
    ClampScale(scale * (endDistance / startDistance), minScale, maxBound)
  }

  lemma ScaleMax(e: real, a: real, b: real)
    requires e > 0.0
    ensures e * Max(a, b / e) == Max(e * a, b)
  {
    assert e * (b / e) == b;
    if a >= b / e {
      assert e * a >= e * (b / e);
    } else {
      assert e * a < e * (b / e);
    }
  }

  lemma ScaleMin(e: real, a: real, b: real)
    requires e > 0.0
    ensures e * Min(a, b / e) == Min(e * a, b)
  {
    assert e * (b / e) == b;
    if a <= b / e {
      assert e * a <= e * (b / e);
    } else {
      assert e * a > e * (b / e);
    }
  }

  /** The relative clamp of a move is the absolute clamp seen from the start
      scale: the scale a move renders is the clamped absolute scale. */
  lemma MoveFactorIsRelativeClamp(ratio: real, minScale: real, maxBound: Bound, elScale: real)
    requires elScale > 0.0
    ensures elScale * MoveFactor(ratio, minScale, maxBound, elScale)
            == ClampScale(elScale * ratio, minScale, maxBound)
  {
    ScaleMax(elScale, ratio, minScale);
    var lower := Max(ratio, minScale / elScale);
    match maxBound
    case Unbounded =>
    case AtMost(m) =>
      ScaleMin(elScale, lower, m);
  }

  /** No jump in scale at the end of a pinch: the scale committed at settle
      is the scale the last move rendered for the same distance. */
  lemma SettleMatchesLastMove(scale: real, endDistance: real, startDistance: real,
                              minScale: real, maxBound: Bound)
    requires scale > 0.0 && startDistance != 0.0
    ensures SettleScale(scale, endDistance, startDistance, minScale, maxBound)
            == scale * MoveFactor(endDistance / startDistance, minScale, maxBound, scale)
  {
    MoveFactorIsRelativeClamp(endDistance / startDistance, minScale, maxBound, scale);
  }

  /** One axis of a rendered box [lead, trail] is where the boundary rule
      wants it: centred when smaller than the viewport, otherwise covering it. */
  predicate AxisSettled(lead: real, trail: real, viewport: real) {
    if trail - lead < viewport then lead == (viewport - (trail - lead)) / 2.0
    else lead <= 0.0 && trail >= viewport
  }

  /** The per-axis translation the move handler adds: centre content smaller
      than the viewport, else pull a leading edge back to 0, else push a
      trailing edge out to the viewport's size. After it the axis is settled,
      and it is zero exactly when the axis already was. */
  function EdgeCorrection(lead: real, trail: real, viewport: real): (c: real)
    ensures AxisSettled(lead + c, trail + c, viewport)
    ensures c == 0.0 <==> AxisSettled(lead, trail, viewport)
  {
    var size := trail - lead;
    if size < viewport then -lead + (viewport - size) / 2.0
    else if lead > 0.0 then -lead
    else if trail < viewport then viewport - trail
    else 0.0
  }

  /** Correcting an already corrected axis does nothing. */
  lemma EdgeCorrectionIdempotent(lead: real, trail: real, viewport: real)
    ensures var c := EdgeCorrection(lead, trail, viewport);
            EdgeCorrection(lead + c, trail + c, viewport) == 0.0
  {
  }

  /** For content at least as large as the viewport, the correction is the
      smallest shift that brings the box over the whole viewport. */
  lemma EdgeCorrectionIsMinimal(lead: real, trail: real, viewport: real, shift: real)
    requires trail - lead >= viewport
    requires lead + shift <= 0.0 && trail + shift >= viewport
    ensures Abs(EdgeCorrection(lead, trail, viewport)) <= Abs(shift)
  {
  }

  /** The composite the move handler builds, T(avg)·S(k)·T(-start)·T(offset)·S(elScale),
      in gl-matrix's post-multiplying calls. */
  function PinchMatrix(avg: Vec2, k: real, start: Vec2, offset: Vec2, elScale: real): (r: Mat2d)
    ensures r.b == 0.0 && r.c == 0.0
    ensures r.a == k * elScale && r.d == k * elScale
  {
    Scale(Translate(Translate(Scale(Translate(Identity, avg), Vec2(k, k)),
                              Vec2(-start.x, -start.y)),
                    offset),
          Vec2(elScale, elScale))
  }

  /** The composite scales uniformly by k·elScale and moves the content point
      under the starting midpoint to the current midpoint. */
  lemma PinchMatrixForm(avg: Vec2, k: real, start: Vec2, offset: Vec2, elScale: real)
    ensures PinchMatrix(avg, k, start, offset, elScale)
            == Mat2d(k * elScale, 0.0, 0.0, k * elScale,
                     avg.x + k * (offset.x - start.x), avg.y + k * (offset.y - start.y))
  {
    var m1 := Translate(Identity, avg);
    assert m1 == Mat2d(1.0, 0.0, 0.0, 1.0, avg.x, avg.y);
    var m2 := Scale(m1, Vec2(k, k));
    assert m2 == Mat2d(k, 0.0, 0.0, k, avg.x, avg.y);
    var m3 := Translate(m2, Vec2(-start.x, -start.y));
    assert m3 == Mat2d(k, 0.0, 0.0, k, avg.x - k * start.x, avg.y - k * start.y);
    var m4 := Translate(m3, offset);
    assert m4 == Mat2d(k, 0.0, 0.0, k, avg.x + k * (offset.x - start.x), avg.y + k * (offset.y - start.y));
  }

  /** The content point that sat under the starting midpoint (before the
      pinch it was drawn at offset + elScale·p) is drawn under the current
      midpoint, and the content is drawn k·elScale times its natural size. */
  lemma AnchorFollowsFingers(avg: Vec2, k: real, start: Vec2, offset: Vec2, elScale: real, natural: Size)
    requires elScale != 0.0
    ensures var m := PinchMatrix(avg, k, start, offset, elScale);
      && Apply(m, Vec2((start.x - offset.x) / elScale, (start.y - offset.y) / elScale)) == avg
      && Apply(m, Vec2(natural.width, natural.height)).x - Apply(m, Vec2(0.0, 0.0)).x
         == k * elScale * natural.width
      && Apply(m, Vec2(natural.width, natural.height)).y - Apply(m, Vec2(0.0, 0.0)).y
         == k * elScale * natural.height
  {
    PinchMatrixForm(avg, k, start, offset, elScale);
    var px := (start.x - offset.x) / elScale;
    var py := (start.y - offset.y) / elScale;
    assert k * elScale * px == k * (start.x - offset.x) by {
      assert elScale * px == start.x - offset.x;
    }
    assert k * elScale * py == k * (start.y - offset.y) by {
      assert elScale * py == start.y - offset.y;
    }
  }

  /** The translation the move handler applies so the rendered box of
      `natural` under m is settled on both axes. */
  function Correction(m: Mat2d, natural: Size, viewport: Size): (c: Vec2)
    ensures c.x == 0.0 <==> AxisSettled(Apply(m, Vec2(0.0, 0.0)).x, Apply(m, Vec2(natural.width, natural.height)).x,
                                        viewport.width)
    ensures c.y == 0.0 <==> AxisSettled(Apply(m, Vec2(0.0, 0.0)).y, Apply(m, Vec2(natural.width, natural.height)).y,
                                        viewport.height)
  {
    var topLeft := Apply(m, Vec2(0.0, 0.0));
    var bottomRight := Apply(m, Vec2(natural.width, natural.height));
    Vec2(EdgeCorrection(topLeft.x, bottomRight.x, viewport.width),
         EdgeCorrection(topLeft.y, bottomRight.y, viewport.height))
  }

  /** A non-zero correction put first in the chain: invert, translate by
      the opposite, invert back. A zero correction leaves the matrix alone;
      on a scale-and-translate matrix the result is T(c)·m. */
  function Recentre(m: Mat2d, c: Vec2): (r: Mat2d)
    ensures c.x == 0.0 && c.y == 0.0 ==> r == m
    ensures IsScaleTranslate(m) ==> r == PreTranslate(m, c)
  {
    if c.x != 0.0 || c.y != 0.0 then
      var r := InvertInPlace(Translate(InvertInPlace(m), Vec2(-c.x, -c.y)));
      assert IsScaleTranslate(m) ==> r == PreTranslate(m, c) by {
        if IsScaleTranslate(m) {
          InvertTranslateInvert(m, c);
        }
      }
      r
    else
      m
  }

  /** The box of `natural` drawn by m is settled on both axes. */
  predicate BoxSettled(m: Mat2d, natural: Size, viewport: Size) {
    var topLeft := Apply(m, Vec2(0.0, 0.0));
    var bottomRight := Apply(m, Vec2(natural.width, natural.height));
    AxisSettled(topLeft.x, bottomRight.x, viewport.width)
    && AxisSettled(topLeft.y, bottomRight.y, viewport.height)
  }

  /** On a scale-and-translate matrix the re-centring shifts every content
      point's image by exactly the correction. */
  lemma RecentreShiftsImage(m: Mat2d, c: Vec2, p: Vec2)
    requires IsScaleTranslate(m)
    ensures Apply(Recentre(m, c), p) == Vec2(Apply(m, p).x + c.x, Apply(m, p).y + c.y)
  {
    PreTranslateShifts(m, c, p);
  }

  /** The transform a move renders. */
  function LiveTransform(m: Mat2d, natural: Size, viewport: Size): (r: Mat2d)
    ensures IsScaleTranslate(m) ==>
      && BoxSettled(r, natural, viewport)
      && r.a == m.a && r.b == m.b && r.c == m.c && r.d == m.d
  {
    var c := Correction(m, natural, viewport);
    var r := Recentre(m, c);
    assert IsScaleTranslate(m) ==> BoxSettled(r, natural, viewport) by {
      if IsScaleTranslate(m) {
        RecentreShiftsImage(m, c, Vec2(0.0, 0.0));
        RecentreShiftsImage(m, c, Vec2(natural.width, natural.height));
      }
    }
    r
  }

  /** After boundary correction every content point has moved by exactly
      the correction. */
  lemma LiveTransformShifts(m: Mat2d, natural: Size, viewport: Size, p: Vec2)
    requires IsScaleTranslate(m)
    ensures var c := Correction(m, natural, viewport);
      Apply(LiveTransform(m, natural, viewport), p) == Vec2(Apply(m, p).x + c.x, Apply(m, p).y + c.y)
  {
    RecentreShiftsImage(m, Correction(m, natural, viewport), p);
  }

  /** What a move draws: for a non-zero scale, the box is settled on both
      axes and drawn at k·elScale. */
  lemma PinchLiveTransformSettled(avg: Vec2, k: real, start: Vec2, offset: Vec2, elScale: real,
                                  natural: Size, viewport: Size)
    requires k * elScale != 0.0
    ensures var r := LiveTransform(PinchMatrix(avg, k, start, offset, elScale), natural, viewport);
      && BoxSettled(r, natural, viewport)
      && r.a == k * elScale && r.d == k * elScale
  {
    assert IsScaleTranslate(PinchMatrix(avg, k, start, offset, elScale));
  }

  /** As written: a max-scale attribute change lowers the scale to
      `this.maxScale` whenever the scale is above it, with no special case
      for 0. */
  function MaxScaleAttributeClampAsWritten(scale: real, maxScale: real): (r: real)
    ensures r <= scale && r <= maxScale
    ensures scale <= maxScale ==> r == scale
    ensures scale > maxScale ==> r == maxScale
  {
    if scale > maxScale then maxScale else scale
  }

  /** A missing, zero or non-numeric max-scale attribute reads as 0, so
      removing the attribute collapses any positive scale to 0. */
  lemma MissingMaxScaleCollapsesScale(scale: real)
    requires scale > 0.0
    ensures MaxScaleAttributeClampAsWritten(scale, MaxScaleOf(Absent)) == 0.0
  {
  }

  /** Corrected: a max-scale attribute change reads 0 as "no maximum", as
      the move and settle clamps do, and otherwise lowers the scale to the
      maximum only when it is above it. */
  function MaxScaleAttributeClamp(scale: real, maxBound: Bound): (r: real)
    ensures r <= scale
    ensures maxBound.AtMost? ==> r <= maxBound.limit
    ensures maxBound.Unbounded? || scale <= maxBound.limit ==> r == scale
    ensures maxBound.AtMost? && scale > maxBound.limit ==> r == maxBound.limit
  {
    match maxBound
    case Unbounded => scale
    case AtMost(m) => if scale > m then m else scale
  }

  /** The corrected clamp keeps a positive scale positive for any
      non-negative max-scale attribute, absent included. */
  lemma CorrectedClampKeepsScalePositive(scale: real, attr: AttrValue)
    requires scale > 0.0 && MaxScaleOf(attr) >= 0.0
    ensures MaxScaleAttributeClamp(scale, UpperBound(MaxScaleOf(attr))) > 0.0
  {
  }

  /** The corrected clamp is the settle clamp on a scale that already
      respects the minimum. */
  lemma AttributeClampAgreesWithSettle(scale: real, minScale: real, maxBound: Bound)
    requires minScale <= scale
    requires maxBound.Unbounded? || minScale <= maxBound.limit
    ensures MaxScaleAttributeClamp(scale, maxBound) == ClampScale(scale, minScale, maxBound)
  {
  }

  /** As written, touch-start does not reset the last move distance, so a
      pinch that ends before any move settles with the distance left over:
      0 on a fresh element, where a still two-finger tap at scale 2 with
      minimum 1 drops the scale to 1; an earlier pinch's 200 against a start
      distance of 100 doubles it to 4. The transform on screen is unchanged
      in both cases, so the content jumps. */
  lemma StaleEndDistanceJumpsScale()
    ensures SettleScale(2.0, 0.0, 100.0, 1.0, Unbounded) == 1.0
    ensures SettleScale(2.0, 200.0, 100.0, 1.0, Unbounded) == 4.0
  {
  }

  /** Corrected: with the end distance reset to the start distance at
      touch-start, a pinch that ends without moving keeps a scale that is in
      bounds. */
  lemma TapKeepsScale(scale: real, distance: real, minScale: real, maxBound: Bound)
    requires distance != 0.0
    requires minScale <= scale && (maxBound.Unbounded? || scale <= maxBound.limit)
    ensures SettleScale(scale, distance, distance, minScale, maxBound) == scale
  {
  }
}
