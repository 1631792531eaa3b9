/** The `<pinch-zoomer>` element: its per-instance state, the touch handlers
    that run a pinch session, the attribute callback and the connection
    callback. Geometry the source reads from the DOM (bounding boxes, scroll
    offsets, touch positions) comes in as parameters; the transform it writes
    to the content element is the field `rendered`. */
module PinchZoom {
  import opened Affine
  import opened Geometry
  import opened Attributes
  import opened Fitting
  import opened Gesture

  /** `translate(x px, y px) scale(s)`, the transform updateTransformer writes. */
  function CommittedTransform(x: real, y: real, s: real): Mat2d {
    Mat2d(s, 0.0, 0.0, s, x, y)
  }

  /** The committed transform is T(x, y)·S(s): it draws content point p at
      (x, y) + s·p. */
  lemma CommittedTransformDraws(x: real, y: real, s: real, p: Vec2)
    ensures CommittedTransform(x, y, s) == Scale(Translate(Identity, Vec2(x, y)), Vec2(s, s))
    ensures Apply(CommittedTransform(x, y, s), p) == Vec2(s * p.x + x, s * p.y + y)
  {
  }

  /** The end of the move handler: the per-axis correction that centres the
      content's box (natural size `natural` drawn by `matrix`) or makes it
      cover the viewport, put first in the chain when it is not zero. */
  method KeepInBounds(matrix: Mat2d, natural: Size, viewport: Rect) returns (result: Mat2d)
    ensures result == LiveTransform(matrix, natural, Dims(viewport))
  {
    var topLeft := Apply(matrix, Vec2(0.0, 0.0));
    var bottomRight := Apply(matrix, Vec2(natural.width, natural.height));
    var newWidth := bottomRight.x - topLeft.x;
    var newHeight := bottomRight.y - topLeft.y;

    var xTranslate := 0.0;
    var yTranslate := 0.0;
    if newWidth < viewport.width {
      xTranslate := -topLeft.x + (viewport.width - newWidth) / 2.0;
    } else if topLeft.x > 0.0 {
      xTranslate := -topLeft.x;
    } else if bottomRight.x < viewport.width {
      xTranslate := viewport.width - bottomRight.x;
    }
    if newHeight < viewport.height {
      yTranslate := -topLeft.y + (viewport.height - newHeight) / 2.0;
    } else if topLeft.y > 0.0 {
      yTranslate := -topLeft.y;
    } else if bottomRight.y < viewport.height {
      yTranslate := viewport.height - bottomRight.y;
    }

    result := matrix;
    if xTranslate != 0.0 || yTranslate != 0.0 {
      var counterTranslate := Vec2(-xTranslate, -yTranslate);
      result := InvertInPlace(result);
      result := Translate(result, counterTranslate);
      result := InvertInPlace(result);
    }
  }

  /** q, a point in viewport-local coordinates, lies in `box`, a client rectangle. */
  predicate InBox(box: Rect, viewport: Rect, q: Vec2) {
    && box.left <= viewport.left + q.x <= box.left + box.width
    && box.top <= viewport.top + q.y <= box.top + box.height
  }

  /** The bounding client rectangle (`getBoundingClientRect`) of content of
      layout size `content` drawn by m with `transform-origin: 0 0` inside the
      viewport: the smallest box holding the images of the four corners. */
  function DrawnBox(m: Mat2d, content: Size, viewport: Rect): (box: Rect)
    ensures box.width >= 0.0 && box.height >= 0.0
    ensures InBox(box, viewport, Apply(m, Vec2(0.0, 0.0)))
    ensures InBox(box, viewport, Apply(m, Vec2(content.width, 0.0)))
    ensures InBox(box, viewport, Apply(m, Vec2(0.0, content.height)))
    ensures InBox(box, viewport, Apply(m, Vec2(content.width, content.height)))
  {
    var p := Apply(m, Vec2(0.0, 0.0));
    var q := Apply(m, Vec2(content.width, 0.0));
    var r := Apply(m, Vec2(0.0, content.height));
    var t := Apply(m, Vec2(content.width, content.height));
    var left := Min(Min(p.x, q.x), Min(r.x, t.x));
    var right := Max(Max(p.x, q.x), Max(r.x, t.x));
    var top := Min(Min(p.y, q.y), Min(r.y, t.y));
    var bottom := Max(Max(p.y, q.y), Max(r.y, t.y));
    Rect(viewport.left + left, viewport.top + top, right - left, bottom - top)
  }

  /** The drawn box is the smallest holding the corners: each of its edges
      passes through a corner. */
  lemma DrawnBoxIsTight(m: Mat2d, content: Size, viewport: Rect)
    ensures var box := DrawnBox(m, content, viewport);
            var p := Apply(m, Vec2(0.0, 0.0));
            var q := Apply(m, Vec2(content.width, 0.0));
            var r := Apply(m, Vec2(0.0, content.height));
            var t := Apply(m, Vec2(content.width, content.height));
      && (box.left == viewport.left + p.x || box.left == viewport.left + q.x
          || box.left == viewport.left + r.x || box.left == viewport.left + t.x)
      && (box.top == viewport.top + p.y || box.top == viewport.top + q.y
          || box.top == viewport.top + r.y || box.top == viewport.top + t.y)
      && (box.left + box.width == viewport.left + p.x || box.left + box.width == viewport.left + q.x
          || box.left + box.width == viewport.left + r.x || box.left + box.width == viewport.left + t.x)
      && (box.top + box.height == viewport.top + p.y || box.top + box.height == viewport.top + q.y
          || box.top + box.height == viewport.top + r.y || box.top + box.height == viewport.top + t.y)
  {
  }

  /** Content drawn at a positive committed scale has its box's corner at the
      committed translate. */
  lemma CommittedBoxAtTranslate(x: real, y: real, s: real, content: Size, viewport: Rect)
    requires s > 0.0 && content.width >= 0.0 && content.height >= 0.0
    ensures var box := DrawnBox(CommittedTransform(x, y, s), content, viewport);
      box.left == viewport.left + x && box.top == viewport.top + y
  {
    assert s * content.width >= 0.0 && s * content.height >= 0.0;
  }

  /** `innerBounds.width / currentScale`, `innerBounds.height / currentScale`
      (calculateScale, updateInitial, touch-start): the size of the box of
      content drawn by m, divided by the current scale s. */
  function MeasuredUnscaled(m: Mat2d, s: real, content: Size, viewport: Rect): Size
    requires s != 0.0
  {
    Unscaled(Dims(DrawnBox(m, content, viewport)), s)
  }

  /** Content drawn without shear has a box |a|·width by |d|·height. */
  lemma ScaleTranslateBox(m: Mat2d, content: Size, viewport: Rect)
    requires m.b == 0.0 && m.c == 0.0
    ensures Dims(DrawnBox(m, content, viewport)) == Size(Abs(m.a * content.width), Abs(m.d * content.height))
  {
  }

  /** Outside a pinch the measured box is the layout size drawn at the
      committed scale, and dividing it by that scale gives `UnscaledContent`. */
  lemma CommittedMeasure(x: real, y: real, s: real, content: Size, viewport: Rect)
    requires s != 0.0
    ensures Dims(DrawnBox(CommittedTransform(x, y, s), content, viewport)) == ScaledSize(content, s)
    ensures MeasuredUnscaled(CommittedTransform(x, y, s), s, content, viewport) == UnscaledContent(content, s)
  {
    ScaleTranslateBox(CommittedTransform(x, y, s), content, viewport);
  }

  /** During a pinch drawing at k times the start scale s, the measured box
      divided by s is k times the layout size, not the layout size. */
  lemma PinchMeasure(m: Mat2d, s: real, k: real, content: Size, viewport: Rect)
    requires s > 0.0 && k > 0.0 && content.width >= 0.0 && content.height >= 0.0
    requires m.b == 0.0 && m.c == 0.0 && m.a == k * s && m.d == k * s
    ensures MeasuredUnscaled(m, s, content, viewport) == Size(k * content.width, k * content.height)
  {
    ScaleTranslateBox(m, content, viewport);
    assert Abs(m.a * content.width) == (k * content.width) * s;
    assert Abs(m.d * content.height) == (k * content.height) * s;
  }

  /** A `contain` minimum resolved mid-pinch, with the start scale 0.5 and the
      live transform drawing at scale 1 over a 100 by 100 viewport and
      content: the measured size is 200 by 200, so the minimum is 0.5, not
      the 1 that the layout size would give. */
  lemma MidPinchContainMinimum(tx: real, ty: real, viewport: Rect)
    requires viewport.width == 100.0 && viewport.height == 100.0
    ensures var unscaled := MeasuredUnscaled(Mat2d(1.0, 0.0, 0.0, 1.0, tx, ty), 0.5, Size(100.0, 100.0), viewport);
      unscaled == Size(200.0, 200.0) && CalculateScale(Contain, Dims(viewport), unscaled) == 0.5
  {
    PinchMeasure(Mat2d(1.0, 0.0, 0.0, 1.0, tx, ty), 0.5, 2.0, Size(100.0, 100.0), viewport);
  }

  class PinchZoomer {
    // The scale attributes, as the accessors read them.
    var initialScaleAttr: AttrValue
    var minScaleAttr: AttrValue
    var maxScaleAttr: AttrValue

    // Per-instance state.
    var pinching: bool
    var activeTouchIds: seq<int>
    var startPinchX: real
    var startPinchY: real
    var startPinchDistance: real
    var endPinchDistance: real
    var innerScale: real
    var innerTranslateX: real
    var innerTranslateY: real
    /** innerNaturalWidth and innerNaturalHeight together: None while they
        are undefined (before the first pinch) or NaN (a pinch that started
        at scale 0, where the source divides 0 by 0). */
    var innerNatural: Option<Size>
    var userInteracted: bool
    var computedMinScale: real

    /** The transform currently set on the content element. */
    var rendered: Mat2d

    /** Outside a pinch the content is drawn at the committed scale and
        translate; a pinch only runs after the user has interacted. */
    ghost predicate Valid()
      reads this
    {
      && (!pinching ==> rendered == CommittedTransform(innerTranslateX, innerTranslateY, innerScale))
      && (pinching ==> userInteracted)
    }

    function InitialScale(): ScaleSpec
      reads this`initialScaleAttr
    {
      ScaleSpecOf(initialScaleAttr)
    }

    function MinScale(): ScaleSpec
      reads this`minScaleAttr
    {
      ScaleSpecOf(minScaleAttr)
    }

    function MaxScale(): real
      reads this`maxScaleAttr
    {
      MaxScaleOf(maxScaleAttr)
    }

    /** A new element: scale 1, no translate, not pinching, no interaction
        yet, no attributes and no transform set. The source leaves the
        computed minimum unset here; it is written at connection, before
        any read. */
    constructor ()
      ensures Valid()
      ensures !pinching && !userInteracted
      ensures innerScale == 1.0 && innerTranslateX == 0.0 && innerTranslateY == 0.0
      ensures activeTouchIds == [] && startPinchX == 0.0 && startPinchY == 0.0
      ensures startPinchDistance == 0.0 && endPinchDistance == 0.0
      ensures innerNatural == None
      ensures initialScaleAttr == Absent && minScaleAttr == Absent && maxScaleAttr == Absent
      ensures rendered == Identity
    {
      initialScaleAttr, minScaleAttr, maxScaleAttr := Absent, Absent, Absent;
      pinching := false;
      innerScale := 1.0;
      innerTranslateX, innerTranslateY := 0.0, 0.0;
      userInteracted := false;
      activeTouchIds := [];
      startPinchX, startPinchY := 0.0, 0.0;
      startPinchDistance := 0.0;
      endPinchDistance := 0.0;
      innerNatural := None;
      computedMinScale := 0.0;
      rendered := Identity;
    }

    /** updateTransformer: draw the content at the committed scale and translate. */
    method UpdateTransformer()
      modifies this`rendered
      ensures rendered == CommittedTransform(innerTranslateX, innerTranslateY, innerScale)
    {
      rendered := CommittedTransform(innerTranslateX, innerTranslateY, innerScale);
    }

    /** updateInitial: take the initial-scale setting as the scale and centre
        the content, never at a negative translate. The content's size is
        measured as the box currently drawn divided by the current scale;
        outside a pinch that is `UnscaledContent`. */
    method UpdateInitial(viewport: Rect, content: Size)
      requires innerScale != 0.0
      requires Measurable(InitialScale(), Dims(viewport), Dims(DrawnBox(rendered, content, viewport)), innerScale)
      modifies this`innerScale, this`innerTranslateX, this`innerTranslateY
      ensures var unscaled := MeasuredUnscaled(old(rendered), old(innerScale), content, viewport);
        && innerScale == ResolveScale(InitialScale(), Dims(viewport), unscaled)
        && innerTranslateX == InitialOffset(viewport.width, unscaled.width, innerScale)
        && innerTranslateY == InitialOffset(viewport.height, unscaled.height, innerScale)
      ensures innerTranslateX >= 0.0 && innerTranslateY >= 0.0
    {
      var spec := InitialScale();
      var innerBounds := DrawnBox(rendered, content, viewport);
      var unscaled := Unscaled(Dims(innerBounds), innerScale);
      var scale := ResolveScale(spec, Dims(viewport), unscaled);
      innerScale := scale;
      innerTranslateX := InitialOffset(viewport.width, unscaled.width, scale);
      innerTranslateY := InitialOffset(viewport.height, unscaled.height, scale);
    }

    /** updateMinScale: resolve the min-scale setting into `computedMinScale`;
        only a keyword measures the content. */
    method UpdateMinScale(viewport: Rect, content: Size)
      requires Measurable(MinScale(), Dims(viewport), Dims(DrawnBox(rendered, content, viewport)), innerScale)
      modifies this`computedMinScale
      ensures MinScale().Fixed? ==> computedMinScale == MinScale().value
      ensures !MinScale().Fixed? ==>
        computedMinScale == CalculateScale(MinScale(), Dims(viewport),
                                           MeasuredUnscaled(rendered, innerScale, content, viewport))
      ensures !MinScale().Fixed? && Valid() && !pinching ==>
        computedMinScale == CalculateScale(MinScale(), Dims(viewport), UnscaledContent(content, innerScale))
    {
      var spec := MinScale();
      if spec.Fixed? {
        computedMinScale := spec.value;
      } else {
        var innerBounds := DrawnBox(rendered, content, viewport);
        var unscaled := Unscaled(Dims(innerBounds), innerScale);
        computedMinScale := CalculateScale(spec, Dims(viewport), unscaled);
        if Valid() && !pinching {
          CommittedMeasure(innerTranslateX, innerTranslateY, innerScale, content, viewport);
        }
      }
    }

    /** connectedCallback: until the user has interacted, reset to the
        initial scale and centre; then resolve the minimum and redraw. */
    method Connected(viewport: Rect, content: Size)
      requires Valid()
      requires !userInteracted ==>
        innerScale != 0.0 && Measurable(InitialScale(), Dims(viewport), ScaledSize(content, innerScale), innerScale)
      requires userInteracted ==>
        Measurable(MinScale(), Dims(viewport), Dims(DrawnBox(rendered, content, viewport)), innerScale)
      requires !userInteracted ==>
        var initial := ResolveScale(InitialScale(), Dims(viewport), UnscaledContent(content, innerScale));
        Measurable(MinScale(), Dims(viewport), ScaledSize(content, initial), initial)
      modifies this`innerScale, this`innerTranslateX, this`innerTranslateY,
               this`computedMinScale, this`rendered
      ensures Valid()
      ensures !userInteracted ==>
        var unscaled := UnscaledContent(content, old(innerScale));
        && innerScale == ResolveScale(InitialScale(), Dims(viewport), unscaled)
        && innerTranslateX == InitialOffset(viewport.width, unscaled.width, innerScale)
        && innerTranslateY == InitialOffset(viewport.height, unscaled.height, innerScale)
      ensures userInteracted ==>
        innerScale == old(innerScale) && innerTranslateX == old(innerTranslateX)
        && innerTranslateY == old(innerTranslateY)
      ensures MinScale().Fixed? ==> computedMinScale == MinScale().value
      ensures !MinScale().Fixed? && !old(pinching) ==>
        computedMinScale == CalculateScale(MinScale(), Dims(viewport), UnscaledContent(content, innerScale))
      ensures !MinScale().Fixed? && old(pinching) ==>
        computedMinScale == CalculateScale(MinScale(), Dims(viewport),
                                           MeasuredUnscaled(old(rendered), innerScale, content, viewport))
      ensures rendered == CommittedTransform(innerTranslateX, innerTranslateY, innerScale)
    {
      if !userInteracted {
        CommittedMeasure(innerTranslateX, innerTranslateY, innerScale, content, viewport);
        UpdateInitial(viewport, content);
        UpdateTransformer();
        if innerScale != 0.0 {
          CommittedMeasure(innerTranslateX, innerTranslateY, innerScale, content, viewport);
        }
      }
      UpdateMinScale(viewport, content);
      UpdateTransformer();
    }

    /** The touch-start listener as the source writes it. With fewer than two
        touches, or during a pinch, nothing changes. Otherwise a pinch
        starts: the session records every touch identifier, the midpoint and
        distance of the first two touches and the content's natural size
        (the measured box divided by the scale: NaN at scale 0), the native
        scroll offset is folded into the translate (the scroller is reset to
        0 and stops scrolling), and the content is redrawn where it was. The
        last move distance is left as the previous session (or the
        constructor) set it. */
    method TouchStartAsWritten(touches: seq<Touch>, distance: real, viewport: Rect, content: Size,
                               scrollLeft: real, scrollTop: real)
      requires Valid()
      requires |touches| >= 2 && !pinching ==> IsTouchDistance(distance, touches[0], touches[1])
      modifies this`pinching, this`userInteracted, this`activeTouchIds,
               this`startPinchX, this`startPinchY, this`startPinchDistance,
               this`innerNatural, this`innerTranslateX, this`innerTranslateY, this`rendered
      ensures Valid()
      ensures old(userInteracted) ==> userInteracted
      ensures |touches| < 2 || old(pinching) ==> unchanged(this)
      ensures |touches| >= 2 && !old(pinching) ==>
        && pinching && userInteracted
        && activeTouchIds == Identifiers(touches)
        && Vec2(startPinchX, startPinchY) == Midpoint(touches[0], touches[1], viewport)
        && startPinchDistance == distance
        && innerNatural == (if innerScale != 0.0 then Some(UnscaledContent(content, innerScale)) else None)
        && (innerScale > 0.0 && content.width >= 0.0 && content.height >= 0.0 ==> innerNatural == Some(content))
        && innerTranslateX == old(innerTranslateX) - scrollLeft
        && innerTranslateY == old(innerTranslateY) - scrollTop
        && rendered == CommittedTransform(innerTranslateX, innerTranslateY, innerScale)
    {
      if |touches| < 2 || pinching {
        return;
      }
      pinching := true;
      userInteracted := true;

      var elScale := innerScale;
      var innerBounds := Dims(DrawnBox(rendered, content, viewport));
      var x1 := touches[0].clientX - viewport.left;
      var x2 := touches[1].clientX - viewport.left;
      var y1 := touches[0].clientY - viewport.top;
      var y2 := touches[1].clientY - viewport.top;

      if elScale != 0.0 {
        CommittedMeasure(innerTranslateX, innerTranslateY, elScale, content, viewport);
        innerNatural := Some(Size(innerBounds.width / elScale, innerBounds.height / elScale));
        if elScale > 0.0 && content.width >= 0.0 && content.height >= 0.0 {
          UnscaledUndoesScale(content, elScale);
        }
      } else {
        innerNatural := None;
      }
      activeTouchIds := Identifiers(touches);
      startPinchX := (x1 + x2) / 2.0;
      startPinchY := (y1 + y2) / 2.0;
      startPinchDistance := distance;

      innerTranslateX := innerTranslateX - scrollLeft;
      innerTranslateY := innerTranslateY - scrollTop;
      UpdateTransformer();
    }

    /** The touch-start listener, corrected: as written, and when a pinch
        starts the last move distance starts equal to the start distance,
        so that a pinch that ends without moving keeps its scale
        (StaleEndDistanceScenario shows what the source does instead). */
    method TouchStart(touches: seq<Touch>, distance: real, viewport: Rect, content: Size,
                      scrollLeft: real, scrollTop: real)
      requires Valid()
      requires |touches| >= 2 && !pinching ==> IsTouchDistance(distance, touches[0], touches[1])
      modifies this`pinching, this`userInteracted, this`activeTouchIds,
               this`startPinchX, this`startPinchY, this`startPinchDistance, this`endPinchDistance,
               this`innerNatural, this`innerTranslateX, this`innerTranslateY, this`rendered
      ensures Valid()
      ensures old(userInteracted) ==> userInteracted
      ensures |touches| < 2 || old(pinching) ==> unchanged(this)
      ensures |touches| >= 2 && !old(pinching) ==>
        && pinching && userInteracted
        && activeTouchIds == Identifiers(touches)
        && Vec2(startPinchX, startPinchY) == Midpoint(touches[0], touches[1], viewport)
        && startPinchDistance == distance && endPinchDistance == distance
        && innerNatural == (if innerScale != 0.0 then Some(UnscaledContent(content, innerScale)) else None)
        && (innerScale > 0.0 && content.width >= 0.0 && content.height >= 0.0 ==> innerNatural == Some(content))
        && innerTranslateX == old(innerTranslateX) - scrollLeft
        && innerTranslateY == old(innerTranslateY) - scrollTop
        && rendered == CommittedTransform(innerTranslateX, innerTranslateY, innerScale)
    {
      var starts := |touches| >= 2 && !pinching;
      TouchStartAsWritten(touches, distance, viewport, content, scrollLeft, scrollTop);
      if starts {
        endPinchDistance := distance;
      }
    }

    /** The touch-move listener, attached only during a pinch. With fewer than
        two touches the source throws before writing anything. Otherwise it
        records the distance and draws the pinch composite, corrected so that
        the content is centred or covers the viewport on each axis. */
    method TouchMove(touches: seq<Touch>, distance: real, viewport: Rect)
      requires Valid() && pinching
      requires |touches| >= 2 ==>
        && startPinchDistance != 0.0 && innerScale > 0.0 && innerNatural.Some?
        && IsTouchDistance(distance, touches[0], touches[1])
      modifies this`endPinchDistance, this`rendered
      ensures Valid()
      ensures |touches| < 2 ==> unchanged(this)
      ensures |touches| >= 2 ==>
        var k := MoveFactor(distance / startPinchDistance, computedMinScale, UpperBound(MaxScale()), innerScale);
        var m := PinchMatrix(Midpoint(touches[0], touches[1], viewport), k,
                             Vec2(startPinchX, startPinchY), Vec2(innerTranslateX, innerTranslateY), innerScale);
        var natural := innerNatural.value;
        && endPinchDistance == distance
        && rendered == LiveTransform(m, natural, Dims(viewport))
        && (k != 0.0 ==>
              && BoxSettled(rendered, natural, Dims(viewport))
              && rendered.a == k * innerScale && rendered.d == k * innerScale)
    {
      if |touches| < 2 {
        return;
      }
      var x1 := touches[0].clientX - viewport.left;
      var x2 := touches[1].clientX - viewport.left;
      var y1 := touches[0].clientY - viewport.top;
      var y2 := touches[1].clientY - viewport.top;
      var midX := (x1 + x2) / 2.0;
      var midY := (y1 + y2) / 2.0;
      var distanceDiff := distance / startPinchDistance;
      var elScale := innerScale;
      var scaleAmount := MoveFactor(distanceDiff, computedMinScale, UpperBound(MaxScale()), elScale);
      var startMidX := startPinchX;
      var startMidY := startPinchY;
      var x := innerTranslateX;
      var y := innerTranslateY;

      endPinchDistance := distance;

      var matrix := Identity;
      matrix := Translate(matrix, Vec2(midX, midY));
      matrix := Scale(matrix, Vec2(scaleAmount, scaleAmount));
      matrix := Translate(matrix, Vec2(-startMidX, -startMidY));
      matrix := Translate(matrix, Vec2(x, y));
      matrix := Scale(matrix, Vec2(elScale, elScale));
      assert Vec2(midX, midY) == Midpoint(touches[0], touches[1], viewport);
      assert matrix == PinchMatrix(Vec2(midX, midY), scaleAmount, Vec2(startMidX, startMidY), Vec2(x, y), elScale);
      matrix := KeepInBounds(matrix, innerNatural.value, viewport);
      rendered := matrix;

      if scaleAmount != 0.0 {
        assert scaleAmount * elScale != 0.0;
        PinchLiveTransformSettled(Vec2(midX, midY), scaleAmount, Vec2(startMidX, startMidY), Vec2(x, y), elScale,
                                  innerNatural.value, Dims(viewport));
      }
    }

    /** The touch-end listener, attached only during a pinch. With two or
        more touches left the source throws (it reads `identifier[0]` of the
        touch list) before writing anything. Otherwise the pinch settles:
        - the scale becomes the start scale times the last distance ratio,
          clamped to [computedMinScale, maxScale || Infinity]: the scale the
          last move drew for that distance, so the scale does not jump;
        - the translate becomes the offset of the box the last move drew,
          floored at 0, and the committed transform is drawn;
        - the scroller, at 0 during the pinch, is told to scroll by minus
          that offset (`scrollBy`). Since a scroll position cannot go below
          0, the content stays where the last move drew it on both axes. */
    method TouchEnd(remaining: seq<Touch>, viewport: Rect, content: Size) returns (scrollBy: Vec2)
      requires Valid() && pinching
      requires |remaining| < 2 ==> startPinchDistance != 0.0
      modifies this`pinching, this`innerScale, this`innerTranslateX, this`innerTranslateY, this`rendered
      ensures Valid()
      ensures |remaining| >= 2 ==> unchanged(this) && scrollBy == Vec2(0.0, 0.0)
      ensures |remaining| < 2 ==>
        && !pinching
        && innerScale == SettleScale(old(innerScale), endPinchDistance, startPinchDistance,
                                     computedMinScale, UpperBound(MaxScale()))
      ensures |remaining| < 2 ==>
        && (UpperBound(MaxScale()).AtMost? ==> innerScale <= MaxScale())
        && (UpperBound(MaxScale()).Unbounded? || computedMinScale <= MaxScale() ==> innerScale >= computedMinScale)
      ensures |remaining| < 2 ==>
        var box := DrawnBox(old(rendered), content, viewport);
        var xOffset := box.left - viewport.left;
        var yOffset := box.top - viewport.top;
        && innerTranslateX == Max(xOffset, 0.0) && innerTranslateY == Max(yOffset, 0.0)
        && scrollBy == Vec2(-xOffset, -yOffset)
        && innerTranslateX - Max(scrollBy.x, 0.0) == xOffset
        && innerTranslateY - Max(scrollBy.y, 0.0) == yOffset
      ensures |remaining| < 2 ==>
        && innerTranslateX >= 0.0 && innerTranslateY >= 0.0
        && rendered == CommittedTransform(innerTranslateX, innerTranslateY, innerScale)
    {
      if |remaining| >= 2 {
        return Vec2(0.0, 0.0);
      }
      pinching := false;
      var drawn := rendered;

      ghost var settled := SettleScale(innerScale, endPinchDistance, startPinchDistance,
                                       computedMinScale, UpperBound(MaxScale()));
      var lower := Max(innerScale * (endPinchDistance / startPinchDistance), computedMinScale);
      match UpperBound(MaxScale()) {
        case Unbounded => innerScale := lower;  // Math.min(lower, Infinity)
        case AtMost(maxScale) => innerScale := Min(lower, maxScale);
      }
      assert innerScale == settled;
      var innerBounds := DrawnBox(drawn, content, viewport);
      var yOffset := innerBounds.top - viewport.top;
      var xOffset := innerBounds.left - viewport.left;
      innerTranslateX := Max(xOffset, 0.0);
      innerTranslateY := Max(yOffset, 0.0);
      UpdateTransformer();
      scrollBy := Vec2(-xOffset, -yOffset);
    }

    /** attributeChangedCallback, run after the attribute `name` took the
        value `value`.
        - initial-scale: until the user has interacted, reset to the new
          initial scale and centre;
        - min-scale: resolve the new minimum; raise the scale to it only if
          the scale is below it;
        - max-scale: lower the scale to the maximum only if it is above it
          (a maximum of 0 is no maximum; see Gesture.MaxScaleAttributeClamp);
        - controls: nothing. */
    method AttributeChanged(name: AttrName, value: AttrValue, viewport: Rect, content: Size)
      requires Valid()
      requires name == InitialScaleAttr && !userInteracted ==>
        innerScale != 0.0 && Measurable(ScaleSpecOf(value), Dims(viewport), ScaledSize(content, innerScale), innerScale)
      requires name == MinScaleAttr ==>
        Measurable(ScaleSpecOf(value), Dims(viewport), Dims(DrawnBox(rendered, content, viewport)), innerScale)
      modifies this`initialScaleAttr, this`minScaleAttr, this`maxScaleAttr,
               this`innerScale, this`innerTranslateX, this`innerTranslateY,
               this`computedMinScale, this`rendered
      ensures Valid()
      ensures name == InitialScaleAttr ==>
        && initialScaleAttr == value
        && minScaleAttr == old(minScaleAttr) && maxScaleAttr == old(maxScaleAttr)
        && computedMinScale == old(computedMinScale)
        && (old(userInteracted) ==>
              && innerScale == old(innerScale) && innerTranslateX == old(innerTranslateX)
              && innerTranslateY == old(innerTranslateY) && rendered == old(rendered))
        && (!old(userInteracted) ==>
              var unscaled := UnscaledContent(content, old(innerScale));
              && innerScale == ResolveScale(ScaleSpecOf(value), Dims(viewport), unscaled)
              && innerTranslateX == InitialOffset(viewport.width, unscaled.width, innerScale)
              && innerTranslateY == InitialOffset(viewport.height, unscaled.height, innerScale)
              && rendered == CommittedTransform(innerTranslateX, innerTranslateY, innerScale))
      ensures name == MinScaleAttr ==>
        && minScaleAttr == value
        && initialScaleAttr == old(initialScaleAttr) && maxScaleAttr == old(maxScaleAttr)
        && (ScaleSpecOf(value).Fixed? ==> computedMinScale == ScaleSpecOf(value).value)
        && (!ScaleSpecOf(value).Fixed? ==>
              computedMinScale == CalculateScale(ScaleSpecOf(value), Dims(viewport),
                                                 MeasuredUnscaled(old(rendered), old(innerScale), content, viewport)))
        && (!ScaleSpecOf(value).Fixed? && !old(pinching) ==>
              computedMinScale == CalculateScale(ScaleSpecOf(value), Dims(viewport),
                                                 UnscaledContent(content, old(innerScale))))
        && innerTranslateX == old(innerTranslateX) && innerTranslateY == old(innerTranslateY)
        && (old(innerScale) < computedMinScale ==>
              innerScale == computedMinScale
              && rendered == CommittedTransform(innerTranslateX, innerTranslateY, innerScale))
        && (old(innerScale) >= computedMinScale ==>
              innerScale == old(innerScale) && rendered == old(rendered))
      ensures name == MaxScaleAttr ==>
        && maxScaleAttr == value
        && initialScaleAttr == old(initialScaleAttr) && minScaleAttr == old(minScaleAttr)
        && computedMinScale == old(computedMinScale)
        && innerTranslateX == old(innerTranslateX) && innerTranslateY == old(innerTranslateY)
        && innerScale == MaxScaleAttributeClamp(old(innerScale), UpperBound(MaxScaleOf(value)))
        && (innerScale != old(innerScale) ==>
              rendered == CommittedTransform(innerTranslateX, innerTranslateY, innerScale))
        && (innerScale == old(innerScale) ==> rendered == old(rendered))
      ensures name == ControlsAttr ==> unchanged(this)
    {
      match name {
        case InitialScaleAttr =>
          initialScaleAttr := value;
          if !userInteracted {
            CommittedMeasure(innerTranslateX, innerTranslateY, innerScale, content, viewport);
            UpdateInitial(viewport, content);
            UpdateTransformer();
          }
        case MinScaleAttr =>
          minScaleAttr := value;
          UpdateMinScale(viewport, content);
          var minScale := computedMinScale;
          if minScale > innerScale {
            innerScale := minScale;
            UpdateTransformer();
          }
        case MaxScaleAttr =>
          maxScaleAttr := value;
          match UpperBound(MaxScale()) {
            case Unbounded =>
            case AtMost(maxScale) =>
              if innerScale > maxScale {
                innerScale := maxScale;
                UpdateTransformer();
              }
          }
        case ControlsAttr =>
      }
    }
  }

  /** A pinch that ends without a move, on an element at scale 2 with
      minimum 1: two touches 100 px apart are put down and lifted. With
      touch-start as written the settle reads the constructor's last move
      distance, 0, and commits the minimum scale 1. */
  method StaleEndDistanceScenario() returns (scale: real)
    ensures scale == 1.0
  {
    var z := TappedElement();
    PutDownTwoFingers(z, false);
    scale := LiftFingers(z);
    assert scale == SettleScale(2.0, 0.0, 100.0, 1.0, Unbounded);
  }

  /** The same tap with the corrected touch-start keeps scale 2. */
  method TapScenario() returns (scale: real)
    ensures scale == 2.0
  {
    var z := TappedElement();
    PutDownTwoFingers(z, true);
    scale := LiftFingers(z);
    TapKeepsScale(2.0, 100.0, 1.0, Unbounded);
  }

  /** Two fingers 100 px apart go down on z, through the corrected or the
      as-written touch-start. */
  method PutDownTwoFingers(z: PinchZoomer, corrected: bool)
    requires z.Valid() && !z.pinching
    modifies z
    ensures z.Valid() && z.pinching && z.startPinchDistance == 100.0
    ensures z.endPinchDistance == if corrected then 100.0 else old(z.endPinchDistance)
    ensures z.innerScale == old(z.innerScale) && z.computedMinScale == old(z.computedMinScale)
    ensures z.maxScaleAttr == old(z.maxScaleAttr)
  {
    if corrected {
      z.TouchStart(TapTouches(), 100.0, TapViewport(), TapContent(), 0.0, 0.0);
    } else {
      z.TouchStartAsWritten(TapTouches(), 100.0, TapViewport(), TapContent(), 0.0, 0.0);
    }
  }

  /** All fingers lift from z during a pinch; the committed scale. */
  method LiftFingers(z: PinchZoomer) returns (scale: real)
    requires z.Valid() && z.pinching && z.startPinchDistance != 0.0
    modifies z
    ensures scale == SettleScale(old(z.innerScale), old(z.endPinchDistance), old(z.startPinchDistance),
                                 old(z.computedMinScale), UpperBound(MaxScaleOf(old(z.maxScaleAttr))))
  {
    ghost var settled := SettleScale(z.innerScale, z.endPinchDistance, z.startPinchDistance,
                                     z.computedMinScale, UpperBound(z.MaxScale()));
    var _ := z.TouchEnd([], TapViewport(), TapContent());
    scale := z.innerScale;
  }

  function TapViewport(): Rect { Rect(0.0, 0.0, 100.0, 100.0) }
  function TapContent(): Size { Size(100.0, 100.0) }
  function TapTouches(): (t: seq<Touch>)
    ensures |t| == 2 && IsTouchDistance(100.0, t[0], t[1])
  {
    [Touch(0, 10.0, 10.0), Touch(1, 10.0, 110.0)]
  }

  /** The scale bounds are not an invariant of the element: connecting an
      element whose `initialscale` is 0.5 and `minscale` is 1 leaves it at
      scale 0.5 under the minimum 1, because connection resets the scale to
      the initial setting and then only records the minimum. */
  method InitialBelowMinScenario() returns (scale: real, minScale: real)
    ensures scale == 0.5 && minScale == 1.0 && scale < minScale
  {
    var z := new PinchZoomer();
    SetScaleAttribute(z, InitialScaleAttr, 0.5);
    SetScaleAttribute(z, MinScaleAttr, 1.0);
    assert z.innerScale == 1.0 && z.initialScaleAttr == Numeric(0.5) && z.minScaleAttr == Numeric(1.0);
    z.Connected(TapViewport(), TapContent());
    scale, minScale := z.innerScale, z.computedMinScale;
  }

  /** A new element given initial scale 2 and minimum scale 1. */
  method TappedElement() returns (z: PinchZoomer)
    ensures fresh(z) && z.Valid() && !z.pinching
    ensures z.innerScale == 2.0 && z.computedMinScale == 1.0 && z.MaxScale() == 0.0
    ensures z.endPinchDistance == 0.0
  {
    z := new PinchZoomer();
    SetScaleAttribute(z, InitialScaleAttr, 2.0);
    SetScaleAttribute(z, MinScaleAttr, 1.0);
  }

  /** Before any interaction, set the `initialscale` or `minscale`
      attribute of z to a non-zero number. */
  method SetScaleAttribute(z: PinchZoomer, name: AttrName, n: real)
    requires z.Valid() && !z.userInteracted && z.innerScale != 0.0 && n != 0.0
    requires name == InitialScaleAttr || name == MinScaleAttr
    modifies z
    ensures z.Valid() && !z.pinching && !z.userInteracted
    ensures name == InitialScaleAttr ==> z.innerScale == n && z.computedMinScale == old(z.computedMinScale)
    ensures name == MinScaleAttr ==> z.computedMinScale == n && z.innerScale == Max(old(z.innerScale), n)
    ensures z.maxScaleAttr == old(z.maxScaleAttr) && z.endPinchDistance == old(z.endPinchDistance)
    ensures name == InitialScaleAttr ==> z.initialScaleAttr == Numeric(n) && z.minScaleAttr == old(z.minScaleAttr)
    ensures name == MinScaleAttr ==> z.minScaleAttr == Numeric(n) && z.initialScaleAttr == old(z.initialScaleAttr)
  {
    z.AttributeChanged(name, Numeric(n), TapViewport(), TapContent());
  }
}
