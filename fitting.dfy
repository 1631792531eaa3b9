/** Resolving the 'contain' and 'cover' keywords against the viewport
    (`calculateScale`) and centring the content at its initial scale
    (`updateInitial`). */
module Fitting {
  import opened Geometry
  import opened Attributes

  /** `innerBounds.width / currentScale`, `innerBounds.height / currentScale`:
      the content's size before the current scale. */
  function Unscaled(bounds: Size, currentScale: real): Size
    requires currentScale != 0.0
  {
    Size(bounds.width / currentScale, bounds.height / currentScale)
  }

  /** What `innerBounds / currentScale` yields for content of layout size
      `content` drawn at a non-zero scale s: the layout size itself for a
      positive scale, its mirror image for a negative one. It is zero on an
      axis exactly when the layout size is. */
  function UnscaledContent(content: Size, s: real): (r: Size)
    requires s != 0.0
    ensures r.width == 0.0 <==> content.width == 0.0
    ensures r.height == 0.0 <==> content.height == 0.0
  {
    UnscaledNonZero(content.width, s);
    UnscaledNonZero(content.height, s);
    Unscaled(ScaledSize(content, s), s)
  }

  lemma UnscaledNonZero(w: real, s: real)
    requires s != 0.0
    ensures Abs(w * s) / s == 0.0 <==> w == 0.0
  {
    if w != 0.0 {
      assert w * s != 0.0;
      assert Abs(w * s) != 0.0;
      assert Abs(w * s) / s != 0.0;
    }
  }

  /** Dividing the measured box by the scale it was drawn at recovers the
      layout size for a positive scale, and its negation for a negative one. */
  lemma {:induction false} UnscaledUndoesScale(content: Size, s: real)
    requires s != 0.0
    requires content.width >= 0.0 && content.height >= 0.0
    ensures s > 0.0 ==> UnscaledContent(content, s) == content
    ensures s < 0.0 ==> UnscaledContent(content, s) == Size(-content.width, -content.height)
  {
    DivCancels(content.width, s);
    DivCancels(content.height, s);
    if s > 0.0 {
      assert content.width * s >= 0.0 && content.height * s >= 0.0;
    } else {
      assert content.width * s <= 0.0 && content.height * s <= 0.0;
    }
  }

  lemma DivCancels(w: real, s: real)
    requires s != 0.0
    ensures w * s / s == w && -(w * s) / s == -w
  {
    var q := w * s / s;
    assert q * s == w * s;
    assert (q - w) * s == 0.0;
  }

  /** `calculateScale(type)` for `type` 'contain' (the smaller of the two
      viewport-to-content ratios) or 'cover' (the larger). A content axis of
      length 0 makes its ratio +Infinity, which 'contain' passes over: it
      is then the other axis's ratio. */
  function CalculateScale(fit: ScaleSpec, viewport: Size, unscaled: Size): (r: real)
    requires !fit.Fixed? && Resolvable(fit, viewport, unscaled)
    ensures unscaled.width != 0.0 && unscaled.height != 0.0 ==>
      && (r == viewport.width / unscaled.width || r == viewport.height / unscaled.height)
      && (fit == Contain ==> r <= viewport.width / unscaled.width && r <= viewport.height / unscaled.height)
      && (fit == Cover ==> r >= viewport.width / unscaled.width && r >= viewport.height / unscaled.height)
    ensures unscaled.width == 0.0 ==> fit == Contain && r == viewport.height / unscaled.height
    ensures unscaled.height == 0.0 ==> fit == Contain && r == viewport.width / unscaled.width
  {
    if unscaled.width == 0.0 then viewport.height / unscaled.height       // Math.min(Infinity, byHeight)
    else if unscaled.height == 0.0 then viewport.width / unscaled.width   // Math.min(byWidth, Infinity)
    else
      var byWidth := viewport.width / unscaled.width;
      var byHeight := viewport.height / unscaled.height;
      if fit == Contain then Min(byWidth, byHeight) else Max(byWidth, byHeight)
  }

  /** At scale s the content fits inside the viewport on both axes. */
  predicate Fits(s: real, viewport: Size, unscaled: Size) {
    s * unscaled.width <= viewport.width && s * unscaled.height <= viewport.height
  }

  /** At scale s the content covers the viewport on both axes. */
  predicate Covers(s: real, viewport: Size, unscaled: Size) {
    s * unscaled.width >= viewport.width && s * unscaled.height >= viewport.height
  }

  lemma DivBounds(s: real, v: real, u: real)
    requires u > 0.0
    ensures s * u <= v <==> s <= v / u
    ensures s * u >= v <==> s >= v / u
  {
    var q := v / u;
    assert q * u == v;
    assert s * u - v == (s - q) * u;
    if s <= q {
      assert (s - q) * u <= 0.0;
    } else {
      assert (s - q) * u > 0.0;
    }
    if s >= q {
      assert (s - q) * u >= 0.0;
    } else {
      assert (s - q) * u < 0.0;
    }
  }

  /** 'contain' is the largest scale that fits: a scale fits exactly when it
      is at most 'contain'. */
  lemma ContainIsLargestFit(viewport: Size, unscaled: Size, s: real)
    requires unscaled.width > 0.0 && unscaled.height > 0.0
    ensures Fits(s, viewport, unscaled) <==> s <= CalculateScale(Contain, viewport, unscaled)
  {
    DivBounds(s, viewport.width, unscaled.width);
    DivBounds(s, viewport.height, unscaled.height);
  }

  /** 'cover' is the smallest scale that covers: a scale covers exactly when
      it is at least 'cover'. */
  lemma CoverIsSmallestCovering(viewport: Size, unscaled: Size, s: real)
    requires unscaled.width > 0.0 && unscaled.height > 0.0
    ensures Covers(s, viewport, unscaled) <==> s >= CalculateScale(Cover, viewport, unscaled)
  {
    DivBounds(s, viewport.width, unscaled.width);
    DivBounds(s, viewport.height, unscaled.height);
  }

  lemma ContainAtMostCover(viewport: Size, unscaled: Size)
    requires unscaled.width != 0.0 && unscaled.height != 0.0
    ensures CalculateScale(Contain, viewport, unscaled) <= CalculateScale(Cover, viewport, unscaled)
  {
  }

  /** Whether a getter result resolves to a finite scale. A keyword divides
      the viewport by the content size: 'cover' needs both content axes
      non-zero; 'contain' also survives one zero content axis, whose ratio
      is then +Infinity, provided the viewport is non-empty on that axis
      (0/0 is NaN, and NaN would win the `Math.min`). */
  predicate Resolvable(spec: ScaleSpec, viewport: Size, unscaled: Size) {
    || spec.Fixed?
    || (unscaled.width != 0.0 && unscaled.height != 0.0)
    || (spec == Contain && unscaled.width == 0.0 && unscaled.height != 0.0 && viewport.width > 0.0)
    || (spec == Contain && unscaled.height == 0.0 && unscaled.width != 0.0 && viewport.height > 0.0)
  }

  /** Whether `spec` resolves when the unscaled size is measured as a box of
      size `box` divided by the current scale s: s must be non-zero, and at a
      negative scale a zero box axis divides to -0, whose ratio is -Infinity,
      so both axes must then be non-empty. */
  predicate Measurable(spec: ScaleSpec, viewport: Size, box: Size, s: real) {
    || spec.Fixed?
    || (&& s != 0.0
        && Resolvable(spec, viewport, Unscaled(box, s))
        && (s < 0.0 ==> box.width != 0.0 && box.height != 0.0))
  }

  /** The scale a getter result stands for: a number as it is, a keyword
      through `calculateScale` (`updateInitial`, `updateMinScale`). */
  function ResolveScale(spec: ScaleSpec, viewport: Size, unscaled: Size): (r: real)
    requires Resolvable(spec, viewport, unscaled)
    ensures spec.Fixed? ==> r == spec.value
  {
    if spec.Fixed? then spec.value else CalculateScale(spec, viewport, unscaled)
  }

  /** A keyword resolves to a positive scale for a non-empty viewport and content. */
  lemma ResolvedKeywordIsPositive(spec: ScaleSpec, viewport: Size, unscaled: Size)
    requires !spec.Fixed?
    requires viewport.width > 0.0 && viewport.height > 0.0
    requires unscaled.width > 0.0 && unscaled.height > 0.0
    ensures ResolveScale(spec, viewport, unscaled) > 0.0
  {
    assert viewport.width / unscaled.width > 0.0;
    assert viewport.height / unscaled.height > 0.0;
  }

  /** `Math.max(0, (outer - unscaled * scale) / 2)`: the initial translate on
      one axis. Never negative; content that fits is centred with equal
      margins, content that overflows starts at the edge. */
  function InitialOffset(viewportLength: real, unscaledLength: real, scale: real): (t: real)
    ensures t >= 0.0
    ensures unscaledLength * scale <= viewportLength ==>
              viewportLength - (t + unscaledLength * scale) == t
    ensures unscaledLength * scale >= viewportLength ==> t == 0.0
  {
    Max(0.0, (viewportLength - unscaledLength * scale) / 2.0)
  }

  /** At the 'contain' scale the content fits, and the initial translate
      centres it on both axes. */
  lemma ContainStartsCentred(viewport: Size, unscaled: Size)
    requires unscaled.width > 0.0 && unscaled.height > 0.0
    ensures var s := ResolveScale(Contain, viewport, unscaled);
      && Fits(s, viewport, unscaled)
      && var tx := InitialOffset(viewport.width, unscaled.width, s);
         var ty := InitialOffset(viewport.height, unscaled.height, s);
         tx == (viewport.width - unscaled.width * s) / 2.0
         && ty == (viewport.height - unscaled.height * s) / 2.0
  {
    var s := ResolveScale(Contain, viewport, unscaled);
    ContainIsLargestFit(viewport, unscaled, s);
  }
}
