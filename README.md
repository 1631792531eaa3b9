# pinch-zoomer in Dafny

A model of the pinch-zoom engine of the `<pinch-zoomer>` custom element
(`index.js`). The element wraps its content in a scroller. Outside a pinch,
the content is drawn at a committed scale and translate, and the scroller
scrolls natively.

A pinch has three stages:

- **Start.** Two or more fingers put down start a session. The session
  records the touch identifiers, the midpoint and distance of the first two
  touches, and the content's natural size. The native scroll offset is folded
  into the translate.
- **Move.** Each move draws a gl-matrix composite
  T(avg)·S(k)·T(-start)·T(x, y)·S(elScale). Here k is the distance ratio,
  clamped relative to the start scale. The composite is then corrected per
  axis: content smaller than the viewport is centred, and otherwise the
  content is made to cover the viewport.
- **Settle.** When fingers lift, the clamped scale is committed. The
  translate becomes the content's on-screen offset, floored at 0. The
  scroller is told to scroll by the opposite of that offset.

Three attributes steer the scale:

- `initialscale` and `minscale` hold a number, `contain` or `cover`.
- `maxscale` holds a number. A maximum of 0 means "no maximum" when moving
  and settling.

The modules follow the program's structure:

- `Affine` (`affine.dfy`): the gl-matrix `mat2d`/`vec2` operations the engine calls (create, translate, scale, invert, transformMat2d), over a six-real datatype.
- `Geometry` (`geometry.dfy`): sizes, bounding rectangles, touch points, `Math.min`/`Math.max`.
- `Attributes` (`attributes.dfy`): attribute values, the `initialScale`/`minScale`/`maxScale` accessors, and `maxScale || Infinity`.
- `Fitting` (`fitting.dfy`): `calculateScale` (contain/cover) and the centring arithmetic of `updateInitial`.
- `Gesture` (`gesture.dfy`): the move factor, the settle clamp, the per-axis boundary correction, the pinch composite, and the two findings.
- `PinchZoom` (`pinch_zoomer.dfy`): the element as a class. The per-instance state of `index.js:55-71` becomes fields, and the listeners and callbacks become methods.

Arithmetic is over `real`. The host's DOM reads come in as parameters:

- the scroller's bounding box (`viewport`);
- the content's layout size (`content`). Every measurement of the content
  (`calculateScale`, `updateInitial`, touch-start, touch-end) is the
  bounding box of its four corners as `rendered` currently draws them
  (`PinchZoom.DrawnBox`). Since `transform-origin` is `0 0`, outside a pinch
  that box is the layout size times the magnitude of the committed scale
  (`PinchZoom.CommittedMeasure`); during a pinch it is the live transform's
  box, k times larger (`PinchZoom.PinchMeasure`);
- scroll offsets;
- touch lists;
- the touch distance.

The CSS transform written to the content element is the field `rendered`.

The bounds `minScale ≤ scale ≤ maxScale` are not an invariant of the
element, and the model does not claim them. Connection resets the scale to
the initial setting and then only records the minimum, so an `initialscale`
below `minscale` stays below it (`PinchZoom.InitialBelowMinScenario`); a
`maxscale` below the computed minimum lowers the scale under that minimum.
What holds is that a pinch ends inside both bounds whenever the minimum is
at most the maximum (`PinchZoom.PinchZoomer.TouchEnd`).

`updateInitial` falls back to `initialScale || 1`. That fallback is never
taken, because the `initialScale` getter never returns a falsy value. The
getter's own `initialZoom` default is never taken either, because the
property names are `initialScale` and `minScale`. `Attributes.ScaleSpecOf`
states what the getter returns.

## Model

| member | source | states |
|---|---|---|
| Affine.Invert | index.js:280-282 | gl-matrix `invert` yields a matrix exactly when the determinant is non-zero |
| Affine.InvertInPlace | index.js:280-282 | the in-place invert leaves a singular matrix as it was |
| Affine.OperationsAreProducts | index.js:237-241 | `translate` and `scale` post-multiply by a translation or scaling matrix; the re-centring step pre-multiplies by a translation |
| Affine.ApplyMultiply | index.js:246-247 | transforming a point by a product applies the right factor first, then the left |
| Affine.PreTranslateShifts | index.js:276-283 | prepending T(c) shifts every image point by c |
| Affine.InvertUndoes | index.js:280-282 | the inverse maps every image point back to its preimage |
| Affine.InvertIsUndone | index.js:280-282 | the matrix maps the inverse's image of every point back to that point |
| Affine.ScaleTranslateInverse | index.js:280-282 | the inverse of a scale-and-translate matrix is diag(1/a, 1/d) with translate (-tx/a, -ty/d) |
| Affine.InvertTranslateInvert | index.js:276-283 | invert, translate by -c, invert equals prepending T(c) for every scale-and-translate matrix |
| Geometry.Identifiers | index.js:190 | the recorded identifiers list has one entry per touch, in order, each that touch's identifier |
| Attributes.ScaleSpecOf | index.js:399-409 | the getter returns `cover` exactly for "cover" and a number exactly for a non-zero numeric value (that value); everything else, "contain" included, gives `contain` |
| Attributes.StoredScaleValue | index.js:410-416 | what the setter stores reads back, through the getter, as what was set; a null becomes a stored value |
| Attributes.MaxScaleOf | index.js:343-345 | `maxScale` is non-zero exactly for a non-zero numeric attribute, and is then that number |
| Attributes.StoredMaxValue | index.js:346-348 | what the `maxScale` setter stores is numeric or NaN and reads back as the same `maxScale` |
| Attributes.UpperBound | index.js:222 | `maxScale or Infinity` is unbounded exactly when `maxScale` is 0, and otherwise bounds at `maxScale` |
| Fitting.UnscaledContent | index.js:86-90 | the measured box divided by a non-zero current scale is zero on an axis exactly when the layout size is |
| Fitting.UnscaledUndoesScale | index.js:89-90 | dividing the measured box by a positive current scale recovers the layout size; by a negative one, its negation |
| Fitting.CalculateScale | index.js:83-104 | for non-empty content, `contain` is one of the two viewport-to-content ratios and at most both, `cover` is one of them and at least both; with one content axis of length 0 (ratio +Infinity) only `contain` resolves, to the other axis's ratio |
| Fitting.ContainIsLargestFit | index.js:92-97 | a scale fits the viewport on both axes if and only if it is at most `contain` |
| Fitting.CoverIsSmallestCovering | index.js:98-103 | a scale covers the viewport on both axes if and only if it is at least `cover` |
| Fitting.ContainAtMostCover | index.js:92-103 | `contain` is at most `cover` |
| Fitting.ResolveScale | index.js:107-109 | a numeric setting is used as it is |
| Fitting.ResolvedKeywordIsPositive | index.js:83-104 | for a non-empty viewport and content, `contain` and `cover` resolve to positive scales |
| Fitting.InitialOffset | index.js:120-121 | the initial translate is non-negative; content that fits gets equal margins on both sides; content that overflows starts at 0 |
| Fitting.ContainStartsCentred | index.js:106-122 | at the `contain` scale the content fits and is centred on both axes |
| Gesture.Midpoint | index.js:211-216 | the focal point is equidistant from the two touches on each axis |
| Gesture.MoveFactor | index.js:220-223 | the move factor never exceeds `maxScale/elScale`; it is at least `minScale/elScale` when min ≤ max; it is the distance ratio when that is in bounds, `minScale/elScale` when the ratio is below it (and min ≤ max), `maxScale/elScale` when the ratio or the minimum is above it; a `maxScale` of 0 imposes no upper bound |
| Gesture.ClampScale | index.js:313-319 | the settle clamp never exceeds the maximum; it is at least the minimum when min ≤ max; it is the scale itself when in bounds, the minimum when the scale is below it (and min ≤ max), the maximum when the scale or the minimum is above it |
| Gesture.SettleScale | index.js:313-319 | the committed scale never exceeds a non-zero `maxScale` and is at least the minimum when min ≤ max |
| Gesture.MoveFactorIsRelativeClamp | index.js:220-223 | the start scale times the move factor equals the absolute clamp of the start scale times the ratio |
| Gesture.SettleMatchesLastMove | index.js:313-319 | the scale committed at settle equals the scale the last move drew for the same end distance |
| Gesture.EdgeCorrection | index.js:252-274 | after the correction each axis is settled (centred when smaller than the viewport, else covering it); the correction is 0 exactly when the axis already was settled |
| Gesture.EdgeCorrectionIdempotent | index.js:256-274 | correcting an already corrected axis yields 0 |
| Gesture.EdgeCorrectionIsMinimal | index.js:259-264 | for content at least as large as the viewport, no shift that covers the viewport is smaller than the correction |
| Gesture.PinchMatrix | index.js:235-241 | the composite has no shear and scales both axes by k·elScale |
| Gesture.PinchMatrixForm | index.js:235-241 | the composite scales uniformly by k·elScale and translates by avg + k·(offset − start) |
| Gesture.AnchorFollowsFingers | index.js:235-250 | the content point under the start midpoint is drawn under the current midpoint, and the drawn size is k·elScale times the natural size |
| Gesture.Correction | index.js:243-274 | the correction on an axis is 0 exactly when the drawn corners already sit where the boundary rule wants them on that axis |
| Gesture.Recentre | index.js:276-283 | a zero correction leaves the matrix as it is; on a scale-and-translate matrix, invert/translate/invert prepends T(c) |
| Gesture.RecentreShiftsImage | index.js:276-283 | on a scale-and-translate matrix the re-centring shifts every image point by exactly c |
| Gesture.LiveTransform | index.js:243-283 | for a scale-and-translate matrix the corrected transform draws a box settled on both axes and keeps the scale and shear entries |
| Gesture.LiveTransformShifts | index.js:243-283 | for a scale-and-translate matrix every point is drawn shifted by the correction |
| Gesture.PinchLiveTransformSettled | index.js:235-283 | a move with non-zero scale draws a box settled on both axes at scale k·elScale |
| Gesture.MaxScaleAttributeClampAsWritten | index.js:381-385 | as written, the attribute clamp lowers the scale to `maxScale` when above it and otherwise keeps it |
| Gesture.MissingMaxScaleCollapsesScale | index.js:381-385 | as written, removing `maxscale` sets any positive scale to 0 |
| Gesture.MaxScaleAttributeClamp | index.js:381-385 | corrected: the clamp never raises the scale; it lowers it to a non-zero maximum only when above it; 0 means no maximum |
| Gesture.CorrectedClampKeepsScalePositive | index.js:381-385 | corrected: a positive scale stays positive for every non-negative attribute, absent included |
| Gesture.AttributeClampAgreesWithSettle | index.js:313-319 | corrected: on a scale that respects the minimum, the attribute clamp is the settle clamp |
| Gesture.StaleEndDistanceJumpsScale | index.js:313-319 | as written, a pinch ending without a move settles on a stale end distance: 2 becomes 1 (end distance 0) or 4 (end distance 200 from an earlier pinch) |
| Gesture.TapKeepsScale | index.js:313-319 | corrected: a pinch ending without a move keeps an in-bounds scale |
| PinchZoom.CommittedTransformDraws | index.js:74-81 | `translate(x, y) scale(s)` is T(x, y)·S(s) and draws content point p at (x, y) + s·p |
| PinchZoom.KeepInBounds | index.js:252-283 | the if-chains and invert/translate/invert compute the corrected live transform |
| PinchZoom.DrawnBox | index.js:309-311 | the content's bounding client box during a pinch holds all four drawn corners and has non-negative size |
| PinchZoom.DrawnBoxIsTight | index.js:309-311 | each edge of that box passes through a drawn corner, so it is the smallest such box |
| PinchZoom.CommittedBoxAtTranslate | index.js:74-81 | content drawn at a positive committed scale has its box's top-left corner at the committed translate |
| PinchZoom.ScaleTranslateBox | index.js:86-90 | content drawn without shear has a box whose width and height are the layout width and height times the magnitudes of the two scale entries |
| PinchZoom.CommittedMeasure | index.js:86-90 | outside a pinch the measured box is the layout size times the committed scale's magnitude, and the box divided by the scale is `UnscaledContent` |
| PinchZoom.PinchMeasure | index.js:86-90 | during a pinch drawing at k times the start scale, the measured box divided by the start scale is k times the layout size |
| PinchZoom.MidPinchContainMinimum | index.js:83-104 | a `contain` minimum resolved mid-pinch (start scale 0.5, drawn at 1, 100 by 100) measures 200 by 200 and resolves to 0.5 |
| PinchZoom.PinchZoomer.constructor | index.js:150-166 | a new element has scale 1, translate 0, no pinch, no interaction, zero session values and no natural size |
| PinchZoom.PinchZoomer.UpdateTransformer | index.js:74-81 | the drawn transform is the committed scale and translate |
| PinchZoom.PinchZoomer.UpdateInitial | index.js:106-122 | the scale becomes the initial setting, resolved against the drawn box divided by the old scale; the translate is the non-negative centring offset |
| PinchZoom.PinchZoomer.UpdateMinScale | index.js:124-129 | the computed minimum is a numeric min-scale setting as it is, or `calculateScale` of the keyword against the drawn box divided by the scale; outside a pinch, against the layout size |
| PinchZoom.PinchZoomer.Connected | index.js:349-357 | before any interaction the element resets to the initial scale and centring; after it, the scale and translate are kept; the minimum is resolved against the layout size, or during a pinch against the live box; the committed transform is drawn |
| PinchZoom.PinchZoomer.TouchStartAsWritten | index.js:169-206 | with fewer than two touches or during a pinch nothing changes; otherwise a pinch starts with the identifiers, midpoint, distance and natural size recorded (undefined at scale 0; the layout size at a positive scale), the scroll folded into the translate, the content redrawn in place, and the end distance left as it was; `userInteracted` is never reset |
| PinchZoom.PinchZoomer.TouchStart | index.js:169-206 | as written, except that a starting pinch also sets the end distance to the start distance |
| PinchZoom.PinchZoomer.TouchMove | index.js:208-286 | records the distance and draws the corrected pinch composite; for a non-zero factor the drawn box is settled on both axes at scale k·elScale; with fewer than two touches nothing changes |
| PinchZoom.PinchZoomer.TouchEnd | index.js:288-330 | the pinch ends; the scale is the start scale times end/start distance clamped to [min, max or ∞]; the offset is that of the box the last move drew; both translates are max(offset, 0) ≥ 0; the committed transform is drawn; the scroll-by is minus the offset, so translate minus the (non-negative) scroll position equals the drawn offset on both axes and the content does not move; the committed scale is at most a non-zero maximum and at least the minimum when that is at most the maximum |
| PinchZoom.StaleEndDistanceScenario | index.js:169-206 | as written: an element at scale 2 with minimum 1 that is pinched without a move settles at scale 1 |
| PinchZoom.TapScenario | index.js:288-330 | corrected: the same element and tap keep scale 2 |
| PinchZoom.PinchZoomer.AttributeChanged | index.js:361-388 | initial-scale resets scale and centring only before interaction; min-scale resolves the new minimum against the drawn box (the layout size outside a pinch) and raises the scale to it only if below it; max-scale lowers the scale to a non-zero maximum only if above it; controls changes nothing |
| PinchZoom.InitialBelowMinScenario | index.js:349-357 | connecting an element with `initialscale` 0.5 and `minscale` 1 leaves scale 0.5 under the minimum 1 |

## Left out

- DOM and custom-element plumbing is not modelled: the shadow DOM, the style text, `customElements.define`, `console.log`, the `controls` accessors and the empty `changeTo` method. None of them touches the engine's state.
- Adding and removing the move and end listeners (index.js:204-205, 304-305) is modelled as the `pinching` flag. The move and end methods require `pinching`.
- `getBoundingClientRect`, `scrollLeft`/`scrollTop` and the touch lists are parameters. Writing the scroll offsets is the result of `TouchEnd`, and the browser's clamping of scroll offsets is not modelled. The CSS transform strings are the matrix in `rendered`.
- `Math.sqrt` in `getTouchDistance` (index.js:29-34) is not computed. The distance is a parameter constrained by `Geometry.IsTouchDistance`. That predicate uses client coordinates where the source uses page coordinates; both differ by the same page scroll for both touches.
- IEEE double and gl-matrix's Float32Array rounding are not modelled; all arithmetic is exact over `real`.
- JavaScript `Number()` string parsing is not modelled: attribute values arrive already classified as `Attributes.AttrValue`.
- The gl-matrix library source (`lib/gl-matrix`) is not part of this model. Its `mat2d` operations are defined here from the library's documented formulas.
- rollup.config.js is build configuration only.
- PinchZoom.PinchZoomer.TouchMove requires a non-zero start distance, a positive scale and a defined natural size. The source divides by the start distance and the scale unguarded: at 0 the results are NaN or Infinity, which real arithmetic does not have. For a negative scale the clamp bounds `minScale/elScale` and `maxScale/elScale` change sides, and the move is not modelled there. A pinch started at scale 0 leaves the natural size NaN, which the model records as `None`.
- PinchZoom.PinchZoomer.TouchEnd with two or more remaining touches is modelled as "nothing changes". The source's identifier comparison reads `event.touches.identifier[0]` and throws before writing anything, so the identifiers recorded at touch-start are never compared.
- PinchZoom.PinchZoomer.TouchEnd requires a non-zero start distance, for the same reason as the move handler.
- PinchZoom.PinchZoomer.UpdateInitial, UpdateMinScale, Connected and AttributeChanged require a non-zero current scale where they divide by it (0/0 is NaN). A negative scale, reached through a negative `maxscale`, is modelled.
- PinchZoom.PinchZoomer.UpdateInitial, UpdateMinScale, Connected and AttributeChanged leave out keywords whose result is not a finite number, because `real` has no Infinity or NaN (`Fitting.Resolvable`, `Fitting.Measurable`). These are `cover` on content empty on an axis (+Infinity), `contain` on content empty on both axes, `contain` on an axis empty in both content and viewport (NaN), and a zero content axis at a negative scale, which divides to -0 and gives -Infinity. `contain` with one empty content axis is modelled: it is the other axis's ratio.
- PinchZoom.PinchZoomer.constructor sets the computed minimum to 0. The source leaves it undefined, and every path writes it before reading it.
- PinchZoom.PinchZoomer.TouchEnd states the scale it commits as `Gesture.SettleScale`; that this is the scale the last move drew is `Gesture.SettleMatchesLastMove`, together with the move's own postcondition.
- PinchZoom.PinchZoomer.TouchStart is the corrected version: it also resets the end distance (see Findings).
- PinchZoom.PinchZoomer.AttributeChanged is the corrected version: a `maxscale` of 0 means no maximum (see Findings).

## Findings

| source | as written | input that shows it | evidently intended | confidence | as-written member | corrected member |
|---|---|---|---|---|---|---|
| index.js:381-385 | a `maxscale` change lowers the scale to `this.maxScale` whenever the scale is above it; a removed, empty, zero or non-numeric attribute reads as 0 | scale 2, then `maxscale` removed: the scale becomes 0 and the content is drawn at scale 0 | 0 means "no maximum", as in the move and settle clamps (`this.maxScale or Infinity`) | not executed | Gesture.MissingMaxScaleCollapsesScale | Gesture.MaxScaleAttributeClamp |
| index.js:191-193 | touch-start records the start distance but leaves the end distance of the previous pinch (or the initial 0) in place | on a fresh element at scale 2 with minimum 1, two fingers go down and lift without moving: settle computes 2·(0/d), clamped to 1, and the content jumps from scale 2 to 1; after an earlier pinch that ended at distance 200, a still tap with start distance 100 settles at scale 4 (Gesture.StaleEndDistanceJumpsScale) | a pinch that ends without moving keeps its scale, i.e. the end distance starts equal to the start distance (Gesture.TapKeepsScale) | not executed | PinchZoom.StaleEndDistanceScenario | PinchZoom.TapScenario |
