# LoadingView in Dafny

A model of the core of `LoadingView`, an Android view that bounces a marker
shape up and down above a shadow, with an optional caption underneath. The
marker cycles square → circle → triangle → square. Two chained animators drive
it: `down` animates `mPercent` from 0 to 1, and at its end the view calls
`exchangeShape` and starts `up`; `up` animates `mPercent` from 1 to 0, and at
its end starts `down` again. The drawing is straight-line arithmetic on
`mPercent`, the configured sizes and the fields `onMeasure` derives.

The project has four modules:

- `Shapes` (`shapes.dfy`): the `Shape` enum, the successor `exchangeShape`
  switches to, and the iteration lemmas (period exactly 3).
- `Measure` (`measure.dfy`): the configuration, Java's `(int)` cast of a
  float, and the `onMeasure` arithmetic.
- `Draw` (`draw.dfy`): the coordinates that `drawShape`, `drawShadow` and
  `drawText` hand to the canvas, and lemmas about where things land.
- `LoadingViews` (`loading_view.dfy`): the class `LoadingView`. Its fields
  are `shape`, `phase`, `percent` and the derived layout. Its methods are the
  source's `exchangeShape`, `down`, `up`, the update and end listeners and
  `onMeasure`. The function `OnDraw` gives the frame `onDraw` issues. A client
  method at the end runs three bounces from a fresh view.

Dimensions are exact `real`s standing for the source's `float` pixels. The
`(int)` casts are modelled exactly: round toward zero, saturate at the `int`
range. For the non-negative, in-range values a view produces, this is the
floor. The `sqrt(3)` term of the triangle is a parameter `h` with
`h ≥ 0` and `h·h == 3·(shapeSize/2)²`.

Three behaviours of `LoadingView.java` differ from what a reader might expect
of a bouncing loader: that the caption gap disappears with the caption, that
the shadow narrows as the shape rises, and that detaching stops the animation.
The model follows the code:

- An empty caption contributes zero width and zero height. The
  shadow-to-caption gap `mDistance` is still added to the measured height
  (`Measure.HeightFormula`).
- The shadow's x-scale is `1 − 0.5·percent`. `percent` grows while the shape
  falls, so the shadow narrows as the shape falls and widens as it rises
  (`Draw.ShadowNarrowsAsShapeFalls`). It does not narrow as the shape rises.
- No stop or cancel guarantee is modelled. `onDetachedFromWindow` only calls
  `clearAnimation`, and that does not cancel the two value animators.

## Model

| member | source | states |
|---|---|---|
| `Shapes.Index` | app/src/main/java/com/fei/loadingview/LoadingView.java:81-85 | every shape has a position in the cyclic order square, circle, triangle |
| `Shapes.Next` | app/src/main/java/com/fei/loadingview/LoadingView.java:249-262 | an exchange always changes the shape |
| `Shapes.NextIsSuccessor` | app/src/main/java/com/fei/loadingview/LoadingView.java:249-262 | an exchange moves one place forward in the order square → circle → triangle, wrapping from triangle to square |
| `Shapes.AdvanceIndex` | app/src/main/java/com/fei/loadingview/LoadingView.java:249-262 | after n exchanges the shape is n places further round the cycle (mod 3) |
| `Shapes.AdvancePeriod` | app/src/main/java/com/fei/loadingview/LoadingView.java:249-262 | three exchanges restore the shape, and n exchanges restore it exactly when n is a multiple of 3 |
| `Shapes.ShapesFromSquare` | app/src/main/java/com/fei/loadingview/LoadingView.java:57 | starting from the initial square, the shape after n exchanges is square, circle or triangle according to n mod 3 |
| `Measure.ToInt` | app/src/main/java/com/fei/loadingview/LoadingView.java:159-161 | the `(int)` cast stays in the int range, rounds toward zero (within 1 of the value and no further from zero) and saturates at the bounds |
| `Measure.ToIntIsFloor` | app/src/main/java/com/fei/loadingview/LoadingView.java:159-161 | on non-negative values in range the cast is the floor |
| `Measure.MeasuredHeight` | app/src/main/java/com/fei/loadingview/LoadingView.java:159 | the measured height is the largest int not above the stacked height of shape, travel, shadow, caption, paddings and gap |
| `Measure.Max` | app/src/main/java/com/fei/loadingview/LoadingView.java:161 | `Math.max` returns one of its arguments and is at least both |
| `Measure.MeasuredWidth` | app/src/main/java/com/fei/loadingview/LoadingView.java:161 | the measured width is the largest int not above the widest of shape, shadow and caption |
| `Measure.Derive` | app/src/main/java/com/fei/loadingview/LoadingView.java:148-169 | the centre is half the measured width; the half-sizes are halves of the shape, shadow and caption widths; the text height is the caption's height, or 0 when the caption is empty |
| `Measure.HeightFormula` | app/src/main/java/com/fei/loadingview/LoadingView.java:150-159 | height = floor(shapeSize + scrollHeight + shadowHeight + textHeight + paddings + distance); with an empty caption the text height is 0 but the gap stays |
| `Measure.WidthFormula` | app/src/main/java/com/fei/loadingview/LoadingView.java:150-161 | width = floor of the widest of the three: at least the floor of each and equal to the floor of one; with an empty caption only shape and shadow count |
| `Draw.ShapeOffset` | app/src/main/java/com/fei/loadingview/LoadingView.java:203 | the shape's vertical offset is within [0, scrollHeight] for percent in [0,1], 0 at rest and scrollHeight at the end of the fall |
| `Draw.DrawShape` | app/src/main/java/com/fei/loadingview/LoadingView.java:200-231 | the figure drawn is a rectangle, a circle or a closed triangle path exactly when the current shape is the square, the circle or the triangle, and it is filled in its shape's colour |
| `Draw.SquareGeometry` | app/src/main/java/com/fei/loadingview/LoadingView.java:203-213 | the square is shapeSize wide and high, centred on `mCenter`, with its top at the top padding, in the square colour, shifted down by percent·scrollHeight |
| `Draw.CircleGeometry` | app/src/main/java/com/fei/loadingview/LoadingView.java:214-218 | the circle has centre (center, paddingTop + halfShape) and radius halfShape, so it is inscribed in the square's box |
| `Draw.TriangleIsEquilateral` | app/src/main/java/com/fei/loadingview/LoadingView.java:219-228 | apex (center, paddingTop), base corners (center ∓ halfShape, paddingTop + h) on one line; all three squared sides equal shapeSize² |
| `Draw.TriangleHeightBound` | app/src/main/java/com/fei/loadingview/LoadingView.java:221 | the triangle's height `shapeSize/2·√3` is at most shapeSize |
| `Draw.ShapeStaysAboveShadow` | app/src/main/java/com/fei/loadingview/LoadingView.java:200-244 | for every shape and percent in [0,1] the translated figure stays between the top padding and the shadow's top and is centred on `mCenter`; square and circle touch the shadow at percent 1 |
| `Draw.ShadowScale` | app/src/main/java/com/fei/loadingview/LoadingView.java:241 | the shadow x-scale is 1 at percent 0, 0.5 at percent 1, and within [0.5, 1] in between |
| `Draw.ShadowScaleLinear` | app/src/main/java/com/fei/loadingview/LoadingView.java:241 | the scale falls linearly, by half of any increase in percent, so it is strictly decreasing |
| `Draw.DrawShadow` | app/src/main/java/com/fei/loadingview/LoadingView.java:238-247 | the shadow is scaled about the centre line |
| `Draw.ScaledOvalWidth` | app/src/main/java/com/fei/loadingview/LoadingView.java:241-244 | scaling about the pivot multiplies the oval's width by the scale and keeps a pivot-centred oval centred |
| `Draw.ShadowGeometry` | app/src/main/java/com/fei/loadingview/LoadingView.java:241-244 | on screen the shadow is centred on `mCenter`, scale·shadowWidth wide, its top at paddingTop + shapeSize + scrollHeight and shadowHeight tall; the oval before the scale does not depend on percent |
| `Draw.ShadowNarrowsAsShapeFalls` | app/src/main/java/com/fei/loadingview/LoadingView.java:241-244 | a larger percent never gives a wider shadow |
| `Draw.DrawText` | app/src/main/java/com/fei/loadingview/LoadingView.java:187-193 | the caption starts half its width left of the centre line; its baseline is placed so the font's top-to-bottom box is centred on the middle of the caption block, which starts one gap below the shadow |
| `Draw.TextPlacement` | app/src/main/java/com/fei/loadingview/LoadingView.java:187-193 | the caption starts at center − halfText, so it is centred; its font box is centred in the caption block; the block starts one gap below the shadow; its bottom plus the bottom padding is the stacked height `onMeasure` casts |
| `LoadingViews.LoadingView.constructor` | app/src/main/java/com/fei/loadingview/LoadingView.java:57 | a new view shows the square with percent 0 and no animator running, all derived fields zero |
| `LoadingViews.LoadingView.OnMeasure` | app/src/main/java/com/fei/loadingview/LoadingView.java:148-169 | the derived fields become exactly those of `Measure.Derive`; shape, phase and percent are untouched |
| `LoadingViews.LoadingView.ExchangeShape` | app/src/main/java/com/fei/loadingview/LoadingView.java:249-262 | the shape becomes its successor and nothing else changes; the invariant (percent in [0,1], shape = square advanced by the number of exchanges) is kept |
| `LoadingViews.LoadingView.Down` | app/src/main/java/com/fei/loadingview/LoadingView.java:268-288 | the falling phase starts with percent at the start of `ofFloat(0, 1)`; shape unchanged |
| `LoadingViews.LoadingView.Up` | app/src/main/java/com/fei/loadingview/LoadingView.java:293-313 | the rising phase starts with percent at the start of `ofFloat(1, 0)`; shape unchanged |
| `LoadingViews.LoadingView.Update` | app/src/main/java/com/fei/loadingview/LoadingView.java:280-286 | percent becomes the animated value, which lies in [0,1]; shape and phase unchanged |
| `LoadingViews.LoadingView.EndDown` | app/src/main/java/com/fei/loadingview/LoadingView.java:273-279 | the end of a fall advances the shape exactly once and enters the rising phase with percent 1 |
| `LoadingViews.LoadingView.EndUp` | app/src/main/java/com/fei/loadingview/LoadingView.java:298-304 | the end of a rise enters the falling phase with percent 0 and leaves the shape alone |
| `LoadingViews.LoadingView.OnDraw` | app/src/main/java/com/fei/loadingview/LoadingView.java:173-180 | the frame draws the current shape's figure; the shadow scale is within [0.5, 1]; once measured, the translated shape never leaves the band between the top padding and the shadow |
| `LoadingViews.Bounce` | app/src/main/java/com/fei/loadingview/LoadingView.java:268-313 | one fall and one rise advance the shape once and leave the view falling from percent 0 |
| `LoadingViews.BounceCycles` | app/src/main/java/com/fei/loadingview/LoadingView.java:117-122 | from a fresh view, the shapes seen in successive falls are square, circle, triangle, square; after three bounces the view is falling from percent 0 |

## Left out

- `LoadingViews.LoadingView.Update`: the eased value that `AccelerateInterpolator` and `DecelerateInterpolator` give over the 500 ms duration is not modelled. An update only sets percent to some value in [0,1]. The timing, easing and floating-point time arithmetic belong to the animation library.
- `LoadingViews.LoadingView.Down` and `LoadingViews.LoadingView.Up`: percent takes the start of the range because the animator's first frame delivers that value. That comes from the animation library, not from `LoadingView.java`.
- Attribute parsing in the constructor, `dp2px` and `sp2px`: the configuration is taken as already converted to pixels. These are host toolkit calls.
- `Paint` setup and colours as paint state: a shape's colour is part of its draw command. The shadow is actually filled with the text paint.
- `getTextBounds` and `getFontMetrics`: the caption's bounds and the font's top and bottom are parameters. The font is not modelled.
- The `widthMeasureSpec` and `heightMeasureSpec` arguments of `onMeasure`: the source ignores them.
- `Canvas` save, restore, translate, scale and draw calls: the draw commands record the translation and scale instead. `invalidate` and `post` are left out too.
- The `mPath` accumulation across frames: the path is never reset, but the model draws only the current frame's triangle.
- `OnDraw` issues its text command whatever the caption. The source hands a null `mText` to `Canvas.drawText` at line 192, and what the canvas does with it is not modelled.
- `onDetachedFromWindow` and `clearAnimation`: they have no effect on the two animators, so no stop state exists.
- Float rounding, NaN and `Math.sqrt`: reals are exact, and `h` stands for `shapeSize/2·√3`.
