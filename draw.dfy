/** The coordinate arithmetic of `drawShape`, `drawShadow` and `drawText`:
    what each routine hands to the canvas for one frame, computed from the
    configuration, the fields `onMeasure` derived and the current `percent`. */
module Draw {
  import opened Shapes
  import opened Measure

  datatype Point = Point(x: real, y: real)

  /** An axis-aligned rectangle given by its edges, as `RectF` holds it. */
  datatype Box = Box(left: real, top: real, right: real, bottom: real)

  /** The figure `drawShape` fills, in canvas coordinates before the translation. */
  datatype Figure =
    | Square(box: Box)                                  // drawRect
    | Disc(cx: real, cy: real, radius: real)            // drawCircle
    | Polygon(apex: Point, baseLeft: Point, baseRight: Point)  // closed path

  /** `drawShape`: translate the canvas down by `dy`, then fill `figure` in `color`. */
  datatype ShapeCommand = ShapeCommand(dy: real, color: int, figure: Figure)

  /** `drawShadow`: scale x by `scaleX` about `(pivotX, 0)`, then fill `oval`. */
  datatype ShadowCommand = ShadowCommand(scaleX: real, pivotX: real, oval: Box)

  /** The ascent-side and descent-side extents of the text paint's font
      (`FontMetrics.top` is negative, `bottom` positive). */
  datatype FontMetrics = FontMetrics(top: real, bottom: real)

  /** `drawText`: the caption's left end and baseline. */
  datatype TextCommand = TextCommand(x: real, baseline: real)

  /** A value that stands for `shapeSize / 2 * sqrt(3)`, the height of an
      equilateral triangle of side `shapeSize`. */
  predicate IsTriangleHeight(shapeSize: real, h: real)
  {
    0.0 <= h && h * h == 3.0 * (shapeSize / 2.0) * (shapeSize / 2.0)
  }

  /** Vertical translation of the shape: `percent` of the bounce travel. */
  function ShapeOffset(percent: real, scrollHeight: real): (dy: real)
    ensures 0.0 <= percent <= 1.0 && 0.0 <= scrollHeight ==> 0.0 <= dy <= scrollHeight
    ensures percent == 0.0 ==> dy == 0.0
    ensures percent == 1.0 ==> dy == scrollHeight
  {
    if 0.0 <= percent <= 1.0 && 0.0 <= scrollHeight then
      FractionOf(percent, scrollHeight);
      percent * scrollHeight
    else
      percent * scrollHeight
  }

  /** The paint colour for a shape. */
  function ShapeColor(s: Shape, colors: Colors): int
  {
    match s
    case Rect => colors.square
    case Circle => colors.circle
    case Triangle => colors.triangle
  }

  /** `drawShape` for the current shape, filled in that shape's colour; `h`
      stands for the `sqrt(3)` term. */
  function DrawShape(s: Shape, c: Config, center: real, halfShape: real, percent: real, h: real)
    : (cmd: ShapeCommand)
    ensures cmd.figure.Square? <==> s == Rect
    ensures cmd.figure.Disc? <==> s == Circle
    ensures cmd.figure.Polygon? <==> s == Triangle
    ensures s == Rect ==> cmd.color == c.colors.square
    ensures s == Circle ==> cmd.color == c.colors.circle
    ensures s == Triangle ==> cmd.color == c.colors.triangle
  {
    var top := c.paddingTop as real;
    var figure :=
      match s
      case Rect => Square(Box(center - halfShape, top, center + halfShape, top + c.shapeSize))
      case Circle => Disc(center, top + halfShape, halfShape)
      case Triangle =>
        var y := top + h;
        Polygon(Point(center, top), Point(center - halfShape, y), Point(center + halfShape, y));
    ShapeCommand(ShapeOffset(percent, c.scrollHeight), ShapeColor(s, c.colors), figure)
  }

  /** Topmost and lowest y a figure covers. */
  function VerticalExtent(f: Figure): (r: (real, real))
  {
    match f
    case Square(b) => (b.top, b.bottom)
    case Disc(_, cy, radius) => (cy - radius, cy + radius)
    case Polygon(a, l, _) => if a.y <= l.y then (a.y, l.y) else (l.y, a.y)
  }

  /** Leftmost and rightmost x a figure covers. */
  function HorizontalExtent(f: Figure): (r: (real, real))
  {
    match f
    case Square(b) => (b.left, b.right)
    case Disc(cx, _, radius) => (cx - radius, cx + radius)
    case Polygon(_, l, r) => (l.x, r.x)
  }

  /** Squared distance between two points. */
  function SqDist(p: Point, q: Point): real
  {
    (p.x - q.x) * (p.x - q.x) + (p.y - q.y) * (p.y - q.y)
  }

  /** The square spans `[center - halfShape, center + halfShape]` by
      `[paddingTop, paddingTop + shapeSize]`, and is shifted down by
      `percent * scrollHeight`, which lies within the bounce travel. */
  lemma SquareGeometry(c: Config, center: real, percent: real, h: real)
    requires 0.0 <= percent <= 1.0 && 0.0 <= c.scrollHeight
    ensures var cmd := DrawShape(Rect, c, center, c.shapeSize / 2.0, percent, h);
            var b := cmd.figure.box;
            b.right - b.left == b.bottom - b.top == c.shapeSize &&
            b.left + b.right == center + center &&
            b.top == c.paddingTop as real &&
            cmd.dy == percent * c.scrollHeight && 0.0 <= cmd.dy <= c.scrollHeight &&
            cmd.color == c.colors.square
  {
  }

  /** The circle is the disc inscribed in that square: centre
      `(center, paddingTop + halfShape)`, radius `halfShape`. */
  lemma CircleGeometry(c: Config, center: real, percent: real, h: real)
    requires 0.0 <= c.shapeSize
    ensures var halfShape := c.shapeSize / 2.0;
            var f := DrawShape(Circle, c, center, halfShape, percent, h).figure;
            var sq := DrawShape(Rect, c, center, halfShape, percent, h).figure;
            f.cx == center && f.cy == c.paddingTop as real + halfShape &&
            f.radius + f.radius == c.shapeSize &&
            VerticalExtent(f) == VerticalExtent(sq) &&
            HorizontalExtent(f) == HorizontalExtent(sq)
  {
  }

  /** With `h` the height `shapeSize / 2 * sqrt(3)`, the triangle has its apex
      on the centre line at the top padding, a horizontal base, and all three
      sides of length `shapeSize`. */
  lemma TriangleIsEquilateral(c: Config, center: real, percent: real, h: real)
    requires IsTriangleHeight(c.shapeSize, h)
    ensures var f := DrawShape(Triangle, c, center, c.shapeSize / 2.0, percent, h).figure;
            var side := c.shapeSize * c.shapeSize;
            f.apex == Point(center, c.paddingTop as real) &&
            f.baseLeft.y == f.baseRight.y == c.paddingTop as real + h &&
            SqDist(f.apex, f.baseLeft) == side &&
            SqDist(f.apex, f.baseRight) == side &&
            SqDist(f.baseLeft, f.baseRight) == side
  {
    var half := c.shapeSize / 2.0;
    var f := DrawShape(Triangle, c, center, half, percent, h).figure;
    assert SqDist(f.apex, f.baseLeft) == half * half + h * h;
    assert SqDist(f.apex, f.baseRight) == half * half + h * h;
    assert SqDist(f.baseLeft, f.baseRight) == (half + half) * (half + half);
    assert (half + half) * (half + half) == 4.0 * (half * half);
    assert half * half + h * h == 4.0 * (half * half);
    assert c.shapeSize * c.shapeSize == 4.0 * (half * half);
  }

  /** The triangle is no taller than its side. */
  lemma TriangleHeightBound(shapeSize: real, h: real)
    requires 0.0 <= shapeSize && IsTriangleHeight(shapeSize, h)
    ensures h <= shapeSize
  {
    if h > shapeSize {
      SquareStrict(shapeSize, h);
    }
  }

  /** Multiplying by a non-negative factor keeps the order. */
  lemma MulMonotone(a: real, b: real, w: real)
    requires a <= b && 0.0 <= w
    ensures a * w <= b * w
  {
    var d := b - a;
    assert 0.0 <= d * w;
    assert b * w == a * w + d * w;
  }

  /** A fraction in [0, 1] of a non-negative amount lies between 0 and that amount. */
  lemma FractionOf(p: real, w: real)
    requires 0.0 <= p <= 1.0 && 0.0 <= w
    ensures 0.0 <= p * w <= w
  {
    var rest := 1.0 - p;
    assert 0.0 <= p * w;
    assert 0.0 <= rest * w;
    assert w == p * w + rest * w;
  }

  /** Squaring is strictly increasing on the non-negative reals. */
  lemma SquareStrict(a: real, b: real)
    requires 0.0 <= a < b
    ensures 0.0 <= a * a < b * b
  {
    MulMonotone(0.0, a, a);
    var d, e := b - a, b + a;
    assert 0.0 < d * e;
    assert b * b == a * a + d * e;
  }

  /** The top of the shadow oval: just below the lowest resting place of the shape. */
  function ShadowTop(c: Config): real
  {
    c.paddingTop as real + c.shapeSize + c.scrollHeight
  }

  /** However far it has fallen, every shape stays between the top padding
      and the top of the shadow, within `shapeSize` of the centre line; the
      square and the circle touch the shadow exactly at the end of the fall. */
  lemma ShapeStaysAboveShadow(s: Shape, c: Config, center: real, percent: real, h: real)
    requires 0.0 <= percent <= 1.0
    requires 0.0 <= c.shapeSize && 0.0 <= c.scrollHeight
    requires IsTriangleHeight(c.shapeSize, h)
    ensures var cmd := DrawShape(s, c, center, c.shapeSize / 2.0, percent, h);
            var (top, bottom) := VerticalExtent(cmd.figure);
            var (left, right) := HorizontalExtent(cmd.figure);
            c.paddingTop as real <= top + cmd.dy &&
            bottom + cmd.dy <= ShadowTop(c) &&
            left + c.shapeSize / 2.0 == center == right - c.shapeSize / 2.0 &&
            (s != Triangle && percent == 1.0 ==> bottom + cmd.dy == ShadowTop(c))
  {
    if s == Triangle {
      TriangleHeightBound(c.shapeSize, h);
    }
  }

  /** Horizontal scale of the shadow: 1 at rest, one half at the end of the fall. */
  function ShadowScale(percent: real): (sx: real)
    ensures 0.0 <= percent <= 1.0 ==> 0.5 <= sx <= 1.0
    ensures percent == 0.0 ==> sx == 1.0
    ensures percent == 1.0 ==> sx == 0.5
  {
    1.0 - percent * 0.5
  }

  /** The scale is linear and strictly decreasing in `percent`. */
  lemma ShadowScaleLinear(p: real, q: real)
    ensures ShadowScale(p) - ShadowScale(q) == (q - p) / 2.0
    ensures p < q ==> ShadowScale(q) < ShadowScale(p)
  {
  }

  /** `drawShadow`: the oval under the shape, scaled about the centre line. */
  function DrawShadow(c: Config, center: real, halfShadow: real, percent: real): (cmd: ShadowCommand)
    ensures cmd.pivotX == center
  {
    var top := ShadowTop(c);
    ShadowCommand(ShadowScale(percent), center,
                  Box(center - halfShadow, top, center + halfShadow, top + c.shadowHeight))
  }

  /** The oval as it lands on screen, after the canvas scale about `(pivotX, 0)`. */
  function ScaledOval(cmd: ShadowCommand): Box
  {
    var sx := cmd.scaleX;
    Box(cmd.pivotX + sx * (cmd.oval.left - cmd.pivotX), cmd.oval.top,
        cmd.pivotX + sx * (cmd.oval.right - cmd.pivotX), cmd.oval.bottom)
  }

  /** The scale about the pivot multiplies the oval's width and keeps its
      midpoint on the pivot when it was there before. */
  lemma ScaledOvalWidth(cmd: ShadowCommand)
    ensures var b := ScaledOval(cmd);
            b.right - b.left == cmd.scaleX * (cmd.oval.right - cmd.oval.left)
    ensures cmd.oval.left + cmd.oval.right == cmd.pivotX + cmd.pivotX ==>
              ScaledOval(cmd).left + ScaledOval(cmd).right == cmd.pivotX + cmd.pivotX
  {
    var sx, px := cmd.scaleX, cmd.pivotX;
    assert sx * (cmd.oval.right - px) - sx * (cmd.oval.left - px)
        == sx * (cmd.oval.right - cmd.oval.left);
    assert sx * (cmd.oval.right - px) + sx * (cmd.oval.left - px)
        == sx * ((cmd.oval.left + cmd.oval.right) - (px + px));
  }

  /** On screen the shadow stays centred on the centre line and is
      `scale * shadowWidth` wide; its top and its height, and the oval before
      the scale, do not depend on `percent`. */
  lemma ShadowGeometry(c: Config, center: real, p: real, q: real)
    ensures var b := ScaledOval(DrawShadow(c, center, c.shadowWidth / 2.0, p));
            b.left + b.right == center + center &&
            b.right - b.left == ShadowScale(p) * c.shadowWidth &&
            b.top == ShadowTop(c) && b.bottom - b.top == c.shadowHeight
    ensures DrawShadow(c, center, c.shadowWidth / 2.0, p).oval
         == DrawShadow(c, center, c.shadowWidth / 2.0, q).oval
  {
    ScaledOvalWidth(DrawShadow(c, center, c.shadowWidth / 2.0, p));
  }

  /** The further the shape has fallen, the narrower the shadow. */
  lemma ShadowNarrowsAsShapeFalls(c: Config, center: real, p: real, q: real)
    requires 0.0 <= c.shadowWidth && p <= q
    ensures var bp := ScaledOval(DrawShadow(c, center, c.shadowWidth / 2.0, p));
            var bq := ScaledOval(DrawShadow(c, center, c.shadowWidth / 2.0, q));
            bq.right - bq.left <= bp.right - bp.left
  {
    ShadowGeometry(c, center, p, q);
    ShadowGeometry(c, center, q, p);
    var sp, sq := ShadowScale(p), ShadowScale(q);
    MulMonotone(sq, sp, c.shadowWidth);
    var bp := ScaledOval(DrawShadow(c, center, c.shadowWidth / 2.0, p));
    var bq := ScaledOval(DrawShadow(c, center, c.shadowWidth / 2.0, q));
    var wp, wq := sp * c.shadowWidth, sq * c.shadowWidth;
    assert bp.right - bp.left == wp;
    assert bq.right - bq.left == wq;
    assert wq <= wp;
  }

  /** The top of the caption block: the shadow's bottom plus the gap. */
  function TextTop(c: Config): real
  {
    c.paddingTop as real + c.shapeSize + c.scrollHeight + c.shadowHeight + c.distance
  }

  /** Offset from the middle of the text block to the baseline that centres
      the font's `[top, bottom]` extent on that middle. */
  function BaselineOffset(fm: FontMetrics): real
  {
    (fm.bottom - fm.top) / 2.0 - fm.bottom
  }

  /** `drawText`: left end at `center - halfText`, baseline in the middle of
      the caption block moved by the font-metrics offset. */
  function DrawText(c: Config, center: real, halfText: real, textHeight: real, fm: FontMetrics)
    : (cmd: TextCommand)
    ensures cmd.x + halfText == center
    ensures (cmd.baseline + fm.top) + (cmd.baseline + fm.bottom)
         == TextTop(c) + TextTop(c) + textHeight
  {
    TextCommand(center - halfText, TextTop(c) + textHeight / 2.0 + BaselineOffset(fm))
  }

  /** The caption is centred on the centre line, its font box is centred in
      the caption block, the block starts one gap below the shadow, and its
      bottom plus the bottom padding is exactly the stacked height `onMeasure`
      casts to the measured height. */
  lemma TextPlacement(c: Config, center: real, bounds: TextBounds, fm: FontMetrics)
    ensures var (tw, th) := TextExtent(c.text, bounds);
            var cmd := DrawText(c, center, tw as real / 2.0, th as real, fm);
            cmd.x + tw as real / 2.0 == center &&
            (cmd.baseline + fm.top) + (cmd.baseline + fm.bottom)
              == TextTop(c) + TextTop(c) + th as real &&
            TextTop(c) == ShadowTop(c) + c.shadowHeight + c.distance &&
            TextTop(c) + th as real + c.paddingBottom as real == ContentHeight(c, th)
  {
  }
}
