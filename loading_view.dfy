/** The loading view as an object: the shape/phase/percent state machine the
    two chained animators drive, the fields `onMeasure` writes, and the frame
    `onDraw` issues from them. */
module LoadingViews {
  import opened Shapes
  import opened Measure
  import opened Draw

  /** Which of the two animators is running; `Idle` until the runnable posted
      by the constructor starts the first fall. */
  datatype Phase = Idle | Falling | Rising

  /** The ranges of the two animators: `down` runs `ofFloat(0, 1)`, `up` runs
      `ofFloat(1, 0)`. */
  const DownFrom: real := 0.0
  const DownTo: real := 1.0
  const UpFrom: real := 1.0
  const UpTo: real := 0.0

  /** One frame, in the order `onDraw` issues it: shape, shadow, caption. */
  datatype Frame = Frame(shape: ShapeCommand, shadow: ShadowCommand, text: TextCommand)

  class LoadingView {
    const config: Config

    var shape: Shape      // mCurrentShape
    var phase: Phase      // which animator's listeners are live
    var percent: real     // mPercent
    /** Number of `exchangeShape` calls so far. */
    ghost var exchanges: nat

    var width: int        // measured width
    var height: int       // measured height
    var center: real      // mCenter
    var halfShape: real   // mHalfShape
    var halfShadow: real  // mHalfShadow
    var halfText: real    // mHalfText
    var textHeight: real  // mTextHeight

    /** `percent` stays within the animators' ranges, and the shape is the one
        reached from the square by as many exchanges as have happened. */
    ghost predicate Valid()
      reads this
    {
      0.0 <= percent <= 1.0 &&
      shape == Advance(exchanges, Rect) &&
      (phase == Idle ==> percent == 0.0)
    }

    /** The fields `onMeasure` writes, as one value. */
    function Layout(): Derived
      reads this
    {
      Derived(width, height, center, halfShape, halfShadow, halfText, textHeight)
    }

    /** A new view: square, nothing animating yet, all derived fields zero. */
    constructor (c: Config)
      ensures Valid() && config == c
      ensures shape == Rect && phase == Idle && percent == 0.0 && exchanges == 0
      ensures Layout() == Derived(0, 0, 0.0, 0.0, 0.0, 0.0, 0.0)
    {
      config := c;
      shape, phase, percent := Rect, Idle, 0.0;
      exchanges := 0;
      width, height := 0, 0;
      center, halfShape, halfShadow, halfText, textHeight := 0.0, 0.0, 0.0, 0.0, 0.0;
    }

    /** `onMeasure`: measure the caption (the paint's bounds are the
        parameter), then record the measured size and the derived centre and
        half-sizes. The animation state is untouched. */
    method OnMeasure(bounds: TextBounds)
      requires Valid()
      modifies this
      ensures Valid()
      ensures Layout() == Derive(config, bounds)
      ensures shape == old(shape) && phase == old(phase) && percent == old(percent)
      ensures exchanges == old(exchanges)
    {
      var textWidth, textHeightPx := 0, 0;
      if !IsEmpty(config.text) {
        textWidth, textHeightPx := bounds.width, bounds.height;
      }
      height := ToInt(config.shapeSize + config.scrollHeight + config.shadowHeight + textHeightPx as real
                      + config.paddingTop as real + config.paddingBottom as real + config.distance);
      width := ToInt(Max(Max(config.shapeSize, config.shadowWidth), textWidth as real));
      center := width as real / 2.0;
      halfShape := config.shapeSize / 2.0;
      halfShadow := config.shadowWidth / 2.0;
      halfText := textWidth as real / 2.0;
      textHeight := textHeightPx as real;
    }

    /** `exchangeShape`: square to circle, circle to triangle, triangle to
        square; nothing else changes. */
    method ExchangeShape()
      requires Valid()
      modifies this
      ensures Valid()
      ensures shape == Next(old(shape)) && exchanges == old(exchanges) + 1
      ensures phase == old(phase) && percent == old(percent) && Layout() == old(Layout())
    {
      match shape {
        case Rect => shape := Circle;
        case Circle => shape := Triangle;
        case Triangle => shape := Rect;
      }
      exchanges := exchanges + 1;
    }

    /** `down`: start the falling animator; its first frame delivers the start
        of its range. */
    method Down()
      requires Valid()
      modifies this
      ensures Valid()
      ensures phase == Falling && percent == DownFrom
      ensures shape == old(shape) && exchanges == old(exchanges) && Layout() == old(Layout())
    {
      phase := Falling;
      percent := DownFrom;
    }

    /** `up`: start the rising animator; its first frame delivers the start of
        its range. */
    method Up()
      requires Valid()
      modifies this
      ensures Valid()
      ensures phase == Rising && percent == UpFrom
      ensures shape == old(shape) && exchanges == old(exchanges) && Layout() == old(Layout())
    {
      phase := Rising;
      percent := UpFrom;
    }

    /** The update listener of either animator: `percent` takes the animated
        value, which lies within the animator's range. */
    method Update(p: real)
      requires Valid() && phase != Idle
      requires 0.0 <= p <= 1.0
      modifies this
      ensures Valid()
      ensures percent == p
      ensures shape == old(shape) && phase == old(phase) && exchanges == old(exchanges)
      ensures Layout() == old(Layout())
    {
      percent := p;
    }

    /** The end listener of the falling animator: advance the shape once, then
        rise from the top of the range. */
    method EndDown()
      requires Valid() && phase == Falling
      modifies this
      ensures Valid()
      ensures shape == Next(old(shape)) && exchanges == old(exchanges) + 1
      ensures phase == Rising && percent == 1.0
      ensures Layout() == old(Layout())
    {
      ExchangeShape();
      Up();
    }

    /** The end listener of the rising animator: fall again from the bottom of
        the range; the shape stays. */
    method EndUp()
      requires Valid() && phase == Rising
      modifies this
      ensures Valid()
      ensures shape == old(shape) && exchanges == old(exchanges)
      ensures phase == Falling && percent == 0.0
      ensures Layout() == old(Layout())
    {
      Down();
    }

    /** `onDraw`: the shape, the shadow and the caption for the current state;
        `h` stands for `shapeSize / 2 * sqrt(3)` and `fm` for the text paint's
        font metrics. Once measured, the shape never leaves the band between
        the top padding and the shadow, and the shadow is between half and
        all of its configured width. */
    function OnDraw(h: real, fm: FontMetrics): (f: Frame)
      reads this
      ensures f.shape.figure.Square? <==> shape == Rect
      ensures f.shape.figure.Disc? <==> shape == Circle
      ensures f.shape.figure.Polygon? <==> shape == Triangle
      ensures f.shadow.pivotX == center
      ensures Valid() ==> 0.5 <= f.shadow.scaleX <= 1.0
      ensures Valid() && halfShape == config.shapeSize / 2.0 &&
              0.0 <= config.shapeSize && 0.0 <= config.scrollHeight &&
              IsTriangleHeight(config.shapeSize, h) ==>
                config.paddingTop as real <= VerticalExtent(f.shape.figure).0 + f.shape.dy &&
                VerticalExtent(f.shape.figure).1 + f.shape.dy <= f.shadow.oval.top
    {
      var frame := Frame(DrawShape(shape, config, center, halfShape, percent, h),
                         DrawShadow(config, center, halfShadow, percent),
                         DrawText(config, center, halfText, textHeight, fm));
      if 0.0 <= percent <= 1.0 && halfShape == config.shapeSize / 2.0 &&
         0.0 <= config.shapeSize && 0.0 <= config.scrollHeight &&
         IsTriangleHeight(config.shapeSize, h)
      then
        ShapeStaysAboveShadow(shape, config, center, percent, h);
        frame
      else
        frame
    }
  }

  /** One full bounce of a falling view: the fall runs to the end of its
      range and ends, then the rise runs to the end of its range and ends. */
  method Bounce(v: LoadingView)
    requires v.Valid() && v.phase == Falling
    modifies v
    ensures v.Valid() && v.phase == Falling && v.percent == 0.0
    ensures v.shape == Next(old(v.shape)) && v.exchanges == old(v.exchanges) + 1
  {
    v.Update(0.5);
    v.Update(DownTo);
    v.EndDown();
    v.Update(0.5);
    v.Update(UpTo);
    v.EndUp();
  }

  /** Three bounces from a fresh view: the posted runnable starts the fall,
      each fall ends on the next shape and each rise ends with a new fall.
      The shape seen during the successive falls is square, circle, triangle,
      then square again, and the view is then falling from `percent` 0. */
  method BounceCycles(c: Config) returns (seen: seq<Shape>, p: real, ph: Phase)
    ensures seen == [Rect, Circle, Triangle, Rect]
    ensures p == 0.0 && ph == Falling
  {
    var v := new LoadingView(c);
    v.Down();
    seen := [v.shape];
    Bounce(v);
    seen := seen + [v.shape];
    Bounce(v);
    seen := seen + [v.shape];
    Bounce(v);
    seen := seen + [v.shape];
    p, ph := v.percent, v.phase;
  }
}
