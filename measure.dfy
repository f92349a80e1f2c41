/** The configuration of the loading view and the arithmetic of `onMeasure`:
    the desired size and the derived centre and half-sizes the draw routines use.
    Dimensions are exact reals standing for the source's `float` pixels. */
module Measure {

  /** A nullable value, such as the caption string `mText`. */
  datatype Option<T> = None | Some(value: T)

  /** Fill colours of the three shapes (ARGB ints). */
  datatype Colors = Colors(square: int, circle: int, triangle: int)

  /** The view's configuration after attribute parsing and dp/sp conversion,
      with the paddings the host reports. None of it changes while the view
      animates. */
  datatype Config = Config(
    shapeSize: real,      // mShapeSize
    scrollHeight: real,   // mShapeScrollHeight, the bounce travel
    shadowWidth: real,    // mShadowWidth
    shadowHeight: real,   // mShadowHeight
    distance: real,       // mDistance, gap between shadow and caption
    paddingTop: int,      // getPaddingTop()
    paddingBottom: int,   // getPaddingBottom()
    text: Option<string>, // mText, null when the attribute is absent
    colors: Colors)

  /** Size of the caption's bounding box as the text paint measures it;
      only consulted when the caption is not empty. */
  datatype TextBounds = TextBounds(width: int, height: int)

  /** The fields `onMeasure` writes, with the measured dimension. */
  datatype Derived = Derived(
    width: int, height: int,
    center: real, halfShape: real, halfShadow: real, halfText: real, textHeight: real)

  const IntMax: int := 0x7FFF_FFFF
  const IntMin: int := -0x8000_0000

  /** Java's narrowing `(int)` of a floating-point value: rounds toward zero
      and saturates at the bounds of `int`. */
  function ToInt(x: real): (r: int)
    ensures IntMin <= r <= IntMax
    ensures IntMin as real < x < IntMax as real ==>
              (0.0 <= x ==> 0 <= r && r as real <= x < r as real + 1.0) &&
              (x < 0.0 ==> r <= 0 && x <= r as real < x + 1.0)
    ensures x >= IntMax as real ==> r == IntMax
    ensures x <= IntMin as real ==> r == IntMin
  {
    if x >= IntMax as real then IntMax
    else if x <= IntMin as real then IntMin
    else if x >= 0.0 then x.Floor
    else -((-x).Floor)
  }

  /** For a non-negative value in range the cast is the floor. */
  lemma ToIntIsFloor(x: real)
    requires 0.0 <= x < IntMax as real
    ensures ToInt(x) == x.Floor
  {
  }

  /** `TextUtils.isEmpty`: null or of length zero. */
  predicate IsEmpty(text: Option<string>)
  {
    text.None? || |text.value| == 0
  }

  /** The `textWidth`, `textHeight` locals of `onMeasure`: zero for an empty
      caption, otherwise the measured bounds. */
  function TextExtent(text: Option<string>, bounds: TextBounds): (int, int)
  {
    if IsEmpty(text) then (0, 0) else (bounds.width, bounds.height)
  }

  /** The exact stacked height, before the cast: padding, shape, bounce
      travel, shadow, gap, caption and padding. */
  function ContentHeight(c: Config, textHeight: int): real
  {
    c.shapeSize + c.scrollHeight + c.shadowHeight + textHeight as real
      + c.paddingTop as real + c.paddingBottom as real + c.distance
  }

  /** The measured height: the stacked height cast to `int`. */
  function MeasuredHeight(c: Config, textHeight: int): (h: int)
    ensures 0.0 <= ContentHeight(c, textHeight) < IntMax as real ==>
              0 <= h && h as real <= ContentHeight(c, textHeight) < h as real + 1.0
  {
    ToInt(ContentHeight(c, textHeight))
  }

  /** `Math.max` on floats (NaN and signed zeros left out). */
  function Max(a: real, b: real): (m: real)
    ensures m >= a && m >= b && (m == a || m == b)
  {
    if a >= b then a else b
  }

  /** The widest of shape, shadow and caption, before the cast. */
  function ContentWidth(c: Config, textWidth: int): real
  {
    Max(Max(c.shapeSize, c.shadowWidth), textWidth as real)
  }

  /** The measured width: the widest of the three cast to `int`. */
  function MeasuredWidth(c: Config, textWidth: int): (w: int)
    ensures 0.0 <= ContentWidth(c, textWidth) < IntMax as real ==>
              0 <= w && w as real <= ContentWidth(c, textWidth) < w as real + 1.0
  {
    ToInt(ContentWidth(c, textWidth))
  }

  /** All of `onMeasure`: the measured size and the fields derived from it. */
  function Derive(c: Config, bounds: TextBounds): (d: Derived)
    ensures d.center + d.center == d.width as real
    ensures d.halfShape + d.halfShape == c.shapeSize
    ensures d.halfShadow + d.halfShadow == c.shadowWidth
    ensures d.halfText + d.halfText == TextExtent(c.text, bounds).0 as real
    ensures d.textHeight == TextExtent(c.text, bounds).1 as real
  {
    var (tw, th) := TextExtent(c.text, bounds);
    var w := MeasuredWidth(c, tw);
    Derived(w, MeasuredHeight(c, th),
            w as real / 2.0, c.shapeSize / 2.0, c.shadowWidth / 2.0, tw as real / 2.0, th as real)
  }

  /** The measured height is the floor of the stacked height; an empty caption
      contributes no width and no height, but the shadow-to-caption gap is
      still counted. */
  lemma HeightFormula(c: Config, bounds: TextBounds)
    requires 0.0 <= ContentHeight(c, TextExtent(c.text, bounds).1) < IntMax as real
    ensures Derive(c, bounds).height == ContentHeight(c, TextExtent(c.text, bounds).1).Floor
    ensures IsEmpty(c.text) ==>
              Derive(c, bounds).height ==
                (c.shapeSize + c.scrollHeight + c.shadowHeight
                   + c.paddingTop as real + c.paddingBottom as real + c.distance).Floor
    ensures !IsEmpty(c.text) ==> Derive(c, bounds).textHeight == bounds.height as real
  {
    ToIntIsFloor(ContentHeight(c, TextExtent(c.text, bounds).1));
  }

  /** The measured width is the floor of the widest of shape, shadow and
      caption: at least the floor of each and equal to the floor of one. */
  lemma WidthFormula(c: Config, bounds: TextBounds)
    requires 0.0 <= c.shapeSize && 0.0 <= c.shadowWidth
    requires ContentWidth(c, TextExtent(c.text, bounds).0) < IntMax as real
    ensures var w := Derive(c, bounds).width;
            var tw := TextExtent(c.text, bounds).0;
            w >= c.shapeSize.Floor && w >= c.shadowWidth.Floor && w >= tw &&
            (w == c.shapeSize.Floor || w == c.shadowWidth.Floor || w == tw)
    ensures IsEmpty(c.text) ==> Derive(c, bounds).width == Max(c.shapeSize, c.shadowWidth).Floor
  {
    var tw := TextExtent(c.text, bounds).0;
    var m := ContentWidth(c, tw);
    ToIntIsFloor(m);
    FloorMonotone(c.shapeSize, m);
    FloorMonotone(c.shadowWidth, m);
    FloorMonotone(tw as real, m);
  }

  /** `Floor` never decreases. */
  lemma FloorMonotone(x: real, y: real)
    requires x <= y
    ensures x.Floor <= y.Floor
  {
  }
}
