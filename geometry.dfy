/**
 * Layout arithmetic of the BingSwitch widget (its onMeasure pass): the size
 * rule for each measure-spec mode, the vertical offset of the track for each
 * vertical gravity, and the three horizontal thumb stops (off, on and the
 * drag-release midpoint). Everything here is pure integer arithmetic on
 * values the host has already decoded.
 */
module Geometry {

  /** The mode part of a measure spec. */
  datatype SizeMode = Exactly | AtMost | Unspecified

  /** A decoded measure spec: its mode and its size. */
  datatype MeasureSpec = MeasureSpec(mode: SizeMode, size: int)

  /** The vertical part of the view's gravity; anything else is OtherVertical. */
  datatype VerticalGravity = Top | CenterVertical | Bottom | OtherVertical

  datatype Padding = Padding(left: int, top: int, right: int, bottom: int)

  /** A drawable's intrinsic size, or Missing when the drawable is null. */
  datatype Intrinsic = Missing | Present(width: int, height: int)

  /** The three thumb stops, in pixels from the view's left edge. */
  datatype ThumbStops = ThumbStops(off: int, on: int, half: int)

  /** Duration of the thumb animation, in milliseconds. */
  const AnimDuration: int := 250

  ghost predicate Between(x: int, a: int, b: int)
  {
    (a <= x <= b) || (b <= x <= a)
  }

  /** Java's integer division, which truncates toward zero. */
  function Quot(a: int, d: int): int
    requires d > 0
  {
    if a >= 0 then a / d else -((-a) / d)
  }

  /** Euclidean division of a non-negative number by a positive one. */
  lemma DivFacts(n: int, d: int)
    requires n >= 0 && d > 0
    ensures 0 <= n / d && (n / d) * d <= n < (n / d) * d + d
  {
    var q, r := n / d, n % d;
    assert n == d * q + r && 0 <= r < d;
    assert d * q == q * d;
  }

  /** Quot rounds toward zero: it never overshoots `a`, and misses it by less than `d`. */
  lemma QuotTruncates(a: int, d: int)
    requires d > 0
    ensures a >= 0 ==> 0 <= Quot(a, d) && Quot(a, d) * d <= a < Quot(a, d) * d + d
    ensures a < 0 ==> Quot(a, d) <= 0 && Quot(a, d) * d - d < a <= Quot(a, d) * d
  {
    if a >= 0 {
      DivFacts(a, d);
    } else {
      DivFacts(-a, d);
      assert Quot(a, d) * d == -(((-a) / d) * d);
    }
  }

  /** A quotient by a positive divisor never overshoots the dividend's sign. */
  lemma QuotOfScaled(delta: int, k: int, d: int)
    requires d > 0 && 0 <= k <= d
    ensures Between(Quot(delta * k, d), 0, delta)
  {
    var q := Quot(delta * k, d);
    QuotTruncates(delta * k, d);
    if delta >= 0 {
      assert delta * k <= delta * d;
      assert q * d <= delta * d;
    } else {
      assert delta * k >= delta * d;
      assert q * d >= delta * d;
    }
  }

  function WidthOf(d: Intrinsic): int
  {
    if d.Missing? then 0 else d.width
  }

  function HeightOf(d: Intrinsic): int
  {
    if d.Missing? then 0 else d.height
  }

  /**
   * One dimension of the measure pass. `desired` is padding plus the track's
   * size, `minimum` the track's size alone.
   */
  function ResolveSize(mode: SizeMode, requested: int, desired: int, minimum: int): (r: int)
    ensures mode == Exactly ==> r >= requested && r >= minimum && (r == requested || r == minimum)
    ensures mode == AtMost ==> r <= requested && r <= desired && (r == requested || r == desired)
    ensures mode == Unspecified ==> r >= desired && r >= minimum && (r == desired || r == minimum)
  {
    match mode
    case Exactly => if requested >= minimum then requested else minimum
    case AtMost => if requested <= desired then requested else desired
    case Unspecified => if desired >= minimum then desired else minimum
  }

  /**
   * The track's top edge. Centred (also the default) splits the slack between
   * the paddings, the upper gap taking the truncated half; Top sits on the
   * top padding; Bottom rests on the bottom padding.
   */
  function SwitchTop(gravity: VerticalGravity, height: int, padTop: int, padBottom: int, trackHeight: int): (top: int)
    ensures gravity == Top ==> top == padTop
    ensures gravity == Bottom ==> top + trackHeight + padBottom == height
    ensures gravity == CenterVertical || gravity == OtherVertical ==>
      var above := top - padTop;
      var below := height - padBottom - (top + trackHeight);
      var slack := height - padTop - trackHeight - padBottom;
      above == Quot(slack, 2) && -1 <= below - above <= 1
  {
    match gravity
    case Top => padTop
    case Bottom => height - padBottom - trackHeight
    case _ =>
      QuotTruncates(height - padTop - trackHeight - padBottom, 2);
      Quot(height - padTop - trackHeight - padBottom, 2) + padTop
  }

  /**
   * The thumb stops: off lies one inner margin right of the track's left
   * edge, on leaves one inner margin between the thumb's right edge and the
   * track's right edge, and half is the truncated midpoint of the two.
   */
  function Stops(width: int, padRight: int, trackWidth: int, thumbWidth: int, margin: int): (t: ThumbStops)
    ensures t.off - margin == width - padRight - trackWidth
    ensures t.on + thumbWidth + margin == width - padRight
    ensures t.off <= t.on <==> thumbWidth + 2 * margin <= trackWidth
    ensures Between(t.half, t.off, t.on)
    ensures t.off <= t.on ==> t.half - t.off <= t.on - t.half <= t.half - t.off + 1
  {
    var off := width - padRight - trackWidth + margin;
    var on := width - padRight - margin - thumbWidth;
    QuotTruncates(on - off, 2);
    ThumbStops(off, on, off + Quot(on - off, 2))
  }

  /** Everything one measure pass derives. */
  datatype Layout = Layout(width: int, height: int, top: int, stops: ThumbStops)

  /**
   * The measure pass: width and height by the size rule, the track's top by
   * the gravity, and the thumb stops from the width.
   */
  function Measure(wSpec: MeasureSpec, hSpec: MeasureSpec, padding: Padding, gravity: VerticalGravity,
                   track: Intrinsic, thumb: Intrinsic, margin: int): (m: Layout)
    ensures wSpec.mode == Exactly ==> m.width >= wSpec.size && m.width >= WidthOf(track)
    ensures wSpec.mode == Exactly ==> (m.width == wSpec.size || m.width == WidthOf(track))
    ensures wSpec.mode == AtMost ==> m.width <= wSpec.size && m.width <= padding.left + padding.right + WidthOf(track)
    ensures wSpec.mode == AtMost ==> (m.width == wSpec.size || m.width == padding.left + padding.right + WidthOf(track))
    ensures wSpec.mode == Unspecified ==> m.width >= padding.left + padding.right + WidthOf(track) && m.width >= WidthOf(track)
    ensures wSpec.mode == Unspecified ==> (m.width == padding.left + padding.right + WidthOf(track) || m.width == WidthOf(track))
    ensures hSpec.mode == Exactly ==> m.height >= hSpec.size && m.height >= HeightOf(track)
    ensures hSpec.mode == Exactly ==> (m.height == hSpec.size || m.height == HeightOf(track))
    ensures hSpec.mode == AtMost ==> m.height <= hSpec.size && m.height <= padding.top + padding.bottom + HeightOf(track)
    ensures hSpec.mode == AtMost ==> (m.height == hSpec.size || m.height == padding.top + padding.bottom + HeightOf(track))
    ensures hSpec.mode == Unspecified ==> m.height >= padding.top + padding.bottom + HeightOf(track) && m.height >= HeightOf(track)
    ensures hSpec.mode == Unspecified ==> (m.height == padding.top + padding.bottom + HeightOf(track) || m.height == HeightOf(track))
    ensures gravity == Top ==> m.top == padding.top
    ensures gravity == Bottom ==> m.top + HeightOf(track) + padding.bottom == m.height
    ensures gravity == CenterVertical || gravity == OtherVertical ==>
      m.top - padding.top == Quot(m.height - padding.top - HeightOf(track) - padding.bottom, 2)
    ensures m.stops.off - margin == m.width - padding.right - WidthOf(track)
    ensures m.stops.on + WidthOf(thumb) + margin == m.width - padding.right
    ensures m.stops.off <= m.stops.on <==> WidthOf(thumb) + 2 * margin <= WidthOf(track)
    ensures Between(m.stops.half, m.stops.off, m.stops.on)
  {
    var minW, minH := WidthOf(track), HeightOf(track);
    var width := ResolveSize(wSpec.mode, wSpec.size, padding.left + padding.right + minW, minW);
    var height := ResolveSize(hSpec.mode, hSpec.size, padding.top + padding.bottom + minH, minH);
    Layout(width, height, SwitchTop(gravity, height, padding.top, padding.bottom, minH),
           Stops(width, padding.right, minW, WidthOf(thumb), margin))
  }
}
