/**
 * The geometry of window docking: from a dock side, a fill ratio, a span
 * ratio, the work area of a display and the window's minimum size to the
 * bounds the docked window takes.
 *
 * The fill ratio is the window's depth away from the edge it is docked to
 * (its width for left, right and center, its height for top and bottom);
 * the span ratio is how much of the parallel edge it covers.
 */
module DockGeometry {

  /** The edge of the screen (or its centre) a window is docked to. */
  datatype DockSide = Off | Left | Right | Top | Bottom | Center

  /** A rectangle in screen coordinates. */
  datatype Bounds = Bounds(x: int, y: int, width: int, height: int)

  function MinReal(a: real, b: real): real { if a <= b then a else b }
  function MaxReal(a: real, b: real): real { if a >= b then a else b }
  function MaxInt(a: int, b: int): int { if a >= b then a else b }

  /** `Math.max(0, Math.min(r, 1))`: a ratio forced into [0, 1]. */
  function Clamp01(r: real): (c: real)
    ensures 0.0 <= c <= 1.0
    ensures 0.0 <= r <= 1.0 ==> c == r
    ensures r < 0.0 ==> c == 0.0
    ensures r > 1.0 ==> c == 1.0
  {
    MaxReal(0.0, MinReal(r, 1.0))
  }

  /** JavaScript's `Math.round`: the nearest integer, a half rounded up. */
  function Round(v: real): (n: int)
    ensures v - 0.5 < n as real <= v + 0.5
  {
    (v + 0.5).Floor
  }

  /** `Math.round(ratio * extent)`: a fraction of a pixel extent, rounded to a whole pixel. */
  function RoundedProduct(ratio: real, extent: int): int
  {
    Round(ratio * extent as real)
  }

  /** A ratio, clamped first, of an extent, rounded to a whole pixel. */
  function Scaled(ratio: real, extent: int): int
  {
    RoundedProduct(Clamp01(ratio), extent)
  }

  /** The fill ratio sizes the width except when docked to a horizontal edge. */
  predicate FillSizesWidth(side: DockSide)
  {
    side != Top && side != Bottom
  }

  /** Where the window sits along one axis of the work area. */
  datatype Anchor = Start | End | Middle

  function HorizontalAnchor(side: DockSide): Anchor
  {
    if side == Left then Start else if side == Right then End else Middle
  }

  function VerticalAnchor(side: DockSide): Anchor
  {
    if side == Top then Start else if side == Bottom then End else Middle
  }

  /** The coordinate of a window of the given size placed along an axis
      that starts at `origin` and is `extent` long. */
  function Place(anchor: Anchor, origin: int, extent: int, size: int): (pos: int)
    ensures anchor == Start ==> pos == origin
    ensures anchor == End ==> pos + size == origin + extent
    ensures anchor == Middle ==> Centred(pos, size, origin, extent)
  {
    match anchor
    case Start => origin
    case End => origin + extent - size
    case Middle => origin + Round((extent - size) as real / 2.0)
  }

  /** A window of size `size` at `pos` is centred on the axis [origin, origin + extent]:
      its centre is the axis's centre, or half a pixel past it when the free space
      is odd (`Math.round` sends the half up). */
  predicate Centred(pos: int, size: int, origin: int, extent: int)
  {
    0 <= 2 * (pos - origin) + size - extent <= 1
  }

  /** Centring fixes the position: it is exactly `origin + round((extent - size) / 2)`. */
  lemma CentredIsPlaceMiddle(pos: int, size: int, origin: int, extent: int)
    requires Centred(pos, size, origin, extent)
    ensures pos == Place(Middle, origin, extent, size)
  {
  }

  /**
   * The bounds of a window docked to `side` of the work area `wa`. The
   * fill axis is floored at the minimum size, the span axis is not (except
   * for center, where both axes are floored); an anchored axis sits on its
   * edge, every other axis is centred.
   */
  function DockBounds(side: DockSide, fill: real, space: real, wa: Bounds,
                      minWidth: int, minHeight: int): (b: Bounds)
    requires side != Off
    // the fill axis: never below the minimum size
    ensures FillSizesWidth(side) ==> b.width == MaxInt(minWidth, Scaled(fill, wa.width))
    ensures !FillSizesWidth(side) ==> b.height == MaxInt(minHeight, Scaled(fill, wa.height))
    ensures FillSizesWidth(side) ==> b.width >= minWidth
    ensures !FillSizesWidth(side) ==> b.height >= minHeight
    // the span axis: the clamped space ratio of the extent, without a floor
    ensures (side == Left || side == Right) ==> b.height == Scaled(space, wa.height)
    ensures (side == Top || side == Bottom) ==> b.width == Scaled(space, wa.width)
    ensures side == Center ==> b.height == MaxInt(minHeight, Scaled(space, wa.height))
    // anchoring
    ensures side == Left ==> b.x == wa.x
    ensures side == Right ==> b.x + b.width == wa.x + wa.width
    ensures side == Top ==> b.y == wa.y
    ensures side == Bottom ==> b.y + b.height == wa.y + wa.height
    // centring of every axis that is not anchored
    ensures (side == Top || side == Bottom || side == Center) ==> Centred(b.x, b.width, wa.x, wa.width)
    ensures (side == Left || side == Right || side == Center) ==> Centred(b.y, b.height, wa.y, wa.height)
  {
    var width :=
      if FillSizesWidth(side) then MaxInt(minWidth, Scaled(fill, wa.width))
      else Scaled(space, wa.width);
    var height :=
      if !FillSizesWidth(side) then MaxInt(minHeight, Scaled(fill, wa.height))
      else if side == Center then MaxInt(minHeight, Scaled(space, wa.height))
      else Scaled(space, wa.height);
    Bounds(Place(HorizontalAnchor(side), wa.x, wa.width, width),
           Place(VerticalAnchor(side), wa.y, wa.height, height),
           width, height)
  }

  /** A fraction of a non-negative quantity lies between zero and the quantity. */
  lemma FractionWithin(c: real, e: real)
    requires 0.0 <= c <= 1.0 && 0.0 <= e
    ensures 0.0 <= c * e <= e
  {
    assert e - c * e == (1.0 - c) * e;
  }

  /** Rounding a value between 0 and an integer k gives an integer between 0 and k. */
  lemma RoundWithin(v: real, k: int)
    requires 0.0 <= v <= k as real
    ensures 0 <= Round(v) <= k
  {
  }

  /** A clamped ratio of a non-negative extent, rounded, stays within [0, extent]. */
  lemma ScaledWithinExtent(ratio: real, extent: int)
    requires 0 <= extent
    ensures 0 <= Scaled(ratio, extent) <= extent
  {
    var c := Clamp01(ratio);
    FractionWithin(c, extent as real);
    RoundWithin(c * extent as real, extent);
  }

  /** The span-axis dimension lies in [0, extent]; the fill-axis dimension lies in
      [minimum, max(minimum, extent)], for any ratios whatever. */
  lemma DockBoundsSizeRanges(side: DockSide, fill: real, space: real, wa: Bounds,
                             minWidth: int, minHeight: int)
    requires side != Off
    requires 0 <= wa.width && 0 <= wa.height
    ensures var b := DockBounds(side, fill, space, wa, minWidth, minHeight);
            && (FillSizesWidth(side) ==> minWidth <= b.width <= MaxInt(minWidth, wa.width))
            && (!FillSizesWidth(side) ==> minHeight <= b.height <= MaxInt(minHeight, wa.height))
            && ((side == Left || side == Right) ==> 0 <= b.height <= wa.height)
            && ((side == Top || side == Bottom) ==> 0 <= b.width <= wa.width)
            && (side == Center ==> minHeight <= b.height <= MaxInt(minHeight, wa.height))
  {
    ScaledWithinExtent(fill, wa.width);
    ScaledWithinExtent(fill, wa.height);
    ScaledWithinExtent(space, wa.width);
    ScaledWithinExtent(space, wa.height);
  }

  /** Placing a window no larger than the extent keeps it inside the extent. */
  lemma PlaceWithinExtent(anchor: Anchor, origin: int, extent: int, size: int)
    requires 0 <= size <= extent
    ensures origin <= Place(anchor, origin, extent, size)
    ensures Place(anchor, origin, extent, size) + size <= origin + extent
  {
  }

  /** When the minimum size fits the work area, the docked window lies inside it:
      only the minimum-size floor can push it over the edges. */
  lemma {:induction false} DockBoundsFitWorkArea(side: DockSide, fill: real, space: real, wa: Bounds,
                                                 minWidth: int, minHeight: int)
    requires side != Off
    requires 0 <= wa.width && 0 <= wa.height
    requires minWidth <= wa.width && minHeight <= wa.height
    ensures var b := DockBounds(side, fill, space, wa, minWidth, minHeight);
            && 0 <= b.width && 0 <= b.height
            && wa.x <= b.x && b.x + b.width <= wa.x + wa.width
            && wa.y <= b.y && b.y + b.height <= wa.y + wa.height
  {
    var b := DockBounds(side, fill, space, wa, minWidth, minHeight);
    ScaledWithinExtent(fill, wa.width);
    ScaledWithinExtent(fill, wa.height);
    ScaledWithinExtent(space, wa.width);
    ScaledWithinExtent(space, wa.height);
    PlaceWithinExtent(HorizontalAnchor(side), wa.x, wa.width, b.width);
    PlaceWithinExtent(VerticalAnchor(side), wa.y, wa.height, b.height);
  }

  /** The span-axis dimension of an edge-docked window depends only on the span
      ratio and the work area: neither the fill ratio nor the minimum size affect it. */
  lemma SpanIndependentOfFill(side: DockSide, fill1: real, fill2: real, space: real, wa: Bounds,
                              minWidth1: int, minHeight1: int, minWidth2: int, minHeight2: int)
    requires side == Left || side == Right || side == Top || side == Bottom
    ensures var b1 := DockBounds(side, fill1, space, wa, minWidth1, minHeight1);
            var b2 := DockBounds(side, fill2, space, wa, minWidth2, minHeight2);
            && ((side == Left || side == Right) ==> b1.height == b2.height && b1.y == b2.y)
            && ((side == Top || side == Bottom) ==> b1.width == b2.width && b1.x == b2.x)
  {
  }

  /** The fill-axis dimension depends only on the fill ratio, not on the span ratio. */
  lemma FillIndependentOfSpan(side: DockSide, fill: real, space1: real, space2: real, wa: Bounds,
                              minWidth: int, minHeight: int)
    requires side != Off
    ensures var b1 := DockBounds(side, fill, space1, wa, minWidth, minHeight);
            var b2 := DockBounds(side, fill, space2, wa, minWidth, minHeight);
            && (FillSizesWidth(side) ==> b1.width == b2.width)
            && (!FillSizesWidth(side) ==> b1.height == b2.height)
  {
  }

  /** A 1000x800 work area, a 400x300 minimum, docked left with fill 0.3 and span 0.5:
      the 300-pixel width is raised to the 400-pixel minimum. */
  lemma LeftDockExample()
    ensures DockBounds(Left, 0.3, 0.5, Bounds(0, 0, 1000, 800), 400, 300) == Bounds(0, 200, 400, 400)
  {
    assert Round(0.3 * 1000.0) == 300;
    assert Round(0.5 * 800.0) == 400;
    assert Round((800 - 400) as real / 2.0) == 200;
  }

  /** A 1200x900 work area, a 0x100 minimum, docked top with fill 0.2 and span 0.6. */
  lemma TopDockExample()
    ensures DockBounds(Top, 0.2, 0.6, Bounds(0, 0, 1200, 900), 0, 100) == Bounds(240, 0, 720, 180)
  {
    assert Round(0.6 * 1200.0) == 720;
    assert Round(0.2 * 900.0) == 180;
    assert Round((1200 - 720) as real / 2.0) == 240;
  }
}
