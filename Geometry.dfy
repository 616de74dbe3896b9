/** Chart geometry: the plot area inside the fixed margins and the affine map
    from (state of charge, power) to pixels. */
module Geometry {
  import opened Points

  datatype Point = Point(x: real, y: real)

  /** A rectangle given by its top-left corner and its size, y growing down. */
  datatype Rect = Rect(left: real, top: real, width: real, height: real) {
    function Right(): real { left + width }
    function Bottom(): real { top + height }
    function TopLeft(): Point { Point(left, top) }
    function BottomLeft(): Point { Point(left, Bottom()) }
    function BottomRight(): Point { Point(Right(), Bottom()) }
    function Center(): Point { Point(left + width / 2.0, top + height / 2.0) }
  }

  const TopMargin: real := 120.0
  const BottomMargin: real := 80.0
  const LeftMargin: real := 80.0
  const RightMargin: real := 60.0

  /** The fixed state-of-charge domain and the floor of the power domain. */
  const MaxSoc: real := 100.0
  const PowerDomainFloor: real := 300.0
  const PeakHeadroom: real := 1.2

  /** The conversion of a real coordinate to an integer pixel when it is
      passed where an `int` is expected: the fraction is dropped, rounding
      toward zero. */
  function Truncate(x: real): (n: int)
    ensures x >= 0.0 ==> 0 <= n && n as real <= x < n as real + 1.0
    ensures x < 0.0 ==> n <= 0 && n as real - 1.0 < x <= n as real
  {
    if x >= 0.0 then x.Floor else -((-x).Floor)
  }

  /** getPlotArea: the viewport inset by the four margins. */
  function PlotArea(width: real, height: real): (r: Rect)
    ensures r.TopLeft() == Point(LeftMargin, TopMargin)
    ensures r.BottomRight() == Point(width - RightMargin, height - BottomMargin)
  {
    Rect(LeftMargin, TopMargin, width - LeftMargin - RightMargin, height - TopMargin - BottomMargin)
  }

  /** Top of the power axis: 300, or 20% above the peak when that is more. */
  function PowerDomainMax(peak: real): (m: real)
    ensures m >= PowerDomainFloor && m >= PeakHeadroom * peak
    ensures m == PowerDomainFloor || m == PeakHeadroom * peak
  {
    if PowerDomainFloor >= PeakHeadroom * peak then PowerDomainFloor else PeakHeadroom * peak
  }

  /** mapDataToPixel once a store is attached, with the store's peak. */
  function MapToPixel(area: Rect, peak: real, soc: real, power: real): Point
  {
    Point(area.left + (soc / MaxSoc) * area.width,
          area.Bottom() - (power / PowerDomainMax(peak)) * area.height)
  }

  /** The inverse of MapToPixel on a plot area of non-zero size. */
  function PixelToData(area: Rect, peak: real, p: Point): DataPoint
    requires area.width != 0.0 && area.height != 0.0
  {
    DataPoint((p.x - area.left) / area.width * MaxSoc,
              (area.Bottom() - p.y) / area.height * PowerDomainMax(peak))
  }

  /** The corners of the data domain land on the corners of the plot area:
      (0, 0) at the bottom left and (100, top of the power axis) at the top
      right, whatever the viewport size. */
  lemma MapCorners(area: Rect, peak: real)
    ensures MapToPixel(area, peak, 0.0, 0.0) == area.BottomLeft()
    ensures MapToPixel(area, peak, MaxSoc, PowerDomainMax(peak)) == Point(area.Right(), area.top)
  {
  }

  /** The pixel x depends on the state of charge only and the pixel y on the
      power only. */
  lemma MapSeparable(area: Rect, peak: real, soc1: real, power1: real, soc2: real, power2: real)
    ensures soc1 == soc2 ==> MapToPixel(area, peak, soc1, power1).x == MapToPixel(area, peak, soc2, power2).x
    ensures power1 == power2 ==> MapToPixel(area, peak, soc1, power1).y == MapToPixel(area, peak, soc2, power2).y
  {
  }

  /** On a plot area of positive width, x grows with the state of charge. */
  lemma MapXIncreasing(area: Rect, peak: real, soc1: real, power1: real, soc2: real, power2: real)
    requires area.width > 0.0 && soc1 < soc2
    ensures MapToPixel(area, peak, soc1, power1).x < MapToPixel(area, peak, soc2, power2).x
  {
    assert MapToPixel(area, peak, soc1, power1).x == area.left + (soc1 / MaxSoc) * area.width;
    assert MapToPixel(area, peak, soc2, power2).x == area.left + (soc2 / MaxSoc) * area.width;
    var d := (soc2 - soc1) / MaxSoc;
    assert d > 0.0;
    assert d * area.width > 0.0;
    calc {
      MapToPixel(area, peak, soc2, power2).x - MapToPixel(area, peak, soc1, power1).x;
    ==
      (soc2 / MaxSoc) * area.width - (soc1 / MaxSoc) * area.width;
    ==
      d * area.width;
    }
  }

  /** On a plot area of positive height, y shrinks as the power grows: the
      power axis points up. */
  lemma MapYDecreasing(area: Rect, peak: real, soc1: real, power1: real, soc2: real, power2: real)
    requires area.height > 0.0 && power1 < power2
    ensures MapToPixel(area, peak, soc1, power1).y > MapToPixel(area, peak, soc2, power2).y
  {
    var m := PowerDomainMax(peak);
    assert MapToPixel(area, peak, soc1, power1).y == area.Bottom() - (power1 / m) * area.height;
    assert MapToPixel(area, peak, soc2, power2).y == area.Bottom() - (power2 / m) * area.height;
    var d := (power2 - power1) / m;
    assert d > 0.0;
    assert d * area.height > 0.0;
    calc {
      MapToPixel(area, peak, soc1, power1).y - MapToPixel(area, peak, soc2, power2).y;
    ==
      (power2 / m) * area.height - (power1 / m) * area.height;
    ==
      d * area.height;
    }
  }

  /** The map is invertible on a plot area of non-zero size: mapping a data
      point and reading it back gives the data point again, and the other
      way round. */
  lemma MapRoundTrip(area: Rect, peak: real, soc: real, power: real, p: Point)
    requires area.width != 0.0 && area.height != 0.0
    ensures PixelToData(area, peak, MapToPixel(area, peak, soc, power)) == DataPoint(soc, power)
    ensures var d := PixelToData(area, peak, p); MapToPixel(area, peak, d.soc, d.power) == p
  {
    var m := PowerDomainMax(peak);
    assert (soc / MaxSoc) * area.width / area.width * MaxSoc == soc;
    assert (power / m) * area.height / area.height * m == power;
    assert ((p.x - area.left) / area.width * MaxSoc / MaxSoc) * area.width == p.x - area.left;
    assert ((area.Bottom() - p.y) / area.height * m / m) * area.height == area.Bottom() - p.y;
  }
}
