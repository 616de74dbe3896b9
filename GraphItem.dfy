/** The chart item: style settings, the attached store, and the eight paint
    passes that turn a snapshot of both into draw commands. */
module Graph {
  import opened Points
  import opened Provider
  import opened Geometry
  import opened Painting

  const LineWidth: real := 3.0
  const PointRadius: real := 6.0

  datatype Option<T> = None | Some(value: T)

  /** What the attached store offers the renderer: its points and its peak. */
  datatype Series = Series(points: seq<DataPoint>, peak: real)

  datatype Style = Style(background: Color, text: Color, line: Color,
                         title: string, xAxisLabel: string, yAxisLabel: string)

  /** The style the item starts with. */
  const DefaultStyle: Style :=
    Style(Rgba(0x1e, 0x1e, 0x1e, 255), Rgba(0xff, 0xff, 0xff, 255), Rgba(0x00, 0xAE, 0xEF, 255),
          "Peak Power Delivered", "SOC (%)", "Power (kW)")

  /** Everything one paint reads: the viewport size, the style and, when a
      store is attached, the store's series. */
  datatype Scene = Scene(width: real, height: real, style: Style, data: Option<Series>)

  function Area(s: Scene): Rect { PlotArea(s.width, s.height) }

  /** mapDataToPixel: the origin when no store is attached. */
  function Pixel(s: Scene, soc: real, power: real): Point
  {
    match s.data
    case None => Point(0.0, 0.0)
    case Some(series) => MapToPixel(Area(s), series.peak, soc, power)
  }

  /** The mapped points, in stored order. */
  function Pixels(s: Scene, ps: seq<DataPoint>): seq<Point>
  {
    seq(|ps|, i requires 0 <= i < |ps| => Pixel(s, ps[i].soc, ps[i].power))
  }

  /** drawBackground: the viewport in the background colour. The fill goes
      through the integer overload of the painter, so a fractional viewport
      size loses its fraction. */
  function BackgroundCommands(s: Scene): seq<DrawCommand>
  {
    [FillRect(Rect(0.0, 0.0, Truncate(s.width) as real, Truncate(s.height) as real), s.style.background)]
  }

  /** drawTitle: centred across the viewport, halfway down the top margin. */
  function TitleCommands(s: Scene): seq<DrawCommand>
  {
    [CentredText(Literal(s.style.title), s.width / 2.0, TopMargin / 2.0, s.style.text)]
  }

  /** drawAxes: the bottom edge and the left edge of the plot area. */
  function AxesCommands(s: Scene): seq<DrawCommand>
  {
    var a := Area(s);
    [Line(a.BottomLeft(), a.BottomRight(), s.style.text),
     Line(a.TopLeft(), a.BottomLeft(), s.style.text)]
  }

  /** drawAxisLabels: the y label turned up, halfway across the left margin at
      the plot's mid height; the x label centred under the plot, halfway down
      the bottom margin. */
  function AxisLabelCommands(s: Scene): seq<DrawCommand>
  {
    var a := Area(s);
    [RotatedText(Literal(s.style.yAxisLabel), Point(LeftMargin / 2.0, a.Center().y), s.style.text),
     CentredText(Literal(s.style.xAxisLabel), a.Center().x, s.height - BottomMargin / 2.0, s.style.text)]
  }

  /** drawAxisValues: the first and last state of charge 20 px under the x
      axis at their x, and the peak 10 px left of the y axis at its height. */
  function AxisValueCommands(s: Scene): seq<DrawCommand>
  {
    match s.data
    case None => []
    case Some(series) =>
      if series.points == [] then []
      else
        var a := Area(s);
        var first, last := series.points[0], series.points[|series.points| - 1];
        [CentredText(Percent(first.soc), Pixel(s, first.soc, 0.0).x, a.Bottom() + 20.0, s.style.text),
         CentredText(Percent(last.soc), Pixel(s, last.soc, 0.0).x, a.Bottom() + 20.0, s.style.text),
         RightAlignedText(Kilowatts(series.peak), a.left - 10.0, Pixel(s, 0.0, series.peak).y + 5.0, s.style.text)]
  }

  /** The region under the polyline: the polyline, then straight down to the
      plot's bottom edge under the last vertex and back under the first. */
  function FillOutline(pix: seq<Point>, bottom: real): seq<Point>
    requires pix != []
  {
    pix + [Point(pix[|pix| - 1].x, bottom), Point(pix[0].x, bottom)]
  }

  /** drawGraph: the gradient-filled region, then the polyline over it;
      nothing for fewer than two points. */
  function CurveCommands(s: Scene): seq<DrawCommand>
  {
    match s.data
    case None => []
    case Some(series) =>
      if |series.points| < 2 then []
      else
        var a := Area(s);
        var pix := Pixels(s, series.points);
        [FillGradient(FillOutline(pix, a.Bottom()), a.top, a.Bottom(), s.style.line),
         StrokePath(pix, s.style.line, LineWidth)]
  }

  /** drawEndPoints: a disc on the first and on the last point, each with its
      power written 15 px above it. */
  function EndPointCommands(s: Scene): seq<DrawCommand>
  {
    match s.data
    case None => []
    case Some(series) =>
      if series.points == [] then []
      else
        var first, last := series.points[0], series.points[|series.points| - 1];
        var p, q := Pixel(s, first.soc, first.power), Pixel(s, last.soc, last.power);
        [Disc(p, PointRadius, s.style.line),
         Disc(q, PointRadius, s.style.line),
         CentredText(Kilowatts(first.power), p.x, p.y - 15.0, s.style.line),
         CentredText(Kilowatts(last.power), q.x, q.y - 15.0, s.style.line)]
  }

  /** drawArrows: a chevron at the right end of the x axis and one at the top
      of the y axis, each made of two 10 px deep strokes. */
  function ArrowCommands(s: Scene): seq<DrawCommand>
  {
    var a := Area(s);
    var xTip, yTip := a.BottomRight(), a.TopLeft();
    [Line(xTip, Point(xTip.x - 10.0, xTip.y - 5.0), s.style.text),
     Line(xTip, Point(xTip.x - 10.0, xTip.y + 5.0), s.style.text),
     Line(yTip, Point(yTip.x + 5.0, yTip.y + 10.0), s.style.text),
     Line(yTip, Point(yTip.x - 5.0, yTip.y + 10.0), s.style.text)]
  }

  /** paint: nothing at all without a store; otherwise the eight passes in
      their fixed order (background, title, axes, axis labels, axis values,
      curve, end points, arrows), later ones drawing over earlier ones. */
  function PaintCommands(s: Scene): seq<DrawCommand>
  {
    if s.data.None? then []
    else BackgroundCommands(s) + TitleCommands(s) + AxesCommands(s) + AxisLabelCommands(s)
         + AxisValueCommands(s) + CurveCommands(s) + EndPointCommands(s) + ArrowCommands(s)
  }

  lemma AppendAssoc<T>(a: seq<T>, b: seq<T>, c: seq<T>)
    ensures a + (b + c) == (a + b) + c
  {
  }

  /** The background fill starts at the origin and stays inside the
      viewport, missing less than one pixel at the right and at the bottom;
      on a viewport of whole-pixel size it covers the viewport exactly. */
  lemma BackgroundCoversViewport(s: Scene)
    requires s.width >= 0.0 && s.height >= 0.0
    ensures var r := BackgroundCommands(s)[0].area;
            && r.TopLeft() == Point(0.0, 0.0)
            && s.width - 1.0 < r.width <= s.width
            && s.height - 1.0 < r.height <= s.height
            && (s.width == s.width.Floor as real && s.height == s.height.Floor as real
                ==> r == Rect(0.0, 0.0, s.width, s.height))
  {
  }

  /** Which data-dependent passes draw anything: the axis values and the end
      points need at least one point, the curve at least two. */
  lemma DataPassSkipRules(s: Scene)
    ensures AxisValueCommands(s) == [] <==> s.data.None? || s.data.value.points == []
    ensures EndPointCommands(s) == [] <==> s.data.None? || s.data.value.points == []
    ensures CurveCommands(s) == [] <==> s.data.None? || |s.data.value.points| < 2
  {
  }

  /** With a store but no points, the chart still gets its frame: background,
      title, axes, axis labels and arrows, ten commands in all. */
  lemma EmptySeriesDrawsFrameOnly(s: Scene)
    requires s.data.Some? && s.data.value.points == []
    ensures PaintCommands(s) == BackgroundCommands(s) + TitleCommands(s) + AxesCommands(s)
                                + AxisLabelCommands(s) + ArrowCommands(s)
    ensures |PaintCommands(s)| == 10
  {
  }

  /** A single point gets both end-point discs, on the same spot, and no
      curve. */
  lemma SinglePointDrawsNoCurve(s: Scene)
    requires s.data.Some? && |s.data.value.points| == 1
    ensures CurveCommands(s) == []
    ensures |EndPointCommands(s)| == 4
    ensures EndPointCommands(s)[0].centre == EndPointCommands(s)[1].centre
    ensures |AxisValueCommands(s)| == 3
  {
  }

  /** For two points or more, the polyline visits every mapped point in
      stored order, and the fill region is that polyline closed along the
      plot's bottom edge, under the last vertex and then under the first. */
  lemma CurveGeometry(s: Scene)
    requires s.data.Some? && |s.data.value.points| >= 2
    ensures var series, a := s.data.value, Area(s);
            var cmds := CurveCommands(s);
            && |cmds| == 2 && cmds[0].FillGradient? && cmds[1].StrokePath?
            && var v, o := cmds[1].vertices, cmds[0].outline;
            && |v| == |series.points| && |o| == |v| + 2
            && (forall i :: 0 <= i < |v| ==>
                  v[i] == MapToPixel(a, series.peak, series.points[i].soc, series.points[i].power))
            && o[..|v|] == v
            && o[|v|] == Point(v[|v| - 1].x, a.Bottom())
            && o[|v| + 1] == Point(v[0].x, a.Bottom())
  {
    var pix := Pixels(s, s.data.value.points);
    assert FillOutline(pix, Area(s).Bottom())[..|pix|] == pix;
  }

  /** When the points are sorted by strictly rising state of charge and the
      plot has positive width, the polyline runs strictly left to right. */
  lemma CurveRunsLeftToRight(s: Scene)
    requires s.data.Some? && |s.data.value.points| >= 2
    requires Area(s).width > 0.0
    requires forall i, j :: 0 <= i < j < |s.data.value.points| ==>
               s.data.value.points[i].soc < s.data.value.points[j].soc
    ensures var v := CurveCommands(s)[1].vertices;
            forall i, j :: 0 <= i < j < |v| ==> v[i].x < v[j].x
  {
    var series, a := s.data.value, Area(s);
    var v := CurveCommands(s)[1].vertices;
    forall i, j | 0 <= i < j < |v|
      ensures v[i].x < v[j].x
    {
      MapXIncreasing(a, series.peak, series.points[i].soc, series.points[i].power,
                  series.points[j].soc, series.points[j].power);
    }
  }

  /** The arrows do not depend on the data: their tips sit on the right end
      of the x axis and the top of the y axis, the x chevron opens to the
      left and the y chevron downwards. */
  lemma ArrowGeometry(s: Scene, d: Option<Series>)
    ensures ArrowCommands(s) == ArrowCommands(s.(data := d))
    ensures var cmds, a := ArrowCommands(s), Area(s);
            && |cmds| == 4
            && cmds[0].from == cmds[1].from == a.BottomRight()
            && cmds[2].from == cmds[3].from == a.TopLeft()
            && cmds[0].to.x == cmds[1].to.x == a.Right() - 10.0
            && cmds[2].to.y == cmds[3].to.y == a.top + 10.0
  {
  }

  /** The three-point example: on an 800 x 600 viewport, points (30, 120),
      (50, 180), (70, 240) with peak 240 (power axis up to 300) give a
      three-vertex polyline rising to the right, and end labels of 120 and
      240 kW. */
  lemma ThreePointExample(st: Style)
    ensures var s := Scene(800.0, 600.0, st, Some(Series([DataPoint(30.0, 120.0), DataPoint(50.0, 180.0),
                                                         DataPoint(70.0, 240.0)], 240.0)));
            && CurveCommands(s)[1].vertices == [Point(278.0, 360.0), Point(410.0, 280.0), Point(542.0, 200.0)]
            && EndPointCommands(s)[2].caption == Kilowatts(120.0)
            && EndPointCommands(s)[3].caption == Kilowatts(240.0)
  {
    var s := Scene(800.0, 600.0, st, Some(Series([DataPoint(30.0, 120.0), DataPoint(50.0, 180.0),
                                                 DataPoint(70.0, 240.0)], 240.0)));
    assert PowerDomainMax(240.0) == 300.0;
    assert Pixels(s, s.data.value.points) == [Point(278.0, 360.0), Point(410.0, 280.0), Point(542.0, 200.0)];
  }

  /** The store's generator leaves the peak at 0 while its powers reach up to
      305, so the power axis stays at 300 and a point above 300 is drawn
      above the top edge of the plot area. */
  lemma StalePeakOvershootsPlot(s: Scene, soc: real, power: real)
    requires s.data.Some? && s.data.value.peak == 0.0
    requires Area(s).height > 0.0 && power > PowerDomainFloor
    ensures Pixel(s, soc, power).y < Area(s).top
  {
    var a := Area(s);
    assert power / PowerDomainFloor > 1.0;
    assert (power / PowerDomainFloor) * a.height > a.height;
  }

  /** Notifications of the item, plus its repaint requests. */
  datatype ItemSignal =
    | ProviderChanged | BackgroundColorChanged | TextColorChanged | LineColorChanged
    | TitleChanged | XAxisLabelChanged | YAxisLabelChanged
    | UpdateRequested  // update(): a repaint is scheduled

  class GraphItem {
    var provider: DataProvider?
    var backgroundColor: Color
    var textColor: Color
    var lineColor: Color
    var title: string
    var xAxisLabel: string
    var yAxisLabel: string
    /** The viewport size; the host sets it. */
    var width: real
    var height: real
    /** Every notification and update request so far, oldest first. */
    var signals: seq<ItemSignal>

    constructor ()
      ensures provider == null && CurrentStyle() == DefaultStyle
      ensures width == 0.0 && height == 0.0 && signals == []
    {
      provider := null;
      backgroundColor, textColor, lineColor := DefaultStyle.background, DefaultStyle.text, DefaultStyle.line;
      title, xAxisLabel, yAxisLabel := DefaultStyle.title, DefaultStyle.xAxisLabel, DefaultStyle.yAxisLabel;
      width, height := 0.0, 0.0;
      signals := [];
    }

    function CurrentStyle(): Style
      reads this
    {
      Style(backgroundColor, textColor, lineColor, title, xAxisLabel, yAxisLabel)
    }

    /** What a paint sees right now. */
    function Snapshot(): Scene
      reads this, provider
    {
      Scene(width, height, CurrentStyle(),
            if provider == null then None else Some(Series(provider.points, provider.peak)))
    }

    /** mapDataToPixel. */
    function MapDataToPixel(soc: real, power: real): (p: Point)
      reads this, provider
      ensures provider == null ==> p == Point(0.0, 0.0)
      ensures provider != null ==>
                p.x == LeftMargin + soc / MaxSoc * (width - LeftMargin - RightMargin)
      ensures provider != null ==>
                p.y == (height - BottomMargin)
                       - power / PowerDomainMax(provider.peak) * (height - TopMargin - BottomMargin)
    {
      Pixel(Snapshot(), soc, power)
    }

    method Paint(painter: Recorder)
      modifies painter
      ensures painter.commands == old(painter.commands) + PaintCommands(Snapshot())
    {
      if provider == null {
        return;
      }
      ghost var s, before := Snapshot(), painter.commands;
      DrawBackground(painter);
      DrawTitle(painter);
      DrawAxes(painter);
      DrawAxisLabels(painter);
      DrawAxisValues(painter);
      DrawGraph(painter);
      DrawEndPoints(painter);
      DrawArrows(painter);
      ghost var p1 := BackgroundCommands(s);
      ghost var p2 := p1 + TitleCommands(s);
      ghost var p3 := p2 + AxesCommands(s);
      ghost var p4 := p3 + AxisLabelCommands(s);
      ghost var p5 := p4 + AxisValueCommands(s);
      ghost var p6 := p5 + CurveCommands(s);
      ghost var p7 := p6 + EndPointCommands(s);
      AppendAssoc(before, p1, TitleCommands(s));
      AppendAssoc(before, p2, AxesCommands(s));
      AppendAssoc(before, p3, AxisLabelCommands(s));
      AppendAssoc(before, p4, AxisValueCommands(s));
      AppendAssoc(before, p5, CurveCommands(s));
      AppendAssoc(before, p6, EndPointCommands(s));
      AppendAssoc(before, p7, ArrowCommands(s));
    }

    method DrawBackground(painter: Recorder)
      modifies painter
      ensures painter.commands == old(painter.commands) + BackgroundCommands(Snapshot())
    {
      painter.Draw(FillRect(Rect(0.0, 0.0, Truncate(width) as real, Truncate(height) as real), backgroundColor));
    }

    method DrawTitle(painter: Recorder)
      modifies painter
      ensures painter.commands == old(painter.commands) + TitleCommands(Snapshot())
    {
      painter.Draw(CentredText(Literal(title), width / 2.0, TopMargin / 2.0, textColor));
    }

    method DrawAxes(painter: Recorder)
      modifies painter
      ensures painter.commands == old(painter.commands) + AxesCommands(Snapshot())
    {
      var plotArea := PlotArea(width, height);
      painter.Draw(Line(plotArea.BottomLeft(), plotArea.BottomRight(), textColor));
      painter.Draw(Line(plotArea.TopLeft(), plotArea.BottomLeft(), textColor));
    }

    method DrawAxisLabels(painter: Recorder)
      modifies painter
      ensures painter.commands == old(painter.commands) + AxisLabelCommands(Snapshot())
    {
      var plotArea := PlotArea(width, height);
      painter.Draw(RotatedText(Literal(yAxisLabel), Point(LeftMargin / 2.0, plotArea.Center().y), textColor));
      painter.Draw(CentredText(Literal(xAxisLabel), plotArea.Center().x, height - BottomMargin / 2.0, textColor));
    }

    method DrawAxisValues(painter: Recorder)
      modifies painter
      ensures painter.commands == old(painter.commands) + AxisValueCommands(Snapshot())
    {
      var plotArea := PlotArea(width, height);
      if provider == null {
        return;
      }
      var dataPoints := provider.points;
      if dataPoints == [] {
        return;
      }
      var firstPoint, lastPoint := dataPoints[0], dataPoints[|dataPoints| - 1];
      var firstPixel := MapDataToPixel(firstPoint.soc, 0.0);
      var lastPixel := MapDataToPixel(lastPoint.soc, 0.0);
      painter.Draw(CentredText(Percent(firstPoint.soc), firstPixel.x, plotArea.Bottom() + 20.0, textColor));
      painter.Draw(CentredText(Percent(lastPoint.soc), lastPixel.x, plotArea.Bottom() + 20.0, textColor));
      var maxPower := provider.peak;
      var maxPowerPixel := MapDataToPixel(0.0, maxPower);
      painter.Draw(RightAlignedText(Kilowatts(maxPower), plotArea.left - 10.0, maxPowerPixel.y + 5.0, textColor));
    }

    method DrawGraph(painter: Recorder)
      modifies painter
      ensures painter.commands == old(painter.commands) + CurveCommands(Snapshot())
    {
      if provider == null || provider.points == [] {
        return;
      }
      var dataPoints := provider.points;
      var pixelPoints: seq<Point> := [];
      for i := 0 to |dataPoints|
        invariant |pixelPoints| == i
        invariant forall k :: 0 <= k < i ==>
                    pixelPoints[k] == MapDataToPixel(dataPoints[k].soc, dataPoints[k].power)
      {
        pixelPoints := pixelPoints + [MapDataToPixel(dataPoints[i].soc, dataPoints[i].power)];
      }
      assert pixelPoints == Pixels(Snapshot(), dataPoints);
      if |pixelPoints| < 2 {
        return;
      }

      var path := [pixelPoints[0]];
      for i := 1 to |pixelPoints|
        invariant path == pixelPoints[..i]
      {
        path := path + [pixelPoints[i]];
      }
      assert path == pixelPoints;

      var plotArea := PlotArea(width, height);
      var fillPath := path + [Point(pixelPoints[|pixelPoints| - 1].x, plotArea.Bottom()),
                              Point(pixelPoints[0].x, plotArea.Bottom())];
      painter.Draw(FillGradient(fillPath, plotArea.top, plotArea.Bottom(), lineColor));
      painter.Draw(StrokePath(path, lineColor, LineWidth));
    }

    method DrawEndPoints(painter: Recorder)
      modifies painter
      ensures painter.commands == old(painter.commands) + EndPointCommands(Snapshot())
    {
      if provider == null || provider.points == [] {
        return;
      }
      var dataPoints := provider.points;
      var firstPoint, lastPoint := dataPoints[0], dataPoints[|dataPoints| - 1];
      var firstPixel := MapDataToPixel(firstPoint.soc, firstPoint.power);
      var lastPixel := MapDataToPixel(lastPoint.soc, lastPoint.power);
      painter.Draw(Disc(firstPixel, PointRadius, lineColor));
      painter.Draw(Disc(lastPixel, PointRadius, lineColor));
      painter.Draw(CentredText(Kilowatts(firstPoint.power), firstPixel.x, firstPixel.y - 15.0, lineColor));
      painter.Draw(CentredText(Kilowatts(lastPoint.power), lastPixel.x, lastPixel.y - 15.0, lineColor));
    }

    method DrawArrows(painter: Recorder)
      modifies painter
      ensures painter.commands == old(painter.commands) + ArrowCommands(Snapshot())
    {
      var plotArea := PlotArea(width, height);
      var xArrowEnd := plotArea.BottomRight();
      painter.Draw(Line(xArrowEnd, Point(xArrowEnd.x - 10.0, xArrowEnd.y - 5.0), textColor));
      painter.Draw(Line(xArrowEnd, Point(xArrowEnd.x - 10.0, xArrowEnd.y + 5.0), textColor));
      var yArrowEnd := plotArea.TopLeft();
      painter.Draw(Line(yArrowEnd, Point(yArrowEnd.x + 5.0, yArrowEnd.y + 10.0), textColor));
      painter.Draw(Line(yArrowEnd, Point(yArrowEnd.x - 5.0, yArrowEnd.y + 10.0), textColor));
    }

    /** onDataChanged: a store notification schedules a repaint. */
    method OnDataChanged()
      modifies this`signals
      ensures signals == old(signals) + [UpdateRequested]
    {
      signals := signals + [UpdateRequested];
    }

    /** setGraphPointsProvider: attaching the store already attached does
        nothing; any other store (or none) is recorded, announced and
        followed by a repaint request. */
    method SetGraphPointsProvider(newProvider: DataProvider?)
      modifies this`provider, this`signals
      ensures provider == newProvider
      ensures signals == old(signals) +
                (if old(provider) == newProvider then [] else [ProviderChanged, UpdateRequested])
    {
      if provider == newProvider {
        return;
      }
      provider := newProvider;
      signals := signals + [ProviderChanged, UpdateRequested];
    }

    method SetBackgroundColor(c: Color)
      modifies this`backgroundColor, this`signals
      ensures CurrentStyle() == old(CurrentStyle()).(background := c)
      ensures signals == old(signals) +
                (if old(backgroundColor) == c then [] else [BackgroundColorChanged, UpdateRequested])
    {
      if backgroundColor == c {
        return;
      }
      backgroundColor := c;
      signals := signals + [BackgroundColorChanged, UpdateRequested];
    }

    method SetTextColor(c: Color)
      modifies this`textColor, this`signals
      ensures CurrentStyle() == old(CurrentStyle()).(text := c)
      ensures signals == old(signals) +
                (if old(textColor) == c then [] else [TextColorChanged, UpdateRequested])
    {
      if textColor == c {
        return;
      }
      textColor := c;
      signals := signals + [TextColorChanged, UpdateRequested];
    }

    method SetLineColor(c: Color)
      modifies this`lineColor, this`signals
      ensures CurrentStyle() == old(CurrentStyle()).(line := c)
      ensures signals == old(signals) +
                (if old(lineColor) == c then [] else [LineColorChanged, UpdateRequested])
    {
      if lineColor == c {
        return;
      }
      lineColor := c;
      signals := signals + [LineColorChanged, UpdateRequested];
    }

    method SetTitle(t: string)
      modifies this`title, this`signals
      ensures CurrentStyle() == old(CurrentStyle()).(title := t)
      ensures signals == old(signals) +
                (if old(title) == t then [] else [TitleChanged, UpdateRequested])
    {
      if title == t {
        return;
      }
      title := t;
      signals := signals + [TitleChanged, UpdateRequested];
    }

    method SetXAxisLabel(t: string)
      modifies this`xAxisLabel, this`signals
      ensures CurrentStyle() == old(CurrentStyle()).(xAxisLabel := t)
      ensures signals == old(signals) +
                (if old(xAxisLabel) == t then [] else [XAxisLabelChanged, UpdateRequested])
    {
      if xAxisLabel == t {
        return;
      }
      xAxisLabel := t;
      signals := signals + [XAxisLabelChanged, UpdateRequested];
    }

    method SetYAxisLabel(t: string)
      modifies this`yAxisLabel, this`signals
      ensures CurrentStyle() == old(CurrentStyle()).(yAxisLabel := t)
      ensures signals == old(signals) +
                (if old(yAxisLabel) == t then [] else [YAxisLabelChanged, UpdateRequested])
    {
      if yAxisLabel == t {
        return;
      }
      yAxisLabel := t;
      signals := signals + [YAxisLabelChanged, UpdateRequested];
    }
  }
}
