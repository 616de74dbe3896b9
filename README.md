# Peak-power chart: a Dafny model

This project models the core of a small Qt/QML charting application. The
chart plots measurements of (state of charge %, power) and has three parts:

- **DataPoint** (`DataPoint.dfy`, module `Points`) is the measurement value.
  Two measurements are compared with Qt's fuzzy comparison, component by
  component. The datatype constructor `DataPoint(soc, power)` stores both
  values exactly, and its destructors `soc` and `power` are the two getters.
  The two setters are modelled as record updates.
- **DataProvider** (`DataProvider.dfy`, module `Provider`) is the series
  store. It is a class that holds the ordered points, a peak power tracked
  step by step, and the state of the generation timer (running or not, and
  its period). It also keeps an append-only log of the `PointsChanged` and
  `PeakChanged` notifications it emits. The random-sample generator takes
  its random draws as parameters, and preconditions state their ranges. It
  keeps the source's loops, including the in-place sort of the new array.
- **GraphItem** (`GraphItem.dfy`, module `Graph`, with `Geometry.dfy` and
  `Painting.dfy`) is the chart item. It holds the style settings and the
  attached store, and it has value-guarded setters. It maps data to pixels
  and runs eight paint passes. The painter is a `Recorder` that appends
  abstract draw commands to a sequence. Each `Draw…` method is proved to
  append exactly what a pure function of the item's `Snapshot()` says. The
  lemmas about those functions give:
  - the order of the passes;
  - when a pass is skipped;
  - the vertex lists of the polyline and of the fill region;
  - the shape of the arrows.

Values are `real`, so the model has no rounding. The fuzzy comparison is
`Points.ApproxEq`. It is Qt's formula `|a − b|·10¹² ≤ min(|a|, |b|)`, read
over the reals.

## Behaviour of the code worth knowing

- `setDataPoints` never changes the peak (DataProvider.cpp:35-42), and
  `generateRandomData` goes through `clearData` and then `setDataPoints`. So
  after generation the peak is 0 and not the largest generated power.
  `GenerateRandomData` states `peak == 0.0`. `Graph.StalePeakOvershootsPlot`
  shows one visible effect. The power axis then stays at 300, while every
  generated power lies in [95, 305) (`Provider.SyntheticPowerBounds`). A
  point whose power is above 300 is drawn above the top edge of the plot
  area.
- The curve visits the points in stored order, not in a re-sorted order. The
  store sorts by state of charge only inside the generator.
- The generator's point count is drawn from [5, 15), so the ramp divisor
  `count − 1` is at least 4, and the one-point case, which would divide by
  zero, never occurs.
- `DataPoint` is not immutable: it has a setter for each component.

## Model

| member | source | states |
|---|---|---|
| `Points.ApproxEqClose` | DataPoint.cpp:45-46 | two fuzzily equal values have the same sign and differ by at most one part in 10^12 |
| `Points.ApproxEqZero` | DataPoint.cpp:45-46 | only 0 itself is fuzzily equal to 0 |
| `Points.WithSoc` | DataPoint.cpp:25-29 | setSocPercentage stores the new state of charge and leaves the power untouched |
| `Points.WithPower` | DataPoint.cpp:37-41 | setPower stores the new power and leaves the state of charge untouched |
| `Points.Equal` | DataPoint.cpp:43-47 | operator== holds when both components are fuzzily equal |
| `Points.VectorEqual` | DataProvider.cpp:38 | the QVector comparison that guards setDataPoints: same length and operator== element by element |
| `Points.EqualReflexiveSymmetric` | DataPoint.cpp:43-47 | operator== (both components fuzzily equal) is reflexive and symmetric |
| `Points.EqualSeparatesZeroPower` | DataPoint.cpp:43-47 | operator== never equates a zero-power point with one that has power |
| `Points.NotEqual` | DataPoint.cpp:49-52 | operator!= holds exactly when operator== does not, i.e. when one component differs beyond the tolerance |
| `Points.VectorEqualProperties` | DataProvider.cpp:38 | the vector comparison used by setDataPoints holds for a vector and itself, and the empty vector equals only the empty vector |
| `Provider.DataProvider.constructor` | DataProvider.cpp:14-20 | a new store has no points, peak 0, a stopped timer and has emitted nothing |
| `Provider.DataProvider.SetDataPoints` | DataProvider.cpp:35-42 | a vector equal to the current one changes nothing and emits nothing; any other vector replaces the points exactly and emits one PointsChanged; the peak is never touched |
| `Provider.DataProvider.SetPeakPower` | DataProvider.cpp:50-57 | a fuzzily equal peak is ignored; any other is stored and announced once with PeakChanged |
| `Provider.RaisedPeak` | DataProvider.cpp:64-68 | the peak after addPoint is the larger of the old peak and the new power, and it changes exactly when the new power is strictly larger |
| `Provider.DataProvider.AddPoint` | DataProvider.cpp:59-70 | appends the point after the old ones and raises the peak to max(old peak, power); PeakChanged is emitted only on a strict rise and always before PointsChanged; the peak never decreases and stays the maximum over the points if it was |
| `Provider.PeakOfAppend` | DataProvider.cpp:59-70 | appending a point moves the maximum power exactly as addPoint moves the peak, so after clearData any run of addPoint calls keeps peak == PeakOf(points) |
| `Provider.PeakOfIsMaximum` | DataProvider.cpp:59-70 | PeakOf(points) is at least 0 and at least every power, and it is 0 or one of the powers |
| `Provider.DataProvider.ClearData` | DataProvider.cpp:72-79 | always leaves no points and peak 0, and always emits PointsChanged then PeakChanged, even on an empty store |
| `Provider.DataProvider.StartRandomGeneration` | DataProvider.cpp:81-87 | afterwards the timer runs; a stopped timer is armed with the 5000 ms period, and a running one is left alone |
| `Provider.DataProvider.StopRandomGeneration` | DataProvider.cpp:89-95 | afterwards the timer is stopped, whether or not it was running |
| `Provider.DataProvider.GenerateRandomData` | DataProvider.cpp:97-124 | the result has count ∈ [5,15) points whose states of charge are the drawn whole numbers in [25,85), rearranged in ascending order; point i has power 100 + i·200/(count−1) + (draw_i − 5); the peak is 0; exactly PointsChanged, PeakChanged, PointsChanged are emitted |
| `Provider.NewSeedArray` | DataProvider.cpp:101-107 | the first loop builds one zero-power point per drawn state of charge, in draw order |
| `Provider.SortBySoc` | DataProvider.cpp:109-111 | the sort leaves the array ascending by state of charge and a permutation of what it was |
| `Provider.ApplyRamp` | DataProvider.cpp:113-121 | the second loop gives point i the ramp power plus its offset and keeps its state of charge |
| `Provider.RampShape` | DataProvider.cpp:113-118 | the ramp starts at 100, ends at 300 and rises strictly with the index; its divisor count − 1 is never zero |
| `Provider.SyntheticPowerBounds` | DataProvider.cpp:117-120 | every generated power lies in [95, 305) |
| `Provider.SocsFromDraws` | DataProvider.cpp:104-107 | points whose states of charge are a rearrangement of the draws have whole-number states of charge in [25, 85) |
| `Provider.PermutedSeedsHaveZeroPower` | DataProvider.cpp:104-111 | sorting the zero-power seed points leaves every power at 0 |
| `Geometry.Truncate` | GraphItem.cpp:197 | a real passed where an int is expected loses its fraction toward zero: for x ≥ 0 the result n satisfies n ≤ x < n + 1, and for x < 0 it satisfies n − 1 < x ≤ n |
| `Geometry.PlotArea` | GraphItem.cpp:169-174 | the plot area's top-left corner is (80, 120) and its bottom-right corner is (width − 60, height − 80) |
| `Geometry.PowerDomainMax` | GraphItem.cpp:187 | the top of the power axis is max(300, 1.2·peak), so it is at least 300 and the mapping never divides by zero |
| `Geometry.MapCorners` | GraphItem.cpp:189-190 | (0, 0) maps to the plot's bottom-left corner and (100, top of the power axis) to its top-right corner, for any viewport |
| `Geometry.MapSeparable` | GraphItem.cpp:189-190 | the pixel x depends only on the state of charge and the pixel y only on the power |
| `Geometry.MapXIncreasing` | GraphItem.cpp:189 | x rises strictly with the state of charge when the plot width is positive |
| `Geometry.MapYDecreasing` | GraphItem.cpp:190 | y falls strictly as power rises when the plot height is positive |
| `Geometry.MapRoundTrip` | GraphItem.cpp:176-193 | on a plot area of non-zero size the map is a bijection: PixelToData undoes it and it undoes PixelToData |
| `Graph.GraphItem.constructor` | GraphItem.cpp:154-167 | a new item has no store and the default colours (#1e1e1e, #ffffff, #00AEEF), title and axis labels |
| `Graph.GraphItem.MapDataToPixel` | GraphItem.cpp:176-193 | (0, 0) without a store; otherwise x = 80 + soc/100 · plot width and y = plot bottom − power / max(300, 1.2·peak) · plot height |
| `Graph.GraphItem.Paint` | GraphItem.cpp:12-29 | without a store nothing is drawn; otherwise the commands are those of background, title, axes, axis labels, axis values, curve, end points and arrows, in that order |
| `Graph.EmptySeriesDrawsFrameOnly` | GraphItem.cpp:12-29 | with a store but no points, paint draws only background, title, axes, axis labels and arrows: ten commands |
| `Graph.DataPassSkipRules` | GraphItem.cpp:238-354 | the axis values and the end points draw nothing exactly when there is no store or no point; the curve draws nothing exactly when there is no store or fewer than two points |
| `Graph.SinglePointDrawsNoCurve` | GraphItem.cpp:286-337 | with one point the curve is skipped, the axis values still draw their three labels, and both end-point discs sit at the same position |
| `Graph.CurveGeometry` | GraphItem.cpp:272-316 | for two or more points the polyline is the mapped points in stored order; the fill region is that polyline, then the point under the last vertex on the plot's bottom edge, then the point under the first |
| `Graph.CurveRunsLeftToRight` | GraphItem.cpp:281-295 | points with strictly rising states of charge give a polyline with strictly rising x |
| `Graph.ArrowGeometry` | GraphItem.cpp:356-372 | the arrows do not depend on the data; their tips are the right end of the x axis and the top of the y axis; the arms reach 10 px back from each tip |
| `Graph.ThreePointExample` | GraphItem.cpp:272-354 | on 800×600 with points (30,120), (50,180), (70,240) and peak 240, the polyline is (278,360), (410,280), (542,200) and the end labels carry 120 and 240 kW |
| `Graph.StalePeakOvershootsPlot` | GraphItem.cpp:187-190 | with the peak left at 0, as the generator leaves it, a power above 300 is drawn above the plot's top edge |
| `Graph.GraphItem.DrawBackground` | GraphItem.cpp:195-198 | fills the viewport rectangle with the background colour, its size passed through the integer overload of fillRect and so truncated to whole pixels |
| `Graph.BackgroundCoversViewport` | GraphItem.cpp:197 | for a non-negative viewport the fill starts at the origin, stays inside the viewport and misses less than one pixel at the right and bottom; a whole-pixel viewport is covered exactly |
| `Graph.GraphItem.DrawTitle` | GraphItem.cpp:200-209 | draws the title centred on the viewport's width, at half the top margin |
| `Graph.GraphItem.DrawAxes` | GraphItem.cpp:211-218 | draws the plot's bottom edge and left edge in the text colour |
| `Graph.GraphItem.DrawAxisLabels` | GraphItem.cpp:220-236 | draws the y label turned up at (40, plot mid-height) and the x label centred under the plot at height − 40 |
| `Graph.GraphItem.DrawAxisValues` | GraphItem.cpp:238-270 | skipped without a store or points; otherwise draws the first and last state of charge 20 px under the axis at their mapped x, and the peak 10 px left of the y axis at its mapped height |
| `Graph.GraphItem.DrawGraph` | GraphItem.cpp:272-316 | builds the mapped points and the path in two loops, then draws the gradient fill region and the polyline in the line colour at width 3 |
| `Graph.GraphItem.DrawEndPoints` | GraphItem.cpp:320-354 | skipped without a store or points; otherwise draws discs of radius 6 on the first and last mapped points and their powers 15 px above |
| `Graph.GraphItem.DrawArrows` | GraphItem.cpp:356-372 | draws the two chevrons at the ends of the axes |
| `Graph.GraphItem.OnDataChanged` | GraphItem.cpp:31-34 | a store notification requests one repaint |
| `Graph.GraphItem.SetGraphPointsProvider` | GraphItem.cpp:41-62 | the same store is a no-op; any other store (or none) is recorded and emits ProviderChanged and then a repaint request |
| `Graph.GraphItem.SetBackgroundColor` | GraphItem.cpp:69-77 | an unchanged colour is a no-op; a new one is stored, announced once and followed by a repaint request; the rest of the style is untouched |
| `Graph.GraphItem.SetTextColor` | GraphItem.cpp:84-92 | the same value guard for the text colour |
| `Graph.GraphItem.SetLineColor` | GraphItem.cpp:99-107 | the same value guard for the line colour |
| `Graph.GraphItem.SetTitle` | GraphItem.cpp:114-122 | the same value guard for the title |
| `Graph.GraphItem.SetXAxisLabel` | GraphItem.cpp:129-137 | the same value guard for the x-axis label |
| `Graph.GraphItem.SetYAxisLabel` | GraphItem.cpp:144-152 | the same value guard for the y-axis label |

## Left out

- Floating point: every value is a `real`, so there is no double rounding. `ApproxEq` is Qt's fuzzy-compare formula evaluated exactly.
- The default `DataPoint()` constructor leaves both fields uninitialised, so it has no defined value to model. DataPoint's destructor only logs (DataPoint.cpp:14-17), and GraphItem's destructor is the compiler's default (GraphItem.h:25). DataProvider's destructor stops and deletes the generation timer (DataProvider.cpp:22-27). Timer ownership and object lifetime are not modelled, so it is left out.
- Getters (`getDataPoints`, `getPeakPower`, `getGraphPointsProvider`, the style getters) return a field, so the model reads the field.
- `Provider.DataProvider.IsAutoGenerating` has no separate contract. It is the timer-running flag (DataProvider.h:32), and the start and stop methods state its value.
- `qDebug` logging and the "No data provider set" message are left out.
- Timer firing and real time are left out. Only the running flag and the 5000 ms period are modelled, and the timer callback is not.
- `QRandomGenerator` is left out. The count, the states of charge and the offset draws are parameters, and preconditions state their ranges.
- Signal connection and disconnection are left out. `SetGraphPointsProvider` records only which store is attached. Store notifications are not delivered to `OnDataChanged` automatically.
- The viewport size is inherited from the host item. It is modelled as the fields `width` and `height`, which the host writes.
- `main.cpp` (application start-up, QML registration) is not part of this model.
- `formatPowerValue` and all number-to-text formatting (`qRound`, `QString::number`, `arg`) are left out. A label carries the value it shows, as `Percent` or `Kilowatts`, and not its text.
- Graph.GraphItem.DrawTitle records the centre of the text, not its left x. The source computes the left x from font metrics, which are not modelled. The title's left x uses real division (GraphItem.cpp:207), so the recorded x is exactly the text's centre.
- Graph.GraphItem.DrawAxisLabels, `DrawAxisValues` and `DrawEndPoints` also record the centre of each centred label, but the source subtracts `rect.width() / 2`. That is integer division of the text's whole-pixel width (GraphItem.cpp:234, 262-263, 349-350), so the drawn text is centred on the recorded x only to within half a pixel. The peak label is right-aligned 10 px left of the axis, exactly as recorded (GraphItem.cpp:269).
- Graph.GraphItem.DrawGraph records the line colour as the base of the gradient. It does not record the three gradient stops (`lighter(35)`, `lighter(25)`, transparent), because colour arithmetic is not modelled.
- Fonts, pens, brushes and antialiasing hints are left out. They are painter state, not draw commands.
- Provider.SortBySoc is an insertion sort and promises only what `std::sort` promises: sorted and a permutation. `std::sort` may order equal states of charge differently. At that point all powers are 0, so points with equal states of charge are identical, and the difference cannot be observed.
