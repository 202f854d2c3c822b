# NPlot plot core in Dafny

A Dafny model of four parts of the NPlot .NET charting library, with proofs
about each:

- **Candle plots** (`candle_plot.dfy`, module `Candles`). `CandleDataAdapter`
  reads the five data fields (abscissa, open, low, high, close). It finds them
  in double arrays, in other arrays, or in columns of a `DataSet`/`DataTable`.
  `CandlePlot.Draw` turns each open/low/high/close point into a wick plus
  either open/close ticks or a filled box. The stick width and offset come
  from the pixel separation of the first points.
- **Image plots** (`image_plot.dfy`, module `Images`). A 2-D array is drawn as
  a grid of filled blocks. Each block is coloured through a gradient by where
  its value lies between the data minimum and maximum.
- **Labelled point plots** (`label_point_plot.dfy`, module `LabelPoints`).
  Each point gets a marker and a text label above, below, left or right of it.
  `TextDataAdapter` finds the text in a string array, a list, or a column of
  the data source.
- **The ASP.NET plot control** (`web_plot_surface.dfy`, module `Web`). It
  forwards properties and calls to an inner plot surface. It renders the plot
  into the user's session under a per-control key, and builds the image URL.
  That URL's flag parameter makes the next request return the stored image.

Shared modules:

- `numbers.dfy` (`Numbers`): doubles with NaN and infinities, and C#'s
  truncating casts and integer division.
- `exceptions.dfy` (`Exceptions`): `Option`, the `Result` of an operation that
  can throw, and the .NET exception kinds.
- `data_sources.dfy` (`DataSources`): boxed cell values, table rows, and
  resolving a data source to its rows.
- `drawing.dfy` (`Drawing`): drawing is modelled as the list of graphics
  commands a plot issues.

Calls into code that is not part of this model become parameters. These are:

- the world-to-pixel transform of a physical axis (a function field of
  `PhysicalAxis`);
- `Utils.ArrayMinMax`/`RowArrayMinMax` (`Candles.MinMax`);
- `Axis.IncreaseRange`;
- `Graphics.MeasureString`;
- `HttpServerUtility.UrlEncode`.

An operation that throws returns a `Failure` carrying the exception. Commands
issued before the exception are kept, because they are already on the
surface.

## Model

| member | source | states |
|---|---|---|
| DataSources.FindTable | src/CandlePlot.cs:437-437 | A table is found exactly when one has the name, and its rows are those of the first table with that name. |
| DataSources.ResolveRows | src/CandlePlot.cs:428-452 | No source gives no rows. A `DataTable` is its rows. A `DataSet` with a member gives the rows of the first table of that name, and a missing table throws a null reference. A `DataSet` without one gives table 0, and an empty set throws an index error. Any other object throws "not implemented yet". |
| Candles.NewCandleDataAdapter | src/CandlePlot.cs:417-466 | The adapter constructor succeeds exactly when the data source resolves. It holds the five fields and the resolved rows. |
| Candles.CandleDataAdapter.Count | src/CandlePlot.cs:524-559 | The point count in every branch. The fast path uses the open length. Null open gives 0. With a data source it is the row count. Arrays give the open length when close, low and high are arrays of the same length. When all four are arrays, any failure is "open and close arrays are not of same length". A close that is not an array gives its cast error: a null reference for null, an invalid cast otherwise. Any failure with array open data is the mismatch message, a null reference or an invalid cast. Anything else is "data not in correct format". |
| Candles.CandleDataAdapter.At | src/CandlePlot.cs:474-518 | Fast path: the point is read exactly when close is a double array and i is below all five lengths, and it is the five i-th values. Rows path: success implies i is below the row count. No rows and not five arrays: "not implemented yet". |
| Candles.AtReadsRow | src/CandlePlot.cs:490-498 | With a data source, i past the rows is an index error. Otherwise the point is read exactly when all five named fields of row i convert, and it is their five values. |
| Candles.AtReadsArrays | src/CandlePlot.cs:501-510 | For five arrays off the fast path, the point is read exactly when each i-th element converts, and it is the five converted elements. |
| Candles.ArrayDouble | src/CandlePlot.cs:503-507 | An array element converts exactly when i is below the length and the element is not text. The result is the element's double. |
| Candles.FastPathIgnoresClose | src/CandlePlot.cs:460-531 | The fast-path test checks low twice and never checks close. When close is not a double array, the count is the open length, yet every point in range throws a null reference. |
| Candles.AtFailsPastCount | src/CandlePlot.cs:474-559 | No point can be read at or past the reported count. |
| Candles.RowsReadableBelowCount | src/CandlePlot.cs:489-539 | With a data source, every row below the count is a point when the five fields name numeric columns of every row. |
| Candles.CandleDataAdapter.SuggestXAxis | src/CandlePlot.cs:565-624 | A suggestion needs a readable first abscissa value. The axis is a date/time axis exactly when that value is a `DateTime`. No abscissa values gives an index error. A finite result widens [min, max] by the same amount on both sides. |
| Candles.XAxisIsWidenedByHalfTheStep | src/CandlePlot.cs:571-592 | The suggested axis runs from min − step/2 to max + step/2. Here min and max are the helper's abscissa range, and step is `MinStep` of the first zero, two or three abscissa values (`StepSampleSize`), in double arithmetic. |
| Candles.XAxisWideningForFiniteSteps | src/CandlePlot.cs:571-592 | For finite abscissa values the widening is half the smaller of their first two absolute steps, which is non-negative. |
| Candles.MinStepIsSmallestAbsoluteStep | src/CandlePlot.cs:571-613 | The widening step is 0 for fewer than two values. Otherwise it is the smaller of \|x1-x0\| and \|x2-x1\|, over the values that exist. |
| Candles.CandleDataAdapter.SuggestYAxis | src/CandlePlot.cs:630-651 | Succeeds exactly when the low and high data can be read. The result is the linear axis from the minimum low to the maximum high, passed through `IncreaseRange(0.08)`. |
| Candles.CandleDataAdapter.AbscissaCount | src/CandlePlot.cs:574-605 | The abscissa count is the row count with a data source. Otherwise it exists exactly when the abscissa is an array. |
| Candles.MinGapIsLeastGap | src/CandlePlot.cs:360-380 | The separation of two or more pixels is at most every consecutive signed gap, and equals one of them. |
| Candles.CalculatePhysicalSeparation | src/CandlePlot.cs:358-383 | Returns 0 for at most one point. Otherwise it returns the smallest signed pixel gap among the first min(Count, 4) points (`PhysicalSeparation`). A point that cannot be read throws its exception. |
| Candles.PixelPositionsStopAt | src/CandlePlot.cs:360-376 | An unreadable point j stops the pixel scan with that point's exception. |
| Candles.SeparationOfCount | src/CandlePlot.cs:360-382 | With two or more points, the separation is the least gap of the pixels of the first min(Count, 4) points, or the exception of the first of them that cannot be read. |
| Candles.ReadPixel | src/CandlePlot.cs:362-374 | Reading point j appends its abscissa pixel to the pixels read so far; when the point cannot be read, its exception is the outcome of the whole scan. |
| Candles.MinGapOfThree | src/CandlePlot.cs:364-370 | For three pixels the separation is the smaller of their two steps. |
| Candles.MinGapOfFour | src/CandlePlot.cs:364-375 | For four pixels the separation is the smallest of their three steps, taken in order. |
| Candles.Layout | src/CandlePlot.cs:213-232 | The offset is half the separation when centred, else 0. The box width is 2·addAmount or one pixel wider. An explicit stick width is kept exactly. An automatic width is 2·addAmount, where addAmount is a third of the separation, rounded down. |
| Candles.Body | src/CandlePlot.cs:278-296 | When open is below close on screen, a bullish box spans the rows between them; in the other case, a bearish box does. Boxes always have positive height. Equal rows give a horizontal line of the stick width. |
| Candles.GlyphShape | src/CandlePlot.cs:245-297 | A point with any NaN among open/high/low/close draws nothing. A glyph is drawn exactly when the stick reaches into the horizontal plot range. It starts with the low-high wick at the stick column. Stick style adds the open tick on the left and the close tick on the right; Filled style adds the box. |
| Candles.DrawFromStep | src/CandlePlot.cs:241-245 | An unreadable point ends the drawing with its exception and nothing more; a readable one contributes its glyph before the rest. |
| Candles.DrawPoints | src/CandlePlot.cs:241-299 | The loop over the points issues exactly the commands of `DrawFrom` from the first point, in order, and ends with its exception. |
| Candles.DrawStopsAtFirstUnreadablePoint | src/CandlePlot.cs:243-245 | Drawing completes exactly when every point is readable. Otherwise it ends with the exception of the first point that is not. |
| Candles.DrawnBoxesAreNeverFlat | src/CandlePlot.cs:280-290 | Every filled box has the stick width and a positive height. |
| Candles.CandlePlot.constructor | src/CandlePlot.cs:114-158 | Defaults: bearish black, bullish white, Filled, centred, black pen, automatic stick width, null data, no source, empty label, shown in legend. |
| Candles.CandlePlot.SetStickWidth | src/CandlePlot.cs:174-185 | A value below 1 throws "Stick width must be greater than 0." and leaves the width unchanged. Any other value is stored exactly. |
| Candles.CandlePlot.Draw | src/CandlePlot.cs:205-302 | The commands issued and the final exception equal `Drawing`: the adapter is built, the separation measured when centred or auto-sized, then one glyph per point in order. |
| Candles.CandlePlot.MeasureLayout | src/CandlePlot.cs:213-232 | The offset, tick reach and box width equal `StickLayoutFor`: the separation is measured only when centred or auto-sized, and its exception ends the drawing. |
| Candles.CandlePlot.SuggestXAxis | src/CandlePlot.cs:308-314 | The adapter's x-axis suggestion, failing when the adapter cannot be built. |
| Candles.CandlePlot.SuggestYAxis | src/CandlePlot.cs:320-326 | The adapter's y-axis suggestion, failing when the adapter cannot be built. |
| Candles.CandlePlot.DrawInLegend | src/CandlePlot.cs:333-339 | One horizontal line in the plot colour from the left to the right edge of the box. It lies inside the box, at (top + bottom) / 2 rounded toward zero: twice the row is within one of top + bottom, on the side of zero. |
| Images.ImagePlot.constructor | src/ImagePlot.cs:40-80 | Keeps the data and the four start/step values. Defaults are centred, no gradient, empty label and shown in legend. dataMin and dataMax become the smallest and largest elements. |
| Images.ImagePlot.WithUnitSteps | src/ImagePlot.cs:42-90 | As above, with starts 0 and steps 1. |
| Images.ImagePlot.Create | src/ImagePlot.cs:65-281 | A null array throws a null reference and an empty one an index error, both from reading element [0, 0]. Otherwise the constructor runs. |
| Images.ImagePlot.CreateWithUnitSteps | src/ImagePlot.cs:86-281 | The same for the one-argument constructor. |
| Images.ImagePlot.CalculateMinMax | src/ImagePlot.cs:278-296 | After the row-by-row scan, dataMin and dataMax are elements of the array, and every element lies between them. |
| Images.ImagePlot.GetGradient | src/ImagePlot.cs:114-126 | With no gradient, the first read creates a white-to-black one and keeps it. Every later read returns that same object. |
| Images.ImagePlot.SetGradient | src/ImagePlot.cs:125 | Stores the given gradient. |
| Images.GradientParameter | src/ImagePlot.cs:192 | The colour parameter is 0 at the minimum and 1 at the maximum, and lies in [0, 1] between them. When minimum and maximum coincide it is NaN exactly at that value. |
| Images.BlockSizeIsPixelsPerStep | src/ImagePlot.cs:152-171 | A block's size is the pixels per world step, made absolute, plus one, so at least one pixel. It is flagged positive exactly when pixels grow with world values. |
| Images.CellsAreOneStepApart | src/ImagePlot.cs:179-191 | Adjacent blocks start exactly one world step apart. |
| Images.ImagePlot.CellCommand | src/ImagePlot.cs:179-199 | The block of element (i, j) is a filled rectangle at least one pixel each way. Its brush is the gradient at the element's colour parameter. |
| Images.ImagePlot.Draw | src/ImagePlot.cs:145-206 | No elements draws nothing and leaves the gradient. Otherwise the commands are the `Grid` of blocks drawn through the plot's gradient. That is the one already set, or else a fresh white-to-black gradient created for the first element. |
| Images.ImagePlot.DrawRow | src/ImagePlot.cs:177-204 | One pass of the inner loop emits the blocks of row i in column order. It creates the fresh white-to-black gradient when none is set. |
| Images.ImagePlot.DrawCell | src/ImagePlot.cs:179-202 | The inner loop's body emits `CellCommand` for element (i, j). It keeps a set gradient, and otherwise creates a fresh white-to-black one. |
| Images.ImagePlot.GridLength | src/ImagePlot.cs:175-201 | Draw emits rows × columns blocks. |
| Images.ImagePlot.GridElement | src/ImagePlot.cs:175-201 | Block i·columns + j is the block of element (i, j): row-major order. |
| Images.ImagePlot.RowCellsInOrder | src/ImagePlot.cs:177-200 | The blocks of a row are its elements in column order. |
| Images.ImagePlot.SuggestXAxis | src/ImagePlot.cs:231-239 | A linear axis exactly step × columns wide. It starts at xStart, or half a step before it when centred. |
| Images.ImagePlot.SuggestYAxis | src/ImagePlot.cs:245-253 | The same for the rows. |
| Images.BlocksTileSuggestedXAxis | src/ImagePlot.cs:179-239 | When pixels grow with world values, the blocks tile the suggested x range: the first starts at its minimum and the last ends at its maximum. |
| Images.BlocksTileSuggestedYAxis | src/ImagePlot.cs:179-253 | The same for the y range, when pixels grow with world values. |
| Images.ImagePlot.DrawInLegend | src/ImagePlot.cs:213-216 | Draws nothing. |
| LabelPoints.TextDataAdapter.At | src/LabelPointPlot.cs:182-244 | A string array gives element i, or an index error. A column name without a data source throws "Error: DataSource null". With a source, the label is the text cell of the named column in row i. That read fails with the source's own exception ("not implemented yet", or a null reference for a missing table), an index error past the rows, an argument error for a missing column, or an invalid cast for a cell that is not text. A list gives text items, and an argument-out-of-range error past its end. It throws "TextDataAdapter: data not in recognised format" for other items. Null gives "text". Any other object throws "Text data not of recognised type". |
| LabelPoints.TextDataAdapter.Count | src/LabelPointPlot.cs:246-266 | Null gives 0, and arrays and lists their length. Anything else throws "Text data not in correct format". |
| LabelPoints.NoLabelPastCount | src/LabelPointPlot.cs:188-266 | For arrays and lists, no label can be read at or past the count. |
| LabelPoints.CountIgnoresColumnsAndNull | src/LabelPointPlot.cs:235-266 | A column name has no count. Null counts 0 but labels every index "text". |
| LabelPoints.LabelOrigin | src/LabelPointPlot.cs:139-155 | Above and Below labels are centred horizontally on the point; Left and Right labels vertically. The edge facing the point is two thirds of the marker size (integer division) away from it. |
| LabelPoints.LabelKeepsClearOfPoint | src/LabelPointPlot.cs:139-155 | With non-negative sizes, a label lies wholly on its side of the point. |
| LabelPoints.PointCommands | src/LabelPointPlot.cs:127-156 | A point with a NaN coordinate draws nothing. Otherwise the marker comes first. An unreadable label fails after the marker. A label is drawn exactly when its text is not empty. It shows that text in black in the plot's font, at `LabelOrigin` for the point's pixel position, the measured size and the marker size. |
| LabelPoints.DrawFailsOnlyWithDrawError | src/LabelPointPlot.cs:125-161 | Drawing fails only with "Error in TextPlot.Draw". It fails exactly when some finite point's label cannot be read. |
| LabelPoints.LabelsAreNeverEmpty | src/LabelPointPlot.cs:135 | No drawn label is empty. |
| LabelPoints.NullTextLabelsEveryPoint | src/LabelPointPlot.cs:125-238 | Without text data, drawing never fails. It emits a marker and the label "text" for every finite point, and nothing else. |
| LabelPoints.LabelPointPlot.constructor | src/LabelPointPlot.cs:67-84 | Defaults: Arial 8 font, labels above, no text data or source, empty label, shown in legend. |
| LabelPoints.LabelPointPlot.Draw | src/LabelPointPlot.cs:115-163 | The commands issued and the final exception equal `DrawFrom` over all points. |
| Web.Lookup | src/Web.PlotSurface2D.cs:447 | Finds a value exactly when some pair has the name, and the value is paired with it. |
| Web.HttpRequest.Param | src/Web.PlotSurface2D.cs:447 | A parameter exists exactly when the query string or the other parameters carry it. |
| Web.QueryParameterIsSeen | src/Web.PlotSurface2D.cs:424-447 | Any query-string parameter is visible through `Params`. |
| Web.SessionPrefixDistinguishesControls | src/Web.PlotSurface2D.cs:84-92 | On one page, two controls with different ids never share a session key. |
| Web.SessionPrefixCanCollideAcrossPages | src/Web.PlotSurface2D.cs:84-92 | Across pages they can, because the id/page split is ambiguous with underscores. |
| Web.QueryParamsShape | src/Web.PlotSurface2D.cs:424-433 | The accumulated parameters are empty exactly when the query is, and otherwise end with '&'. So the builder's length test is a test for an empty query. |
| Web.PlotUrlWithoutQuery | src/Web.PlotSurface2D.cs:432-435 | Without a query string, the URL is the path plus "?PlotSurface2D_" + id + "=1". |
| Web.PlotUrlEndsWithFlag | src/Web.PlotSurface2D.cs:434-447 | Every plot URL ends with the parameter "PlotSurface2D_" + id + "=1", after '?' or '&'. That name is exactly the one `OnInit` tests. |
| Web.PlotSurface2D.BuildPlotUrl | src/Web.PlotSurface2D.cs:422-436 | The path, "?", each key + "=" + UrlEncode(value) + "&" in key order, then the flag parameter, in both branches. |
| Web.Serve | src/Web.PlotSurface2D.cs:450-463 | The image is sent exactly when the key holds a bitmap, and it then leaves the session. A missing entry (null reference) or another value (failed cast) gives an error reply and leaves the session alone. |
| Web.StoredImageIsServedOnce | src/Web.PlotSurface2D.cs:454-498 | A bitmap stored under a key is served once. The next request under that key finds nothing. |
| Web.ServeKeepsOtherEntries | src/Web.PlotSurface2D.cs:462 | Serving leaves every other session entry as it was. |
| Web.RenderedImageIsServed | src/Web.PlotSurface2D.cs:454-498 | What `Render` stores is what `OnInit` serves, under the same key. |
| Web.PlotSurface2D.OnInit | src/Web.PlotSurface2D.cs:443-478 | Without the flag, the page continues with the plot URL built from the request, and the session is unchanged. With the flag, the reply and session are `Serve` under `prefix()+"PNG"`, and the request ends without rebuilding the URL. |
| Web.PlotSurface2D.Render | src/Web.PlotSurface2D.cs:485-527 | A non-positive size is refused. Otherwise a bitmap of the control's size, background and inner-surface state is stored under `prefix()+"PNG"`, and the image tag's source is the plot URL. |
| Web.PlotSurface2D.constructor | src/Web.PlotSurface2D.cs:63-409 | A fresh inner surface, no plot URL yet, and no background colour. |
| Web.PlotSurface2D.Clear | src/Web.PlotSurface2D.cs:98-101 | Forwards `Clear` to the inner surface. The inner surface's settings may change with it. |
| Web.PlotSurface2D.Add | src/Web.PlotSurface2D.cs:109-112 | Forwards the drawable unchanged. |
| Web.PlotSurface2D.AddOnAxes | src/Web.PlotSurface2D.cs:122-125 | Forwards the drawable and both axis positions unchanged. |
| Web.PlotSurface2D.AddWithZOrder | src/Web.PlotSurface2D.cs:134-137 | Forwards the drawable and z-order unchanged. |
| Web.PlotSurface2D.AddOnAxesWithZOrder | src/Web.PlotSurface2D.cs:148-152 | Forwards all four arguments unchanged. |
| Web.PlotSurface2D.Remove | src/Web.PlotSurface2D.cs:625-628 | Forwards the drawable and flag unchanged. |
| Web.PlotSurface2D.AddAxesConstraint | src/Web.PlotSurface2D.cs:534-537 | Forwards the constraint unchanged. |
| Web.PlotSurface2D.SetPlotBackColor | src/Web.PlotSurface2D.cs:302-308 | Forwards the value unchanged. |
| Web.PlotSurface2D.SetPlotBackImage | src/Web.PlotSurface2D.cs:314-320 | Forwards the value unchanged. |
| Web.PlotSurface2D.SetPlotBackBrush | src/Web.PlotSurface2D.cs:326-332 | Forwards the value unchanged. |
| Web.PlotSurface2D.SetTitleColor | src/Web.PlotSurface2D.cs:586-599 | Forwards the value unchanged. The title brush may change with it; every other setting stays as it was. |
| Web.PlotSurface2D.SetBackColor | src/Web.PlotSurface2D.cs:402-409 | Stores the control's own background colour. |
| Web.PlotSurface2D.SetTitle | src/Web.PlotSurface2D.cs:161-171 | Stores into the inner surface, changes no other setting, and the getter returns the stored value. |
| Web.PlotSurface2D.SetTitleFont | src/Web.PlotSurface2D.cs:180-190 | Same, for the title font. |
| Web.PlotSurface2D.SetPadding | src/Web.PlotSurface2D.cs:202-212 | Same, for the padding. |
| Web.PlotSurface2D.SetXAxis1 | src/Web.PlotSurface2D.cs:222-232 | Same, for the first x-axis. |
| Web.PlotSurface2D.SetYAxis1 | src/Web.PlotSurface2D.cs:242-252 | Same, for the first y-axis. |
| Web.PlotSurface2D.SetXAxis2 | src/Web.PlotSurface2D.cs:262-272 | Same, for the second x-axis. |
| Web.PlotSurface2D.SetYAxis2 | src/Web.PlotSurface2D.cs:282-292 | Same, for the second y-axis. |
| Web.PlotSurface2D.SetLegend | src/Web.PlotSurface2D.cs:342-352 | Same, for the legend. |
| Web.PlotSurface2D.SetLegendZOrder | src/Web.PlotSurface2D.cs:362-372 | Same, for the legend z-order. |
| Web.PlotSurface2D.SetSmoothing | src/Web.PlotSurface2D.cs:382-392 | Same, for the smoothing mode. |
| Web.PlotSurface2D.SetAutoScaleTitle | src/Web.PlotSurface2D.cs:548-558 | Same, for title auto-scaling. |
| Web.PlotSurface2D.SetAutoScaleAutoGeneratedAxes | src/Web.PlotSurface2D.cs:573-583 | Same, for auto-generated axis scaling. |
| Web.PlotSurface2D.SetTitleBrush | src/Web.PlotSurface2D.cs:608-618 | Same, for the title brush. |

The model keeps several source behaviours exactly as written:

- The candle fast path tests `low` twice and never tests `close`
  (`Candles.FastPathIgnoresClose`).
- The text adapter's `Count` rejects column-name text, and counts null text
  as 0, although the indexer serves both (`LabelPoints.CountIgnoresColumnsAndNull`).
  The labelled plot's `Draw` never consults `Count`.
- The session prefix can collide across pages
  (`Web.SessionPrefixCanCollideAcrossPages`).

The `CHECK_ERRORS` guard in the five-argument `ImagePlot` constructor is
taken as not compiled in. A null or empty array therefore throws from
`calculateMinMax`, as in the one-argument constructor.

## Left out

- Candles.CandlePlot.Draw requires a non-negative physical separation whenever
  it is measured. The source casts the float separation to `uint`, and a
  negative float-to-unsigned cast is not modelled.
- Candles.CandlePlot.Draw: widened `int`/`uint` arithmetic in the visibility
  test and the box coordinates is modelled as mathematical integers.
- Candles.CandleDataAdapter.SuggestXAxis: the step-by-step local updates of
  `minStep` are modelled as a function rather than a method with mutable
  locals. The exact widening is stated by `Candles.XAxisIsWidenedByHalfTheStep`.
- Candles.CandleDataAdapter.SuggestYAxis: `IncreaseRange` is a parameter; what
  it does to the axis is not part of this model.
- Images.ImagePlot.Draw requires, for non-empty data, a non-zero step in each
  direction and non-empty world ranges. Empty data returns before any
  division and needs neither. The block sizes are computed on reals, so
  double division by zero is not modelled:
  - a zero step makes the block count infinite (or NaN when the world range
    is also empty), and the block then comes out one pixel wide (or NaN);
  - an empty world range makes the block count zero, and the block size
    infinite, or NaN when the physical span is also zero.
- Images.ImagePlot.CalculateMinMax assumes no element is NaN: elements are
  reals, so NaN comparisons are not modelled.
- Images.GradientParameter: `IGradient.GetColor` is not part of this model.
  A brush records the gradient object and the parameter it is given.
- ImagePlot accessors `DataMin`, `DataMax`, `Center`, `Label` and
  `ShowInLegend` have no logic. They are the plot's public fields in the
  model.
- CandlePlot and LabelPointPlot property accessors with no logic.
  `BearishColor`, `BullishColor`, `Style`, `Color`, `Centered`, the five data
  fields, `TextData`, `Font`, `LabelTextPosition`, `Label`, `ShowInLegend`,
  `DataSource` and `DataMember` are fields.
- LabelPoints.LabelPointPlot.Draw:
  - `SequenceAdapter`, `PointPlot` and `Marker` are not part of this model;
  - the points are passed in as their coordinates; the marker is drawn as a
    `Marker` command and characterised by its size;
  - an exception from reading a point is not modelled.
- LabelPoints.TextDataAdapter.At: a null element in a string array (which
  the source would measure and draw) is not modelled; strings are never null.
- Candles.Data: a non-array `IList` (an `ArrayList` or `List<double>`) has no
  variant. The source's `(IList)` casts in SuggestXAxis and SuggestYAxis
  accept one, so "succeeds exactly when the data can be read" in their
  rows holds over arrays, columns and null only.
- Candles.MinMax: the `Utils.ArrayMinMax`/`RowArrayMinMax` helpers are not
  part of this model. They are total parameters returning two reals: they
  never throw and never return NaN or an infinity. The success conditions of
  Candles.CandleDataAdapter.SuggestXAxis and SuggestYAxis rely on that.
- DataSources.FindTable matches table names exactly. .NET's
  `Tables[name]` falls back to a case-insensitive match, which is not
  modelled.
- Utils.ToDouble on a string cell is modelled as a failed cast; parsing is not
  part of this model.
- `WriteData` of the candle and image plots (text export) is not part of this
  model.
- Web.PlotSurface2D.Render:
  - HTML rendering through `HtmlTextWriter` is reduced to the image tag's
    `src` and `alt` attributes; borders, cell spacing and alignment are left
    out;
  - the inner surface's `Draw` is recorded as its settings and calls at
    render time.
- Web.PlotSurface2D.OnInit:
  - PNG encoding, response streams and `Response.End` are left out;
  - a bitmap that fails to save is not modelled;
  - the error reply carries the exception rather than its message text.
- Web.PlotSurface2D.Clear, Web.PlotSurface2D.Add (and its three overloads)
  and Web.PlotSurface2D.Remove may change the inner surface's settings. The
  axis update that adding or removing an `IPlot` performs, and what clearing
  resets, belong to the inner surface, which is not part of this model. The
  contracts state only the call that is forwarded.
- Web.PlotSurface2D.SetTitleColor: the inner surface replaces the title
  brush with a new solid brush of the colour. That brush object is the
  inner surface's, so the model leaves `TitleBrush()` unconstrained after
  the call rather than naming the new brush.
- Web: the `Drawables` getter is left out. Its value depends on how the
  inner surface handles `Add` and `Remove`, which is not part of this model.
- Web: the inner `NPlot.PlotSurface2D` is not part of this model:
  - its properties are a record;
  - the calls it receives are a log;
  - its defaults are a constructor parameter.
- Web.HttpRequest: the query string is the list of `AllKeys` with each key's
  value; repeated keys and null keys are not modelled.
- Floating point rounding: doubles are reals, with NaN and infinities only
  where the plots test for them.
