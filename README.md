# SciQLopPlots core, modelled in Dafny

SciQLopPlots is a Qt/QCustomPlot plotting library for space-physics time series, spectrograms
and projections, driven from Python. This project models its core in Dafny:

- value types: the plot range `SciQLopPlotRange`, the array views over NumPy buffers,
  colours, pens and markers;
- the resamplers that decimate a line graph, a curve or a colour map down to the plot's pixel
  budget;
- the plottable wrappers and graph components;
- the plots, their axes, their items (vertical spans, straight lines, shapes, time spans,
  tracers) and the groups of linked spans over a multi-plot panel;
- the x-axis synchroniser;
- the inspector and products trees;
- the drag-and-drop place holders and the keyboard and wheel event helpers.

A C++ object whose fields change is a Dafny `class` with `modifies` clauses. Pure computation is
a `function` with lemmas about it. A loop in the source becomes a `method` with its invariants,
proved against a specification function.

Common conventions (module `Common`):

- A `double` is `Double = Option<real>`, with `None` standing for NaN. Every comparison with NaN
  is false, and `std::min`/`std::max` keep their argument order.
- Integer division truncates toward zero, as in C++.
- Unsigned wrap-around is spelled out only where the source relies on it, for example an index
  difference that underflows.
- Functions the model treats as opaque are parameters of the members that need them: `log10`,
  `pow`, QCustomPlot's pixel and coordinate conversions and hit tests.

## Model

| member | source | states |
|---|---|---|
| `Common.SetNotifiedProperties` | src/SciQLopPlotInterface.cpp:25-36 | a change-only setter leaves the property equal to its argument, emits exactly one signal carrying it when the value differs and none otherwise, and calling it twice is calling it once |
| `Helpers.ApplyOr` | include/SciQLopPlots/helpers.hpp:26-40 | `qptr_apply_or` yields `func(ptr)` for a live pointer and the default (value-initialised or supplied) for a null one |
| `Helpers.Apply` | include/SciQLopPlots/helpers.hpp:43-47 | `qptr_apply` runs `func` exactly for a non-null pointer and leaves the state untouched otherwise |
| `Helpers.NullIgnoresFunc` | include/SciQLopPlots/helpers.hpp:26-47 | on a null pointer neither helper's result depends on `func` |
| `Helpers.ApplyIsApplyOr` | include/SciQLopPlots/helpers.hpp:34-47 | `qptr_apply` is `qptr_apply_or` whose default is the unchanged state |
| `PlotRange.NullRange` | include/SciQLopPlots/SciQLopPlotRange.hpp:35 | the default range has NaN bounds: it is null and not valid |
| `PlotRange.Make` | include/SciQLopPlots/SciQLopPlotRange.hpp:37-40 | from two numbers the bounds are the same two numbers, smaller first; a NaN start gives a null range, and a NaN stop gives `(start, start)` (the `std::min`/`std::max` argument order) |
| `PlotRange.FromDates` | include/SciQLopPlots/SciQLopPlotRange.hpp:42-45 | the date constructor stores the two epoch-second values as given |
| `PlotRange.RangeVar.constructor` | include/SciQLopPlots/SciQLopPlotRange.hpp:122-128 | a range variable starts holding exactly the range it is given, the value `sort()` then acts on in place |
| `PlotRange.RangeVar.Sort` | include/SciQLopPlots/SciQLopPlotRange.hpp:122-128 | `sort()` in place leaves the value `sorted()` of the old value |
| `PlotRange.IsValidIff` | include/SciQLopPlots/SciQLopPlotRange.hpp:63-69 | `is_valid` holds iff both bounds are numbers and they differ |
| `PlotRange.MakeIsNormalised` | include/SciQLopPlots/SciQLopPlotRange.hpp:37-40 | the two-number constructor always yields `start <= stop` and does not depend on the argument order |
| `PlotRange.MakeOfNumbers` | include/SciQLopPlots/SciQLopPlotRange.hpp:37-40 | on two numbers the constructor gives `(a, b)` when `a <= b` and `(b, a)` otherwise |
| `PlotRange.ContainsIff` | include/SciQLopPlots/SciQLopPlotRange.hpp:65 | `contains(v)` holds iff the range is not null and `start <= v <= stop`, and then the range is ordered |
| `PlotRange.IntersectsSymmetric` | include/SciQLopPlots/SciQLopPlotRange.hpp:76-79 | `a.intersects(b)` iff `b.intersects(a)` |
| `PlotRange.UnionContainsBoth` | include/SciQLopPlots/SciQLopPlotRange.hpp:86-89 | the union of two ordered ranges contains both and is ordered |
| `PlotRange.IntersectionInBoth` | include/SciQLopPlots/SciQLopPlotRange.hpp:81-84 | the intersection of two intersecting ordered ranges is contained in both and is ordered |
| `PlotRange.DisjointIntersectionIsTheGap` | include/SciQLopPlots/SciQLopPlotRange.hpp:81-84 | for two disjoint ordered ranges the constructor re-orders the swapped bounds, so the "intersection" is the gap between them |
| `PlotRange.ShiftKeepsSize` | include/SciQLopPlots/SciQLopPlotRange.hpp:98-106 | `+ v` shifts both bounds by `v`; `+` and `-` keep `size()` |
| `PlotRange.ShiftRoundTrip` | include/SciQLopPlots/SciQLopPlotRange.hpp:98-106 | `(r + v) - v == r` on an ordered range |
| `PlotRange.AboutCenter` | include/SciQLopPlots/SciQLopPlotRange.hpp:108-120 | a range built as `center -/+ h` is centred on `center`, of size `2|h|`, and ordered |
| `PlotRange.TimesKeepsCenter` | include/SciQLopPlots/SciQLopPlotRange.hpp:108-113 | `* v` keeps `center()`, multiplies `size()` by `|v|`, and yields an ordered range |
| `PlotRange.DivideKeepsCenter` | include/SciQLopPlots/SciQLopPlotRange.hpp:115-120 | `/ v` (v non-zero) keeps `center()`, divides `size()` by `|v|`, and yields an ordered range |
| `PlotRange.SortedOrdersBounds` | include/SciQLopPlots/SciQLopPlotRange.hpp:122-135 | `sorted()` of a non-null range is ordered, holds the same two bounds, and sorting twice is sorting once |
| `PlotRange.FromDatesDoesNotReorder` | include/SciQLopPlots/SciQLopPlotRange.hpp:37-45 | the date constructor keeps a reversed pair reversed, where the two-number one orders it |
| `PlotRange.NullNeverEqual` | include/SciQLopPlots/SciQLopPlotRange.hpp:91-96 | a range with a NaN bound is never `==` to anything, itself included |
| `PlotRange.SetRangeNotifiedProperties` | src/SciQLopGraphInterface.cpp:34-41 | a differing range is stored and emitted once; an equal one changes nothing; repeating a call is a no-op for a range of numbers, while a NaN range is emitted again on every call |
| `AxisRange.Default` | include/SciQLopPlots/axis_range.hpp:34-36 | the default range is `(0, 0)` |
| `AxisRange.RangeVar.Init` | include/SciQLopPlots/axis_range.hpp:36 | the default constructor leaves `(0, 0)` |
| `AxisRange.RangeVar.constructor` | include/SciQLopPlots/axis_range.hpp:38-40 | the `(lower, upper)` and copy constructors store the bounds unchanged |
| `AxisRange.RangeVar.Assign` | include/SciQLopPlots/axis_range.hpp:42-47 | `operator=` copies both bounds |
| `AxisRange.RangeVar.ScaleBy` | include/SciQLopPlots/axis_range.hpp:52-59 | `*=` leaves the range rescaled about its centre by the factor |
| `AxisRange.RangeVar.AddOffset` | include/SciQLopPlots/axis_range.hpp:75-80 | `+=` shifts both bounds by the offset |
| `AxisRange.RangeVar.SubtractOffset` | include/SciQLopPlots/axis_range.hpp:89-94 | `-=` shifts both bounds back by the offset |
| `AxisRange.RangeVar.Times` | include/SciQLopPlots/axis_range.hpp:61-66 | the const `*` returns the scaled copy (same centre, width times `abs(factor)`) and leaves the operand unchanged |
| `AxisRange.RangeVar.Plus` | include/SciQLopPlots/axis_range.hpp:82-87 | the const `+` returns a copy with the same width and the centre moved by the offset; subtracting the offset gives the operand back |
| `AxisRange.RangeVar.Minus` | include/SciQLopPlots/axis_range.hpp:96-101 | the const `-` returns a copy with the same width and the centre moved back by the offset; adding it gives the operand back |
| `AxisRange.ScaleKeepsCenter` | include/SciQLopPlots/axis_range.hpp:49-59 | `*= f` keeps `center()` and makes `width()` equal `width() * abs(f)` |
| `AxisRange.ScaleOrdersBounds` | include/SciQLopPlots/axis_range.hpp:52-59 | a non-negative factor yields `first <= second` |
| `AxisRange.ShiftRoundTrip` | include/SciQLopPlots/axis_range.hpp:75-101 | `+=` then `-=` by the same offset (and the reverse) restores the range, and both keep `width()` |
| `AxisRange.EqualIff` | include/SciQLopPlots/axis_range.hpp:68-73 | `==` holds exactly for equal bounds and `!=` is its negation |
| `View.Component` | include/SciQLopPlots/view.hpp:76-79 | `component(axis)` returns the entry indexed by the axis, tagged with that axis |
| `View.BroadcastAdd` | include/SciQLopPlots/view.hpp:98-102 | the non-const `+` shifts every component of the coordinate array in place |
| `View.Zoom` | include/SciQLopPlots/view.hpp:221-227 | `zoom(factor, axis)` sets that axis to its range scaled about its centre and leaves the other axes |
| `View.ZoomAbout` | include/SciQLopPlots/view.hpp:229-237 | `zoom(center, factor, axis)` maps each bound `x` to `factor*x + center*(1-factor)` on that axis only |
| `View.ZoomAtPixel` | include/SciQLopPlots/view.hpp:239-244 | zooming at a pixel zooms about the data value under that pixel, on the pixel's axis |
| `View.MoveBy` | include/SciQLopPlots/view.hpp:246-253 | `move(delta, axis)` shifts that axis by `width * delta` and leaves the others |
| `View.MoveData` | include/SciQLopPlots/view.hpp:255-260 | `move(single_data_coordinate)` shifts only the axis the coordinate names |
| `View.MoveDataND` | include/SciQLopPlots/view.hpp:263-271 | `move(data_coordinates)` shifts x by the first component and y by the second; z is untouched |
| `View.MovePixels` | include/SciQLopPlots/view.hpp:273-279 | a pixel move shifts each axis by minus the pixel distance converted to data units |
| `View.Distance2` | include/SciQLopPlots/view.hpp:187-193 | the 2-D pixel distance has one data distance per axis: the x (y) component is the x (y) scale times the x (y) pixel delta |
| `View.ZoomAboutFixesCenter` | include/SciQLopPlots/view.hpp:229-237 | the zoom centre is a fixed point of the zoom map, and the width scales by `abs(factor)` |
| `View.ZoomAboutKeepsRelativePosition` | include/SciQLopPlots/view.hpp:229-237 | each bound's offset from the centre is multiplied by the factor |
| `View.ZoomAboutCenterIsScale` | include/SciQLopPlots/view.hpp:221-237 | on an ordered range, zooming about its own centre equals `operator*` |
| `View.MoveByWidthsProperties` | include/SciQLopPlots/view.hpp:246-253 | moving by `delta` widths shifts the centre by `width * delta`, keeps the width, and moving by `-delta` restores the range |
| `View.DistanceIsScaledDelta` | include/SciQLopPlots/view.hpp:178-185 | with an affine pixel map, `distance` is the scale times the pixel delta, whatever the origin |
| `View.CoordinateOpsRoundTrip` | include/SciQLopPlots/view.hpp:104-129 | the const `+ o` then `- o` gives the coordinates back, negation is an involution, and neither changes the dimension |
| `View.PixelNegationInvolutive` | include/SciQLopPlots/view.hpp:137-142 | pixel negation is an involution that keeps the dimension |
| `UniqueNames.Decimal` | include/SciQLopPlots/unique_names_factory.hpp:43 | `QString::number` of a non-negative integer is never empty and has one digit exactly below 10 |
| `UniqueNames.DecimalInjective` | include/SciQLopPlots/unique_names_factory.hpp:43 | distinct counters give distinct decimal strings |
| `UniqueNames.CandidatesDistinct` | include/SciQLopPlots/unique_names_factory.hpp:39-44 | the candidates `prefix`, `prefix+"0"`, `prefix+"1"`, ... are pairwise distinct |
| `UniqueNames.TriedSize` | include/SciQLopPlots/unique_names_factory.hpp:39-44 | the first `n` candidates form a set of exactly `n` names |
| `UniqueNames.Factory.constructor` | include/SciQLopPlots/unique_names_factory.hpp:29-31 | the factory starts with no prefix registered |
| `UniqueNames.Factory.UniqueName` | include/SciQLopPlots/unique_names_factory.hpp:33-47 | the name returned is fresh for its prefix, is the first unused candidate, is the prefix itself on first use, the prefix's used set grows by exactly that name, and every other prefix's set is unchanged |
| `UniqueNames.FirstCandidates` | include/SciQLopPlots/unique_names_factory.hpp:39-44 | the candidate order starts `prefix`, `prefix+"0"` and reaches `prefix+"10"` at the twelfth try |
| `QcpEnums.MarkerRoundTrip` | include/SciQLopPlots/qcp_enums.hpp:27-105 | every marker shape but `Dot` survives `to_qcp` then `from_qcp`; `Dot` comes back as `NoMarker` |
| `QcpEnums.UnknownScatterShapes` | include/SciQLopPlots/qcp_enums.hpp:66-105 | `from_qcp` yields `NoMarker` exactly for `ssNone`, `ssDot`, `ssPeace` and `ssPixmap` |
| `QcpEnums.MarkerToQcpInjective` | include/SciQLopPlots/qcp_enums.hpp:27-64 | no two marker shapes share a QCustomPlot scatter shape |
| `QcpEnums.LineStyleRoundTrip` | include/SciQLopPlots/qcp_enums.hpp:107-139 | every line style but `NoLine` survives the round trip, `NoLine` goes to `lsNone`, `lsImpulse` comes back as `NoLine`, and every other QCustomPlot style round-trips the other way |
| `QcpEnums.GradientRoundTrip` | include/SciQLopPlots/qcp_enums.hpp:141-206 | the twelve gradient presets round-trip in both directions |
| `QcpEnums.TerminationRoundTrip` | include/SciQLopPlots/qcp_enums.hpp:209-263 | the line terminations round-trip in both directions |
| `PlotDispatch.MergeKwargs` | SciQLopPlots/__init__.py:15-19 | the loop over the extra keyword arguments computes the merged dictionary |
| `PlotDispatch.MergedProperties` | SciQLopPlots/__init__.py:15-19 | merging never overwrites a present key, adds every absent key whose value is not `None`, and adds nothing else |
| `PlotDispatch.WithoutNone` | SciQLopPlots/__init__.py:23 | the comprehension keeps exactly the entries whose value is not `None`, with their values |
| `PlotDispatch.NoGraphTypeIsLine` | SciQLopPlots/__init__.py:34 | `plot` without a graph type behaves as with `GraphType.Line` |
| `PlotDispatch.PlotRouting` | SciQLopPlots/__init__.py:33-47 | the arity and graph-type routing: parametric curves with 1, 2 or 4 arguments first, one argument via `plot_func`, two arguments only for lines, three always to `colormap`, anything else calls nothing |
| `PlotDispatch.NamedArgumentsMerge` | SciQLopPlots/__init__.py:35 | `name`, `labels` and `colors` are added only when absent and not `None`; explicit keyword arguments win |
| `PlotDispatch.PlotFuncDropsNone` | SciQLopPlots/__init__.py:22-31 | `plot_func` passes only the callback and non-`None` keyword arguments, and calls nothing for scatter |
| `GraphComponent.Component.constructor` | src/SciQLopGraphComponent.cpp:24-43 | a component starts unselected around the plottable it is given |
| `GraphComponent.Component.SetPen` | include/SciQLopPlots/Plotables/SciQLopGraphComponent.hpp:118-122 | `set_pen` replaces the plottable's pen when the guarded pointer is live and does nothing otherwise |
| `GraphComponent.Component.SetColor` | include/SciQLopPlots/Plotables/SciQLopGraphComponent.hpp:124-132 | `set_color` changes only the colour of the live plottable's pen |
| `GraphComponent.Component.SetMarkerShape` | include/SciQLopPlots/Plotables/SciQLopGraphComponent.hpp:134-148 | `set_marker_shape` stores the mapped scatter shape on a graph or a curve and ignores other kinds or a dead pointer |
| `GraphComponent.Component.SetMarkerPen` | include/SciQLopPlots/Plotables/SciQLopGraphComponent.hpp:150-164 | `set_marker_pen` stores the scatter pen on a graph or a curve and ignores other kinds or a dead pointer |
| `GraphComponent.Component.LineWidth` | include/SciQLopPlots/Plotables/SciQLopGraphComponent.hpp:199-204 | the line width is the pen width of the live plottable and 0 without one |
| `GraphComponent.Component.Visible` | include/SciQLopPlots/Plotables/SciQLopGraphComponent.hpp:206-211 | a component is visible exactly when its plottable is live and visible |
| `GraphComponent.ScatterShapeRoundTrip` | include/SciQLopPlots/Plotables/SciQLopGraphComponent.hpp:27-67 | the shapes the component maps survive the round trip through QCustomPlot; every other shape becomes `ssNone` and reads back as `NoMarker` |
| `GraphComponent.ScatterStyleUnknown` | include/SciQLopPlots/Plotables/SciQLopGraphComponent.hpp:27-67 | reading back yields `NoMarker` exactly for the scatter shapes outside the six the component knows |
| `GraphComponent.MarkerShapeIsLost` | include/SciQLopPlots/Plotables/SciQLopGraphComponent.hpp:176-186 | as written, the marker shape of a graph reads back as `NoMarker` after setting `Circle`, while the corrected reader gives `Circle` |
| `GraphComponent.MarkerRoundTripIntended` | include/SciQLopPlots/Plotables/SciQLopGraphComponent.hpp:134-197 | with the corrected readers, a marker shape and a marker pen set on a graph or a curve read back as set |
| `GraphComponent.MarkerPenIsLost` | include/SciQLopPlots/Plotables/SciQLopGraphComponent.hpp:188-197 | as written, the marker pen of a curve does not read back as the pen just set |
| `GraphComponent.MarkerSettersKeepPen` | include/SciQLopPlots/Plotables/SciQLopGraphComponent.hpp:134-164 | setting the marker shape or pen leaves the line pen, the visibility and the other scatter field alone |
| `ArrayViews.SizeSub` | include/SciQLopPlots/Python/PythonInterface.hpp:92 | `std::size_t` subtraction is exact without underflow and wraps modulo 2^64 below zero |
| `ArrayViews.MakeView` | include/SciQLopPlots/Python/PythonInterface.hpp:65-70 | the `ArrayView2D` constructor raises a zero column count to 1 and keeps the other fields |
| `ArrayViews.FlatIndexInBounds` | include/SciQLopPlots/Python/PythonInterface.hpp:72-82 | on a well-formed view, `operator[]` reads inside the buffer, in both layouts |
| `ArrayViews.FlatIndexInjective` | include/SciQLopPlots/Python/PythonInterface.hpp:72-82 | distinct `(row, column)` pairs of a well-formed view read distinct buffer cells |
| `ArrayViews.SubView` | include/SciQLopPlots/Python/PythonInterface.hpp:84-90 | `view(first, last)` shares the buffer, and a `last_row` of 0 means all rows |
| `ArrayViews.FlatSize` | include/SciQLopPlots/Python/PythonInterface.hpp:92 | `flat_size` is the row count times the column count when that does not wrap |
| `ArrayViews.FlatSizeInRange` | include/SciQLopPlots/Python/PythonInterface.hpp:92 | the wrapped row difference times the columns equals the true flat size when that fits |
| `ArrayViews.FlatSizeOfWellFormed` | include/SciQLopPlots/Python/PythonInterface.hpp:92 | the flat size of a well-formed view never exceeds its buffer |
| `ArrayViews.BufferView` | include/SciQLopPlots/Python/PythonInterface.hpp:164-179 | `PyBuffer::view` is null exactly for an invalid buffer; otherwise it spans all rows by default, has 1 column for a 1-D buffer and keeps the layout |
| `ArrayViews.UpperBoundSpec` | include/SciQLopPlots/Python/Views.hpp:57-58 | the `std::upper_bound` position is within the data |
| `ArrayViews.LowerBoundSpec` | include/SciQLopPlots/Python/Views.hpp:59-60 | the `std::lower_bound` position is within the data |
| `ArrayViews.UpperBoundUnique` | include/SciQLopPlots/Python/Views.hpp:57-58 | any partition point with no greater element before it and only greater elements after it is the upper bound |
| `ArrayViews.LowerBoundUnique` | include/SciQLopPlots/Python/Views.hpp:59-60 | any partition point with only smaller elements before it is the lower bound |
| `ArrayViews.UpperBound` | include/SciQLopPlots/Python/Views.hpp:57-58 | binary search on sorted data returns the upper bound: nothing before it exceeds `v`, everything from it on does |
| `ArrayViews.LowerBound` | include/SciQLopPlots/Python/Views.hpp:59-60 | binary search on sorted data returns the lower bound: everything before it is below `v`, nothing from it on is |
| `ArrayViews.UpperBoundPartition` | include/SciQLopPlots/Python/Views.hpp:57-58 | on sorted data the upper bound partitions it by `v < x[k]` |
| `ArrayViews.LowerBoundPartition` | include/SciQLopPlots/Python/Views.hpp:59-60 | on sorted data the lower bound partitions it by `x[k] < v` |
| `ArrayViews.BoundsOrdered` | include/SciQLopPlots/Python/Views.hpp:55-63 | for `a < b` the upper bound of `a` does not pass the lower bound of `b` |
| `ArrayViews.XYViewByIndex` | include/SciQLopPlots/Python/Views.hpp:48-53 | the index constructor views x from `start` to `stop`, all rows when `stop` is 0, and x is null exactly for an invalid buffer |
| `ArrayViews.WindowAsWritten` | include/SciQLopPlots/Python/Views.hpp:55-63 | the window the value constructor computes has both ends within the data but is not necessarily ordered |
| `ArrayViews.Window` | include/SciQLopPlots/Python/Views.hpp:55-63 | the corrected window is an ordered index range within the data |
| `ArrayViews.XYViewByRange` | include/SciQLopPlots/Python/Views.hpp:55-63 | the value constructor views x and y over the corrected window, each null exactly for an invalid buffer |
| `ArrayViews.WindowSelectsInterior` | include/SciQLopPlots/Python/Views.hpp:55-63 | on sorted x, index `k` is inside the corrected window exactly when `x_start < x[k] < x_stop` |
| `ArrayViews.WindowAsWrittenAgrees` | include/SciQLopPlots/Python/Views.hpp:55-63 | for `x_start < x_stop` and data reaching `x_stop`, the window as written equals the corrected one |
| `ArrayViews.WindowBeforeDataSelectsAll` | include/SciQLopPlots/Python/Views.hpp:55-63 | a range entirely before the data selects every sample as written and none when corrected |
| `ArrayViews.EmptyRangeWraps` | include/SciQLopPlots/Python/Views.hpp:55-63 | as written, `x_start == x_stop` on a sample gives `start > stop` and a flat size of 2^64 - 1; corrected, an empty window |
| `Views.InitViews` | include/SciQLopPlots/Python/Views.hpp:80-94 | `_init_views` windows x and z over the same rows, y too when it is 2-D, and keeps the whole of a 1-D y |
| `Views.XYZViewByIndex` | include/SciQLopPlots/Python/Views.hpp:97-101 | the index constructor yields a valid view starting at `start` |
| `Views.RangeView` | include/SciQLopPlots/Python/Views.hpp:103-111 | the value constructor windows x, z and a 2-D y over the corrected window of x |
| `Views.XYZViewByRange` | include/SciQLopPlots/Python/Views.hpp:103-111 | binary search on sorted x builds the range view |
| `Views.YShape` | include/SciQLopPlots/Python/Views.hpp:130-137 | a 1-D y has shape `(1, n)`; a 2-D y reports its rows and columns |
| `Views.ZShape` | include/SciQLopPlots/Python/Views.hpp:139-142 | z reports its windowed rows and its columns |
| `Views.YRow` | include/SciQLopPlots/Python/Views.hpp:115-122 | a row of y has `y_shape().second` values |
| `Views.OneDimensionalYIsShared` | include/SciQLopPlots/Python/Views.hpp:115-122 | with a 1-D y, `y(i, j)` ignores the row and reads entry `j` |
| `Views.NanSafeMinProperties` | include/SciQLopPlots/Python/Views.hpp:145-156 | `_nan_safe_min` returns one of its arguments, NaN only when both are, no larger than any non-NaN argument, and is symmetric |
| `Views.NanSafeMaxProperties` | include/SciQLopPlots/Python/Views.hpp:158-169 | `_nan_safe_max` returns one of its arguments, NaN only when both are, no smaller than any non-NaN argument, and is symmetric |
| `Views.FirstValueAt` | include/SciQLopPlots/Python/Views.hpp:174-182 | the first non-NaN value of a row is the one after its NaN prefix |
| `Views.LastValueAt` | include/SciQLopPlots/Python/Views.hpp:184-193 | the last non-NaN value of a row is the one before its NaN suffix |
| `Views.FirstLastValueProperties` | include/SciQLopPlots/Python/Views.hpp:171-196 | a row's first and last values are NaN exactly when the whole row is, and otherwise are entries of the row |
| `Views.SortedRowBounds` | include/SciQLopPlots/Python/Views.hpp:171-196 | on a row sorted apart from NaNs, the first value is a lower and the last value an upper bound of every number in it |
| `Views.FirstNumberExists` | include/SciQLopPlots/Python/Views.hpp:177-181 | a row holding a number has a first one, before which all is NaN |
| `Views.LastNumberExists` | include/SciQLopPlots/Python/Views.hpp:187-191 | a row holding a number has a last one, after which all is NaN |
| `Views.LeftScanLastReadAsWritten` | include/SciQLopPlots/Python/Views.hpp:175-181 | the forward scan as written reads at most one index past the row |
| `Views.LeftScanAsWrittenReadsPastRow` | include/SciQLopPlots/Python/Views.hpp:175-181 | the forward scan as written reads index `n_cols` exactly when the whole row is NaN, and otherwise stops on the first value |
| `Views.LeftScanCounterexample` | include/SciQLopPlots/Python/Views.hpp:175-181 | on a one-column row holding NaN, the forward scan reads column 1 |
| `Views.RowBounds` | include/SciQLopPlots/Python/Views.hpp:171-196 | the per-row `y_bounds` folds the row's first value into `min` and its last into `max`, NaN-safely |
| `Views.YRows` | include/SciQLopPlots/Python/Views.hpp:198-214 | every row of y, in order |
| `Views.YBounds` | include/SciQLopPlots/Python/Views.hpp:198-214 | `y_bounds(v)` is the NaN-safe fold of the row bounds over every row |
| `Views.FoldBoundsEncloseRows` | include/SciQLopPlots/Python/Views.hpp:198-214 | the folded bounds are NaN exactly when every row's is, and otherwise enclose every row's first and last value |
| `Resampling.ToSizeT` | src/SciQLopLineGraphResampler.cpp:41 | a cast to `std::size_t` keeps a value that fits and wraps a negative one modulo 2^64 |
| `Resampling.BoundsEnclose` | include/SciQLopPlots/Plotables/Resamplers/AbstractResampler.hpp:119-127 | `_bounds` of an empty buffer is (NaN, NaN); on sorted data its bounds are ordered and enclose every value |
| `Resampling.Rows` | include/SciQLopPlots/Python/Views.hpp:69 | `std::size(view)` counts the rows of the x window |
| `Resampling.Xs` | include/SciQLopPlots/Python/Views.hpp:65 | the keys of a view are `view.x(i)`, one per row |
| `Resampling.Ys` | include/SciQLopPlots/Python/Views.hpp:67 | a column of values is `view.y(i, column)`, one per row |
| `Resampling.CopyData` | include/SciQLopPlots/Plotables/Resamplers/AbstractResampler.hpp:33-41 | `copy_data` yields one point per row, pairing `x(i)` with `y(i, column)` |
| `Resampling.MakeSeriesView` | include/SciQLopPlots/Plotables/Resamplers/AbstractResampler.hpp:59-62 | `make_view` builds the views of the visible window |
| `Resampling.SeriesWindow` | include/SciQLopPlots/Plotables/Resamplers/AbstractResampler.hpp:59-62 | the view of a line's buffers over the visible range: x and y share the corrected window and it has as many rows as that window |
| `Resampling.Resampler.constructor` | src/AbstractResampler.cpp:29-37 | a resampler starts with its line count, the parent plot's size, no log axes, the default `QCPRange` (0, 0) as plot range, and one resampling queued |
| `Resampling.Resampler.Resample` | src/AbstractResampler.cpp:39-43 | `resample` stores the new plot range and queues one callback, leaving the data alone |
| `Resampling.Resampler.SetNextPlotRange` | include/SciQLopPlots/Plotables/Resamplers/AbstractResampler.hpp:113-117 | only the plot range changes |
| `Resampling.Resampler.SetData` | include/SciQLopPlots/Plotables/Resamplers/AbstractResampler.hpp:132-143 | `setData` replaces the pending data, with its bounds and `new_data` set, and queues a resampling; the current data is untouched |
| `Resampling.Resampler.SetXScaleLog` | include/SciQLopPlots/Plotables/Resamplers/AbstractResampler.hpp:145-152 | only the x log flag changes, and a resampling is queued |
| `Resampling.Resampler.SetYScaleLog` | include/SciQLopPlots/Plotables/Resamplers/AbstractResampler.hpp:154-159 | only the y log flag changes, and a resampling is queued |
| `Resampling.Resampler.SetPlotSize` | include/SciQLopPlots/Plotables/Resamplers/AbstractResampler.hpp:181-186 | only the plot size changes, and a resampling is queued |
| `Resampling.Resampler.SetLineCount` | include/SciQLopPlots/Plotables/Resamplers/AbstractResampler.hpp:221 | only the line count changes |
| `Resampling.Resampler.Callback` | include/SciQLopPlots/Plotables/Resamplers/AbstractResampler.hpp:93-111 | the callback makes the pending data current, clears the pending `new_data` flag and hands the data and plot information to `_resample_impl` |
| `Resampling.Resampler.GetData` | include/SciQLopPlots/Plotables/Resamplers/AbstractResampler.hpp:167-179 | `get_data` returns x and y, and z for a 2-D resampler |
| `LineResampler.Scan` | include/SciQLopPlots/Plotables/Resamplers/SciQLopLineGraphResampler.hpp:50-56 | the inner bucket loop never moves backwards nor past the view |
| `LineResampler.ScanBucket` | include/SciQLopPlots/Plotables/Resamplers/SciQLopLineGraphResampler.hpp:44-56 | a bucket ends at or after its start, within the view |
| `LineResampler.BucketStarts` | include/SciQLopPlots/Plotables/Resamplers/SciQLopLineGraphResampler.hpp:42-60 | one start index per bucket, plus the index after the last, beginning at the view's start |
| `LineResampler.ScanProperties` | include/SciQLopPlots/Plotables/Resamplers/SciQLopLineGraphResampler.hpp:47-56 | a bucket's minimum and maximum are NaN exactly when every value it consumed is NaN, and otherwise enclose each consumed number and are each the running value or one of the consumed values (`fmin`/`fmax` skip NaN) |
| `LineResampler.BucketsLength` | include/SciQLopPlots/Plotables/Resamplers/SciQLopLineGraphResampler.hpp:38-60 | the decimation writes exactly two points per bucket |
| `LineResampler.BucketAt` | include/SciQLopPlots/Plotables/Resamplers/SciQLopLineGraphResampler.hpp:42-60 | bucket `b` writes `(start, min)` then `(start + dx/2, max)` of the points between its start index and the next bucket's |
| `LineResampler.BucketMinMax` | include/SciQLopPlots/Plotables/Resamplers/SciQLopLineGraphResampler.hpp:42-60 | the two points of each bucket are its minimum and maximum value: NaN exactly for an all-NaN bucket, and otherwise enclosing every number in it, each being one of the bucket's values |
| `LineResampler.BucketStartPastEnd` | include/SciQLopPlots/Plotables/Resamplers/SciQLopLineGraphResampler.hpp:45 | for x = [0, 1, 2, 3, 10] and four points, the second bucket starts past the end of the five-point view |
| `LineResampler.ScanLoop` | include/SciQLopPlots/Plotables/Resamplers/SciQLopLineGraphResampler.hpp:47-56 | the `while` loop of one bucket computes the scan that `Scan` specifies |
| `LineResampler.Decimate` | include/SciQLopPlots/Plotables/Resamplers/SciQLopLineGraphResampler.hpp:31-62 | the bucket loop yields `dest_size` points, bucket by bucket, with `dx = 2 (x_1 - x_0) / dest_size` |
| `LineResampler.FillBuckets` | include/SciQLopPlots/Plotables/Resamplers/SciQLopLineGraphResampler.hpp:38-60 | the loop over the buckets fills the destination array with every bucket's two points in order |
| `LineResampler.NextBucket` | include/SciQLopPlots/Plotables/Resamplers/SciQLopLineGraphResampler.hpp:44-58 | one bucket's two points followed by the remaining buckets are all the buckets from its start |
| `LineResampler.StoreBucket` | include/SciQLopPlots/Plotables/Resamplers/SciQLopLineGraphResampler.hpp:57-58 | the two writes append the bucket's points and keep what was written before |
| `LineResampler.Resample` | include/SciQLopPlots/Plotables/Resamplers/SciQLopLineGraphResampler.hpp:31-62 | `resample(view, column_index)` decimates the view's keys and that column |
| `LineResampler.BudgetEven` | src/SciQLopLineGraphResampler.cpp:41 | the budget `4 * width` as a `std::size_t` is even, as the decimation needs |
| `LineResampler.ResampleImpl` | src/SciQLopLineGraphResampler.cpp:34-62 | nothing is emitted for a buffer without data, an empty x, a zero budget or an empty window; otherwise one series per line, decimated to the budget when the window is larger and x is linear, copied otherwise |
| `CurveResampler.CurveCopyData` | src/SciQLopCurveResampler.cpp:24-35 | `curve_copy_data` yields `x_size` points, point `i` being `(i, x[i], *(y + i * y_incr))` |
| `CurveResampler.LineOffsetBound` | src/SciQLopCurveResampler.cpp:46 | line `k`'s values start at `k * size(x)` and stay inside a buffer of `line_count * size(x)` values |
| `CurveResampler.ResampleImpl` | src/SciQLopCurveResampler.cpp:37-51 | a curve is emitted exactly for a valid non-empty x with new data; then one line per column, line `k` pairing the sample index and `x[i]` with `y[k * size(x) + i]` |
| `ColorMapResampler.CellIndexInGrid` | src/SciQLopColorMapResampler.cpp:32-40 | the cell position `value_index * key_size + key_index` and the count position `i * n_y + j` of a grid cell are inside the grid |
| `ColorMapResampler.CellIndexInjective` | src/SciQLopColorMapResampler.cpp:32-40 | distinct grid cells have distinct cell positions and distinct count positions |
| `ColorMapResampler.AddCell` | src/SciQLopColorMapResampler.cpp:92-93 | adding a z value to one cell keeps the grid size |
| `ColorMapResampler.BumpCount` | src/SciQLopColorMapResampler.cpp:94 | bumping one count keeps the grid size |
| `ColorMapResampler.CellsAfter` | src/SciQLopColorMapResampler.cpp:86-95 | a sequence of `_average_value` calls keeps the grid size |
| `ColorMapResampler.CountsAfter` | src/SciQLopColorMapResampler.cpp:86-95 | a sequence of `_average_value` calls keeps the count array's size |
| `ColorMapResampler.SumFromNaN` | src/SciQLopColorMapResampler.cpp:92-93 | a cell's sum is NaN exactly when its start or one of its z values is |
| `ColorMapResampler.CellsAfterSums` | src/SciQLopColorMapResampler.cpp:86-95 | after any sequence of writes, each cell holds its initial value plus the z values written to it, in order |
| `ColorMapResampler.CountsAfterCounts` | src/SciQLopColorMapResampler.cpp:94 | after any sequence of writes, each `uint16_t` count is its initial value plus the number of writes to its cell, modulo 2^16 |
| `ColorMapResampler.CellsAfterConcat` | src/SciQLopColorMapResampler.cpp:86-95 | applying writes `a` then `b` is applying `a + b` |
| `ColorMapResampler.SamplesOf` | include/SciQLopPlots/Python/Views.hpp:113-142 | the samples of a spectrogram window have one x and one row of z per point and as many y and z columns as z |
| `ColorMapResampler.SamplesOfView` | include/SciQLopPlots/Python/Views.hpp:113-124 | the samples are exactly the view's `x(i)`, `y(i, j)` and `z(i, j)` |
| `ColorMapResampler.YAdvance` | src/SciQLopColorMapResampler.cpp:107-113 | the inner `while` of `_y_loop` stops at a row of the y axis at or above where it started |
| `ColorMapResampler.YAdvanceProperties` | src/SciQLopColorMapResampler.cpp:107-113 | that `while` writes only the current destination column, at the rows it passes, bottom to top |
| `ColorMapResampler.YSweepProperties` | src/SciQLopColorMapResampler.cpp:104-115 | the rest of `_y_loop` from a source row on writes only the current column, at rows from the current one, bottom to top |
| `ColorMapResampler.YSweepUnfold` | src/SciQLopColorMapResampler.cpp:104-115 | one source row contributes its advance, then its own `_average_value` |
| `ColorMapResampler.YLoopWritesProperties` | src/SciQLopColorMapResampler.cpp:98-116 | `_y_loop` writes one destination column inside the y axis, moving up the rows, and writes every source row's z value at least once |
| `ColorMapResampler.XAdvance` | src/SciQLopColorMapResampler.cpp:134-146 | the inner `while` of `_x_loop` stops at a column of the x axis at or right of where it started |
| `ColorMapResampler.XAdvanceProperties` | src/SciQLopColorMapResampler.cpp:134-146 | that `while` writes only the columns it passes, left to right, inside the y axis |
| `ColorMapResampler.XAdvanceUnfold` | src/SciQLopColorMapResampler.cpp:134-146 | one step of that `while` runs the y loop into the current column only under the gap criterion, then moves right |
| `ColorMapResampler.XSweepProperties` | src/SciQLopColorMapResampler.cpp:130-150 | the rest of `_x_loop` writes columns from the current one on, left to right, inside the grid |
| `ColorMapResampler.XLoopWritesProperties` | src/SciQLopColorMapResampler.cpp:119-151 | every write of `_x_loop` lands inside the `n_x` by `n_y` grid, columns only move right, and at least one value per z element is written |
| `ColorMapResampler.AverageValue` | src/SciQLopColorMapResampler.cpp:86-95 | `_average_value` adds `z(x_src, y_src)` to its destination cell and bumps that cell's count |
| `ColorMapResampler.AppliedStep` | src/SciQLopColorMapResampler.cpp:86-95 | one more `_average_value` extends the writes applied so far by that write |
| `ColorMapResampler.AppliedConcat` | src/SciQLopColorMapResampler.cpp:86-95 | applying more writes after those done is applying their concatenation |
| `ColorMapResampler.YAdvanceLoop` | src/SciQLopColorMapResampler.cpp:107-113 | the inner `while` of `_y_loop` performs exactly the writes `YAdvance` lists and returns the row it stops at |
| `ColorMapResampler.YLoop` | src/SciQLopColorMapResampler.cpp:98-116 | `_y_loop` performs exactly the writes `YLoopWrites` lists, in order |
| `ColorMapResampler.XAdvanceLoop` | src/SciQLopColorMapResampler.cpp:134-146 | the inner `while` of `_x_loop` performs exactly the writes `XAdvance` lists and returns the column it stops at |
| `ColorMapResampler.XAdvanceStep` | src/SciQLopColorMapResampler.cpp:134-146 | one pass of that `while` keeps its invariant: the writes done plus those to come make up the whole advance |
| `ColorMapResampler.FillColumn` | src/SciQLopColorMapResampler.cpp:136-144 | the gap test runs the y loop of the source column into the current destination column, or writes nothing |
| `ColorMapResampler.XLoop` | src/SciQLopColorMapResampler.cpp:119-151 | `_x_loop` performs exactly the writes `XLoopWrites` lists, in order |
| `ColorMapResampler.Divide` | src/SciQLopColorMapResampler.cpp:62-83 | `_divide` replaces each cell by its sum over its own count, or NaN for a zero count |
| `ColorMapResampler.CopyAndAverage` | src/SciQLopColorMapResampler.cpp:153-163 | on a zero-filled grid, every cell ends as the mean of the z values `_x_loop` wrote to it |
| `ColorMapResampler.LinearRange` | src/SciQLopColorMapResampler.cpp:53-58 | the linear `_generate_range` yields `n` values |
| `ColorMapResampler.LogRange` | src/SciQLopColorMapResampler.cpp:47-52 | the logarithmic `_generate_range` yields `n` values |
| `ColorMapResampler.LinearRangeProperties` | src/SciQLopColorMapResampler.cpp:53-58 | a linear range over `start < end` starts at `start`, increases strictly and stays below `end` |
| `ColorMapResampler.LogRangeSingle` | src/SciQLopColorMapResampler.cpp:49 | a one-value log range is NaN, because its exponent step divides by zero |
| `ColorMapResampler.LogRangeIncreases` | src/SciQLopColorMapResampler.cpp:47-52 | a log range over bounds with increasing logarithms starts at `start` and increases strictly |
| `ColorMapResampler.LogRangeAt` | src/SciQLopColorMapResampler.cpp:49-51 | value `i` of a log range is `start * 10^(i * step)`, NaN without a step |
| `ColorMapResampler.Axes` | src/SciQLopColorMapResampler.cpp:165-174 | `_generate_axes` yields `min(max_x, size)` x values and `min(max_y, y columns)` y values |
| `ColorMapResampler.GenerateAxes` | src/SciQLopColorMapResampler.cpp:165-174 | `_generate_axes` spans x over the first and last x and y over the `y_bounds` of the view |
| `ColorMapResampler.WindowView` | include/SciQLopPlots/Plotables/Resamplers/AbstractResampler.hpp:73-76 | `make_view` of spectrogram buffers is a well-shaped spectrogram window |
| `ColorMapResampler.MapOverGrid` | src/SciQLopColorMapResampler.cpp:190-193 | the new `QCPColorMapData` has the axes' sizes and end points as its ranges, and the averaged grid as its cells |
| `ColorMapResampler.ResampleWindow` | src/SciQLopColorMapResampler.cpp:186-195 | past the checks, the map has `min(width, size)` by `min(height, y columns)` cells, each the mean of what `_x_loop` wrote to it |
| `ColorMapResampler.AveragedGrid` | src/SciQLopColorMapResampler.cpp:153-190 | the zero-filled cells of a new map after `_copy_and_average` are the means of what `_x_loop` wrote to them |
| `ColorMapResampler.ResampleImpl` | src/SciQLopColorMapResampler.cpp:176-198 | nothing is emitted for an x buffer without data, an empty x, a zero width or height, or a window of at most 10 points; otherwise the resampled map of the window |
| `ColorMapResampler.SumFromBounds` | src/SciQLopColorMapResampler.cpp:92-93 | the running sum of numbers in `[lo, hi]` stays in `[k lo, k hi]` after `k` terms |
| `ColorMapResampler.MeanWithinValues` | src/SciQLopColorMapResampler.cpp:62-95 | a cell that got no value is NaN, one NaN value makes it NaN, and a cell that got fewer than 2^16 numbers in `[lo, hi]` ends in `[lo, hi]` |
| `QCPWrapper.Copied` | include/SciQLopPlots/Qt/QCustomPlot/QCustomPlotWrapper.hpp:82-93 | the copy has one point per x |
| `QCPWrapper.CopyData` | include/SciQLopPlots/Qt/QCustomPlot/QCustomPlotWrapper.hpp:82-93 | `copy_data` pairs `x[i]` with the y value `i` steps of `y_incr` further on |
| `QCPWrapper.Consume` | include/SciQLopPlots/Qt/QCustomPlot/QCustomPlotWrapper.hpp:59-75 | a bucket's `while` loop moves forward and always stops before the end of x, since the bucket's end is never above the last x |
| `QCPWrapper.BucketEnd` | include/SciQLopPlots/Qt/QCustomPlot/QCustomPlotWrapper.hpp:55 | a bucket's end `min(x[0] + (b + 1) dx, x[x_size - 1])` is never above the last x |
| `QCPWrapper.Buckets` | include/SciQLopPlots/Qt/QCustomPlot/QCustomPlotWrapper.hpp:53-78 | the bucket loop writes one point per remaining bucket |
| `QCPWrapper.Starts` | include/SciQLopPlots/Qt/QCustomPlot/QCustomPlotWrapper.hpp:53-78 | one scan start per bucket, each before the last point |
| `QCPWrapper.Resampled` | include/SciQLopPlots/Qt/QCustomPlot/QCustomPlotWrapper.hpp:45-80 | `resample<d>` writes `d` points |
| `QCPWrapper.ConsumeProperties` | include/SciQLopPlots/Qt/QCustomPlot/QCustomPlotWrapper.hpp:59-75 | a bucket's scan consumes exactly the points with x below its end, and yields their maximum (even bucket) or minimum (odd bucket), NaN exactly when all of them are NaN, and otherwise the running value or one of the consumed values |
| `QCPWrapper.BucketFirst` | include/SciQLopPlots/Qt/QCustomPlot/QCustomPlotWrapper.hpp:53-78 | the first remaining bucket is keyed `x[0] + b dx` and holds its scan's fold |
| `QCPWrapper.BucketAt` | include/SciQLopPlots/Qt/QCustomPlot/QCustomPlotWrapper.hpp:53-78 | bucket `c` scans from where bucket `c - 1` stopped, is keyed `x[0] + c dx` and holds its scan's fold |
| `QCPWrapper.BucketsStepDown` | include/SciQLopPlots/Qt/QCustomPlot/QCustomPlotWrapper.hpp:53-78 | the later buckets are those of the loop that starts one bucket on, from where the first bucket stopped |
| `QCPWrapper.ResampledBucket` | include/SciQLopPlots/Qt/QCustomPlot/QCustomPlotWrapper.hpp:45-80 | `resample<d>` writes `d` points; point `c` is keyed `x[0] + c dx`, its scan covers a run of consecutive points, and it is the maximum (even `c`) or minimum (odd `c`) of the numbers in that run and one of them |
| `QCPWrapper.ConsumeLoop` | include/SciQLopPlots/Qt/QCustomPlot/QCustomPlotWrapper.hpp:59-75 | the `while` loop computes the scan and leaves the y pointer `y_incr` steps per consumed point further on |
| `QCPWrapper.BucketsUnfold` | include/SciQLopPlots/Qt/QCustomPlot/QCustomPlotWrapper.hpp:53-78 | one bucket's point followed by the buckets after it are all the buckets |
| `QCPWrapper.Resample` | include/SciQLopPlots/Qt/QCustomPlot/QCustomPlotWrapper.hpp:45-80 | the bucket loop with its moving x and y pointers computes `Resampled` of the strided y values |
| `QCPWrapper.SeriesSize` | include/SciQLopPlots/Qt/QCustomPlot/QCustomPlotWrapper.hpp:243-256 | a graph gets its points unchanged below 10000 and exactly 10000 buckets otherwise |
| `QCPWrapper.PlotSeries` | include/SciQLopPlots/Qt/QCustomPlot/QCustomPlotWrapper.hpp:246-255 | the choice between `copy_data` and `resample<10000>` |
| `QCPWrapper.PlotGraph` | include/SciQLopPlots/Qt/QCustomPlot/QCustomPlotWrapper.hpp:243-256 | `plot(graphIndex, x, y, x_size, y_size)` plots y with stride 1 |
| `QCPWrapper.LineLayoutFits` | include/SciQLopPlots/Qt/QCustomPlot/QCustomPlotWrapper.hpp:266-290 | when y holds `n` lines of `x_size` values, every line's reads stay inside y, in both data orders |
| `QCPWrapper.QuotientFits` | include/SciQLopPlots/Qt/QCustomPlot/QCustomPlotWrapper.hpp:261 | `y_size / n == x_size` implies y holds at least `n` lines of `x_size` values |
| `QCPWrapper.PlotLine` | include/SciQLopPlots/Qt/QCustomPlot/QCustomPlotWrapper.hpp:264-291 | line `k` starts at `k * x_size` with stride 1 for `x_first`, and at `k` with stride `n` otherwise |
| `QCPWrapper.PlotGraphs` | include/SciQLopPlots/Qt/QCustomPlot/QCustomPlotWrapper.hpp:258-301 | nothing is emitted unless `y_size / n == x_size`; then each graph gets its own line |
| `QCPWrapper.ElementBounds` | include/SciQLopPlots/Qt/QCustomPlot/QCustomPlotWrapper.hpp:225-226 | over numbers, `min_element` and `max_element` are elements that enclose the sequence |
| `QCPWrapper.ZIndexInjective` | include/SciQLopPlots/Qt/QCustomPlot/QCustomPlotWrapper.hpp:313-319 | distinct `(i, j)` pairs read distinct z positions `i * y_size + j` |
| `QCPWrapper.FillGrid` | include/SciQLopPlots/Qt/QCustomPlot/QCustomPlotWrapper.hpp:227-238 | the nested loops over x and y give each pair the next z value while there is one |
| `QCPWrapper.PlotColorMapVectors` | include/SciQLopPlots/Qt/QCustomPlot/QCustomPlotWrapper.hpp:218-241 | nothing happens unless x, y and z are all non-empty; then an `|x|` by `|y|` map over their minima and maxima takes the z values in order |
| `QCPWrapper.ColorMapAsWrittenDereferencesEmpty` | include/SciQLopPlots/Qt/QCustomPlot/QCustomPlotWrapper.hpp:303-311 | as written, empty x and z with five y values pass the shape check and dereference `min_element` of an empty x |
| `QCPWrapper.PlotColorMap` | include/SciQLopPlots/Qt/QCustomPlot/QCustomPlotWrapper.hpp:303-330 | with the emptiness check added, a shape mismatch emits nothing, empty data does nothing, and z value `i * y_size + j` goes to `(x[i], y[j])` |
| `QCPWrapper.Wrapper.constructor` | include/SciQLopPlots/Qt/QCustomPlot/QCustomPlotWrapper.hpp:101-133 | a wrapper starts with no graph and no colour map |
| `QCPWrapper.Wrapper.AddGraph` | include/SciQLopPlots/Qt/QCustomPlot/QCustomPlotWrapper.hpp:178-186 | `addGraph` appends a graph with the colour and returns `graphCount() - 1` |
| `QCPWrapper.Wrapper.SetGraphColor` | include/SciQLopPlots/Qt/QCustomPlot/QCustomPlotWrapper.hpp:188-194 | only the colour of graph `i`'s pen changes |
| `QCPWrapper.Wrapper.AddColorMap` | include/SciQLopPlots/Qt/QCustomPlot/QCustomPlotWrapper.hpp:198-210 | the first `addColorMap` creates the map and returns 0; later calls return -1 |
| `LegacyResamplers.PairEnd` | include/SciQLopPlots/SciQLopGraphResampler.hpp:45-46 | a legacy bucket's end never lies above the last x |
| `LegacyResamplers.Pairs` | include/SciQLopPlots/SciQLopGraphResampler.hpp:41-57 | `n` buckets yield exactly `2 * n` points |
| `LegacyResamplers.PairStarts` | include/SciQLopPlots/SciQLopGraphResampler.hpp:41-57 | the bucket start indices begin at the first point and all stay inside the data |
| `LegacyResamplers.LegacyResampled` | include/SciQLopPlots/SciQLopGraphResampler.hpp:30-60 | `resample<dest_size>` yields exactly `dest_size` points |
| `LegacyResamplers.ConsumeStop` | include/SciQLopPlots/SciQLopGraphResampler.hpp:48-54 | the index where a bucket's scan stops does not depend on the accumulator it starts from |
| `LegacyResamplers.PairFirst` | include/SciQLopPlots/SciQLopGraphResampler.hpp:41-57 | the first bucket's pair: its min at the bucket's x, its max half a bucket later, and the next start where the scan stopped |
| `LegacyResamplers.PairAt` | include/SciQLopPlots/SciQLopGraphResampler.hpp:41-57 | bucket `c`'s two points and the start of bucket `c + 1`, in terms of bucket `c`'s scan |
| `LegacyResamplers.LegacyBucket` | include/SciQLopPlots/SciQLopGraphResampler.hpp:30-60 | every bucket's points: keys at the bucket start and half a bucket later, starts non-decreasing in range, every scanned x below the bucket end, each value NaN exactly when all scanned values are NaN, and every scanned number between the bucket's min and max, each of which is a scanned value |
| `LegacyResamplers.PairsUnfold` | include/SciQLopPlots/SciQLopGraphResampler.hpp:41-57 | the pair sequence is the first bucket's pair followed by the pairs of the remaining buckets from where its scan stopped |
| `LegacyResamplers.ConsumeBoth` | include/SciQLopPlots/SciQLopGraphResampler.hpp:48-54 | the min and max scan of the strided values of one bucket stops where the reference scan stops, with the reference min and max, and the y cursor stays on the same point |
| `LegacyResamplers.Resample` | include/SciQLopPlots/SciQLopGraphResampler.hpp:30-60 | the imperative `resample<dest_size>` over a strided y returns the reference bucket sequence |
| `LegacyResamplers.StridedPrefix` | include/SciQLopPlots/SciQLopGraphResampler.hpp:62-73 | stride 1 from offset 0 reads exactly the prefix |
| `LegacyResamplers.ColumnResample` | include/SciQLopPlots/Plotables/SciQLopLineGraphResampler.hpp:33-64 | the view-column `resample` returns the reference bucket sequence of the column's first `|x|` values |
| `LegacyResamplers.ColumnCopy` | include/SciQLopPlots/Plotables/SciQLopLineGraphResampler.hpp:66-75 | the view-column `copy_data` pairs each x with the column value at the same index |
| `LegacyResamplers.WindowLayout` | src/SciQLopGraphResampler.cpp:65-71 | every line's first y and stride, for both data orders, stay inside y over the whole window |
| `LegacyResamplers.WindowLayoutFits` | src/SciQLopGraphResampler.cpp:65-71 | the addresses `start_y + i * y_incr` of line `k` stay below `|y|` when y holds every line |
| `LegacyResamplers.WindowLinesProperties` | src/SciQLopGraphResampler.cpp:56-87 | on sorted x, lines are emitted iff some point lies strictly inside the range and there is a line; then there are `line_count` of them, each of `min(window, 10000)` points, and below 10000 points they are the window's own points, all strictly inside the range |
| `LegacyResamplers.EmitLine` | src/SciQLopGraphResampler.cpp:67-81 | one line's emission is the 10000-point resampling above 10000 points and the copy otherwise |
| `LegacyResamplers.WindowResample` | src/SciQLopGraphResampler.cpp:58-87 | the loop over lines emits the reference lines of the window |
| `LegacyResamplers.QueuedGraphResampler.constructor` | src/SciQLopGraphResampler.cpp:43-49 | the resampler starts with empty data, the given order and line count, and no request queued |
| `LegacyResamplers.QueuedGraphResampler.SetData` | include/SciQLopPlots/Plotables/SciQLopLineGraphResampler.hpp:122-142 | the next data takes the buffers and the x bounds of x (NaN when x is empty) as both ranges, and a request for those bounds is queued; nothing else changes |
| `LegacyResamplers.QueuedGraphResampler.SetLineCount` | include/SciQLopPlots/Plotables/SciQLopLineGraphResampler.hpp:116-120 | only the line count changes |
| `LegacyResamplers.QueuedGraphResampler.ResampleSlot` | src/SciQLopGraphResampler.cpp:32-41 | the oldest request is served: the next data moves into the current data leaving empty buffers behind, and live buffers are resampled over that request's window and released |
| `LegacyResamplers.QueuedGraphResampler.Resample1d` | src/SciQLopGraphResampler.cpp:56-87 | live current buffers are resampled into the reference lines and then released; otherwise nothing is emitted and nothing changes |
| `LegacyResamplers.GraphResampler.constructor` | include/SciQLopPlots/SciQLopGraphResampler.hpp:97 | the resampler starts without buffers, with the given order and line count, a zero range read by `x_range()` and no request queued |
| `LegacyResamplers.GraphResampler.SetLineCount` | include/SciQLopPlots/SciQLopGraphResampler.hpp:108-112 | only the line count changes |
| `LegacyResamplers.GraphResampler.SetData` | include/SciQLopPlots/SciQLopGraphResampler.hpp:114-135 | the buffers are replaced, `x_range()` reads back the first and last x (NaN for empty x), and a request for it is queued |
| `LegacyResamplers.CurveLines` | include/SciQLopPlots/SciQLopCurveResampler.hpp:64-72 | every line is copied whole, point index as `t`, with y read from its layout for the data order |
| `LegacyResamplers.CurveResampler.constructor` | include/SciQLopPlots/SciQLopCurveResampler.hpp:85-91 | the resampler starts without buffers, with the given order and line count, a zero x range and no request queued |
| `LegacyResamplers.CurveResampler.SetLineCount` | include/SciQLopPlots/SciQLopCurveResampler.hpp:102-106 | only the line count changes |
| `LegacyResamplers.CurveResampler.SetData` | include/SciQLopPlots/SciQLopCurveResampler.hpp:108-129 | the buffers are replaced, the x range becomes the first and last x (NaN for empty x), and a request for it is queued |
| `LegacyResamplers.CurveResampler.ResampleSlot` | include/SciQLopPlots/SciQLopCurveResampler.hpp:57-77 | the oldest request is served: live buffers produce one whole-curve line per line count and are released; otherwise nothing is emitted and nothing changes |
| `LegacyResamplers.EmptyDataDropsEveryRequest` | include/SciQLopPlots/SciQLopColorMapResampler.hpp:52-58 | after `setData` with an empty x, every request differs from the NaN x range and is dropped |
| `LegacyResamplers.RangeDiffersOnNumbers` | include/SciQLopPlots/SciQLopColorMapResampler.hpp:56 | for a range of numbers, `QCPRange::operator!=` is the negation of equality |
| `LegacyResamplers.ColormapResampler.constructor` | include/SciQLopPlots/SciQLopColorMapResampler.hpp:85-89 | the resampler starts without buffers, with the given scale type, a zero range read by `x_range()` and no request queued |
| `LegacyResamplers.ColormapResampler.SetData` | include/SciQLopPlots/SciQLopColorMapResampler.hpp:99-126 | the three buffers and the scale type are replaced, `x_range()` reads back the first and last x (NaN for empty x), and a request for it is queued |
| `LegacyResamplers.ColormapResampler.ResampleSlot` | include/SciQLopPlots/SciQLopColorMapResampler.hpp:52-79 | a request is dropped iff it differs from `x_range()`, which the slot leaves unchanged, leaving the buffers in place; a served request moves the buffers out and asks for the linear or log map when all three are non-empty and for the empty map otherwise |
| `ProjectionCurves.ProjectionPairs` | src/SciQLopNDProjectionCurves.cpp:77-89 | `n + 1` buffers give exactly one buffer pair per curve |
| `ProjectionCurves.PairwisePairs` | src/SciQLopNDProjectionCurves.cpp:90-96 | `2n` buffers give exactly one buffer pair per curve |
| `ProjectionCurves.OneCurveDividesByZero` | src/SciQLopNDProjectionCurves.cpp:77-87 | as written, one curve with two buffers takes the `n + 1` branch and computes `i % 0` |
| `ProjectionCurves.Routing` | src/SciQLopNDProjectionCurves.cpp:73-101 | the corrected routing never divides by zero and agrees with the code as written wherever that does not divide by zero |
| `ProjectionCurves.RoutingInBounds` | src/SciQLopNDProjectionCurves.cpp:73-101 | buffers are routed exactly for `n + 1` buffers (`n != 1`) or `2n` buffers; then every curve gets two distinct existing buffers, never the time buffer in the `n + 1` case |
| `ProjectionCurves.ProjectionPairAt` | src/SciQLopNDProjectionCurves.cpp:84-88 | curve `i` gets buffers `i + 1` and `i + 2`, and the last curve gets the first and the last buffer |
| `ProjectionCurves.PairwiseIsPartition` | src/SciQLopNDProjectionCurves.cpp:92-95 | with `2n` buffers every buffer goes to exactly one curve, and no two curves share a buffer |
| `ProjectionCurves.ThreeCurves` | src/SciQLopNDProjectionCurves.cpp:80-83 | three curves receive Y(x), Z(y) and Z(x) |
| `ProjectionCurves.Assign` | src/SciQLopNDProjectionCurves.cpp:84-95 | assigning pairs keeps one curve per curve |
| `ProjectionCurves.NDProjectionCurves.constructor` | src/SciQLopNDProjectionCurves.cpp:24-40 | mismatched plot and label counts create no curve; otherwise one unselected, empty curve per plot with its label |
| `ProjectionCurves.NDProjectionCurves.SetSelected` | src/SciQLopNDProjectionCurves.cpp:56-62 | every curve takes the selection and nothing else changes; afterwards `selected()` reports it when there is a curve |
| `ProjectionCurves.NDProjectionCurves.SetData` | src/SciQLopNDProjectionCurves.cpp:73-101 | routed buffer counts give each curve its pair of buffers; other counts change nothing |
| `ProjectionCurves.NDProjectionCurves.SetProjections` | src/SciQLopNDProjectionCurves.cpp:77-89 | the `n + 1` loop gives curve `i` its projection pair, all within the buffers |
| `ProjectionCurves.NDProjectionCurves.SetPairwise` | src/SciQLopNDProjectionCurves.cpp:90-96 | the `2n` loop gives curve `i` buffers `2i` and `2i + 1` |
| `PlottableWrapper.SetSelectedOn` | include/SciQLopPlots/Plotables/QCPAbstractPlottableWrapper.hpp:28-38 | afterwards the plottable is selected exactly when asked; an unchanged state is left alone, a new selection covers the whole data range, and kind and data are kept |
| `PlottableWrapper.SetSelectedPlottable` | include/SciQLopPlots/Plotables/QCPAbstractPlottableWrapper.hpp:40-50 | graphs and curves end up in the requested state; any other plottable is untouched |
| `PlottableWrapper.SetSelectedIdempotent` | include/SciQLopPlots/Plotables/QCPAbstractPlottableWrapper.hpp:28-50 | selecting twice is selecting once |
| `PlottableWrapper.ComponentIndexOutOfRange` | include/SciQLopPlots/Plotables/QCPAbstractPlottableWrapper.hpp:128-133 | as written the index read lies in the list exactly when the list is non-empty; with no components it is -1 |
| `PlottableWrapper.ComponentAt` | include/SciQLopPlots/Plotables/QCPAbstractPlottableWrapper.hpp:128-133 | the guarded lookup gives a component exactly when there is one: the one at an index inside the list, the last one otherwise |
| `PlottableWrapper.ComponentNamed` | include/SciQLopPlots/Plotables/QCPAbstractPlottableWrapper.hpp:118-126 | the lookup by name gives the first component with that name, and nothing exactly when no component has it |
| `PlottableWrapper.Wrapper.constructor` | include/SciQLopPlots/Plotables/QCPAbstractPlottableWrapper.hpp:62-65 | a new wrapper has no component |
| `PlottableWrapper.Wrapper.RegisterComponent` | src/QCPAbstractPlottableWrapper.cpp:25-31 | exactly one component is appended and the count grows by one |
| `PlottableWrapper.Wrapper.ClearPlottables` | include/SciQLopPlots/Plotables/QCPAbstractPlottableWrapper.hpp:69-74 | no component remains |
| `PlottableWrapper.Wrapper.QcpPlottables` | include/SciQLopPlots/Plotables/QCPAbstractPlottableWrapper.hpp:76-82 | the plottables of the components, one per component, in order |
| `PlottableWrapper.Wrapper.SetVisible` | src/QCPAbstractPlottableWrapper.cpp:33-40 | every component takes the visibility and nothing else about it changes |
| `PlottableWrapper.Wrapper.SetLabels` | src/QCPAbstractPlottableWrapper.cpp:42-56 | an error exactly when the label count differs from the component count, leaving the components unchanged; otherwise component `i` is renamed `labels[i]` and nothing else changes |
| `PlottableWrapper.Wrapper.SetColors` | src/QCPAbstractPlottableWrapper.cpp:58-72 | an error exactly when the colour count differs from the component count, leaving the components unchanged; otherwise component `i` takes `colors[i]` and nothing else changes |
| `PlottableWrapper.Wrapper.Visible` | src/QCPAbstractPlottableWrapper.cpp:74-83 | true exactly when some component is visible |
| `PlottableWrapper.Wrapper.Labels` | src/QCPAbstractPlottableWrapper.cpp:85-93 | the component names, one per component, in order |
| `PlottableWrapper.Wrapper.SetSelected` | src/QCPAbstractPlottableWrapper.cpp:95-108 | with the loop disabled in the source, nothing changes and no signal is emitted |
| `PlottableWrapper.Wrapper.Selected` | src/QCPAbstractPlottableWrapper.cpp:110-119 | true exactly when some component is selected |
| `GraphInterface.PlottableInterface.constructor` | src/SciQLopGraphInterface.cpp:26-31 | a new graph is named with a name not used before for its prefix, which is then recorded as used; the first graph of a prefix takes the bare prefix; the range starts as the null range with no signal |
| `GraphInterface.PlottableInterface.SetRange` | src/SciQLopGraphInterface.cpp:34-41 | the range is replaced and `range_changed` emitted only when the new range differs from the current one; the name is kept |
| `GraphInterface.PipelineSignal` | src/SciQLopGraphInterface.cpp:79-95 | exactly the two-buffer signal for `N == 2`, the three-buffer signal for `N == 3` and the list signal for every other `N` |
| `PlotAxis.TickPaddings` | src/SciQLopPlotAxis.cpp:108-120 | shown tick labels pad by 5 and 5; hidden ones by 0 and `max(1, pen width)` |
| `PlotAxis.AnchorOneToOne` | src/SciQLopPlotAxis.cpp:177-199 | the four axis types map to four distinct anchors, never a centre anchor |
| `PlotAxis.Axis.constructor` | src/SciQLopPlotAxis.cpp:27-42 | the wrapper holds the given axis and time flag, with no signal emitted and no replot queued |
| `PlotAxis.Axis.SetRange` | src/SciQLopPlotAxis.cpp:44-51 | a live axis takes a valid range and queues one replot; a dead axis or an invalid range changes nothing; no signal is emitted by the setter itself |
| `PlotAxis.Axis.SetVisible` | src/SciQLopPlotAxis.cpp:53-61 | a live axis whose visibility differs takes it, queues one replot and emits `visible_changed`; otherwise nothing changes |
| `PlotAxis.Axis.SetLog` | src/SciQLopPlotAxis.cpp:63-80 | a live axis whose scale differs switches it, queues one replot and emits `log_changed`; otherwise nothing changes |
| `PlotAxis.Axis.SetLabel` | src/SciQLopPlotAxis.cpp:82-90 | a live axis whose label differs takes it, queues one replot and emits `label_changed`; otherwise nothing changes |
| `PlotAxis.Axis.SetSelected` | src/SciQLopPlotAxis.cpp:92-104 | a live axis whose selection differs takes it, queues one replot and emits `selection_changed`; otherwise nothing changes |
| `PlotAxis.Axis.SetTickLabelsVisible` | src/SciQLopPlotAxis.cpp:106-124 | a live axis whose tick-label state differs takes it with the matching paddings, queues one replot and emits the signal; otherwise nothing changes |
| `PlotAxis.Axis.Range` | src/SciQLopPlotAxis.cpp:126-131 | null without an axis; otherwise a non-null ordered range made of the axis's two bounds |
| `PlotAxis.Axis.GetAxis` | src/SciQLopPlotAxis.cpp:168-175 | the x axis exactly for a horizontal orientation, never the z axis |
| `PlotAxis.Axis.Anchor` | src/SciQLopPlotAxis.cpp:177-199 | the bottom anchor without an axis, otherwise the anchor of the axis type |
| `PlotAxis.NullAxisDefaults` | src/SciQLopPlotAxis.cpp:126-206 | a dead axis reads as a null range, hidden, linear, unlabelled, without tick labels, unselected, horizontal, the x axis and anchored at the bottom |
| `PlotAxis.LiveAxisSides` | src/SciQLopPlotAxis.cpp:161-199 | a live axis is the x axis exactly when it sits at the top or bottom, and anchored left or right exactly when it sits there |
| `PlotAxis.DummyAxis.constructor` | include/SciQLopPlots/SciQLopPlotAxis.hpp:97-100 | the stand-alone axis starts with the null range and no signal |
| `PlotAxis.DummyAxis.SetRange` | src/SciQLopPlotAxis.cpp:222-229 | the range is replaced and `range_changed` emitted only when the new range differs |
| `PlotAxis.ColorScaleAxis.constructor` | src/SciQLopPlotAxis.cpp:231-238 | the wrapper holds the given scale and gradient, with no signal, replot or rescale |
| `PlotAxis.ColorScaleAxis.SetRange` | src/SciQLopPlotAxis.cpp:240-249 | a live scale whose data range differs in either bound takes the new bounds and queues one replot; otherwise nothing changes; no signal is emitted |
| `PlotAxis.ColorScaleAxis.SetColorGradient` | src/SciQLopPlotAxis.cpp:291-303 | a live scale with a different gradient takes it, rescales its data range once, queues one replot and emits the signal; otherwise nothing changes |
| `PlotAxis.ColorScaleAxis.SetVisible` | src/SciQLopPlotAxis.cpp:251-259 | a live scale whose visibility differs takes it, queues one replot and emits `visible_changed`; otherwise nothing changes |
| `PlotAxis.ColorScaleAxis.SetLog` | src/SciQLopPlotAxis.cpp:261-279 | a live scale whose data scale differs switches it, queues one replot and emits `log_changed`; otherwise nothing changes |
| `PlotAxis.ColorScaleAxis.SetLabel` | src/SciQLopPlotAxis.cpp:281-289 | a live scale whose label differs takes it, queues one replot and emits `label_changed`; otherwise nothing changes |
| `PlotAxis.ColorScaleAxis.Range` | src/SciQLopPlotAxis.cpp:305-310 | null without a scale or with a NaN lower bound; for numeric bounds a non-null ordered range made of the two data bounds |
| `GraphicObjects.FirstHit` | include/SciQLopPlots/Interfaces/GraphicObjects/LayeredGraphicObjectCollection.hpp:65-79 | a result is a hit object of the scan; no result means no object of the scan is hit |
| `GraphicObjects.NextHitIsHit` | include/SciQLopPlots/Interfaces/GraphicObjects/LayeredGraphicObjectCollection.hpp:80-101 | cycling finds an object exactly when some object is hit, and what it finds is hit |
| `GraphicObjects.FirstHitAfterMisses` | include/SciQLopPlots/Interfaces/GraphicObjects/LayeredGraphicObjectCollection.hpp:71-75 | an object hit after a run of misses is the first hit of any scan that continues them |
| `GraphicObjects.SwapPop` | include/SciQLopPlots/Interfaces/GraphicObjects/LayeredGraphicObjectCollection.hpp:49-63 | removing an absent object keeps the layer; removing a present one shortens it by one |
| `GraphicObjects.SwapPopProperties` | include/SciQLopPlots/Interfaces/GraphicObjects/LayeredGraphicObjectCollection.hpp:55-60 | swap-and-pop removes exactly one occurrence of the object and keeps the objects before it in place |
| `GraphicObjects.Collection.constructor` | include/SciQLopPlots/Interfaces/GraphicObjects/LayeredGraphicObjectCollection.hpp:37-40 | `layer_count` layers, all empty |
| `GraphicObjects.Collection.Register` | include/SciQLopPlots/Interfaces/GraphicObjects/LayeredGraphicObjectCollection.hpp:43-47 | the object is appended to its layer and every other layer is unchanged |
| `GraphicObjects.Collection.Remove` | include/SciQLopPlots/Interfaces/GraphicObjects/LayeredGraphicObjectCollection.hpp:49-63 | every layer loses the object by swap-and-pop |
| `GraphicObjects.Collection.FindInLayer` | include/SciQLopPlots/Interfaces/GraphicObjects/LayeredGraphicObjectCollection.hpp:55-56 | the index of the first occurrence of the object, or the layer's size exactly when it is absent |
| `GraphicObjects.Collection.ObjectAt` | include/SciQLopPlots/Interfaces/GraphicObjects/LayeredGraphicObjectCollection.hpp:65-79 | the first hit object scanning layer 0 up, each layer front to back, or none |
| `GraphicObjects.Collection.NextObjectAt` | include/SciQLopPlots/Interfaces/GraphicObjects/LayeredGraphicObjectCollection.hpp:80-101 | the first hit object after the first occurrence of `current` in scan order, or else the first hit overall |
| `GraphicObjects.CyclingReturn` | include/SciQLopPlots/Interfaces/GraphicObjects/LayeredGraphicObjectCollection.hpp:89-92 | a hit met once `current` was seen is what cycling returns |
| `GraphicObjects.CyclingFallback` | include/SciQLopPlots/Interfaces/GraphicObjects/LayeredGraphicObjectCollection.hpp:100 | when no hit follows `current`, cycling falls back to the first hit |
| `InspectorTree.Child` | include/SciQLopPlots/Inspector/Model/Node.hpp:54 | a child exactly for a row inside the children list, and then the child at that row |
| `InspectorTree.ChildRow` | include/SciQLopPlots/Inspector/Model/Node.hpp:56 | -1 exactly when the node is not a child; otherwise the row of its first occurrence |
| `InspectorTree.Object` | include/SciQLopPlots/Inspector/Model/Node.hpp:92 | the object while it lives, null once destroyed |
| `InspectorTree.HoldsUnique` | include/SciQLopPlots/Inspector/Model/Node.hpp:69-74 | a node holds at most one object, and only a live one |
| `InspectorTree.NodeFlags` | src/Node.cpp:138-143 | the inspector's flags, or enabled and selectable without an inspector |
| `InspectorTree.Decorated` | src/Node.cpp:105-117 | icon and tooltip come from the inspector exactly when there is one and the object lives |
| `InspectorTree.UndeletableMembers` | src/Model.cpp:147-154 | the rows a sweep keeps are exactly the non-deletable ones, never more than there were |
| `InspectorTree.KeptMembers` | src/Model.cpp:147-154 | after a sweep of `[row, row + count)` a node remains a child exactly when it was one and is not a deletable child in that range |
| `InspectorTree.KeptAllDeletable` | src/Model.cpp:147-154 | when every row in range is deletable the range leaves the list and the list shrinks by `count` |
| `InspectorTree.TreeInsert` | src/Node.cpp:61-69 | inserting a fresh child keeps the arena a forest |
| `InspectorTree.TreeRemove` | src/Node.cpp:91-103 | removing a child, destroyed or not, keeps the arena a forest |
| `InspectorTree.TreeRenamed` | src/Node.cpp:119-127 | renaming a node keeps the arena a forest |
| `InspectorTree.SweepKept` | src/Model.cpp:147-154 | the top-down sweep leaves exactly the kept children, and only the swept node's list changes |
| `InspectorTree.InsertedKids` | src/Node.cpp:64-67 | row -1 appends the new child; any other row inserts it there, keeping the children before and after |
| `InspectorTree.InsertedMembers` | src/Node.cpp:64-67 | the new list holds the old children and the new one, each once |
| `InspectorTree.IndexRoundTrip` | src/Model.cpp:56-90 | an index from `index()` leads back to itself through `make_index`; its `parent()` is the index of the node it was asked under; for a top-level row that is the root at row 0, not the invalid index |
| `InspectorTree.PlotsModel.constructor` | src/Model.cpp:49-54 | the model starts with a root node named "Root Node" wrapping the model, without children |
| `InspectorTree.PlotsModel.NewNode` | src/Node.cpp:35-49 | a new node holds its object and name, has no children, and takes the object's inspector and its deletable answer (deletable without one) |
| `InspectorTree.PlotsModel.InsertChild` | src/Node.cpp:61-69 | a fresh node joins the parent's children at the row, or at the end for -1, and the forest is kept |
| `InspectorTree.PlotsModel.ChildRowOf` | src/Node.cpp:81-89 | the first row whose node holds the object, or -1 exactly when none does |
| `InspectorTree.PlotsModel.Contains` | include/SciQLopPlots/Inspector/Model/Node.hpp:76-84 | true exactly when some child holds the object |
| `InspectorTree.PlotsModel.ChildNode` | src/Node.cpp:71-79 | the first child with that name, or none when no child has it |
| `InspectorTree.PlotsModel.RemoveChild` | src/Node.cpp:91-103 | fails exactly for a row outside the list and then changes nothing; otherwise the row leaves the list, and a destroyed child leaves the tree and one `childrenDestroyed` signal is emitted |
| `InspectorTree.PlotsModel.RootNode` | src/Node.cpp:27-33 | a node without a Qt parent, the node itself or one nearer the top |
| `InspectorTree.PlotsModel.RowCount` | src/Model.cpp:92-102 | 0 beyond the first column; otherwise the child count of the parent node, the root for an invalid index |
| `InspectorTree.PlotsModel.Data` | src/Model.cpp:109-129 | the name for the display and user roles, the node's icon and tooltip for theirs, and an invalid variant otherwise |
| `InspectorTree.PlotsModel.Flags` | src/Model.cpp:131-138 | enabled for an invalid index, the node's flags for an index with a node, Qt's default otherwise |
| `InspectorTree.PlotsModel.IndexAt` | src/Model.cpp:56-70 | a valid index exactly for an existing row in column 0, carrying that child of the parent node |
| `InspectorTree.PlotsModel.ParentIndex` | src/Model.cpp:72-90 | invalid for an invalid index or a node without a parent; otherwise the parent node at its row under the grandparent, or at row 0 without one |
| `InspectorTree.PlotsModel.MakeIndex` | src/Model.cpp:201-211 | invalid for no node; otherwise the node at its row under its parent, under the root for another top node, or row 0 for the root |
| `InspectorTree.PlotsModel.ObjectAt` | src/Model.cpp:188-193 | the live object of the index's node, null otherwise |
| `InspectorTree.PlotsModel.SetName` | src/Node.cpp:119-127 | the node takes the name; a live object with another name is renamed; nothing else changes |
| `InspectorTree.PlotsModel.SweepRows` | src/Model.cpp:147-154 | the loop leaves the reference sweep of the rows, and its result says whether every row in range existed and was deletable |
| `InspectorTree.PlotsModel.RemoveRows` | src/Model.cpp:140-158 | without a parent node nothing changes and the result is true; otherwise the rows are swept and the result says whether all were removed |
| `InspectorTree.PlotsModel.RemoveRow` | src/Model.cpp:160-163 | succeeds exactly for an existing deletable row, which then leaves the list |
| `InspectorTree.PlotsModel.AddNode` | src/Model.cpp:213-231 | a fresh node for the object is appended to the parent's children and mirrors, recursively, the children the object's inspector lists |
| `InspectorTree.PlotsModel.RemoveChildrenIn` | src/Model.cpp:242-246 | the children left are exactly those that were not both doomed and deletable; other nodes keep their children |
| `InspectorTree.PlotsModel.VisitChild` | src/Model.cpp:242-246 | one step of the removal loop over the snapshot of children keeps the remaining-children invariant |
| `InspectorTree.PlotsModel.UpdateNodeChildren` | src/Model.cpp:233-262 | below the root: a node without inspector is untouched; otherwise deletable children the inspector no longer lists leave, every new child holds a listed object, and every live listed object ends up held by a child; at the root: exactly the deletable children whose object is gone leave |
| `ProductsTree.MetadataLinesAppend` | src/ProductsNode.cpp:38-41 | the metadata lines of two runs of items are the lines of the first run followed by those of the second |
| `ProductsTree.TooltipHasEntry` | src/ProductsNode.cpp:36-41 | every metadata item has its own `key : value` line in the constructor's tooltip, after the name line and the lines of the items before it |
| `ProductsTree.BuildTooltip` | src/ProductsNode.cpp:36-41 | the tooltip loop leaves the name and a newline, then one `key : value` line per item in map order |
| `ProductsTree.ChildAt` | include/Products/ProductsNode.hpp:55 | a child exactly for a row inside the children list, and then the child at that row; null otherwise |
| `ProductsTree.ChildRowRoundTrip` | include/Products/ProductsNode.hpp:67 | the row of a child gives the child back, a non-child has row -1, and with distinct children the row of the child at a row is that row |
| `ProductsTree.NamedRow` | include/Products/ProductsNode.hpp:57-65 | -1 exactly when no child has the name; otherwise the row of a child with that name before which none has it |
| `ProductsTree.ChildNamed` | include/Products/ProductsNode.hpp:57-65 | a child with the requested name when there is one, null exactly when no child has that name |
| `ProductsTree.ChildNamedUnique` | include/Products/ProductsNode.hpp:57-65 | among children with distinct names, looking up the name of child `i` finds child `i` |
| `ProductsTree.KeepOthers` | src/ProductsNode.cpp:46-52 | the removal loop of `add_child` keeps exactly the children not named like the new child, in order |
| `ProductsTree.AddChildLoopReadsPastEnd` | src/ProductsNode.cpp:44-52 | as written, `add_child` removes from `m_children` inside the range-for over it: when a child other than the last one visited has the new child's name, the loop reads past the end of the list |
| `ProductsTree.WithoutNameFacts` | src/ProductsNode.cpp:46-52 | after the removal a child stays exactly when its name differs, and distinct names stay distinct |
| `ProductsTree.SnocUnique` | src/ProductsNode.cpp:53 | appending a child whose name no child has keeps the children's names distinct |
| `ProductsTree.AdoptParentKids` | src/ProductsNode.cpp:44-55 | after `add_child` the node's children are the kept ones followed by the new child, each with the node as Qt parent and with distinct names |
| `ProductsTree.AdoptOtherKids` | src/ProductsNode.cpp:44-55 | `add_child` leaves every other node's children well formed and never lists the new child under them |
| `ProductsTree.AdoptForest` | src/ProductsNode.cpp:44-55 | `add_child` keeps the nodes a forest: every child is deeper than its parent, in the same tree |
| `ProductsTree.AdoptModelOk` | src/ProductsNode.cpp:44-55 | `add_child` keeps the whole model invariant: the root, the forest and closed children lists |
| `ProductsTree.AdoptedFacts` | src/ProductsNode.cpp:44-55 | `add_child` changes only the node's children list and the new child's Qt parent |
| `ProductsTree.FreshFolderAdopted` | src/ProductsModel.cpp:165-166 | inserting a fresh folder under a parent with no child of its name keeps every child and appends the folder |
| `ProductsTree.ProductsModel.AddChild` | src/ProductsNode.cpp:44-55 | same-named children leave the list, the child is appended last and reparented, and the model invariant holds |
| `ProductsTree.ProductsModel.Path` | src/ProductsNode.cpp:57-67 | the loop's result is the list of names from the top of the node's tree down to the node |
| `ProductsTree.PathEnds` | src/ProductsNode.cpp:57-67 | a node's path starts with the name of the top of its tree and ends with the node's own name |
| `ProductsTree.LookupPath` | src/ProductsNode.cpp:57-67 | following children by name from a top node, the path of the node reached is the top's name followed by the names followed |
| `ProductsTree.ProductsModel.SetIcon` | src/ProductsNode.cpp:69-77 | `icon()` reads back the icon set, and nothing else changes |
| `ProductsTree.ProductsModel.SetTooltip` | src/ProductsNode.cpp:79-87 | `tooltip()` reads back the text set, and nothing else changes |
| `ProductsTree.ProductsModel.constructor` | src/ProductsModel.cpp:64-68 | a root node named "root" of type ROOT without parent, children, metadata or icon, and an empty completer |
| `ProductsTree.ProductsModel.NewNode` | src/ProductsNode.cpp:32-42 | a fresh childless node with the given name, metadata, type and Qt parent and the constructor's tooltip, in no children list |
| `ProductsTree.NewNodeForest` | src/ProductsNode.cpp:32-35 | creating a childless node under an existing parent keeps the forest |
| `ProductsTree.ProductsModel.MakeIndex` | src/ProductsModel.cpp:26-32 | invalid exactly for a node without a parent; otherwise column 0, the node, and the node's row among its parent's children |
| `ProductsTree.ProductsModel.RowCount` | src/ProductsModel.cpp:106-116 | 0 beyond the first column, otherwise the number of children of the parent node, the root for an invalid index |
| `ProductsTree.ProductsModel.IndexAt` | src/ProductsModel.cpp:70-84 | valid exactly for an existing row of the parent node in column 0, and then carries that row's child |
| `ProductsTree.ProductsModel.ParentIndex` | src/ProductsModel.cpp:86-104 | valid exactly for a valid index whose node has a Qt parent other than the root; then the parent node at its row under the grandparent, or at row 0 without one |
| `ProductsTree.IndexRoundTrip` | src/ProductsModel.cpp:26-104 | an index from `index()` is what `make_index` gives for its node, and its parent is the index of the node it was asked under, invalid under the root |
| `ProductsTree.ProductsModel.Data` | src/ProductsModel.cpp:123-143 | the node's name for the display and user roles, its icon and tooltip for theirs, an invalid variant for other roles and invalid indexes |
| `ProductsTree.ProductsModel.Flags` | src/ProductsModel.cpp:145-155 | PRODUCT nodes are enabled, draggable and selectable, other nodes enabled and selectable and not draggable, an invalid index has no flags |
| `ProductsTree.ProductsModel.AddToCompleter` | src/ProductsModel.cpp:34-40 | the value is appended only when absent, so the completer list never holds a string twice |
| `ProductsTree.AddOneFacts` | src/ProductsModel.cpp:34-40 | after adding a value it is listed, nothing else is gained, the old list stays in front, and no string comes twice |
| `ProductsTree.AddAllFacts` | src/ProductsModel.cpp:34-54 | adding many values gains exactly those values, keeps the old list in front and never duplicates a string |
| `ProductsTree.AddAllConcat` | src/ProductsModel.cpp:42-54 | adding the values of two runs is adding those of the first, then those of the second |
| `ProductsTree.ProductsModel.AddNodeHead` | src/ProductsModel.cpp:44-49 | the completer gains the node's name, then one `key : value` entry per metadata item, each only when absent |
| `ProductsTree.ProductsModel.AddToCompleterNode` | src/ProductsModel.cpp:42-54 | the completer gains the entries of the whole subtree: the node's name and metadata entries, then each child's subtree in order |
| `ProductsTree.ProductsModel.AddChildToCompleter` | src/ProductsModel.cpp:50-53 | one pass of the loop over the children: the completer gains child `i`'s whole subtree after the entries added so far |
| `ProductsTree.ProductsModel.AddChildrenToCompleter` | src/ProductsModel.cpp:50-53 | the loop over the children adds every child's subtree entries in order |
| `ProductsTree.EntriesUnfold` | src/ProductsModel.cpp:42-54 | a node's completer entries are its head followed by its children's entries |
| `ProductsTree.ProductsModel.InsertNode` | src/ProductsModel.cpp:56-62 | the node becomes the parent's last child as `add_child` says, and the completer gains the node's subtree entries |
| `ProductsTree.ProductsModel.ChildOrFolder` | src/ProductsModel.cpp:162-168 | the existing child of that name with nothing changed, or else a new empty FOLDER of that name appended under the parent, its name added to the completer |
| `ProductsTree.ProductsModel.NewFolder` | src/ProductsModel.cpp:165-166 | a fresh FOLDER without metadata appended under the parent, its name added to the completer |
| `ProductsTree.ProductsModel.Descend` | src/ProductsModel.cpp:159-169 | the path loop ends at the node the whole path leads to from the root, each missing segment created as an empty folder and named in the completer, nodes outside the root's tree untouched |
| `ProductsTree.DescentStep` | src/ProductsModel.cpp:160-169 | one turn of the path loop keeps the loop invariant and creates a folder exactly when the segment was missing |
| `ProductsTree.MissingStep` | src/ProductsModel.cpp:160-169 | the completer gains a segment's name exactly when that segment was missing |
| `ProductsTree.LookupGrows` | src/ProductsModel.cpp:160-169 | growing the tree by appending children keeps every lookup that led somewhere |
| `ProductsTree.LookupPrefix` | src/ProductsModel.cpp:160-169 | every prefix of a path that leads somewhere leads somewhere too |
| `ProductsTree.ProductsModel.AddNode` | src/ProductsModel.cpp:157-171 | every prefix of the path leads to a node, reused by name or created as an empty folder, the object is the last child of the node the path leads to with path root, path, its name, and the completer gains the missing segments then the object's subtree |
| `ProductsTree.NodeAddedHolds` | src/ProductsModel.cpp:157-171 | the path loop followed by the last `_insert_node` establish everything `add_node` promises |
| `ProductsTree.ObjHangs` | src/ProductsModel.cpp:170 | after the last insertion the object hangs under the node the path leads to, which the path still reaches, and its path is root, the path, its name |
| `DataProducer.RangeEqReflexive` | include/SciQLopPlots/DataProducer/DataProducer.hpp:37-40 | the range comparison holds for a range and itself exactly when neither bound is NaN |
| `DataProducer.OutputsOf` | src/DataProducer.cpp:36-47 | two buffers give one `new_data_2d`, three one `new_data_3d`, none nothing, and any other count the invalid-data message |
| `DataProducer.SetRangeStepProperties` | src/DataProducer.cpp:73-83 | the next range is always stored, `_range_changed` is emitted exactly when no update was pending, an update is pending afterwards, nothing is fetched |
| `DataProducer.UpdateStepProperties` | src/DataProducer.cpp:26-48 | the update clears the pending flag; it changes nothing else when the next range equals the current one, and otherwise fetches the next range once, makes it current and emits what the buffers call for |
| `DataProducer.SetRangesCoalesce` | src/DataProducer.cpp:73-83 | a burst of requests keeps the last one and emits at most one signal, one exactly when no update was pending before it |
| `DataProducer.BurstFetchesLast` | src/DataProducer.cpp:26-83 | a burst of requests before one update fetches only the last range, or nothing when it equals the current range |
| `DataProducer.UpdateTwice` | src/DataProducer.cpp:26-35 | a second update with no request in between fetches nothing when the next range has no NaN bound |
| `DataProducer.DataProvider.constructor` | src/DataProducer.cpp:50-58 | no update pending, nothing queued, emitted or fetched |
| `DataProducer.DataProvider.SetRange` | src/DataProducer.cpp:73-83 | the state after `set_range`, with one more queued call exactly when none was pending, and the queue holds a call exactly while an update is pending |
| `DataProducer.DataProvider.ThreadedUpdate` | src/DataProducer.cpp:26-48 | the state after `_threaded_update` is the update step of the state before it |
| `DataProducer.DataProvider.Deliver` | src/DataProducer.cpp:56-57 | delivering the queued signal runs the update and leaves the queue empty, no update pending |
| `Tracer.Discretize` | src/SciQLopTracer.cpp:95-99 | a number exactly when the value and bounds are numbers, the count is not zero and the bounds differ |
| `Tracer.DiscretizeNearest` | src/SciQLopTracer.cpp:95-99 | the result is the centre of the value's bin: within half a bin width of the value, the bin closed on the side of the lower bound |
| `Tracer.DiscretizeIdempotent` | src/SciQLopTracer.cpp:95-99 | discretizing a bin centre gives it back, so discretizing twice is discretizing once |
| `Tracer.NearestAxisValueCentre` | src/SciQLopTracer.cpp:101-113 | on a linear axis the nearest axis value is the discretized value; on a logarithmic one its `log10` is the discretized `log10` of the value |
| `Tracer.NearestAxisValueIdempotent` | src/SciQLopTracer.cpp:101-113 | snapping an already snapped position leaves it where it is, on both kinds of axis |
| `Tracer.LogScaleIndexBounds` | src/SciQLopTracer.cpp:115-119 | a value whose `log10` lies within the range gives a cell index from 0 to the cell count, the count itself only at the upper bound |
| `Tracer.Quadrant` | src/SciQLopTracer.cpp:154-166 | never the no-quadrant value; on the left exactly when the position is left of the rect's centre, on top exactly when it is above it |
| `Tracer.QuadrantTies` | src/SciQLopTracer.cpp:154-166 | a position on the vertical centre line goes to the right, one on the horizontal centre line to the bottom |
| `Tracer.TooltipAlignment` | src/SciQLopTracer.cpp:168-187 | the alignment is left exactly for a left quadrant and top exactly for a top one; it is kept for no quadrant |
| `Tracer.AlignmentOneToOne` | src/SciQLopTracer.cpp:168-187 | distinct quadrants give distinct tooltip alignments |
| `Tracer.TooltipFacesCentre` | src/SciQLopTracer.cpp:154-187 | the tooltip is anchored by its left edge exactly when the mouse is left of the centre, by its top edge exactly when it is above it |
| `Tracer.TypeOf` | src/SciQLopTracer.cpp:404-416 | graph, curve and colour map exactly for plottables of those classes, none for null or any other class |
| `Tracer.NearestDataPoint` | src/SciQLopTracer.cpp:61-93 | a data point is found exactly when the `selectTest` distance is non-zero and the selection holds a point, and it is that first selected point |
| `Tracer.NearestDataPointTruthTest` | src/SciQLopTracer.cpp:61-93 | as written, a selection reported with the -1 of a miss is located, one at distance 0 is dropped, and any positive distance lets it through |
| `Tracer.LocatePoint` | src/SciQLopTracer.cpp:451-469 | the key and value of the selected data point, all NaN without a hit; the data is always NaN |
| `Tracer.ColorMapOnCellCentres` | src/SciQLopTracer.cpp:121-152 | the located key and value are cell centres: snapping them again changes nothing, and locating from them finds the same cell and data |
| `Tracer.DataLocator.constructor` | include/SciQLopPlots/Items/SciQLopTracer.hpp:45-50 | no plottable, type none, NaN key, value and data, no quadrant |
| `Tracer.DataLocator.SetPlottable` | src/SciQLopTracer.cpp:404-420 | the plottable and its type are recorded, the location is reset to NaN, the quadrant is kept |
| `Tracer.DataLocator.SetPosition` | src/SciQLopTracer.cpp:422-449 | graphs and curves take the selected point, colour maps the snapped cell, each with the quadrant of the mouse; without a known type nothing changes |
| `Tracer.TracerItem.constructor` | src/SciQLopTracer.cpp:244-255 | not selected, no brushes, a black pen and a blue selected pen of width 2, the position at (0, 0) in plot coordinates |
| `Tracer.TracerItem.MainPen` | src/SciQLopTracer.cpp:234-237 | the selected pen exactly while selected, the pen otherwise |
| `Tracer.TracerItem.MainBrush` | src/SciQLopTracer.cpp:239-242 | the selected brush exactly while selected, the brush otherwise |
| `Tracer.TracerItem.SetPlotable` | src/SciQLopTracer.cpp:257-276 | the locator takes the plottable; the pen becomes a graph's or curve's pen, black for anything else; nothing else changes |
| `Tracer.TracerItem.UpdatePosition` | src/SciQLopTracer.cpp:278-282 | the locator moves as `setPosition` says and the tracer's coordinates become the located key and value |
| `Tracer.TracerWithToolTip.constructor` | src/SciQLopTracer.cpp:191-204 | the tracer item visible and only the tooltip hidden, the tooltip aligned top and horizontally centred, nothing located or shown |
| `Tracer.TracerWithToolTip.UpdatePosition` | src/SciQLopTracer.cpp:208-232 | nothing without a plottable; otherwise the tracer visible, the tooltip shown only if it already was or the tracer was hidden, the located values copied, the tooltip aligned to the quadrant, showing x and y and the data unless it is NaN, and a replot only when asked |
| `Tracer.TracerWithToolTip.SetPlotable` | include/SciQLopPlots/Items/SciQLopTracer.hpp:173-180 | the tracer takes the plottable; a null plottable hides both items and replots, any other leaves both visibilities alone |
| `PlotItem.MoveStep` | include/SciQLopPlots/Items/SciQLopPlotItem.hpp:85-94 | the last position always becomes the event's; a move by the offset from the last position is requested exactly when the item is movable and only the left button is held |
| `PlotItem.DragTelescopes` | include/SciQLopPlots/Items/SciQLopPlotItem.hpp:85-94 | a drag of a movable item requests one move per event and moves it in total by exactly the distance from the last position to the end of the path, where the last position ends |
| `PlotItem.PlotItem.constructor` | include/SciQLopPlots/Items/SciQLopPlotItem.hpp:44-50 | neither movable nor deletable, no replot queued, an empty tooltip, nothing moved |
| `PlotItem.PlotItem.SetMovable` | include/SciQLopPlots/Items/SciQLopPlotItem.hpp:54-56 | `movable()` reads back the flag set, and nothing else changes |
| `PlotItem.PlotItem.SetToolTip` | include/SciQLopPlots/Items/SciQLopPlotItem.hpp:116-118 | `tooltip()` reads back the text set, and nothing else changes |
| `PlotItem.PlotItem.Replot` | include/SciQLopPlots/Items/SciQLopPlotItem.hpp:60-77 | an immediate replot redraws the layer once now; a deferred one queues at most one timer however often it is asked |
| `PlotItem.PlotItem.RunTimer` | include/SciQLopPlots/Items/SciQLopPlotItem.hpp:69-74 | the queued timer redraws the layer once and lowers the queued flag, so the next deferred replot queues again |
| `QtTypes.Round` | include/SciQLopPlots/Items/SciQLopPlotItem.hpp:81 | the whole-pixel coordinate `pos()` gives is the nearest integer, within half a pixel of the exact one, with halves rounded away from zero |
| `QtTypes.RoundPoint` | include/SciQLopPlots/Items/SciQLopPlotItem.hpp:81 | `pos()` rounds both coordinates of the exact position, so each moves by at most half a pixel |
| `QtTypes.RoundAwayFromZero` | include/SciQLopPlots/Items/SciQLopPlotItem.hpp:81 | rounding treats both signs alike: 2.5 gives 3 and -2.5 gives -3 |
| `PlotItem.PlotItem.MousePress` | include/SciQLopPlots/Items/SciQLopPlotItem.hpp:79-83 | the press position, rounded to whole pixels as `pos()` does, becomes the last position, and nothing else changes |
| `PlotItem.PlotItem.MouseMove` | include/SciQLopPlots/Items/SciQLopPlotItem.hpp:85-94 | the last position and the requested moves change as one drag step says, and nothing else changes |
| `VerticalSpans.BorderPositionShared` | include/SciQLopPlots/Items/SciQLopVerticalSpan.hpp:68-74 | a border's position is a number exactly when both points share that x, and then it is that x |
| `VerticalSpans.SetBorderPositionRoundTrip` | include/SciQLopPlots/Items/SciQLopVerticalSpan.hpp:76-84 | `position()` reads back a number `set_position` stored, setting the same number twice or the current position changes nothing, and NaN always moves both points and replots |
| `VerticalSpans.NewBorderAt` | include/SciQLopPlots/Items/SciQLopVerticalSpan.hpp:44-59 | a new border has both points at x and its position is x, since `set_position` always moves the straight line's initial points at x 0 and 1; it has requested one replot, or two without `do_not_replot`; it is movable and unselected with a cyan pen of width 3 |
| `VerticalSpans.LowerUpperOrdered` | include/SciQLopPlots/Items/SciQLopVerticalSpan.hpp:123-147 | the lower and upper borders are always the two different borders, the lower at or left of the upper; border 1 is lower on a tie, and border 2 is lower when a position is NaN |
| `VerticalSpans.SpanRangeOrdered` | include/SciQLopPlots/Items/SciQLopVerticalSpan.hpp:231-235 | with both positions numbers, the span's range is the two positions, smaller first |
| `VerticalSpans.MoveLowerRange` | include/SciQLopPlots/SciQLopVerticalSpan.hpp:117-121 | moving the lower border leaves the other where it was: the range becomes the new position and the old upper one, smaller first |
| `VerticalSpans.MoveUpperRange` | include/SciQLopPlots/SciQLopVerticalSpan.hpp:123-127 | moving the upper border leaves the other where it was: the range becomes the new position and the old lower one, smaller first |
| `VerticalSpans.ResyncIsIdentity` | src/SciQLopVerticalSpan.cpp:48-55 | moving the borders to their own positions, as the `moved` handler does, changes nothing when both are numbers |
| `VerticalSpans.SetRangeBordersLeavesBorderBehind` | src/SciQLopVerticalSpan.cpp:77-86 | as written, sending a span to a range wholly right of it reads back its old upper position and the new upper bound, not the requested range |
| `VerticalSpans.SetRangeBordersExample` | src/SciQLopVerticalSpan.cpp:77-86 | the span (0, 1) sent to the range (5, 6) reads back (1, 6) |
| `VerticalSpans.SetRangeBordersIntendedReadsBack` | src/SciQLopVerticalSpan.cpp:77-86 | the intended `set_range` reads back the requested bounds, smaller first, whatever the span's old position |
| `VerticalSpans.InvertedColorInvolution` | include/SciQLopPlots/Items/SciQLopVerticalSpan.hpp:273-281 | the selected brush's colour is the inverse of the brush's, inverting twice gives the colour back, and the alpha is kept |
| `VerticalSpans.SpanSelectTestCases` | src/SciQLopVerticalSpan.cpp:100-128 | the span is hit (0) exactly inside its extent and away from both borders; it refuses (-1) outside the vertical extent and within max(10, a tenth of the width) of a border; elsewhere it answers the distance to the nearer edge |
| `VerticalSpans.SpanBorder.constructor` | include/SciQLopPlots/Items/SciQLopVerticalSpan.hpp:44-59 | the border is the new border at x, its points starting at x 0 and 1 before `set_position`, nothing moved yet |
| `VerticalSpans.SpanBorder.SetPosition` | include/SciQLopPlots/Items/SciQLopVerticalSpan.hpp:76-84 | the border after `set_position`, as the round trip states |
| `VerticalSpans.SpanBorder.SetColor` | include/SciQLopPlots/Items/SciQLopVerticalSpan.hpp:63-66 | only the pen changes, to a solid pen of the colour and width 3 |
| `VerticalSpans.SpanBorder.Move` | src/SciQLopVerticalSpan.cpp:24-34 | each point moves dx pixels along x through the axis conversions, a replot is requested and `moved` carries the first point's new x |
| `VerticalSpans.SpanBorder.Replot` | include/SciQLopPlots/Items/SciQLopPlotItem.hpp:60-77 | a replot request is counted and nothing else of the border changes |
| `VerticalSpans.SpanBorder.SetMovable` | include/SciQLopPlots/Items/SciQLopPlotItem.hpp:56 | only the movable flag changes, to the given value |
| `VerticalSpans.SpanBorder.SetVisible` | include/SciQLopPlots/Items/SciQLopVerticalSpan.hpp:224-225 | only the visible flag changes, to the given value, as the span's `set_visible` asks of each border |
| `VerticalSpans.SpanBorder.SetSelected` | include/SciQLopPlots/Items/SciQLopVerticalSpan.hpp:157-158 | only the selected flag changes, to the given value, as the span's selection fix-up asks of each border |
| `VerticalSpans.SpanBorder.SetToolTip` | include/SciQLopPlots/Items/SciQLopPlotItem.hpp:118 | only the tooltip changes, to the given text |
| `VerticalSpans.KeepLowerSelectedHolds` | include/SciQLopPlots/Items/SciQLopVerticalSpan.hpp:155-159 | after the fix-up a remembered lower selection holds on the lower border, the upper one is deselected when a change was needed, and no border moves |
| `VerticalSpans.KeepUpperSelectedHolds` | include/SciQLopPlots/Items/SciQLopVerticalSpan.hpp:169-173 | after the fix-up a remembered upper selection holds on the upper border, the lower one is deselected when a change was needed, and no border moves |
| `VerticalSpans.VerticalSpan.BorderDeleted` | include/SciQLopPlots/Items/SciQLopVerticalSpan.hpp:120-121 | a deleted border's guarded pointer becomes null and the span no longer has both borders |
| `VerticalSpans.VerticalSpan.LowerBorder` | include/SciQLopPlots/Items/SciQLopVerticalSpan.hpp:123-134 | null unless both borders exist; otherwise the border that is lower |
| `VerticalSpans.VerticalSpan.UpperBorder` | include/SciQLopPlots/Items/SciQLopVerticalSpan.hpp:136-147 | null unless both borders exist; otherwise the border that is upper |
| `VerticalSpans.VerticalSpan.MoveLowerBorder` | include/SciQLopPlots/Items/SciQLopVerticalSpan.hpp:154 | with both borders present, the pair becomes `MoveLower` of the old pair: the lower border goes through `set_position(pos)` |
| `VerticalSpans.VerticalSpan.MoveUpperBorder` | include/SciQLopPlots/Items/SciQLopVerticalSpan.hpp:168 | with both borders present, the pair becomes `MoveUpper` of the old pair: the upper border goes through `set_position(pos)` |
| `VerticalSpans.VerticalSpan.RestoreLowerSelection` | include/SciQLopPlots/Items/SciQLopVerticalSpan.hpp:155-159 | the pair becomes `KeepLowerSelected` of the old pair with the remembered lower selection |
| `VerticalSpans.VerticalSpan.RestoreUpperSelection` | include/SciQLopPlots/Items/SciQLopVerticalSpan.hpp:169-173 | the pair becomes `KeepUpperSelected` of the old pair with the remembered upper selection |
| `VerticalSpans.VerticalSpan.SetLeftPos` | include/SciQLopPlots/Items/SciQLopVerticalSpan.hpp:149-161 | with both borders the rectangle's left and the lower border go to the position and the remembered lower selection is restored; otherwise nothing changes |
| `VerticalSpans.VerticalSpan.SetRightPos` | include/SciQLopPlots/Items/SciQLopVerticalSpan.hpp:163-175 | with both borders the rectangle's right and the upper border go to the position and the remembered upper selection is restored; otherwise nothing changes |
| `VerticalSpans.VerticalSpan.SetMovable` | include/SciQLopPlots/Items/SciQLopVerticalSpan.hpp:186-194 | the span and both borders take the flag when both borders exist; otherwise nothing changes |
| `VerticalSpans.VerticalSpan.SetVisible` | include/SciQLopPlots/Items/SciQLopVerticalSpan.hpp:219-227 | the span always takes the flag, the borders only when both exist |
| `VerticalSpans.VerticalSpan.Range` | include/SciQLopPlots/Items/SciQLopVerticalSpan.hpp:231-235 | the plot range built from the lower and upper borders' positions |
| `VerticalSpans.VerticalSpan.SetBordersToolTip` | include/SciQLopPlots/Items/SciQLopVerticalSpan.hpp:242-249 | both borders take the tooltip when both exist; otherwise nothing changes |
| `VerticalSpans.VerticalSpan.SetBordersColor` | include/SciQLopPlots/Items/SciQLopVerticalSpan.hpp:251-258 | both borders take the colour when both exist; otherwise nothing changes |
| `VerticalSpans.VerticalSpan.BordersColor` | include/SciQLopPlots/Items/SciQLopVerticalSpan.hpp:260-267 | border 1's pen colour while it exists, an invalid colour once it is gone |
| `VerticalSpans.VerticalSpan.SetColor` | include/SciQLopPlots/Items/SciQLopVerticalSpan.hpp:273-281 | the brush takes the colour, the selected brush its inverse, and both pens become none |
| `VerticalSpans.VerticalSpan.Replot` | include/SciQLopPlots/Items/SciQLopVerticalSpan.hpp:285-295 | one replot for each border when both exist, then the span's own |
| `VerticalSpans.VerticalSpan.SetReadOnly` | include/SciQLopPlots/Items/SciQLopVerticalSpan.hpp:429-432 | `read_only()` reads back the flag when both borders exist, and is unchanged otherwise |
| `VerticalSpans.VerticalSpan.SetToolTip` | include/SciQLopPlots/Items/SciQLopVerticalSpan.hpp:439-447 | the span always takes the tooltip, the borders too when both exist |
| `VerticalSpans.ReplottedKeepsRange` | include/SciQLopPlots/SciQLopVerticalSpan.hpp:196-203 | replotting moves no border and keeps the span's range |
| `VerticalSpans.InitialBordersStay` | src/SciQLopVerticalSpan.cpp:36-75 | for numeric bounds, the constructor's `set_left_pos(min)` and `set_right_pos(max)` leave the new borders where they were made, and the range reads back the bounds, smaller first |
| `VerticalSpans.PlacedRange` | src/SciQLopVerticalSpan.cpp:71-74 | placing a new span's borders at its own range, with or without the replot, leaves that range |
| `VerticalSpans.LegacyVerticalSpan.constructor` | src/SciQLopVerticalSpan.cpp:36-75 | border 1 at the lower bound, border 2 at the upper, a translucent green span, movable and visible, whose range is the bounds, smaller first |
| `VerticalSpans.LegacyVerticalSpan.Place` | src/SciQLopVerticalSpan.cpp:71-74 | the borders and rectangle go through `set_left_pos(min)` and `set_right_pos(max)`, then the optional replot |
| `VerticalSpans.LegacyVerticalSpan.SetLeftPos` | include/SciQLopPlots/SciQLopVerticalSpan.hpp:117-121 | the rectangle's left and the lower border go to the position |
| `VerticalSpans.LegacyVerticalSpan.SetRightPos` | include/SciQLopPlots/SciQLopVerticalSpan.hpp:123-127 | the rectangle's right and the upper border go to the position |
| `VerticalSpans.LegacyVerticalSpan.SetMovable` | include/SciQLopPlots/SciQLopVerticalSpan.hpp:137-142 | the span and both borders take the flag |
| `VerticalSpans.LegacyVerticalSpan.SetVisible` | include/SciQLopPlots/SciQLopVerticalSpan.hpp:150-155 | the span and both borders take the flag |
| `VerticalSpans.LegacyVerticalSpan.SetBordersColor` | include/SciQLopPlots/SciQLopVerticalSpan.hpp:175-179 | both borders take the colour |
| `VerticalSpans.LegacyVerticalSpan.SetColor` | include/SciQLopPlots/SciQLopVerticalSpan.hpp:185-193 | the brush takes the colour, the selected brush its inverse, and both pens become none |
| `VerticalSpans.LegacyVerticalSpan.Replot` | include/SciQLopPlots/SciQLopVerticalSpan.hpp:196-203 | border 1, border 2, then the span are replotted |
| `VerticalSpans.LegacyVerticalSpan.SetRange` | src/SciQLopVerticalSpan.cpp:77-86 | nothing when the range asked for equals `range()`; otherwise the borders go through `set_left_pos(min)` and `set_right_pos(max)`, a replot follows and `range_changed` is emitted once with the range asked for |
| `VerticalSpans.LegacyVerticalSpan.Move` | src/SciQLopVerticalSpan.cpp:88-98 | nothing for dx 0; otherwise the left and right edges move dx pixels through the axis conversions, a replot follows and `range_changed` carries the new range |
| `VerticalSpans.LegacyVerticalSpan.OnBorderMoved` | src/SciQLopVerticalSpan.cpp:48-64 | the rectangle goes to the borders, a replot is requested and `range_changed` carries `range()`; with numeric positions the borders stay where they are and the rectangle spans exactly their range |
| `VerticalSpans.LegacyVerticalSpan.SelectTest` | src/SciQLopVerticalSpan.cpp:100-128 | the span's hit distance for the rectangle's pixel edges and the borders' distances |
| `VerticalSpans.LegacyVerticalSpan.SetReadOnly` | include/SciQLopPlots/SciQLopVerticalSpan.hpp:250-251 | `read_only()` reads back the flag, both borders become movable exactly when not read-only, and the range is kept |
| `VerticalSpans.LegacyVerticalSpan.SetToolTip` | include/SciQLopPlots/SciQLopVerticalSpan.hpp:253-257 | the span and both borders take the tooltip |
| `VerticalSpans.LegacyVerticalSpan.DragBorder` | src/SciQLopVerticalSpan.cpp:24-64 | dragging a border emits `range_changed` once with the new range; with numeric positions the rectangle then spans exactly the borders' range |
| `MultiSpans.NewSpan` | src/MultiPlotsVSpan.cpp:50-73 | the span made for a plot carries every attribute of the group, and both its borders start unselected |
| `MultiSpans.SpanPlots` | src/MultiPlotsVSpan.cpp:79-86 | one plot per span, in order |
| `MultiSpans.PushToAll` | src/MultiPlotsVSpan.cpp:108-111 | the setter loop hands the value to every span in order |
| `MultiSpans.PushedSynced` | include/SciQLopPlots/MultiPlots/MultiPlotsVSpan.hpp:81-138 | a span in step with the group stays in step after the group's setter pushes a value to it |
| `MultiSpans.SetStepKeepsValid` | src/MultiPlotsVSpan.cpp:24-115 | every setter keeps one span per plot of the group, each in step with the group |
| `MultiSpans.SetStepProperties` | src/MultiPlotsVSpan.cpp:24-115 | every setter leaves the group holding the value; when it acts every span gets the value; a value already held changes nothing; `set_range` and `set_selected` emit exactly when they act, counting the group's own emissions |
| `MultiSpans.SetStepIdempotent` | include/SciQLopPlots/MultiPlots/MultiPlotsVSpan.hpp:81-138 | a second call with the same value changes nothing and emits nothing, unless the value is a range holding NaN |
| `MultiSpans.SetRangeNaNRepeats` | src/MultiPlotsVSpan.cpp:104-115 | a range holding NaN never equals the stored one, so every call of the group's setter pushes and emits it again |
| `MultiSpans.AddedSpanBorderStaysUnselected` | src/MultiPlotsVSpan.cpp:50-73 | a span added while the group's border is selected starts with that border unselected, and selecting it again does not reach the span |
| `MultiSpans.AddAllProperties` | src/MultiPlotsVSpan.cpp:50-73 | adding spans for new plots keeps one span per plot: the old spans and one new span, in step with the group, for each `SciQLopPlot` added |
| `MultiSpans.SpanPlotsKept` | src/MultiPlotsVSpan.cpp:79-86 | the plots of the spans kept are the plots kept |
| `MultiSpans.RemoveOneProperties` | src/MultiPlotsVSpan.cpp:75-88 | with one span per plot, `removeObject` removes exactly the span on that plot although its index loop steps over the element after a removal |
| `MultiSpans.RemoveAllProperties` | src/MultiPlotsVSpan.cpp:75-88 | removing the spans of departed plots one plot at a time leaves one span per plot, on exactly the plots that stay, and no new span |
| `MultiSpans.UpdateKeepsValid` | src/MultiPlotsVSpan.cpp:50-88 | after a plot-list update the group lists each plot of the new list once and has exactly one span, in step with it, on each of its `SciQLopPlot`s |
| `MultiSpans.FromEmpty` | include/SciQLopPlots/MultiPlots/MultiPlotsVSpan.hpp:52-63 | a new group shows one span on each `SciQLopPlot` of its panel, and no other |
| `MultiSpans.RemoveSpansOf` | src/MultiPlotsVSpan.cpp:79-86 | the index loop of `removeObject` removes as the step-over removal says |
| `MultiSpans.MultiPlotsVSpan.constructor` | include/SciQLopPlots/MultiPlots/MultiPlotsVSpan.hpp:52-63 | the group stores the range, colour, visibility, read-only flag and tooltip with nothing selected, then follows the panel's plots |
| `MultiSpans.MultiPlotsVSpan.AddObject` | src/MultiPlotsVSpan.cpp:50-73 | a `SciQLopPlot` gets one new span in step with the group, appended last; other plots change nothing |
| `MultiSpans.MultiPlotsVSpan.RemoveObject` | src/MultiPlotsVSpan.cpp:75-88 | the spans on a `SciQLopPlot` are removed by the step-over loop; other plots change nothing |
| `MultiSpans.MultiPlotsVSpan.UpdatePlotList` | src/MultiPlotsVSpan.cpp:50-88 | the group after the plot-list update, with spans added and removed through the two hooks |
| `MultiSpans.MultiPlotsVSpan.SetSelected` | src/MultiPlotsVSpan.cpp:90-102 | the group after the setter step for the selection, which keeps the invariant |
| `MultiSpans.MultiPlotsVSpan.SetRange` | src/MultiPlotsVSpan.cpp:104-115 | the group after the setter step for the range, which keeps the invariant |
| `MultiSpans.MultiPlotsVSpan.SetVisible` | include/SciQLopPlots/MultiPlots/MultiPlotsVSpan.hpp:99-109 | the group after the setter step for the visibility, which keeps the invariant |
| `MultiSpans.MultiPlotsVSpan.Show` | include/SciQLopPlots/MultiPlots/MultiPlotsVSpan.hpp:142 | the group after the setter step making it visible |
| `MultiSpans.MultiPlotsVSpan.Hide` | include/SciQLopPlots/MultiPlots/MultiPlotsVSpan.hpp:143 | the group after the setter step making it hidden |
| `MultiSpans.MultiPlotsVSpan.SetColor` | include/SciQLopPlots/MultiPlots/MultiPlotsVSpan.hpp:81-91 | the group after the setter step for the colour, which keeps the invariant |
| `MultiSpans.MultiPlotsVSpan.SetReadOnly` | include/SciQLopPlots/MultiPlots/MultiPlotsVSpan.hpp:128-138 | the group after the setter step for the read-only flag, which keeps the invariant |
| `MultiSpans.MultiPlotsVSpan.SetToolTip` | include/SciQLopPlots/MultiPlots/MultiPlotsVSpan.hpp:113-123 | the group after the setter step for the tooltip, which keeps the invariant |
| `MultiSpans.MultiPlotsVSpan.SelectLowerBorder` | src/MultiPlotsVSpan.cpp:24-35 | the group after the setter step for the lower-border selection, which keeps the invariant |
| `MultiSpans.MultiPlotsVSpan.SelectUpperBorder` | src/MultiPlotsVSpan.cpp:37-48 | the group after the setter step for the upper-border selection, which keeps the invariant |
| `MultiSpans.MultiPlotsVSpan.Selected` | include/SciQLopPlots/MultiPlots/MultiPlotsVSpan.hpp:79 | the stored selection, which every span carries |
| `MultiSpans.MultiPlotsVSpan.Range` | include/SciQLopPlots/MultiPlots/MultiPlotsVSpan.hpp:97 | the stored range, which every span carries |
| `MultiSpans.MultiPlotsVSpan.Visible` | include/SciQLopPlots/MultiPlots/MultiPlotsVSpan.hpp:111 | the stored visibility, which every span carries |
| `MultiSpans.MultiPlotsVSpan.GetColor` | include/SciQLopPlots/MultiPlots/MultiPlotsVSpan.hpp:93 | the stored colour, which every span carries |
| `MultiSpans.MultiPlotsVSpan.ReadOnly` | include/SciQLopPlots/MultiPlots/MultiPlotsVSpan.hpp:140 | the stored read-only flag, which every span carries |
| `MultiSpans.MultiPlotsVSpan.ToolTip` | include/SciQLopPlots/MultiPlots/MultiPlotsVSpan.hpp:125 | the stored tooltip, which every span carries |
| `MultiSpans.LegacyUpdateAligned` | src/SciQLopVerticalSpan.cpp:184-218 | the older update keeps the span and plot lists parallel, every plot of the new list ends up listed with a span, and no plot that is in neither list appears |
| `MultiSpans.LegacyUpdateLeavesStale` | src/SciQLopVerticalSpan.cpp:209-217 | two adjacent plots leaving together: the second keeps its place and its span |
| `MultiSpans.LegacyUpdateIntendedHoldsNewPlots` | src/SciQLopVerticalSpan.cpp:184-218 | as intended, the lists stay parallel and hold exactly the plots of the new list, each once |
| `MultiSpans.RemoveAbsentPairs` | src/SciQLopVerticalSpan.cpp:209-217 | the second loop removes spans and plots as the as-written update says |
| `MultiSpans.LegacyMultiSpan.UpdatePlotList` | src/SciQLopVerticalSpan.cpp:184-218 | the lists after the as-written update, still parallel |
| `MultiSpans.LegacyMultiSpan.AppendNew` | src/SciQLopVerticalSpan.cpp:186-208 | every plot of the new list not yet listed gets a span in step with the group, appended with it |
| `MultiPlotObjects.AppendedProperties` | src/SciQLopMultiPlotObject.cpp:54-61 | the first loop of `updatePlotList` keeps the held list as a prefix followed by exactly the additions; every plot of the new list ends up held, nothing outside both lists appears, an addition was neither held nor missing from the new list, and no duplicate is ever introduced |
| `MultiPlotObjects.NoDuplicatesSnoc` | src/SciQLopMultiPlotObject.cpp:56-58 | appending a plot only when `contains` is false keeps a duplicate-free list duplicate-free |
| `MultiPlotObjects.KeptMembers` | src/SciQLopMultiPlotObject.cpp:62-69 | removing every stale entry keeps exactly the entries that are not stale, and never lengthens the list |
| `MultiPlotObjects.SkipRemovalKeepsKept` | src/MultiPlotsVSpan.cpp:79-86 | the index loop that calls `removeAt(i)` and then `++i` removes only stale entries, keeps the others in order and yields a sub-list |
| `MultiPlotObjects.SkipRemovalExactWhenApart` | src/MultiPlotsVSpan.cpp:79-86 | when no two adjacent entries are stale, the stepped-over slot is harmless and the loop removes every stale entry |
| `MultiPlotObjects.SkipRemovalMissesSecond` | src/MultiPlotsVSpan.cpp:79-86 | two adjacent stale entries: the second survives the loop, although filtering would remove both |
| `MultiPlotObjects.SkipStep` | src/MultiPlotsVSpan.cpp:79-86 | one iteration of the index loop, removing or skipping slot i, preserves the loop's final result |
| `MultiPlotObjects.RangeForOverruns` | src/SciQLopMultiPlotObject.cpp:62-69 | a range-for whose end was fixed before a removal shrank the list reads past the current end |
| `MultiPlotObjects.RangeForRemoveReadsPastEnd` | src/SciQLopMultiPlotObject.cpp:62-69 | removing any plot other than the last one visited makes the second loop of `updatePlotList` read past the end of `m_plots` |
| `MultiPlotObjects.RangeForRemoveExample` | src/SciQLopMultiPlotObject.cpp:62-69 | held plots [a, b] with a absent from the new list: the range-for reads past the end |
| `MultiPlotObjects.RemovedMembers` | src/SciQLopMultiPlotObject.cpp:64-67 | a plot gets `removeObject` exactly when it is held and absent from the new list |
| `MultiPlotObjects.MultiPlotObject.Empty` | src/SciQLopMultiPlotObject.cpp:39-48 | a new object holds no plot and has made no hook call or replot |
| `MultiPlotObjects.MultiPlotObject.ReplotAll` | src/SciQLopMultiPlotObject.cpp:31-37 | `replotAll` queues one replot for each held plot, in list order, and changes nothing else |
| `MultiPlotObjects.MultiPlotObject.UpdatePlotList` | src/SciQLopMultiPlotObject.cpp:52-70 | after `updatePlotList` the held list is the old list plus the new plots, with the absent ones removed; one `addObject` goes to each addition in order, then one `removeObject` to each removed plot in order |
| `MultiPlotObjects.MultiPlotObject.AppendNew` | src/SciQLopMultiPlotObject.cpp:54-61 | the first loop appends each unseen plot of the new list once and calls `addObject` for it |
| `MultiPlotObjects.MultiPlotObject.RemoveGone` | src/SciQLopMultiPlotObject.cpp:62-69 | the second loop, over a copy of the list, removes exactly the absent plots and calls `removeObject` for each in order |
| `MultiPlotObjects.SplitGone` | src/SciQLopMultiPlotObject.cpp:62-69 | walking a copy of the held list splits it into the plots that stay and, in order, those passed to `removeObject` |
| `MultiPlotObjects.RemoveGoneStep` | src/SciQLopMultiPlotObject.cpp:64-67 | one entry of the removal walk goes either to the kept list or to the removed list, never both |
| `MultiPlotObjects.UpdateHoldsNewPlots` | src/SciQLopMultiPlotObject.cpp:52-70 | starting from a duplicate-free list, an update leaves the object holding exactly the plots of the new list, each once |
| `MultiPlotObjects.KeptNoDuplicates` | src/SciQLopMultiPlotObject.cpp:62-69 | removing entries from a duplicate-free list leaves it duplicate-free |
| `XAxisSync.HiddenProperties` | src/XAxisSynchronizer.cpp:28-32 | the hiding loop hides the x axis of every non-null plot of the list and leaves every other plot's flag as it was |
| `XAxisSync.OnlyLastShownProperties` | src/XAxisSynchronizer.cpp:26-37 | afterwards the last plot's x axis is visible, every other non-null plot of the list has its x axis hidden and plots outside the list keep theirs; an empty list changes nothing |
| `XAxisSync.ExactlyOneShown` | src/XAxisSynchronizer.cpp:26-37 | among the plots of a non-empty list, a plot shows its x axis exactly when it is the last one |
| `XAxisSync.XAxisSynchronizer.constructor` | include/SciQLopPlots/MultiPlots/XAxisSynchronizer.hpp:33 | a new synchronizer follows no plot and leaves every axis flag alone |
| `XAxisSync.XAxisSynchronizer.UpdatePlotList` | src/XAxisSynchronizer.cpp:39-43 | the new plot list is stored, then only its last plot shows its x axis |
| `XAxisSync.XAxisSynchronizer.DisplayOnlyLast` | src/XAxisSynchronizer.cpp:26-37 | the stored list is kept, and the axis flags become those of the only-last-shown display over that list |
| `Shapes.PositionTypeOf` | include/SciQLopPlots/Items/SciQLopShapesItems.hpp:48-57 | data coordinates and only they give plot-coordinate positions; any other coordinate system gives absolute (pixel) positions |
| `Shapes.MoveCenter` | include/SciQLopPlots/Items/SciQLopShapesItems.hpp:85-86 | `QRectF::moveCenter` puts the rectangle's centre at the point and keeps its width and height |
| `Shapes.MoveCenterComposes` | include/SciQLopPlots/Items/SciQLopShapesItems.hpp:83-90 | moving the centre twice equals moving it once to the second point, and moving it to where it already is changes nothing |
| `Shapes.EllipseSetupOf` | include/SciQLopPlots/Items/SciQLopShapesItems.hpp:43-61 | the first ellipse constructor sets both corners from the rectangle with the position type of the coordinate system, and sets the movable flag and the tooltip; pen and brush stay QCustomPlot's |
| `Shapes.EllipseWithPenDropsToolTip` | include/SciQLopPlots/Items/SciQLopShapesItems.hpp:63-70 | the pen-and-brush constructor delegates without the tooltip, so the item's tooltip is empty and any non-empty tooltip passed is lost |
| `Shapes.EllipseWithPenIntendedKeepsToolTip` | include/SciQLopPlots/Items/SciQLopShapesItems.hpp:63-70 | forwarding the tooltip as well gives everything the first constructor sets, tooltip included, plus the given pen and brush |
| `Shapes.EllipseItem.constructor` | include/SciQLopPlots/Items/SciQLopShapesItems.hpp:43-70 | a new ellipse has the corners, movable flag and tooltip of its setup, the given pen and brush or else QCustomPlot's, and no replot pending |
| `Shapes.EllipseItem.BoundingRectangle` | include/SciQLopPlots/Items/SciQLopShapesItems.hpp:76-79 | the bounding rectangle's top-left and bottom-right corners are the two item positions |
| `Shapes.EllipseItem.Position` | include/SciQLopPlots/Items/SciQLopShapesItems.hpp:81 | the position is the centre of the bounding rectangle: as far from the top-left corner as from the bottom-right one on each axis |
| `Shapes.EllipseItem.SetPosition` | include/SciQLopPlots/Items/SciQLopShapesItems.hpp:83-90 | after `setPosition` the ellipse's centre is the point; width, height, position types, pen, brush, movable flag and tooltip are kept, and a replot is queued |
| `Shapes.WrapperSetup` | include/SciQLopPlots/Items/SciQLopShapesItems.hpp:198-232 | every wrapper places both corners at the rectangle's corners with the position type of `coordinates` and keeps `movable`; the plain wrapper sets up the ellipse like the first constructor; the pen-and-brush and colour wrappers set the given pen and brush (a solid pen for colours) and lose the tooltip |
| `Shapes.NewEllipseItem` | include/SciQLopPlots/Items/SciQLopShapesItems.hpp:198-232 | a wrapper made on a null plot fails with "plot is nullptr" and only then; otherwise it holds a fresh ellipse with the corners, tooltip and movable flag of its setup, and the setup's pen and brush (the item's defaults for the plain wrapper) |
| `Shapes.CurvedLineItem.constructor` | include/SciQLopPlots/Items/SciQLopShapesItems.hpp:106-130 | a new curved line is not movable, has both ends at the given points with the coordinate system's position type, the start termination on its tail and the stop one on its head, and the given tooltip |
| `Shapes.CurvedLineItem.SetStartPos` | include/SciQLopPlots/Items/SciQLopShapesItems.hpp:136-140 | `setStartPos` reads back through `startPos` and changes nothing else |
| `Shapes.CurvedLineItem.SetStopPos` | include/SciQLopPlots/Items/SciQLopShapesItems.hpp:138-142 | `setStopPos` reads back through `stopPos` and changes nothing else |
| `Shapes.CurvedLineItem.StartTermination` | include/SciQLopPlots/Items/SciQLopShapesItems.hpp:144-147 | the termination read from the tail's style converts back to that style |
| `Shapes.CurvedLineItem.StopTermination` | include/SciQLopPlots/Items/SciQLopShapesItems.hpp:149-152 | the termination read from the head's style converts back to that style |
| `Shapes.CurvedLineItem.SetStartTermination` | include/SciQLopPlots/Items/SciQLopShapesItems.hpp:154-157 | `setStartTermination` sets the tail, reads back as set, and leaves the head, ends, direction points and pen alone |
| `Shapes.CurvedLineItem.SetStopTermination` | include/SciQLopPlots/Items/SciQLopShapesItems.hpp:159-162 | `setStopTermination` sets the head, reads back as set, and leaves the tail, ends, direction points and pen alone |
| `Shapes.CurvedLineItem.SetStartDirPos` | include/SciQLopPlots/Items/SciQLopShapesItems.hpp:164-168 | `setStartDirPos` reads back through `startDirPos` and changes nothing else |
| `Shapes.CurvedLineItem.SetStopDirPos` | include/SciQLopPlots/Items/SciQLopShapesItems.hpp:166-170 | `setStopDirPos` reads back through `stopDirPos` and changes nothing else |
| `Shapes.CurvedLineItem.SetColor` | include/SciQLopPlots/Items/SciQLopShapesItems.hpp:172-176 | `setColor` replaces the pen with a solid one of that colour and the old width, and leaves the geometry and terminations alone |
| `Shapes.CurvedLineItem.SetWidth` | include/SciQLopPlots/Items/SciQLopShapesItems.hpp:172-178 | `setWidth` replaces the pen with a solid one of the old colour and that width |
| `Shapes.NewCurvedLineItem` | include/SciQLopPlots/Items/SciQLopShapesItems.hpp:286-298 | a curved-line wrapper made on a null plot fails; otherwise its fresh item is not movable, carries the tooltip, has both ends at the given points with the position type of `coordinates`, reads back the given terminations, and keeps the direction points and pen a `QCPItemCurve` starts with |
| `StraightLines.PixelToCoord` | src/SciQLopStraightLines.cpp:29-30 | converting a pixel to an axis coordinate gives the coordinate that maps back to that pixel |
| `StraightLines.SetPixelPosition` | src/SciQLopStraightLines.cpp:29-36 | `setPixelPosition` keeps the position's type and places it so that its pixel position is the given point |
| `StraightLines.SetPixelPositionIdentity` | src/SciQLopStraightLines.cpp:29-36 | setting a position to the pixel point it already has leaves it unchanged |
| `StraightLines.ShiftKeepsOtherAxis` | src/SciQLopStraightLines.cpp:27-38 | a pixel shift along one axis keeps the coordinate on the other axis |
| `StraightLines.PenWithWidthF` | src/SciQLopStraightLines.cpp:81-86 | `QPen::setWidthF` takes a non-negative width and ignores a negative one, keeping the pen |
| `StraightLines.IntegerWidthRoundTrip` | src/SciQLopStraightLines.cpp:88-91 | `line_width` returns the integer `QPen::width`, which gives back the width set exactly when that width is whole |
| `StraightLines.FractionalWidthIsRounded` | src/SciQLopStraightLines.cpp:81-91 | a width of 1.5 set with `set_line_width` reads back as 2 |
| `StraightLines.StraightLine.constructor` | include/SciQLopPlots/Items/SciQLopStraightLines.hpp:37-65 | a new vertical line's points are set to (position, 0) and (position, 1), a horizontal one's to (0, position) and (1, position), in plot coordinates; they then take the coordinate system's position type with their pixel position kept, so in data coordinates they stay there and in pixels they become the pixel images of those plot points; the movable flag is set |
| `StraightLines.StraightLine.Position` | src/SciQLopStraightLines.cpp:57-67 | the position is the first point's key on a vertical line and its value on a horizontal one |
| `StraightLines.StraightLine.SetPosition` | src/SciQLopStraightLines.cpp:42-55 | after `set_position` both points sit across the line at the new position, which `position` reads back; position types and pen are kept and a replot is queued |
| `StraightLines.StraightLine.Move` | src/SciQLopStraightLines.cpp:25-40 | dragging shifts both points by dx pixels on a vertical line, or by dy on a horizontal one, keeps the other coordinate, emits the new position through `moved`, and keeps the position types and pen |
| `StraightLines.StraightLine.SetColor` | src/SciQLopStraightLines.cpp:69-74 | `set_color` changes only the pen's colour, which `color` reads back; the points are kept |
| `StraightLines.StraightLine.LineWidth` | src/SciQLopStraightLines.cpp:88-91 | the integer width read back lies within half a unit of the pen's width |
| `StraightLines.StraightLine.SetLineWidth` | src/SciQLopStraightLines.cpp:81-86 | `set_line_width` sets the pen's width as `setWidthF` does, keeping colour and style; `line_width` reads it back exactly when it is whole |
| `StraightLines.SciQLopStraightLine.constructor` | include/SciQLopPlots/Items/SciQLopStraightLines.hpp:104-109 | the wrapper makes a fresh line with the given orientation and movable flag, whose position reads back as given in data coordinates and as the pixel image of the given value in pixels; the vertical and horizontal lines fix the orientation |
| `StraightLines.SciQLopStraightLine.LineDeleted` | include/SciQLopPlots/Items/SciQLopStraightLines.hpp:93 | once the plot deletes the line, the wrapper's `QPointer` is null |
| `StraightLines.SciQLopStraightLine.Position` | include/SciQLopPlots/Items/SciQLopStraightLines.hpp:113-118 | the wrapper's `position` is NaN exactly when the line is gone, and the line's position otherwise |
| `StraightLines.SciQLopStraightLine.SetPosition` | src/SciQLopStraightLines.cpp:93-96 | setting the position through the wrapper makes it read back as set |
| `StraightLines.SciQLopStraightLine.GetColor` | include/SciQLopPlots/Items/SciQLopStraightLines.hpp:126-131 | the wrapper's `color` is the pen's colour while the line exists and an invalid colour once it is gone |
| `StraightLines.SciQLopStraightLine.SetColor` | include/SciQLopPlots/Items/SciQLopStraightLines.hpp:120-124 | `set_color` through the wrapper reads back as set while the line exists and keeps the width; it does nothing once the line is gone |
| `StraightLines.SciQLopStraightLine.LineWidth` | include/SciQLopPlots/Items/SciQLopStraightLines.hpp:139-144 | the wrapper's `line_width` is the line's integer width while it exists and NaN once it is gone |
| `StraightLines.SciQLopStraightLine.SetLineWidth` | include/SciQLopPlots/Items/SciQLopStraightLines.hpp:133-137 | `set_line_width` through the wrapper sets the pen's width as `setWidthF` does while the line exists, and does nothing once it is gone |
| `StraightLines.RetypeFromPlot` | include/SciQLopPlots/Items/SciQLopStraightLines.hpp:55-64 | `setType` on a plot-coordinate position keeps its pixel position and takes the new type |
| `StraightLines.EndsAsWrittenPlacement` | include/SciQLopPlots/Items/SciQLopStraightLines.hpp:44-64 | as written, a data-coordinate line is placed as intended, and a pixel line lands at the pixel image of `position` read as a plot coordinate |
| `StraightLines.PixelLineMisplaced` | include/SciQLopPlots/Items/SciQLopStraightLines.hpp:44-64 | with a key axis mapping x to 10 + 2x pixels, a vertical line asked for at pixel 5 is stored at pixel 20; setting the type first gives 5 |
| `StraightLines.EndsIntendedAtPosition` | include/SciQLopPlots/Items/SciQLopStraightLines.hpp:44-64 | setting the type first places both distinct points at `position` across the line, so a pixel line is drawn at pixel `position` |
| `TimeSpan.BorderContainsPixel` | include/SciQLopPlots/Qt/QCustomPlot/QCPTimeSpan.hpp:95-100 | a border catches a pixel column exactly when it lies within the larger of the pen width and ten pixels of the border's column, on either side |
| `TimeSpan.BorderContainsData` | include/SciQLopPlots/Qt/QCustomPlot/QCPTimeSpan.hpp:90-94 | a border catches a data point exactly when the point's x, turned into a pixel column and truncated, is caught in pixels |
| `TimeSpan.BorderToleranceIsTen` | include/SciQLopPlots/Qt/QCustomPlot/QCPTimeSpan.hpp:56-100 | with the borders' three-pixel pen, a border catches the columns within ten pixels of it and no others |
| `TimeSpan.PixelDistance` | include/SciQLopPlots/Qt/QCustomPlot/QCPTimeSpan.hpp:84-88 | the time distance of a horizontal drag, `pixelToCoord(dx) - pixelToCoord(0)`, is the distance whose pixel length is dx |
| `TimeSpan.ContainsDataNeverHolds` | include/SciQLopPlots/Qt/QCustomPlot/QCPTimeSpan.hpp:193-200 | with the corners' vertical ratios 0 at the top and 1 at the bottom, the data-coordinate `contains` needs 1 <= y <= 0, so no point is ever inside |
| `TimeSpan.ContainsDataFollowsMove` | include/SciQLopPlots/Qt/QCustomPlot/QCPTimeSpan.hpp:181-200 | with the horizontal test intended, a point is inside the moved span exactly when the point moved back is inside the span, and both ends of an ordered span are inside it |
| `TimeSpan.ContainsDataDiffers` | include/SciQLopPlots/Qt/QCustomPlot/QCPTimeSpan.hpp:193-200 | the centre of every ordered span is inside it by the intended test and outside it by the test as written |
| `TimeSpan.QCPTimeSpan.constructor` | include/SciQLopPlots/Qt/QCustomPlot/QCPTimeSpan.hpp:134-158 | a new span covers the given range over the whole height of the axis rectangle, with the translucent green brush, no pen, selectable, unselected borders and one queued replot |
| `TimeSpan.QCPTimeSpan.SetRange` | include/SciQLopPlots/Qt/QCustomPlot/QCPTimeSpan.hpp:160-167 | after `set_range` the span reads back the range, still spans the full height, and queues one replot; selection, brush and pen are kept |
| `TimeSpan.QCPTimeSpan.DataCenter` | include/SciQLopPlots/Qt/QCustomPlot/QCPTimeSpan.hpp:169-173 | `center` is equidistant from the left and right keys and from the top and bottom ratios |
| `TimeSpan.QCPTimeSpan.PixelCenter` | include/SciQLopPlots/Qt/QCustomPlot/QCPTimeSpan.hpp:175-179 | `pix_center` is the midpoint of the corners' pixel positions, truncated to integer pixel coordinates |
| `TimeSpan.QCPTimeSpan.Move` | include/SciQLopPlots/Qt/QCustomPlot/QCPTimeSpan.hpp:181 | moving by dt shifts the range by dt, keeps its width, moves its centre by dt, keeps the full height and queues one replot |
| `TimeSpan.QCPTimeSpan.MoveByData` | include/SciQLopPlots/Qt/QCustomPlot/QCPTimeSpan.hpp:183-186 | a data-coordinate move shifts the range by the horizontal component only |
| `TimeSpan.QCPTimeSpan.MoveByPixels` | include/SciQLopPlots/Qt/QCustomPlot/QCPTimeSpan.hpp:188-191 | a pixel move shifts the range by the time distance whose pixel length is the horizontal offset |
| `TimeSpan.QCPTimeSpan.ContainsPixel` | include/SciQLopPlots/Qt/QCustomPlot/QCPTimeSpan.hpp:202-214 | a pixel is inside exactly when it lies in the box between the corners' pixel positions on both axes |
| `TimeSpan.QCPTimeSpan.LeftBorderContains` | include/SciQLopPlots/Qt/QCustomPlot/QCPTimeSpan.hpp:95-137 | the left border, anchored at the left corners, catches the columns within ten pixels of the range's start |
| `TimeSpan.QCPTimeSpan.RightBorderContains` | include/SciQLopPlots/Qt/QCustomPlot/QCPTimeSpan.hpp:95-138 | the right border, anchored at the right corners, catches the columns within ten pixels of the range's end |
| `TimeSpan.QCPTimeSpan.LeftBorderMoved` | include/SciQLopPlots/Qt/QCustomPlot/QCPTimeSpan.hpp:146-151 | a drag of the left border by dx moves only the start of the range, and queues a replot |
| `TimeSpan.QCPTimeSpan.RightBorderMoved` | include/SciQLopPlots/Qt/QCustomPlot/QCPTimeSpan.hpp:152-157 | a drag of the right border by dx moves only the end of the range, and queues a replot |
| `TimeSpan.QCPTimeSpan.LeftBorderMovedByPixels` | include/SciQLopPlots/Qt/QCustomPlot/QCPTimeSpan.hpp:146-151 | a pixel drag of the left border moves the start by the drag's time distance and keeps the selection |
| `TimeSpan.QCPTimeSpan.RightBorderMovedByPixels` | include/SciQLopPlots/Qt/QCustomPlot/QCPTimeSpan.hpp:152-157 | a pixel drag of the right border moves the end by the drag's time distance |
| `TimeSpan.QCPTimeSpan.SetSelected` | include/SciQLopPlots/Qt/QCustomPlot/QCPTimeSpan.hpp:216-220 | `set_selected` sets the span's flag, keeps the range and the borders' flags, and queues a replot |
| `TimeSpan.QCPTimeSpan.SetBorderSelected` | include/SciQLopPlots/Qt/QCustomPlot/QCPTimeSpan.hpp:102-106 | selecting one border sets its flag only, keeps the span's flag and range, and queues a replot |
| `TimeSpan.BordersComposeToMove` | include/SciQLopPlots/Qt/QCustomPlot/QCPTimeSpan.hpp:146-181 | dragging the left border and then the right one by the same distance moves the span by that distance |
| `PlaceHolders.ComputeLocationCases` | include/SciQLopPlots/DragNDrop/PlaceHolderManager.hpp:71-90 | `_compute_location` gives Top exactly when a plot is under the cursor and the cursor is above its upper fifth, Bottom exactly when it is not and is below the lower fifth (from `QRect::bottom`), and no location when no plot is under it |
| `PlaceHolders.MiddleHasNoLocation` | include/SciQLopPlots/DragNDrop/PlaceHolderManager.hpp:71-90 | a pointer in the middle band of a plot at least five pixels high gets no location |
| `PlaceHolders.PlaceHolderIndex` | include/SciQLopPlots/DragNDrop/PlaceHolderManager.hpp:115-133 | an empty panel gets its placeholder at 0; otherwise Top puts it at the hovered index (at least 0), Bottom just after it, and no location creates none |
| `PlaceHolders.PlaceHolderIndexInRange` | include/SciQLopPlots/DragNDrop/PlaceHolderManager.hpp:115-133 | whenever a placeholder is created, its index is a valid insertion point of the panel's list |
| `PlaceHolders.InsertThenRemove` | include/SciQLopPlots/DragNDrop/PlaceHolderManager.hpp:101-113 | a widget not yet in the list, once inserted at i, is found at i, and removing it gives the list back |
| `PlaceHolders.PlotList.constructor` | include/SciQLopPlots/DragNDrop/PlaceHolderManager.hpp:135-138 | the panel's list starts with the given widgets and no change signalled |
| `PlaceHolders.PlotList.InsertPlot` | include/SciQLopPlots/DragNDrop/PlaceHolderManager.hpp:105 | `insert_plot` puts the widget at the index and signals one change |
| `PlaceHolders.PlotList.RemovePlot` | include/SciQLopPlots/DragNDrop/PlaceHolderManager.hpp:111 | `remove_plot` removes the first occurrence of a widget in the list and signals a change; a widget not in the list changes nothing |
| `PlaceHolders.PlaceHolderManager.constructor` | include/SciQLopPlots/DragNDrop/PlaceHolderManager.hpp:142 | a new manager over a panel of plots has no placeholder and has made none |
| `PlaceHolders.PlaceHolderManager.CreatePlaceHolder` | include/SciQLopPlots/DragNDrop/PlaceHolderManager.hpp:101-107 | `_create_place_holder` inserts a new placeholder, not in the list before, at the index; its minimum height is nine tenths of the panel's height divided by one more than the number of widgets, truncated |
| `PlaceHolders.PlaceHolderManager.CreatePlaceHolderIfNeeded` | include/SciQLopPlots/DragNDrop/PlaceHolderManager.hpp:115-133 | a placeholder is created, at the placeholder index, exactly when that index exists; otherwise the list is unchanged and nothing is returned |
| `PlaceHolders.PlaceHolderManager.RemovePlaceHolder` | include/SciQLopPlots/DragNDrop/PlaceHolderManager.hpp:109-113 | `_remove_place_holder` removes the placeholder from the list, leaves no copy of it, and clears the field |
| `PlaceHolders.PlaceHolderManager.DragEnter` | include/SciQLopPlots/DragNDrop/PlaceHolderManager.hpp:144-147 | on drag enter the placeholder becomes the one `_create_place_holder_if_needed` makes at the placeholder index, or none |
| `PlaceHolders.PlaceHolderManager.DragMove` | include/SciQLopPlots/DragNDrop/PlaceHolderManager.hpp:149-163 | with a placeholder, a move off it removes it and creates no new one on that step, and a move on it changes nothing; without one, a placeholder is created as on drag enter |
| `PlaceHolders.PlaceHolderManager.DragLeave` | include/SciQLopPlots/DragNDrop/PlaceHolderManager.hpp:165-171 | on drag leave any placeholder is removed from the list and the field is cleared |
| `PlaceHolders.PlaceHolderManager.Drop` | include/SciQLopPlots/DragNDrop/PlaceHolderManager.hpp:173-183 | a drop on a placeholder asks for a new plot at the placeholder's index and removes it; otherwise it names the existing plot under the cursor and changes nothing |
| `PlaceHolders.CountOneRemoved` | include/SciQLopPlots/DragNDrop/PlaceHolderManager.hpp:109-113 | removing the only occurrence of a widget leaves none and keeps the count of every other widget |
| `PlaceHolders.NewHolderOnce` | include/SciQLopPlots/DragNDrop/PlaceHolderManager.hpp:101-107 | a newly made placeholder is in the list exactly once, and every other widget's count is kept |
| `Events.KeyboardActionTable` | include/SciQLopPlots/Qt/Events/Keyboard.hpp:31-86 | a key event is handled exactly when it is Delete, or M or an arrow with no modifier, or an arrow with Ctrl alone; unmodified arrows move an axis by ±0.2 of its width, Ctrl arrows zoom it by 1.2 or 0.8, M autoscales y and Delete deletes the selected object whatever the modifiers |
| `Events.UnhandledExamples` | include/SciQLopPlots/Qt/Events/Keyboard.hpp:34-85 | the modifiers are compared as a whole, so Ctrl+M, Shift+Right and Ctrl+Shift+Up do nothing |
| `Events.LegacyAgreesButDelete` | src/Events/Keyboard.hpp:26-73 | the legacy handler asks for the same action as the current one on every key but Delete, which only the current one handles |
| `Events.ArrowMovesUndo` | include/SciQLopPlots/Qt/Events/Keyboard.hpp:41-52 | Left undoes Right and Down undoes Up; each move keeps the width and leaves the other axis alone |
| `Events.ScaledWidth` | include/SciQLopPlots/Qt/Events/Keyboard.hpp:61-72 | a keyboard zoom scales the axis width by its factor and keeps the centre |
| `Events.ZoomInOutShrinks` | include/SciQLopPlots/Qt/Events/Keyboard.hpp:61-66 | Ctrl+Right then Ctrl+Left does not give the x range back: its width ends at 96 % of what it was, about the same centre, and y is untouched |
| `Events.HandleKeyboardEvent` | include/SciQLopPlots/Qt/Events/Keyboard.hpp:31-86 | the handler reports the event handled exactly when the key table has an action for it; moves and zooms change the ranges as that action says, otherwise the ranges are kept, and autoscale and delete are handed back to the plot |
| `Events.ZoomFactor` | include/SciQLopPlots/Qt/Events/Wheel.hpp:31-34 | the wheel zoom factor is above one exactly for a positive angle and is one exactly for a zero angle |
| `Events.OppositeStepsShrink` | include/SciQLopPlots/Qt/Events/Wheel.hpp:31-34 | two opposite wheel steps do not cancel: their factors multiply to less than one unless the angle is zero, and a usual step of 120 zooms by 7/6 |
| `Events.WheelMovement` | include/SciQLopPlots/Qt/Events/Wheel.hpp:36-43 | the wheel movement is the pixel delta when it is not zero, and otherwise the angle delta divided by eight with C++ truncating division |
| `Events.WheelMovementExamples` | include/SciQLopPlots/Qt/Events/Wheel.hpp:36-43 | a full wheel step of ±120 is ±15 degrees, and a sideways angle under eight counts as zero |
| `Events.WheelActionTable` | include/SciQLopPlots/Qt/Events/Wheel.hpp:46-81 | the wheel does nothing exactly when Ctrl alone comes with a sideways turn; Ctrl zooms y and Shift zooms x about the cursor by the angle's zoom factor; Alt moves y by the angle; any other modifiers move by the pixel delta, or by the angle along x when there is none |
| `Events.HandleWheelEvent` | include/SciQLopPlots/Qt/Events/Wheel.hpp:46-81 | the wheel handler always reports the event handled; a zoom changes only the chosen axis, about the data coordinate under the cursor, and a move shifts both axes by the data distance of the pixel offsets |
| `PlotInterface.AxisByType` | include/SciQLopPlots/SciQLopPlotInterface.hpp:186-201 | `axis(AxisType)` gives no axis for any type but time, x, y and z |
| `PlotInterface.AxisByAnchor` | include/SciQLopPlots/SciQLopPlotInterface.hpp:203-223 | `axis(anchor, index)` gives no axis for a non-zero index, nor for the two centre anchors |
| `PlotInterface.FirstNamed` | include/SciQLopPlots/SciQLopPlotInterface.hpp:225-238 | the name lookup returns an axis exactly when one of the candidates exists and carries the name, and what it returns is such a candidate |
| `PlotInterface.AxisLookups` | include/SciQLopPlots/SciQLopPlotInterface.hpp:186-223 | by type, time, x, y and z give those axes; by anchor at index 0, bottom gives x, left y, right y2 and top x2 |
| `PlotInterface.AxisByNameOrder` | include/SciQLopPlots/SciQLopPlotInterface.hpp:225-238 | the name lookup prefers x, then y, and finds nothing exactly when none of x, y, z, x2 and y2 carries the name |
| `PlotInterface.WithoutMembers` | include/SciQLopPlots/SciQLopPlotInterface.hpp:117-118 | removing every frozen axis keeps exactly the axes that are not frozen and gains none |
| `PlotInterface.RemoveAll` | include/SciQLopPlots/SciQLopPlotInterface.hpp:118 | `removeAll(ax)` removes every occurrence of the axis and nothing else |
| `PlotInterface.WithoutAppend` | include/SciQLopPlots/SciQLopPlotInterface.hpp:117-118 | removing the frozen axes one after the other is removing them all at once |
| `PlotInterface.AutoScaleTargets` | include/SciQLopPlots/SciQLopPlotInterface.hpp:101-120 | the M shortcut rescales the axis under the cursor, else the selected axes, else the plot's default list, less every frozen axis |
| `PlotInterface.AutoScaleNeverFrozen` | include/SciQLopPlots/SciQLopPlotInterface.hpp:101-120 | a frozen axis is never rescaled, and an axis under the cursor that is not frozen is the only one rescaled |
| `PlotInterface.ToggledFlipsTargets` | include/SciQLopPlots/SciQLopPlotInterface.hpp:122-134 | with distinct targets, the L shortcut flips the log flag of every targeted axis and keeps every other axis's flag |
| `PlotInterface.RoutingTable` | include/SciQLopPlots/SciQLopPlotInterface.hpp:271-343 | `line`, `scatter` and `parametric_curve` reach `plot_impl` with their own graph type and the given marker; `line` on buffers passes no metadata, every other entry point passes it on |
| `PlotInterface.Plot.constructor` | include/SciQLopPlots/SciQLopPlotInterface.hpp:93-140 | a new plot has the given axes, names and default rescale list, no frozen axis, and is unselected with the plain stylesheet |
| `PlotInterface.Plot.FreezeAxis` | include/SciQLopPlots/SciQLopPlotInterface.hpp:412 | `freeze_axis` appends the axis to the frozen list and changes nothing else |
| `PlotInterface.Plot.SetSelected` | src/SciQLopPlotInterface.cpp:25-36 | `set_selected` changes the flag and emits `selection_changed` only when the value differs, and the stylesheet shows the dashed border exactly when the plot is selected |
| `PlotInterface.Plot.ToggleLog` | include/SciQLopPlots/SciQLopPlotInterface.hpp:122-134 | the L shortcut calls `set_log(!log())` on the axis under the cursor, else on each selected axis in turn, and changes nothing else |
| `SciQLopPlotImpl.ColorMapCountAppend` | src/SciQLopPlot.cpp:440-457 | registering a wrapper adds one to the number of colour maps exactly when it is a colour map |
| `SciQLopPlotImpl.PlottableIndexOutOfRange` | src/SciQLopPlot.cpp:136-141 | the clamped index `sqp_plottable` reads lies inside the list exactly when the list is not empty and the index is at least -1; an empty list reads index -1 |
| `SciQLopPlotImpl.PlottableAt` | src/SciQLopPlot.cpp:136-141 | with the access guarded, a wrapper comes back exactly when the list is not empty and the index is at least -1: the wrapper at the index when it is in range, the last one for -1 or an index past the end |
| `SciQLopPlotImpl.FirstNamed` | src/SciQLopPlot.cpp:143-151 | the position found is that of the first wrapper with the name, and -1 exactly when no wrapper has it |
| `SciQLopPlotImpl.PlottableNamed` | src/SciQLopPlot.cpp:143-151 | `sqp_plottable(name)` is null exactly when no wrapper has the name, and otherwise the first wrapper that has it |
| `SciQLopPlotImpl.ConfiguredPens` | src/SciQLopPlot.cpp:554-567 | `_configure_plotable` keeps the number of pens; when there are no more colours than plottables, pen i becomes a solid pen of colour i and the rest are kept; with more colours nothing changes |
| `SciQLopPlotImpl.ReplotCases` | src/SciQLopPlot.cpp:205-219 | an immediate replot counts one redraw and leaves nothing pending, since the `afterReplot` handler of the constructor clears the flag; a queued request starts the timer exactly from an idle, non-pending state and otherwise changes nothing |
| `SciQLopPlotImpl.QueuedReplotsCoalesce` | src/SciQLopPlot.cpp:205-219 | any number of queued replot requests starts the single-shot timer at most once, exactly when there is one and the plot was neither pending nor timing; then both flags are set, and no immediate replot is counted |
| `SciQLopPlotImpl.ImmediateReleasesQueue` | src/SciQLopPlot.cpp:205-219 | a queued request, an immediate replot while the timer runs and the timeout leave nothing pending, so the next queued request starts the timer again |
| `SciQLopPlotImpl.LegendDoubleClickProperties` | src/SciQLopPlot.cpp:532-552 | a double click on a legend entry flips its plottable's visibility and colours the text black when visible and gray when hidden; two double clicks restore the visibility |
| `SciQLopPlotImpl.Plot.constructor` | src/SciQLopPlot.cpp:62-110 | a new plot holds no plottable, hides its colour scale, and has no replot pending |
| `SciQLopPlotImpl.Plot.RequestReplot` | src/SciQLopPlot.cpp:205-219 | `replot(priority)` replots at once when immediate, clearing the pending flag through `afterReplot`, and otherwise starts the timer only if it is idle and no replot is pending; the plottables are kept |
| `SciQLopPlotImpl.Plot.AddPlottable` | src/SciQLopPlot.cpp:440-457 | a new line graph or curve is appended at the end of the wrapper list with one default pen per label |
| `SciQLopPlotImpl.Plot.AddColorMap` | src/SciQLopPlot.cpp:158-182 | `add_color_map` appends a colour map and shows the colour scale exactly when the scale was hidden, and otherwise returns null and changes nothing, so the plot never holds two colour maps |
| `SciQLopPlotImpl.Plot.ConfigurePlottable` | src/SciQLopPlot.cpp:554-567 | configuring a wrapper replaces its pens by the configured pens and changes no other wrapper |
| `SciQLopPlotImpl.Plot.PlotImplXY` | src/SciQLopPlot.cpp:642-664 | `plot_impl` on buffers throws "Unsupported graph type" exactly for scatter and colour-map types, leaving the list alone; a line graph or curve is appended with its pens configured from the colours |
| `SciQLopPlotImpl.Plot.PlotImplXYZAsWritten` | src/SciQLopPlot.cpp:666-672 | the colour-map `plot_impl` dereferences a null pointer exactly when the plot already has a colour map |
| `SciQLopPlotImpl.Plot.PlotImplXYZ` | src/SciQLopPlot.cpp:666-672 | with the null check of the callable overload, a second colour map gives a null result and changes nothing, and a first one is appended |
| `SciQLopPlotImpl.ColorMapCountUpdate` | src/SciQLopPlot.cpp:554-567 | replacing a wrapper by one of the same kind keeps the number of colour maps |
| `SciQLopPlotImpl.CallableKind` | src/SciQLopPlot.cpp:706-728 | the callable `plot_impl` makes a wrapper exactly for the line and parametric-curve types, a line-graph function or curve function respectively, and returns null otherwise |

These functions have no contract of their own. The lemmas or methods named after them, each with a row above, specify them:

- `VerticalSpans.InvertedColor`: `VerticalSpans.InvertedColorInvolution`.
- `VerticalSpans.SpanSelectTest`: `VerticalSpans.SpanSelectTestCases`.
- `VerticalSpans.KeepLowerSelected` and `VerticalSpans.KeepUpperSelected`: `VerticalSpans.KeepLowerSelectedHolds` and `VerticalSpans.KeepUpperSelectedHolds`.
- `PlotRange.IntersectionWith`: `PlotRange.IntersectionInBoth` and `PlotRange.DisjointIntersectionIsTheGap`.
- `PlotRange.UnionWith`: `PlotRange.UnionContainsBoth`.
- `PlotRange.Plus` and `PlotRange.Minus`: `PlotRange.ShiftKeepsSize` and `PlotRange.ShiftRoundTrip`.
- `PlotRange.Times`: `PlotRange.TimesKeepsCenter`.
- `PlotRange.Divide`: `PlotRange.DivideKeepsCenter`.
- `QcpEnums.MarkerToQcp` and `QcpEnums.MarkerFromQcp`: `QcpEnums.MarkerRoundTrip`, `QcpEnums.UnknownScatterShapes` and `QcpEnums.MarkerToQcpInjective`.
- `QcpEnums.LineStyleToQcp` and `QcpEnums.LineStyleFromQcp`: `QcpEnums.LineStyleRoundTrip`.
- `QcpEnums.GradientToQcp` and `QcpEnums.GradientFromQcp`: `QcpEnums.GradientRoundTrip`.
- `QcpEnums.TerminationToQcp` and `QcpEnums.TerminationFromQcp`: `QcpEnums.TerminationRoundTrip`.
- `QCPWrapper.MinElement` and `QCPWrapper.MaxElement`: `QCPWrapper.ElementBounds`.
- `QCPWrapper.ColorMapAsWritten`: `QCPWrapper.ColorMapAsWrittenDereferencesEmpty`.
- `QCPWrapper.Wrapper.GraphColor`: the ensures of `QCPWrapper.Wrapper.AddGraph` and `QCPWrapper.Wrapper.SetGraphColor`.

## Left out

- Drawing, widgets, layouts, styles and the Qt event loop are not modelled. Signals are modelled only where a member's contract says which signal is emitted and with which value. Rendering geometry is not modelled.
- Threads, timers and the worker objects are not modelled: `DataProviderWorker`'s thread moves and `test_data`, and the 100 ms timer. `DataProducer`'s `_start_timer` is not modelled because it is connected to nothing.
- Python objects and the CPython API are not modelled. `PyBuffer` is an array of `Double` with its shape.
- Floating-point rounding is not modelled. Doubles are exact reals plus a NaN value, and infinities are not modelled.
- `log10` and `pow` are parameters of the members that use them. The model assumes only what those members need.
- Walks up the inspector and products trees rely on the trees being acyclic, which the source never states. The model keeps a ghost depth per node, or a rank per object, as a class invariant to bound those walks. So a cyclic tree is not modelled.
- A range-for loop that modifies the container it walks is undefined behaviour in C++. This happens in `SciQLopMultiPlotObject::updatePlotList` and `ProductsModelNode::add_child`. Each has a finding that shows the as-written behaviour. The rest of the model uses the evidently intended filtering.
- Items VerticalSpan: the out-of-line members of the items' `VerticalSpan` are in an implementation file that is not part of this model. Its constructor takes the post-construction state as parameters.
- MultiSpans: the header of the legacy `MultiPlotsVerticalSpan` is not part of this model. Only its `update_plot_list` is modelled.
- MultiSpans.SetStep: the connections from each span's `range_changed`, `selectionChanged` and border-selection signals back to the group's setters (src/MultiPlotsVSpan.cpp:61-68) are not modelled. The group stores its value only after its loop over the spans, so a span that emits while it is being set would re-enter the setter with the old value still stored. The span's own setters are in an implementation file that is not part of this model, so that feedback is left out and the emission and replot counts are the group's own.
- MultiSpans.SetStepProperties: states the group's own emissions only, for the reason given for `SetStep`.
- MultiSpans.SetRangeNaNRepeats: states the group's own emissions only. With the span feedback, a NaN range would re-enter `set_range` without end.
- MultiSpans.MultiPlotsVSpan.SetSelected: the re-entry through the spans' `selectionChanged` is not modelled.
- MultiSpans.MultiPlotsVSpan.SetRange: the re-entry through the spans' `range_changed` is not modelled.
- MultiSpans.MultiPlotsVSpan.SelectLowerBorder: the re-entry through the spans' `lower_border_selection_changed` is not modelled.
- MultiSpans.MultiPlotsVSpan.SelectUpperBorder: the re-entry through the spans' `upper_border_selection_changed` is not modelled.
- Tracer: `selectTest` and the draw geometry are not modelled; its distance and the first point of its selection details are parameters of `Tracer.NearestDataPoint`, which tests the distance for truth as the source does. The number formatting of `_render_value` is left to a parameter.
- PlottableWrapper: `newComponent` and `components()` are not modelled, because they build Qt objects.
- ProjectionCurves: `SciQLopFunctionGraph::observe` and the `SciQLopColorMapInterface` constructor are not modelled.
- PlotAxis: `rescale` and axis coupling and decoupling are not modelled, because they go through QCustomPlot internals.
- InspectorTree: `set_selected`, `addTopLevelNode`, `columnCount`, `node_changed` and `mimeData` are not modelled.
- ProductsTree: `columnCount`, `beginInsertRows`/`endInsertRows` and the `instance()` singleton are not modelled.
- CurveResampler.ResampleImpl: requires `lineCount * |x|` y values. That is the shape the Python side always passes; the source does not check it.
- ColorMapResampler.ResampleImpl: requires the grid sizes to fit in a Qt `int` (`QtInt`).
- ColorMapResampler.ResampleImpl: once there is data and a non-empty grid, requires `ColorMapBuffers`: sorted x and the matching x, y and z shapes. The binary searches of `make_view` need sorted x, and the source checks neither.
- LineResampler.ResampleImpl: once there is data and a non-zero point budget, requires sorted x, `LineBuffers` and `lineCount <= YColumns(y)`. The binary searches of `make_view` need sorted x, and `copy_data` and `resample` read `y(i, line_index)` for every line without a check.
- ArrayViews.XYViewByRange: requires sorted x, because `std::upper_bound` and `std::lower_bound` are defined only on a range ordered for the comparison, and requires the one-column shapes of `SeriesBuffers`. The source checks neither.
- Views.XYZViewByRange: requires sorted x and the shapes of `SpectrogramBuffers`, for the same reasons.
- View.MapPixel: the widget's `map_pixels_to_data_coordinates` is an affine map per axis (`View.PixelMap`), so logarithmic axes are not modelled; `View.DistanceIsScaledDelta` and the `View.Distance2` components hold only for that affine map.
- Resampling.MakeSeriesView: requires sorted x and `LineBuffers`, for the same reasons.
- Resampling.SeriesWindow: requires `LineBuffers`. It states the window of the corrected `XYView`, so it says nothing about unsorted x.
- PlotDispatch.PlotRouting: when no branch of the Python `plot()` applies, it prints "only 1, 2 or 3 arguments are supported, got n" before returning `None`; the model gives `NoCall` and does not model the printed message.
- QCPWrapper.PlotGraph: requires `|y| >= |x|`, because `plot` never checks `y_size` and reads `x_size` values of y; a shorter y buffer is read past its end, which is not modelled.
- QCPWrapper.PlotGraphs: requires at least one graph, because `plot` divides `y_size` by `std::size(graphIndexes)` without a check. The division by zero for an empty index list is not modelled.
- VerticalSpans.VerticalSpan.Range: requires both borders to exist, because `range()` dereferences both border pointers without a check.
- InspectorTree.PlotsModel.RemoveChild: a destroyed child is only detached from the tree. The model does not record that `~PlotsModelNode` deletes the child's whole subtree and calls `deleteLater` on the object of every node in it. Those nodes stay in the arena, unreachable from the root. `live` stays unchanged, which matches the state right after the call, since `deleteLater` only schedules the deletion.
- InspectorTree.PlotsModel.RemoveRows: the same holds for each deletable child it removes.
- InspectorTree.PlotsModel.RemoveRow: the same holds, through `removeRows`.
- PlotItem.PlotItem.MousePress: `qRound` converts to a 32-bit `int`, and its overflow for coordinates beyond that range is not modelled.
- LegacyResamplers.WindowResample: requires sorted x and at least `L * |x|` y values, as the resampler's callers provide them.
- ProductsTree.ProductsModel.AddChild: requires the child to be detached, or already a child of the node.
- ProductsTree.ProductsModel.AddNode: requires the object to have no parent and not to be the root.
- Shapes: `EllipseItem::move` and `CurvedLineItem::move` are defined out of line in a file that is not part of this model.
- Shapes: the accessors of `SciQLopEllipseItem` and `SciQLopCurvedLineItem` forward through a `QPointer` to the item; the model calls the item's own members directly, so their fallback values once the item is deleted are not modelled.
- XAxisSync.XAxisSynchronizer.UpdatePlotList: requires the last entry of the list to be non-null, because `_display_x_axis_only_last_plot` dereferences `_plots.last()` without a check; the base synchronizer's connection bookkeeping is not modelled.
- StraightLines.SciQLopStraightLine.SetPosition: requires the line to exist, because `SciQLopStraightLine::set_position` calls through the `QPointer` without a check.
- StraightLines.SciQLopStraightLine.constructor: the plot is dereferenced without a check, so a null plot is not modelled.
- StraightLines.SetPixelPosition: requires both axis scales to be non-zero; QCustomPlot's behaviour on a degenerate axis is not modelled.
- PlaceHolders.PlotList: the collection behind `_interface()` is a widget list with `insert_plot` and `remove_plot` (first occurrence) only; the panel and container classes that implement it are not part of this model.
- SciQLopPlotImpl.Plot.AddPlottable: the `add_plottable` and `_new_plottable_wrapper` templates are not part of this model; a new wrapper is taken to be appended by `_register_plottable_wrapper`, with one default pen per label.
- SciQLopPlotImpl: setting the data of a new plottable, `_connect_callable_sync` (signal wiring) and `_configure_color_map` beyond showing the colour scale are not modelled.

## Findings

| source | as written | input that shows it | evidently intended | confidence | as-written member | corrected member |
|---|---|---|---|---|---|---|
| include/SciQLopPlots/Python/Views.hpp:175-181 | the left scan of `y_bounds` advances while the value is NaN and `j < n_cols`, then reads `y(row, j)` again | a one-column row holding NaN: the scan reads column 1, past the row | stop at the last column, as the right scan stops at column 0 | not executed | `Views.LeftScanCounterexample` | `Views.RowBounds` |
| include/SciQLopPlots/Plotables/Resamplers/SciQLopLineGraphResampler.hpp:45 | each bucket starts by reading `x(view_index)`, even once every point has been consumed | x = [0, 1, 2, 3, 10], four destination points: the second bucket reads `x(5)` of a five-point view | start an exhausted bucket at the last x | not executed | `LineResampler.BucketStartPastEnd` | `LineResampler.BucketAt` |
| include/SciQLopPlots/Python/Views.hpp:55-63 | the x window uses `upper_bound(x_start)` and `lower_bound(x_stop)`, and a stop index of 0 means "to the end" in `PyBuffer::view` | x = [1, 2, 3]: the range (-10, 0.5) selects all three rows, and the range (2, 2) gives start 2 > stop 1, so the row count wraps to 2^64 - 1 | the points strictly between the bounds, empty when there are none | not executed | `ArrayViews.WindowBeforeDataSelectsAll` | `ArrayViews.Window` |
| include/SciQLopPlots/Plotables/SciQLopGraphComponent.hpp:176-197 | `marker_shape()` and `marker_pen()` do not read what `set_marker_shape` and `set_marker_pen` stored | a graph given the `Circle` marker reads back `NoMarker`; a curve given a grey dashed pen of width 3 reads back another pen | the getters return what the setters stored | not executed | `GraphComponent.MarkerShapeIsLost` | `GraphComponent.MarkerRoundTripIntended` |
| include/SciQLopPlots/Qt/QCustomPlot/QCustomPlotWrapper.hpp:303-311 | the colour-map shape check passes empty x and z, and the code then dereferences `min_element` of an empty x | x = [], y = [0, 1, 2, 3, 4], z = [] | do nothing for empty data | not executed | `QCPWrapper.ColorMapAsWrittenDereferencesEmpty` | `QCPWrapper.PlotColorMap` |
| src/SciQLopNDProjectionCurves.cpp:77-87 | when there is one more buffer than curves, the routing takes each buffer index modulo `n - 1` | one curve and two buffers: `i % 0` | give one curve with two buffers to the `2n` branch, which pairs the buffers of a single curve | not executed | `ProjectionCurves.OneCurveDividesByZero` | `ProjectionCurves.Routing` |
| include/SciQLopPlots/Plotables/QCPAbstractPlottableWrapper.hpp:128-133 | `component(index)` clamps the index to `size() - 1` and reads the list | an empty component list: the index read is -1 | no component when the list is empty | not executed | `PlottableWrapper.ComponentIndexOutOfRange` | `PlottableWrapper.ComponentAt` |
| src/SciQLopPlot.cpp:136-141 | `sqp_plottable(index)` maps -1 and indices past the end to `size() - 1` and reads the list | an empty list with index -1 reads index -1; any index below -1 reads below 0 | no wrapper when the clamped index is outside the list | not executed | `SciQLopPlotImpl.PlottableIndexOutOfRange` | `SciQLopPlotImpl.PlottableAt` |
| src/SciQLopVerticalSpan.cpp:77-86 | `set_range` calls `set_left_pos(min)` then `set_right_pos(max)`; after the first call has moved the lower border, `_upper_border()` picks the border just moved when it now lies right of the other one, so that border is moved again to the maximum and the other border stays where it was | the span (0, 1) sent to (5, 6) reads back (1, 6) | the span reads back the requested range | not executed | `VerticalSpans.SetRangeBordersLeavesBorderBehind` | `VerticalSpans.SetRangeBordersIntendedReadsBack` |
| src/SciQLopMultiPlotObject.cpp:62-69 | `updatePlotList` calls `m_plots.removeOne(plot)` inside a range-for over `m_plots` (then `removeObject`, whose base body is empty), so the loop erases from the list it walks | plots [a, b] with a gone: the loop reads past the end of `m_plots` | walk a copy and remove the plots that are gone | not executed | `MultiPlotObjects.RangeForRemoveReadsPastEnd` | `MultiPlotObjects.UpdateHoldsNewPlots` |
| src/SciQLopVerticalSpan.cpp:209-217 | the legacy `update_plot_list` calls `removeAt(i)` on the parallel lists and then still does `++i` | two adjacent plots p, q that both leave: q keeps its place and its span | every plot that leaves is removed | not executed | `MultiSpans.LegacyUpdateLeavesStale` | `MultiSpans.LegacyUpdateIntendedHoldsNewPlots` |
| include/SciQLopPlots/Items/SciQLopShapesItems.hpp:63-70 | the pen-and-brush `EllipseItem` constructor delegates to the first constructor without the tooltip | any non-empty tooltip: the item's tooltip is empty | pass the tooltip on | not executed | `Shapes.EllipseWithPenDropsToolTip` | `Shapes.EllipseWithPenIntendedKeepsToolTip` |
| include/SciQLopPlots/Qt/QCustomPlot/QCPTimeSpan.hpp:193-200 | `contains` in data coordinates compares y with the corners' vertical values, which are axis-rect ratios (0 at the top, 1 at the bottom) | any point: the test asks for 1 <= y <= 0 | test x against the span's start and end only: the span covers the whole axis-rect height, so y cannot be outside it | not executed | `TimeSpan.ContainsDataNeverHolds` | `TimeSpan.ContainsDataFollowsMove` |
| src/SciQLopPlot.cpp:666-672 | the colour-map `plot_impl` uses the result of `add_color_map` without the null check the callable overload has | a plot that already has a colour map: null dereference | return null and change nothing | not executed | `SciQLopPlotImpl.Plot.PlotImplXYZAsWritten` | `SciQLopPlotImpl.Plot.PlotImplXYZ` |
| include/SciQLopPlots/Items/SciQLopStraightLines.hpp:44-64 | the `StraightLine` constructor sets the points' coordinates while they are still in plot coordinates, then switches them to `ptAbsolute` for pixel coordinates, and `setType` keeps the pixel position | a key axis mapping x to 10 + 2x pixels, a vertical line at pixel 5: its points are stored at pixel 20 | give the positions their type before the coordinates, as `EllipseItem` does | not executed | `StraightLines.PixelLineMisplaced` | `StraightLines.EndsIntendedAtPosition` |
| src/ProductsNode.cpp:44-52 | `add_child` calls `removeOne` on `m_children` inside the range-for over `m_children` | children [a, b] with a named like the new child: the loop reads past the end of `m_children` | drop the children named like the new child, then append it | not executed | `ProductsTree.AddChildLoopReadsPastEnd` | `ProductsTree.KeepOthers` |
