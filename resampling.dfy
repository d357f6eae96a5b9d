/** The resampler base of `AbstractResampler.hpp`: the plot information and data a resampler
  * holds, the double buffer between `setData` and the queued resampling callback, `_bounds`, and
  * the plain `copy_data` of an `XYView` column. */
module Resampling {
  import opened Common
  import opened ArrayViews

  /** `QCPGraphData`: a key and a value. */
  datatype GraphData = GraphData(key: Double, value: Double)

  /** `QCPCurveData`: a parameter `t`, a key and a value. */
  datatype CurveData = CurveData(t: Double, key: Double, value: Double)

  /** `ResamplerPlotInfo`: the axes' log flags, the plot size in pixels and the visible x range. */
  datatype PlotInfo = PlotInfo(xIsLog: bool, yIsLog: bool, width: int, height: int,
                               plotRange: (Double, Double))

  /** `ResamplerData1d` (no `z`) and `ResamplerData2d` (with `z`). */
  datatype ResamplerData = ResamplerData(x: Buffer, y: Buffer, z: Option<Buffer>,
                                         xRange: (Double, Double), newData: bool)

  /** `static_cast<std::size_t>` of an `int`. */
  function ToSizeT(i: int): (n: nat)
    ensures 0 <= i < SizeModulus ==> n == i
    ensures -SizeModulus <= i < 0 ==> n == SizeModulus + i
  {
    i % SizeModulus
  }

  /** `_bounds(b)`: the first and last values of a non-empty buffer, (NaN, NaN) for an empty
    * one. */
  function Bounds(b: Buffer): (r: (Double, Double))
  {
    if |b.data| > 0 then (b.data[0], b.data[|b.data| - 1]) else (NaN, NaN)
  }

  /** For sorted data the bounds are numbers that enclose every value; an empty buffer has NaN
    * bounds. */
  lemma BoundsEnclose(b: Buffer)
    ensures |b.data| == 0 ==> IsNaN(Bounds(b).0) && IsNaN(Bounds(b).1)
    ensures Sorted(b.data) && |b.data| > 0 ==>
              Le(Bounds(b).0, Bounds(b).1) &&
              forall k :: 0 <= k < |b.data| ==> Le(Bounds(b).0, b.data[k]) && Le(b.data[k], Bounds(b).1)
  {
  }

  // ---- strided reads ----

  /** A pointer into `y` that starts at `offset` and steps by `incr` stays inside `y` for `n`
    * reads. */
  predicate StrideFits(y: seq<Double>, offset: nat, incr: nat, n: nat)
  {
    n == 0 || offset + (n - 1) * incr < |y|
  }

  /** The `n` values such a pointer reads: value `k` is `y[offset + k * incr]`. */
  function Strided(y: seq<Double>, offset: nat, incr: nat, n: nat): (s: seq<Double>)
    requires StrideFits(y, offset, incr, n)
    ensures |s| == n
    ensures forall k :: 0 <= k < n ==> offset + k * incr < |y| && s[k] == y[offset + k * incr]
  {
    StrideInBounds(y, offset, incr, n);
    seq(n, k requires 0 <= k < n => y[offset + k * incr])
  }

  lemma StrideInBounds(y: seq<Double>, offset: nat, incr: nat, n: nat)
    requires StrideFits(y, offset, incr, n)
    ensures forall k :: 0 <= k < n ==> offset + k * incr < |y|
  {
    forall k | 0 <= k < n ensures offset + k * incr < |y| {
      MulMonotone(k, n - 1, incr);
    }
  }

  // ---- XYView columns ----

  /** An `XYView` whose two views hold their buffers and share the same row window, with x a
    * single column. */
  predicate SeriesView(v: XYView)
  {
    v.x.Some? && v.y.Some? && WellFormed(v.x.value) && WellFormed(v.y.value) &&
    v.x.value.nCols == 1 && v.y.value.start == v.x.value.start &&
    v.y.value.stop == v.x.value.stop && |v.x.value.data| < SizeModulus
  }

  /** The number of rows of the window. */
  function Rows(v: XYView): (n: nat)
    requires SeriesView(v)
    ensures n == XYSize(v)
  {
    FlatSizeOfWellFormed(v.x.value);
    v.x.value.stop - v.x.value.start
  }

  /** The window's x values, `x(0) .. x(size - 1)`. */
  function Xs(v: XYView): (xs: seq<Double>)
    requires SeriesView(v)
    ensures |xs| == Rows(v)
    ensures forall i :: 0 <= i < |xs| ==> xs[i] == At(v.x.value, i, 0)
  {
    seq(Rows(v), i requires 0 <= i < Rows(v) => At(v.x.value, i, 0))
  }

  /** Column `col` of the window's y values, `y(0, col) .. y(size - 1, col)`. */
  function Ys(v: XYView, col: nat): (ys: seq<Double>)
    requires SeriesView(v) && col < v.y.value.nCols
    ensures |ys| == Rows(v)
    ensures forall i :: 0 <= i < |ys| ==> ys[i] == At(v.y.value, i, col)
  {
    seq(Rows(v), i requires 0 <= i < Rows(v) => At(v.y.value, i, col))
  }

  /** `copy_data(view, column_index)`: exactly `size(view)` points, point `i` being
    * `(x(i), y(i, column_index))`. */
  method CopyData(v: XYView, col: nat) returns (data: seq<GraphData>)
    requires SeriesView(v) && col < v.y.value.nCols
    ensures |data| == XYSize(v)
    ensures forall i :: 0 <= i < |data| ==> data[i] == GraphData(At(v.x.value, i, 0), At(v.y.value, i, col))
    ensures data == Copied(v, col)
  {
    var n := Rows(v);
    var a := new GraphData[n](_ => GraphData(NaN, NaN));
    var i := 0;
    while i < n
      invariant i <= n
      invariant forall k :: 0 <= k < i ==> a[k] == GraphData(At(v.x.value, k, 0), At(v.y.value, k, col))
    {
      a[i] := GraphData(At(v.x.value, i, 0), At(v.y.value, i, col));
      i := i + 1;
    }
    data := a[..];
    assert data == Copied(v, col);
  }

  /** The points of `copy_data(view, column_index)`: the keys of `Xs` paired with the values of
    * `Ys`. */
  function Copied(v: XYView, col: nat): (data: seq<GraphData>)
    requires SeriesView(v) && col < v.y.value.nCols
  {
    seq(Rows(v), i requires 0 <= i < Rows(v) => GraphData(At(v.x.value, i, 0), At(v.y.value, i, col)))
  }

  /** Two buffers of a line plottable that the view of any window over them reads inside:
    * x valid and one-dimensional, y valid with one row per x and its data matching its shape. */
  predicate LineBuffers(x: Buffer, y: Buffer)
  {
    SeriesBuffers(x, y) && x.valid && y.valid && |x.data| < SizeModulus &&
    |y.data| == y.shape[0] * YColumns(y)
  }

  /** The columns of the view of `y`. */
  function YColumns(y: Buffer): nat
    requires |y.shape| >= 1
  {
    if |y.shape| == 1 then 1 else MaxInt(y.shape[1], 1)
  }

  /** `make_view(data, plot_info)`: the window over the visible range. */
  method MakeSeriesView(x: Buffer, y: Buffer, info: PlotInfo) returns (v: XYView)
    requires LineBuffers(x, y) && Sorted(x.data)
    ensures v == SeriesWindow(x, y, info)
  {
    v := XYViewByRange(x, y, info.plotRange.0, info.plotRange.1);
  }

  /** The views `make_view` builds over the buffers of a line plottable: x and y over the
    * visible window of x. */
  function SeriesWindow(x: Buffer, y: Buffer, info: PlotInfo): (v: XYView)
    requires LineBuffers(x, y)
    ensures SeriesView(v) && v.y.value.nCols == YColumns(y)
    ensures (v.x.value.start, v.x.value.stop) == Window(x.data, info.plotRange.0, info.plotRange.1)
    ensures XYSize(v) == Window(x.data, info.plotRange.0, info.plotRange.1).1 - Window(x.data, info.plotRange.0, info.plotRange.1).0
  {
    var w := Window(x.data, info.plotRange.0, info.plotRange.1);
    var v := XYView(Some(MakeView(x.data, x.shape[0], 0, w.0, w.1, x.rowMajor)),
                    Some(MakeView(y.data, y.shape[0], if |y.shape| == 1 then 0 else y.shape[1], w.0, w.1, y.rowMajor)));
    assert WellFormed(v.x.value);
    assert WellFormed(v.y.value);
    FlatSizeOfWellFormed(v.x.value);
    v
  }

  /** The part of a resampler that `_AbstractResampler` shares between the line, curve and colour
    * map resamplers. `queued` counts the `_resample_sig` emissions whose queued callback has not
    * run yet. */
  class Resampler {
    var data: ResamplerData
    var nextData: ResamplerData
    var plotInfo: PlotInfo
    var lineCount: nat
    var queued: nat

    /** The constructor stores the line count and the parent plot's size, which queues a
      * resampling. */
    constructor (init: ResamplerData, lineCnt: nat, width: int, height: int)
      ensures lineCount == lineCnt && plotInfo.width == width && plotInfo.height == height
      ensures !plotInfo.xIsLog && !plotInfo.yIsLog && plotInfo.plotRange == (D(0.0), D(0.0))
      ensures data == init && nextData == init && queued == 1
    {
      data, nextData := init, init;
      plotInfo := PlotInfo(false, false, width, height, (D(0.0), D(0.0)));
      lineCount := lineCnt;
      queued := 1;
    }

    /** `resample(new_range)`: the next plot range is stored and a callback queued. */
    method Resample(range: (Double, Double))
      modifies this
      ensures plotInfo == old(plotInfo).(plotRange := range) && queued == old(queued) + 1
      ensures data == old(data) && nextData == old(nextData) && lineCount == old(lineCount)
    {
      SetNextPlotRange(range);
      queued := queued + 1;
    }

    /** `set_next_plot_range`: only the plot range changes. */
    method SetNextPlotRange(range: (Double, Double))
      modifies this
      ensures plotInfo == old(plotInfo).(plotRange := range)
      ensures data == old(data) && nextData == old(nextData) && lineCount == old(lineCount) && queued == old(queued)
    {
      plotInfo := plotInfo.(plotRange := range);
    }

    /** `setData(x, y[, z])`: the buffers go to the next data with their bounds and a fresh
      * `new_data` flag, then a resampling over the current plot range is queued. */
    method SetData(x: Buffer, y: Buffer, z: Option<Buffer>)
      modifies this
      ensures nextData == ResamplerData(x, y, z, Bounds(x), true)
      ensures queued == old(queued) + 1
      ensures data == old(data) && plotInfo == old(plotInfo) && lineCount == old(lineCount)
    {
      nextData := ResamplerData(x, y, z, Bounds(x), true);
      Resample(plotInfo.plotRange);
    }

    /** `set_x_scale_log`. */
    method SetXScaleLog(log: bool)
      modifies this
      ensures plotInfo == old(plotInfo).(xIsLog := log) && queued == old(queued) + 1
      ensures data == old(data) && nextData == old(nextData) && lineCount == old(lineCount)
    {
      plotInfo := plotInfo.(xIsLog := log);
      Resample(plotInfo.plotRange);
    }

    /** `set_y_scale_log`. */
    method SetYScaleLog(log: bool)
      modifies this
      ensures plotInfo == old(plotInfo).(yIsLog := log) && queued == old(queued) + 1
      ensures data == old(data) && nextData == old(nextData) && lineCount == old(lineCount)
    {
      plotInfo := plotInfo.(yIsLog := log);
      Resample(plotInfo.plotRange);
    }

    /** `set_plot_size`. */
    method SetPlotSize(width: int, height: int)
      modifies this
      ensures plotInfo == old(plotInfo).(width := width, height := height) && queued == old(queued) + 1
      ensures data == old(data) && nextData == old(nextData) && lineCount == old(lineCount)
    {
      plotInfo := plotInfo.(width := width, height := height);
      Resample(plotInfo.plotRange);
    }

    /** `set_line_count`. */
    method SetLineCount(n: nat)
      modifies this
      ensures lineCount == n
      ensures data == old(data) && nextData == old(nextData) && plotInfo == old(plotInfo) && queued == old(queued)
    {
      lineCount := n;
    }

    /** `_async_resample_callback`: the next data becomes the current data, the next data's
      * `new_data` flag is cleared, and the current data and plot information are handed to
      * `_resample_impl`. A second callback without a `setData` in between therefore sees
      * `new_data == false`. */
    method Callback() returns (d: ResamplerData, info: PlotInfo)
      requires queued > 0
      modifies this
      ensures data == old(nextData) && nextData == old(nextData).(newData := false)
      ensures d == data && info == plotInfo && !nextData.newData
      ensures plotInfo == old(plotInfo) && lineCount == old(lineCount) && queued == old(queued) - 1
    {
      data := nextData;
      nextData := nextData.(newData := false);
      queued := queued - 1;
      d, info := data, plotInfo;
    }

    /** `get_data()`: the current buffers, with `z` for a 2-D resampler. */
    function GetData(): (r: seq<Buffer>)
      reads this
      ensures |r| == (if data.z.Some? then 3 else 2) && r[0] == data.x && r[1] == data.y
      ensures data.z.Some? ==> r[2] == data.z.value
    {
      if data.z.Some? then [data.x, data.y, data.z.value] else [data.x, data.y]
    }
  }
}
