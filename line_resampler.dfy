/** The line-graph resampler (`Plotables/Resamplers/SciQLopLineGraphResampler.hpp` and
  * `src/SciQLopLineGraphResampler.cpp`): min/max bucket decimation of a view column and the
  * choice between decimating and copying each line. `std::fmin`/`std::fmax` ignore a NaN operand,
  * which is `NanSafeMin`/`NanSafeMax`. */
module LineResampler {
  import opened Common
  import opened ArrayViews
  import opened Views
  import opened Resampling

  function Half(d: Double): Double { Div(d, D(2.0)) }

  /** The bucket width `2 (x_1 - x_0) / dest_size`. */
  function BucketWidth(x0: Double, x1: Double, destSize: nat): Double
  {
    Div(Mul(D(2.0), Sub(x1, x0)), D(destSize as real))
  }

  /** The inner loop of a bucket: while the current x is below the bucket's end and the view is
    * not exhausted, the next point is consumed and folded into the minimum and maximum. The
    * result is the next view index and the bucket's minimum and maximum. */
  function Scan(xs: seq<Double>, ys: seq<Double>, k: nat, cur: Double, maxX: Double,
                mn: Double, mx: Double): (r: (nat, Double, Double))
    requires |xs| == |ys| && k <= |xs|
    ensures k <= r.0 <= |xs|
    decreases |xs| - k
  {
    if Lt(cur, maxX) && k < |xs| then
      Scan(xs, ys, k + 1, xs[k], maxX, NanSafeMin(mn, ys[k]), NanSafeMax(mx, ys[k]))
    else (k, mn, mx)
  }

  /** Where a bucket starts: at the next point, or at the last x once every point is consumed
    * (the source reads `x(view_index)` there, past the end of the view). */
  function BucketStart(xs: seq<Double>, k: nat, x1: Double): Double
  {
    if k < |xs| then xs[k] else x1
  }

  /** One bucket starting at view index `k`. */
  function ScanBucket(xs: seq<Double>, ys: seq<Double>, k: nat, dx: Double, x1: Double): (r: (nat, Double, Double))
    requires |xs| == |ys| && k <= |xs|
    ensures k <= r.0 <= |xs|
  {
    var s := BucketStart(xs, k, x1);
    Scan(xs, ys, k, s, StdMin(Add(s, dx), x1), NaN, NaN)
  }

  /** The points `n` buckets starting at view index `k` write: `(start, min)` then
    * `(start + dx/2, max)` per bucket. */
  function Buckets(xs: seq<Double>, ys: seq<Double>, k: nat, n: nat, dx: Double, x1: Double): seq<GraphData>
    requires |xs| == |ys| && k <= |xs|
    decreases n
  {
    if n == 0 then []
    else
      var r := ScanBucket(xs, ys, k, dx, x1);
      var s := BucketStart(xs, k, x1);
      [GraphData(s, r.1), GraphData(Add(s, Half(dx)), r.2)] + Buckets(xs, ys, r.0, n - 1, dx, x1)
  }

  /** The view index at the start of each of the `n` buckets, followed by the index after the
    * last one. */
  function BucketStarts(xs: seq<Double>, ys: seq<Double>, k: nat, n: nat, dx: Double, x1: Double): (st: seq<nat>)
    requires |xs| == |ys| && k <= |xs|
    ensures |st| == n + 1 && st[0] == k
    decreases n
  {
    if n == 0 then [k] else [k] + BucketStarts(xs, ys, ScanBucket(xs, ys, k, dx, x1).0, n - 1, dx, x1)
  }

  // ---- properties of one bucket ----

  /** The scan never moves backwards or past the view; its minimum and maximum are NaN exactly
    * when every value it consumed is NaN (and the running value was NaN), they enclose every
    * consumed value that is a number, and each is the running value or one of the consumed
    * values. */
  lemma {:induction false} ScanProperties(xs: seq<Double>, ys: seq<Double>, k: nat, cur: Double,
                                          maxX: Double, mn: Double, mx: Double)
    requires |xs| == |ys| && k <= |xs|
    ensures var r := Scan(xs, ys, k, cur, maxX, mn, mx);
      && (IsNaN(r.1) <==> IsNaN(mn) && forall i :: k <= i < r.0 ==> IsNaN(ys[i]))
      && (IsNaN(r.2) <==> IsNaN(mx) && forall i :: k <= i < r.0 ==> IsNaN(ys[i]))
      && (forall i :: k <= i < r.0 && !IsNaN(ys[i]) ==> Le(r.1, ys[i]) && Le(ys[i], r.2))
      && (!IsNaN(mn) ==> Le(r.1, mn)) && (!IsNaN(mx) ==> Le(mx, r.2))
      && (r.1 == mn || exists i :: k <= i < r.0 && r.1 == ys[i])
      && (r.2 == mx || exists i :: k <= i < r.0 && r.2 == ys[i])
    decreases |xs| - k
  {
    if Lt(cur, maxX) && k < |xs| {
      var mn', mx' := NanSafeMin(mn, ys[k]), NanSafeMax(mx, ys[k]);
      NanSafeMinProperties(mn, ys[k]);
      NanSafeMaxProperties(mx, ys[k]);
      ScanProperties(xs, ys, k + 1, xs[k], maxX, mn', mx');
      var r := Scan(xs, ys, k + 1, xs[k], maxX, mn', mx');
      if r.1 == mn' && mn' == ys[k] { assert k <= k < r.0 && r.1 == ys[k]; }
      if r.2 == mx' && mx' == ys[k] { assert k <= k < r.0 && r.2 == ys[k]; }
    }
  }

  /** `n` buckets write `2n` points. */
  lemma {:induction false} BucketsLength(xs: seq<Double>, ys: seq<Double>, k: nat, n: nat, dx: Double, x1: Double)
    requires |xs| == |ys| && k <= |xs|
    ensures |Buckets(xs, ys, k, n, dx, x1)| == 2 * n
    decreases n
  {
    if n > 0 {
      BucketsLength(xs, ys, ScanBucket(xs, ys, k, dx, x1).0, n - 1, dx, x1);
    }
  }

  /** Bucket `b` starts at view index `st[b]` (inside the view) and ends where the next one
    * starts; its first point is at the bucket start with the bucket's minimum, its second half a
    * bucket width later with the maximum. */
  lemma {:induction false} BucketAt(xs: seq<Double>, ys: seq<Double>, k: nat, n: nat, dx: Double, x1: Double, b: nat)
    requires |xs| == |ys| && k <= |xs| && b < n
    ensures var out, st := Buckets(xs, ys, k, n, dx, x1), BucketStarts(xs, ys, k, n, dx, x1);
      && |out| == 2 * n && st[b] <= st[b + 1] <= |xs|
      && var r := ScanBucket(xs, ys, st[b], dx, x1);
      && st[b + 1] == r.0
      && out[2 * b] == GraphData(BucketStart(xs, st[b], x1), r.1)
      && out[2 * b + 1] == GraphData(Add(BucketStart(xs, st[b], x1), Half(dx)), r.2)
    decreases b
  {
    BucketsLength(xs, ys, k, n, dx, x1);
    if b > 0 {
      var k' := ScanBucket(xs, ys, k, dx, x1).0;
      BucketAt(xs, ys, k', n - 1, dx, x1, b - 1);
      assert BucketStarts(xs, ys, k, n, dx, x1)[1..] == BucketStarts(xs, ys, k', n - 1, dx, x1);
      assert Buckets(xs, ys, k, n, dx, x1)[2..] == Buckets(xs, ys, k', n - 1, dx, x1);
    }
  }

  /** Every bucket holds the minimum and maximum of the points it consumed: both are NaN exactly
    * when all of them are NaN (in particular for an empty bucket), and otherwise they enclose
    * every consumed value that is a number and are themselves among the consumed values. */
  lemma BucketMinMax(xs: seq<Double>, ys: seq<Double>, k: nat, n: nat, dx: Double, x1: Double, b: nat)
    requires |xs| == |ys| && k <= |xs| && b < n
    ensures var out, st := Buckets(xs, ys, k, n, dx, x1), BucketStarts(xs, ys, k, n, dx, x1);
      && |out| == 2 * n && st[b] <= st[b + 1] <= |xs|
      && (IsNaN(out[2 * b].value) <==> forall i :: st[b] <= i < st[b + 1] ==> IsNaN(ys[i]))
      && (IsNaN(out[2 * b + 1].value) <==> forall i :: st[b] <= i < st[b + 1] ==> IsNaN(ys[i]))
      && (forall i :: st[b] <= i < st[b + 1] && !IsNaN(ys[i]) ==>
            Le(out[2 * b].value, ys[i]) && Le(ys[i], out[2 * b + 1].value))
      && (!IsNaN(out[2 * b].value) ==> exists i :: st[b] <= i < st[b + 1] && out[2 * b].value == ys[i])
      && (!IsNaN(out[2 * b + 1].value) ==> exists i :: st[b] <= i < st[b + 1] && out[2 * b + 1].value == ys[i])
  {
    BucketAt(xs, ys, k, n, dx, x1, b);
    var st := BucketStarts(xs, ys, k, n, dx, x1);
    var s := BucketStart(xs, st[b], x1);
    ScanProperties(xs, ys, st[b], s, StdMin(Add(s, dx), x1), NaN, NaN);
  }

  /** As written, the view index each bucket reads its start from; the read is inside the view
    * only when every such index is below `size(view)`. */
  predicate AsWrittenReadsInView(xs: seq<Double>, ys: seq<Double>, destSize: nat)
    requires |xs| == |ys| && |xs| > 0
  {
    var st := BucketStarts(xs, ys, 0, destSize / 2, BucketWidth(xs[0], xs[|xs| - 1], destSize), xs[|xs| - 1]);
    forall b :: 0 <= b < destSize / 2 ==> st[b] < |xs|
  }

  /** For x = [0, 1, 2, 3, 10] and four destination points the first bucket (width 5) consumes
    * every point, including x = 10, so the second bucket reads `x(5)` of a five-point view. */
  lemma BucketStartPastEnd()
    ensures var xs := [D(0.0), D(1.0), D(2.0), D(3.0), D(10.0)];
      !AsWrittenReadsInView(xs, [D(0.0), D(0.0), D(0.0), D(0.0), D(0.0)], 4)
  {
    var xs := [D(0.0), D(1.0), D(2.0), D(3.0), D(10.0)];
    var ys := [D(0.0), D(0.0), D(0.0), D(0.0), D(0.0)];
    var dx := BucketWidth(xs[0], xs[4], 4);
    assert dx == D(5.0);
    var m := D(5.0);
    assert StdMin(Add(xs[0], dx), xs[4]) == m;
    assert Scan(xs, ys, 5, D(10.0), m, D(0.0), D(0.0)).0 == 5;
    assert Scan(xs, ys, 4, D(3.0), m, D(0.0), D(0.0)).0 == 5;
    assert Scan(xs, ys, 3, D(2.0), m, D(0.0), D(0.0)).0 == 5;
    assert Scan(xs, ys, 2, D(1.0), m, D(0.0), D(0.0)).0 == 5;
    assert Scan(xs, ys, 1, D(0.0), m, D(0.0), D(0.0)).0 == 5;
    assert Scan(xs, ys, 0, D(0.0), m, NaN, NaN).0 == 5;
    assert ScanBucket(xs, ys, 0, dx, xs[4]).0 == 5;
    assert BucketStarts(xs, ys, 0, 2, dx, xs[4])[1] == 5;
  }

  /** The `while` loop of a bucket: from the bucket start, points are consumed while the current
    * x is below the bucket's end and the view is not exhausted. */
  method ScanLoop(xs: seq<Double>, ys: seq<Double>, k: nat, start: Double, maxX: Double)
    returns (next: nat, minValue: Double, maxValue: Double)
    requires |xs| == |ys| && k <= |xs|
    ensures (next, minValue, maxValue) == Scan(xs, ys, k, start, maxX, NaN, NaN)
    ensures k <= next <= |xs|
  {
    next, minValue, maxValue := k, NaN, NaN;
    var cur := start;
    while Lt(cur, maxX) && next < |xs|
      invariant k <= next <= |xs|
      invariant Scan(xs, ys, next, cur, maxX, minValue, maxValue) == Scan(xs, ys, k, start, maxX, NaN, NaN)
      decreases |xs| - next
    {
      cur := xs[next];
      var y := ys[next];
      next := next + 1;
      maxValue := NanSafeMax(maxValue, y);
      minValue := NanSafeMin(minValue, y);
    }
  }

  /** `resample(view, column_index, dest_size)` with the bucket start guarded: exactly
    * `dest_size` points, bucket by bucket as `Buckets` describes. */
  method Resample(v: XYView, col: nat, destSize: nat) returns (data: seq<GraphData>)
    requires SeriesView(v) && col < v.y.value.nCols && destSize % 2 == 0 && XYSize(v) > 0
    ensures |data| == destSize
    ensures var xs := Xs(v);
      data == Buckets(xs, Ys(v, col), 0, destSize / 2, BucketWidth(xs[0], xs[|xs| - 1], destSize), xs[|xs| - 1])
  {
    data := Decimate(Xs(v), Ys(v, col), destSize);
  }

  /** The bucket loop over the window's x values and one column of y values: `view_index`
    * never decreases nor passes the view's size and `data_index` advances by two per bucket. */
  method Decimate(xs: seq<Double>, ys: seq<Double>, destSize: nat) returns (data: seq<GraphData>)
    requires |xs| == |ys| && |xs| > 0 && destSize % 2 == 0
    ensures |data| == destSize
    ensures data == Buckets(xs, ys, 0, destSize / 2, BucketWidth(xs[0], xs[|xs| - 1], destSize), xs[|xs| - 1])
  {
    var x1 := xs[|xs| - 1];
    var dx := BucketWidth(xs[0], x1, destSize);
    var a := new GraphData[destSize](_ => GraphData(NaN, NaN));
    FillBuckets(a, xs, ys, destSize / 2, dx, x1);
    data := a[..];
    BucketsLength(xs, ys, 0, destSize / 2, dx, x1);
  }

  /** The loop of `LineGraphResampler::_resample`: bucket after bucket, each writing two
    * points of `a`. */
  method FillBuckets(a: array<GraphData>, xs: seq<Double>, ys: seq<Double>, m: nat, dx: Double, x1: Double)
    requires |xs| == |ys| && a.Length == 2 * m
    modifies a
    ensures a[..] == Buckets(xs, ys, 0, m, dx, x1)
  {
    ghost var total := Buckets(xs, ys, 0, m, dx, x1);
    var dataIndex, viewIndex := 0, 0;
    var bucket := 0;
    while bucket < m
      invariant bucket <= m && dataIndex == 2 * bucket && viewIndex <= |xs|
      invariant a[..dataIndex] + Buckets(xs, ys, viewIndex, m - bucket, dx, x1) == total
    {
      var next, lo, hi := NextBucket(xs, ys, viewIndex, dx, x1, m - bucket);
      ghost var before := a[..dataIndex];
      StoreBucket(a, dataIndex, lo, hi);
      SplicePoints(before, a[..dataIndex + 2], lo, hi, Buckets(xs, ys, next, m - bucket - 1, dx, x1), total);
      viewIndex := next;
      dataIndex := dataIndex + 2;
      bucket := bucket + 1;
    }
    assert a[..] == a[..dataIndex];
  }

  /** The scan of one bucket starting at view index `k`, of the `m` still to go: its two
    * points, then where the next bucket starts. */
  method NextBucket(xs: seq<Double>, ys: seq<Double>, k: nat, dx: Double, x1: Double, m: nat)
    returns (next: nat, lo: GraphData, hi: GraphData)
    requires |xs| == |ys| && k <= |xs| && m > 0
    ensures k <= next <= |xs|
    ensures Buckets(xs, ys, k, m, dx, x1) == [lo, hi] + Buckets(xs, ys, next, m - 1, dx, x1)
  {
    var start := if k < |xs| then xs[k] else x1;
    var minValue, maxValue;
    next, minValue, maxValue := ScanLoop(xs, ys, k, start, StdMin(Add(start, dx), x1));
    lo, hi := GraphData(start, minValue), GraphData(Add(start, Half(dx)), maxValue);
  }

  /** Moving a bucket's two points from the part still to write to the part written. */
  lemma SplicePoints(before: seq<GraphData>, after: seq<GraphData>, lo: GraphData, hi: GraphData,
                     rest: seq<GraphData>, total: seq<GraphData>)
    requires before + ([lo, hi] + rest) == total && after == before + [lo, hi]
    ensures after + rest == total
  {
  }

  /** The two points of one bucket, at `i` and `i + 1`. */
  method StoreBucket(a: array<GraphData>, i: nat, lo: GraphData, hi: GraphData)
    requires i + 2 <= a.Length
    modifies a
    ensures a[..i + 2] == old(a[..i]) + [lo, hi]
  {
    a[i] := lo;
    a[i + 1] := hi;
    assert a[..i + 2] == a[..i] + [lo, hi];
  }

  /** `4 * width` as a `std::size_t` is even. */
  lemma BudgetEven(width: int)
    ensures ToSizeT(width * 4) % 2 == 0
  {
    var a := width * 4;
    assert a == 2 * (2 * width);
    EvenModEven(a, SizeModulus);
    assert ToSizeT(a) == a % SizeModulus;
  }

  /** An even number stays even modulo an even modulus. */
  lemma EvenModEven(a: int, s: int)
    requires s > 0 && s % 2 == 0 && a % 2 == 0
    ensures (a % s) % 2 == 0
  {
    var q, h := a / s, s / 2;
    var hq := h * q;
    assert s * q == 2 * hq;
    assert a % s == 2 * (a / 2 - hq);
  }

  /** The number of points each line gets. */
  function LineSize(size: nat, budget: nat, xIsLog: bool): nat
  {
    if size > budget && !xIsLog then budget else size
  }

  /** The points one line gets from a non-empty window: decimated to the budget when the window
    * holds more points than the budget and x is not logarithmic, copied as is otherwise. */
  function LineData(v: XYView, col: nat, budget: nat, xIsLog: bool): seq<GraphData>
    requires SeriesView(v) && col < v.y.value.nCols && XYSize(v) > 0
  {
    var xs := Xs(v);
    if XYSize(v) > budget && !xIsLog then
      Buckets(xs, Ys(v, col), 0, budget / 2, BucketWidth(xs[0], xs[|xs| - 1], budget), xs[|xs| - 1])
    else Copied(v, col)
  }

  /** `LineGraphResampler::_resample_impl`: with a budget of four points per pixel of plot width,
    * nothing is emitted for a buffer without data (such as the default one the first queued
    * resampling sees), an empty x, a zero budget or an empty window; otherwise one series per
    * line, decimated to the budget when the window holds more points than the budget and x is
    * not logarithmic, copied as is otherwise. Past the guard the buffers must be those of a
    * line plottable, x sorted (as `upper_bound` needs) and every line a column of y. */
  method ResampleImpl(data: ResamplerData, info: PlotInfo, lineCount: nat) returns (r: Option<seq<seq<GraphData>>>)
    requires data.x.valid && |data.x.data| > 0 && ToSizeT(info.width * 4) > 0 ==>
               LineBuffers(data.x, data.y) && Sorted(data.x.data) && lineCount <= YColumns(data.y)
    ensures !data.x.valid || |data.x.data| == 0 || ToSizeT(info.width * 4) == 0 ==> r.None?
    ensures var budget := ToSizeT(info.width * 4);
      var w := Window(data.x.data, info.plotRange.0, info.plotRange.1);
      && (r.Some? <==> data.x.valid && |data.x.data| > 0 && budget > 0 && w.0 < w.1)
      && (r.Some? ==>
            |r.value| == lineCount &&
            forall k :: 0 <= k < lineCount ==> |r.value[k]| == LineSize(w.1 - w.0, budget, info.xIsLog))
    ensures r.Some? ==> forall k :: 0 <= k < lineCount ==>
              r.value[k] == LineData(SeriesWindow(data.x, data.y, info), k, ToSizeT(info.width * 4), info.xIsLog)
  {
    var budget := ToSizeT(info.width * 4);
    r := None;
    if data.x.valid && |data.x.data| > 0 && budget > 0 {
      var v := MakeSeriesView(data.x, data.y, info);
      if XYSize(v) > 0 {
        var lines: seq<seq<GraphData>> := [];
        var size := XYSize(v);
        BudgetEven(info.width);
        for k := 0 to lineCount
          invariant |lines| == k
          invariant forall j :: 0 <= j < k ==> |lines[j]| == LineSize(size, budget, info.xIsLog)
          invariant forall j :: 0 <= j < k ==> lines[j] == LineData(v, j, budget, info.xIsLog)
        {
          var line;
          if size > budget && !info.xIsLog {
            line := Resample(v, k, budget);
          } else {
            line := CopyData(v, k);
          }
          lines := lines + [line];
        }
        r := Some(lines);
      }
    }
  }
}
