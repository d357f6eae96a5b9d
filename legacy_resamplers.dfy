/** The legacy resamplers: the stride-based `resample`/`copy_data` of `SciQLopGraphResampler.hpp`
  * and their view-column twins in `Plotables/SciQLopLineGraphResampler.hpp`, the queued window
  * resampling of `src/SciQLopGraphResampler.cpp`, and the legacy curve and colour-map
  * resamplers. A released or moved-from buffer is `NoBuffer`. Each
  * class keeps the ranges its `_resample_sig` emissions carry in `queued`, oldest first; a slot
  * run serves the oldest one. */
module LegacyResamplers {
  import opened Common
  import opened ArrayViews
  import opened Views
  import opened Resampling
  import LR = LineResampler
  import CR = CurveResampler
  import W = QCPWrapper
  import opened QcpEnums

  /** `x.data() != nullptr && x.flat_size() > 0`. */
  predicate Live(b: Buffer) { b.valid && |b.data| > 0 }

  // ---- resample<dest_size> and copy_data ----

  /** A legacy bucket starts at the current point and ends `dx` after it, never above the last
    * x. */
  function PairEnd(xs: seq<Double>, k: nat, dx: Double): (e: Double)
    requires k < |xs|
    ensures !Lt(xs[|xs| - 1], e)
  {
    StdMin(Add(xs[k], dx), xs[|xs| - 1])
  }

  /** The points `n` buckets write from point `k`: `(start, min)` then `(start + dx/2, max)`, both
    * folds over the points the bucket consumes. */
  function Pairs(xs: seq<Double>, ys: seq<Double>, k: nat, n: nat, dx: Double): (out: seq<GraphData>)
    requires |ys| == |xs| && k < |xs|
    ensures |out| == 2 * n
    decreases n
  {
    if n == 0 then []
    else
      var e := PairEnd(xs, k, dx);
      var lo, hi := W.Consume(xs, ys, k, e, NaN, false), W.Consume(xs, ys, k, e, NaN, true);
      [GraphData(xs[k], lo.1), GraphData(Add(xs[k], LR.Half(dx)), hi.1)] + Pairs(xs, ys, lo.0, n - 1, dx)
  }

  /** The point each of the `n` buckets starts at, then the point after the last bucket. */
  function PairStarts(xs: seq<Double>, ys: seq<Double>, k: nat, n: nat, dx: Double): (st: seq<nat>)
    requires |ys| == |xs| && k < |xs|
    ensures |st| == n + 1 && st[0] == k
    ensures forall c :: 0 <= c < |st| ==> k <= st[c] < |xs|
    decreases n
  {
    if n == 0 then [k]
    else [k] + PairStarts(xs, ys, W.Consume(xs, ys, k, PairEnd(xs, k, dx), NaN, false).0, n - 1, dx)
  }

  /** `resample<dest_size>(x, y, x_size, y_incr)` for the values `ys` the y pointer reads:
    * `dest_size / 2` buckets of width `2 (x_1 - x_0) / dest_size`. */
  function LegacyResampled(xs: seq<Double>, ys: seq<Double>, d: nat): (out: seq<GraphData>)
    requires |ys| == |xs| && |xs| > 0 && d % 2 == 0
    ensures |out| == d
  {
    Pairs(xs, ys, 0, d / 2, LR.BucketWidth(xs[0], xs[|xs| - 1], d))
  }

  /** Where a scan stops depends on x alone, not on the values it folds. */
  lemma {:induction false} ConsumeStop(xs: seq<Double>, ys: seq<Double>, k: nat, bmax: Double,
                                       a1: Double, a2: Double, m1: bool, m2: bool)
    requires |ys| == |xs| && k < |xs| && !Lt(xs[|xs| - 1], bmax)
    ensures W.Consume(xs, ys, k, bmax, a1, m1).0 == W.Consume(xs, ys, k, bmax, a2, m2).0
    decreases |xs| - k
  {
    if Lt(xs[k], bmax) {
      ConsumeStop(xs, ys, k + 1, bmax, W.Fold(a1, ys[k], m1), W.Fold(a2, ys[k], m2), m1, m2);
    }
  }

  lemma PairFirst(xs: seq<Double>, ys: seq<Double>, k: nat, n: nat, dx: Double)
    requires |ys| == |xs| && k < |xs| && n > 0
    ensures var e := PairEnd(xs, k, dx);
      var lo, hi := W.Consume(xs, ys, k, e, NaN, false), W.Consume(xs, ys, k, e, NaN, true);
      && PairStarts(xs, ys, k, n, dx)[1] == lo.0
      && Pairs(xs, ys, k, n, dx)[0] == GraphData(xs[k], lo.1)
      && Pairs(xs, ys, k, n, dx)[1] == GraphData(Add(xs[k], LR.Half(dx)), hi.1)
  {
  }

  /** Bucket `c` starts at `st[c]`, the next one where its scan stopped; its two points are its
    * start with the minimum and half a bucket later with the maximum. */
  lemma {:induction false} PairAt(xs: seq<Double>, ys: seq<Double>, k: nat, n: nat, dx: Double, c: nat)
    requires |ys| == |xs| && k < |xs| && c < n
    ensures var out, st := Pairs(xs, ys, k, n, dx), PairStarts(xs, ys, k, n, dx);
      var e := PairEnd(xs, st[c], dx);
      var lo, hi := W.Consume(xs, ys, st[c], e, NaN, false), W.Consume(xs, ys, st[c], e, NaN, true);
      && st[c + 1] == lo.0
      && out[2 * c] == GraphData(xs[st[c]], lo.1)
      && out[2 * c + 1] == GraphData(Add(xs[st[c]], LR.Half(dx)), hi.1)
    decreases c
  {
    if c == 0 {
      PairFirst(xs, ys, k, n, dx);
    } else {
      var k' := W.Consume(xs, ys, k, PairEnd(xs, k, dx), NaN, false).0;
      PairAt(xs, ys, k', n - 1, dx, c - 1);
      var st, st' := PairStarts(xs, ys, k, n, dx), PairStarts(xs, ys, k', n - 1, dx);
      var out, out' := Pairs(xs, ys, k, n, dx), Pairs(xs, ys, k', n - 1, dx);
      assert st == [k] + st';
      assert out == out[..2] + out';
      assert st[c] == st'[c - 1] && st[c + 1] == st'[c];
      assert out[2 * c] == out'[2 * (c - 1)] && out[2 * c + 1] == out'[2 * (c - 1) + 1];
    }
  }

  /** The legacy `resample<d>` writes `d` points, two per bucket: bucket `c` consumes the points
    * from `st[c]` to `st[c + 1]`, all with x below its end and never the last point; its first
    * point is at its start x with the minimum, its second half a bucket later with the maximum;
    * both are NaN exactly when every consumed value is, and otherwise they enclose every
    * consumed number and are themselves consumed values. */
  lemma LegacyBucket(xs: seq<Double>, ys: seq<Double>, d: nat, c: nat)
    requires |ys| == |xs| && |xs| > 0 && d % 2 == 0 && c < d / 2
    ensures var dx := LR.BucketWidth(xs[0], xs[|xs| - 1], d);
      var out, st := LegacyResampled(xs, ys, d), PairStarts(xs, ys, 0, d / 2, dx);
      && |out| == d && out[2 * c].key == xs[st[c]] && out[2 * c + 1].key == Add(xs[st[c]], LR.Half(dx))
      && st[c] <= st[c + 1] <= |xs| - 1
      && (forall i :: st[c] <= i < st[c + 1] ==> Lt(xs[i], PairEnd(xs, st[c], dx)))
      && (IsNaN(out[2 * c].value) <==> forall i :: st[c] <= i < st[c + 1] ==> IsNaN(ys[i]))
      && (IsNaN(out[2 * c + 1].value) <==> forall i :: st[c] <= i < st[c + 1] ==> IsNaN(ys[i]))
      && (forall i :: st[c] <= i < st[c + 1] && !IsNaN(ys[i]) ==>
            Le(out[2 * c].value, ys[i]) && Le(ys[i], out[2 * c + 1].value))
      && (!IsNaN(out[2 * c].value) ==> exists i :: st[c] <= i < st[c + 1] && out[2 * c].value == ys[i])
      && (!IsNaN(out[2 * c + 1].value) ==> exists i :: st[c] <= i < st[c + 1] && out[2 * c + 1].value == ys[i])
  {
    var dx := LR.BucketWidth(xs[0], xs[|xs| - 1], d);
    PairAt(xs, ys, 0, d / 2, dx, c);
    var st := PairStarts(xs, ys, 0, d / 2, dx);
    var e := PairEnd(xs, st[c], dx);
    ConsumeStop(xs, ys, st[c], e, NaN, NaN, false, true);
    W.ConsumeProperties(xs, ys, st[c], e, NaN, false);
    W.ConsumeProperties(xs, ys, st[c], e, NaN, true);
  }

  /** The bucket loop: from point `k`, with the y pointer at `current`, points are folded into
    * the minimum and the maximum while their x is below `bmax`. */
  method ConsumeBoth(x: seq<Double>, y: seq<Double>, offset: nat, incr: nat, k: nat, current: nat, bmax: Double)
    returns (next: nat, nextY: nat, minValue: Double, maxValue: Double)
    requires k < |x| && StrideFits(y, offset, incr, |x|) && !Lt(x[|x| - 1], bmax)
    requires current == offset + k * incr
    ensures (next, minValue) == W.Consume(x, Strided(y, offset, incr, |x|), k, bmax, NaN, false)
    ensures (next, maxValue) == W.Consume(x, Strided(y, offset, incr, |x|), k, bmax, NaN, true)
    ensures nextY == offset + next * incr
  {
    ghost var ys := Strided(y, offset, incr, |x|);
    next, nextY, minValue, maxValue := k, current, NaN, NaN;
    while Lt(x[next], bmax)
      invariant k <= next < |x| && nextY == offset + next * incr
      invariant W.Consume(x, ys, next, bmax, minValue, false) == W.Consume(x, ys, k, bmax, NaN, false)
      invariant W.Consume(x, ys, next, bmax, maxValue, true) == W.Consume(x, ys, k, bmax, NaN, true)
      decreases |x| - next
    {
      var v := y[nextY];
      maxValue := NanSafeMax(maxValue, v);
      minValue := NanSafeMin(minValue, v);
      nextY := nextY + incr;
      next := next + 1;
    }
  }

  lemma PairsUnfold(xs: seq<Double>, ys: seq<Double>, k: nat, n: nat, dx: Double)
    requires |ys| == |xs| && k < |xs| && n > 0
    ensures var e := PairEnd(xs, k, dx);
      var lo, hi := W.Consume(xs, ys, k, e, NaN, false), W.Consume(xs, ys, k, e, NaN, true);
      Pairs(xs, ys, k, n, dx) ==
        [GraphData(xs[k], lo.1), GraphData(Add(xs[k], LR.Half(dx)), hi.1)] + Pairs(xs, ys, lo.0, n - 1, dx)
  {
  }

  /** `resample<dest_size>(x, y + offset, x_size, y_incr)` of `SciQLopGraphResampler.hpp`;
    * `dest_size` is even by a `static_assert`. */
  method Resample(x: seq<Double>, y: seq<Double>, offset: nat, incr: nat, d: nat) returns (data: seq<GraphData>)
    requires |x| > 0 && d % 2 == 0 && StrideFits(y, offset, incr, |x|)
    ensures data == LegacyResampled(x, Strided(y, offset, incr, |x|), d)
  {
    ghost var ys := Strided(y, offset, incr, |x|);
    var x0, x1 := x[0], x[|x| - 1];
    var dx := Div(Mul(D(2.0), Sub(x1, x0)), D(d as real));
    data := [];
    var cx: nat, cy: nat := 0, offset;
    for bucket := 0 to d / 2
      invariant cx < |x| && cy == offset + cx * incr
      invariant data + Pairs(x, ys, cx, d / 2 - bucket, dx) == LegacyResampled(x, ys, d)
    {
      var start := x[cx];
      var bucketMax := StdMin(Add(start, dx), x1);
      assert bucketMax == PairEnd(x, cx, dx);
      ghost var k := cx;
      var minValue, maxValue;
      cx, cy, minValue, maxValue := ConsumeBoth(x, y, offset, incr, cx, cy, bucketMax);
      var points := [GraphData(start, minValue), GraphData(Add(start, Div(dx, D(2.0))), maxValue)];
      PairsUnfold(x, ys, k, d / 2 - bucket, dx);
      W.ConcatAssoc(data, points, Pairs(x, ys, cx, d / 2 - bucket - 1, dx));
      data := data + points;
    }
  }

  /** A pointer that starts at 0 and steps by 1 reads a prefix. */
  lemma StridedPrefix(y: seq<Double>, n: nat)
    requires n <= |y|
    ensures StrideFits(y, 0, 1, n) && Strided(y, 0, 1, n) == y[..n]
  {
  }

  /** `resample<dest_size>(x, y, column_index, x_size)` of `Plotables/SciQLopLineGraphResampler.hpp`:
    * `row_index` grows by one per consumed point, so column `column` is read row by row. */
  method ColumnResample(x: seq<Double>, column: seq<Double>, d: nat) returns (data: seq<GraphData>)
    requires |x| > 0 && d % 2 == 0 && |column| >= |x|
    ensures data == LegacyResampled(x, column[..|x|], d)
  {
    StridedPrefix(column, |x|);
    data := Resample(x, column, 0, 1, d);
  }

  /** `copy_data(x, y, column_index, x_size)` of `Plotables/SciQLopLineGraphResampler.hpp`:
    * point `i` is `(x[i], y[{i, column_index}])`. */
  method ColumnCopy(x: seq<Double>, column: seq<Double>) returns (data: seq<GraphData>)
    requires |column| >= |x|
    ensures data == W.Copied(x, column[..|x|])
  {
    StridedPrefix(column, |x|);
    data := W.CopyData(x, column, 0, 1);
  }

  // ---- the queued window resampling of src/SciQLopGraphResampler.cpp ----

  /** Where line `k` of `L` starts in y and how it steps, for a window starting at point `s` of
    * `n`: `y_incr` is 1 for x-first data and `L` otherwise. */
  function WindowLayout(y: seq<Double>, order: W.DataOrder, k: nat, L: nat, n: nat, s: nat, e: nat): (l: (nat, nat))
    requires k < L && s < e <= n && L * n <= |y|
    ensures StrideFits(y, l.0, l.1, e - s)
  {
    WindowLayoutFits(y, order, k, L, n, s, e);
    var incr := if order == W.XFirst then 1 else L;
    (incr * s + k * (if order == W.XFirst then n else 1), incr)
  }

  lemma WindowLayoutFits(y: seq<Double>, order: W.DataOrder, k: nat, L: nat, n: nat, s: nat, e: nat)
    requires k < L && s < e <= n && L * n <= |y|
    ensures var incr := if order == W.XFirst then 1 else L;
      StrideFits(y, incr * s + k * (if order == W.XFirst then n else 1), incr, e - s)
  {
    if order == W.XFirst {
      MulMonotone(k + 1, L, n);
      assert k * n + n == (k + 1) * n;
    } else {
      MulMonotone(e, n, L);
      assert L * s + k + (e - s - 1) * L == (e - 1) * L + k < e * L;
      assert n * L == L * n;
    }
  }

  /** The window of a request: from `upper_bound(lower)` to `lower_bound(upper)`. */
  function RequestWindow(x: seq<Double>, range: (Double, Double)): (nat, nat)
  {
    (UpperBoundSpec(x, range.0), LowerBoundSpec(x, range.1))
  }

  /** What line `k` receives: its values in the window, resampled to 10000 points above 10000
    * points and copied otherwise. */
  function WindowLine(x: seq<Double>, y: seq<Double>, order: W.DataOrder, k: nat, L: nat, s: nat, e: nat): seq<GraphData>
    requires k < L && s < e <= |x| && L * |x| <= |y|
  {
    var l := WindowLayout(y, order, k, L, |x|, s, e);
    var xs, ys := x[s..e], Strided(y, l.0, l.1, e - s);
    if e - s > W.TargetSize then LegacyResampled(xs, ys, W.TargetSize) else W.Copied(xs, ys)
  }

  /** `_resample(x, y, newRange)` on live buffers: nothing for an empty window, otherwise one
    * series per line. */
  function WindowLines(x: seq<Double>, y: seq<Double>, range: (Double, Double), order: W.DataOrder, L: nat): seq<seq<GraphData>>
    requires L * |x| <= |y|
  {
    var w := RequestWindow(x, range);
    if w.0 < w.1 then seq(L, k requires 0 <= k < L => WindowLine(x, y, order, k, L, w.0, w.1)) else []
  }

  /** On sorted x, lines are emitted exactly when some point lies strictly inside the requested
    * range (and there is a line); there is one per line, each of `min(window, 10000)` points;
    * below 10000 points they are the window's points themselves. */
  lemma WindowLinesProperties(x: seq<Double>, y: seq<Double>, range: (Double, Double), order: W.DataOrder, L: nat)
    requires Sorted(x) && L * |x| <= |y|
    ensures var lines, w := WindowLines(x, y, range, order, L), RequestWindow(x, range);
      && (|lines| > 0 <==> L > 0 && exists i :: 0 <= i < |x| && Lt(range.0, x[i]) && Lt(x[i], range.1))
      && (|lines| > 0 ==> |lines| == L && forall k :: 0 <= k < L ==> |lines[k]| == MinInt(w.1 - w.0, W.TargetSize))
      && (|lines| > 0 && w.1 - w.0 <= W.TargetSize ==>
            forall k, i :: 0 <= k < L && 0 <= i < w.1 - w.0 ==>
              lines[k][i].key == x[w.0 + i] && Lt(range.0, lines[k][i].key) && Lt(lines[k][i].key, range.1))
  {
    var w := RequestWindow(x, range);
    assert w == Window(x, range.0, range.1) || w.1 < w.0;
    if w.0 < w.1 {
      WindowSelectsInterior(x, range.0, range.1, w.0);
      forall j | w.0 <= j < w.1 ensures Lt(range.0, x[j]) && Lt(x[j], range.1) {
        WindowSelectsInterior(x, range.0, range.1, j);
      }
      var lines := WindowLines(x, y, range, order, L);
      forall k | 0 <= k < L ensures |lines[k]| == MinInt(w.1 - w.0, W.TargetSize) {
        assert lines[k] == WindowLine(x, y, order, k, L, w.0, w.1);
      }
      if w.1 - w.0 <= W.TargetSize {
        forall k, i | 0 <= k < L && 0 <= i < w.1 - w.0 ensures lines[k][i].key == x[w.0 + i] {
          assert lines[k] == WindowLine(x, y, order, k, L, w.0, w.1);
        }
      }
    } else {
      forall i | 0 <= i < |x| ensures !(Lt(range.0, x[i]) && Lt(x[i], range.1)) {
        WindowSelectsInterior(x, range.0, range.1, i);
      }
    }
  }

  /** The line `_resample` emits for line `k` of `L` over the window `s` to `e`. */
  method EmitLine(x: seq<Double>, y: seq<Double>, order: W.DataOrder, k: nat, L: nat, s: nat, e: nat)
    returns (line: seq<GraphData>)
    requires k < L && s < e <= |x| && L * |x| <= |y|
    ensures line == WindowLine(x, y, order, k, L, s, e)
  {
    var incr := if order == W.XFirst then 1 else L;
    var startY := incr * s + k * (if order == W.XFirst then |x| else 1);
    assert (startY, incr) == WindowLayout(y, order, k, L, |x|, s, e);
    assert |x[s..e]| == e - s;
    if e - s > W.TargetSize {
      line := Resample(x[s..e], y, startY, incr, W.TargetSize);
    } else {
      line := W.CopyData(x[s..e], y, startY, incr);
    }
  }

  /** The window search and the per-line loop of `_resample`. */
  method WindowResample(x: seq<Double>, y: seq<Double>, range: (Double, Double), order: W.DataOrder, L: nat)
    returns (lines: seq<seq<GraphData>>)
    requires Sorted(x) && L * |x| <= |y|
    ensures lines == WindowLines(x, y, range, order, L)
  {
    lines := [];
    var startX := UpperBound(x, range.0);
    var endX := LowerBound(x, range.1);
    if startX < endX {
      for k := 0 to L
        invariant |lines| == k
        invariant forall j :: 0 <= j < k ==> lines[j] == WindowLine(x, y, order, j, L, startX, endX)
      {
        var line := EmitLine(x, y, order, k, L, startX, endX);
        lines := lines + [line];
      }
    }
  }

  /** `ResamplerData` of the legacy line resampler. */
  datatype LegacyData = LegacyData(x: Buffer, y: Buffer, xRange: (Double, Double),
                                   plotRange: (Double, Double), newData: bool)

  /** What the window resampling requires of live data: sorted x and a y holding every line. */
  predicate Resamplable(d: LegacyData, L: nat)
  {
    Live(d.x) ==> Sorted(d.x.data) && L * |d.x.data| <= |d.y.data|
  }

  /** The queued resampler of `src/SciQLopGraphResampler.cpp` with the data buffer it shares with
    * `Plotables/SciQLopLineGraphResampler.hpp`: `setData` fills `nextData`, the slot moves it to
    * `data` and resamples. */
  class QueuedGraphResampler {
    var data: LegacyData
    var nextData: LegacyData
    var lineCount: nat
    var order: W.DataOrder
    var queued: seq<(Double, Double)>

    constructor (dataOrder: W.DataOrder, lineCnt: nat)
      ensures data == nextData == LegacyData(NoBuffer, NoBuffer, (D(0.0), D(0.0)), (D(0.0), D(0.0)), true)
      ensures lineCount == lineCnt && order == dataOrder && queued == []
    {
      data := LegacyData(NoBuffer, NoBuffer, (D(0.0), D(0.0)), (D(0.0), D(0.0)), true);
      nextData := data;
      lineCount := lineCnt;
      order := dataOrder;
      queued := [];
    }

    /** `setData(x, y)`: both ranges of the next data are x's bounds, the data is fresh, and a
      * resampling over those bounds is queued. */
    method SetData(x: Buffer, y: Buffer)
      modifies this
      ensures nextData == LegacyData(x, y, Bounds(x), Bounds(x), true) && queued == old(queued) + [Bounds(x)]
      ensures data == old(data) && lineCount == old(lineCount) && order == old(order)
    {
      var range := Bounds(x);
      nextData := LegacyData(x, y, range, range, true);
      queued := queued + [range];
    }

    /** `set_line_count`. */
    method SetLineCount(n: nat)
      modifies this
      ensures lineCount == n
      ensures data == old(data) && nextData == old(nextData) && order == old(order) && queued == old(queued)
    {
      lineCount := n;
    }

    /** `_resample_slot(newRange)` for the oldest request: the next data moves into `data`,
      * leaving its buffers behind empty; live buffers are resampled over the request's window and
      * then released. A second slot run without `setData` finds nothing to resample. */
    method ResampleSlot() returns (lines: seq<seq<GraphData>>)
      requires |queued| > 0 && Resamplable(nextData, lineCount)
      modifies this
      ensures queued == old(queued)[1..] && lineCount == old(lineCount) && order == old(order)
      ensures nextData == old(nextData).(x := NoBuffer, y := NoBuffer) && !Live(nextData.x)
      ensures Live(old(nextData).x) ==>
                data == old(nextData).(x := NoBuffer, y := NoBuffer) &&
                lines == WindowLines(old(nextData).x.data, old(nextData).y.data, old(queued)[0], order, lineCount)
      ensures !Live(old(nextData).x) ==> data == old(nextData) && lines == []
    {
      var range := queued[0];
      queued := queued[1..];
      data := nextData;
      nextData := nextData.(x := NoBuffer, y := NoBuffer);
      lines := Resample1d(range);
    }

    /** `GraphResampler::_resample(x, y, newRange)` on the current data. */
    method Resample1d(range: (Double, Double)) returns (lines: seq<seq<GraphData>>)
      requires Resamplable(data, lineCount)
      modifies this
      ensures nextData == old(nextData) && queued == old(queued) && lineCount == old(lineCount) && order == old(order)
      ensures Live(old(data).x) ==>
                data == old(data).(x := NoBuffer, y := NoBuffer) &&
                lines == WindowLines(old(data).x.data, old(data).y.data, range, order, lineCount)
      ensures !Live(old(data).x) ==> data == old(data) && lines == []
    {
      lines := [];
      if data.x.valid && |data.x.data| > 0 {
        lines := WindowResample(data.x.data, data.y.data, range, order, lineCount);
        data := data.(x := NoBuffer, y := NoBuffer);
      }
    }
  }

  // ---- the legacy graph resampler header ----

  /** `GraphResampler` of `SciQLopGraphResampler.hpp`: the buffers, the data order, the x range of
    * the data and the line count. */
  class GraphResampler {
    var x: Buffer
    var y: Buffer
    var order: W.DataOrder
    var xRange: (Double, Double)
    var lineCount: nat
    var queued: seq<(Double, Double)>

    constructor (dataOrder: W.DataOrder, lineCnt: nat)
      ensures x == NoBuffer && y == NoBuffer && order == dataOrder && lineCount == lineCnt && queued == []
      ensures XRange() == (D(0.0), D(0.0))
    {
      x, y := NoBuffer, NoBuffer;
      order := dataOrder;
      lineCount := lineCnt;
      xRange := (D(0.0), D(0.0));
      queued := [];
    }

    /** `set_line_count`: only the line count changes. */
    method SetLineCount(n: nat)
      modifies this
      ensures lineCount == n
      ensures x == old(x) && y == old(y) && order == old(order) && xRange == old(xRange) && queued == old(queued)
    {
      lineCount := n;
    }

    /** `setData(x, y)`: the buffers are replaced, the x range becomes `(x[0], x[len - 1])`, or
      * NaN for an empty x, and a resampling over that range is queued. */
    method SetData(newX: Buffer, newY: Buffer)
      modifies this
      ensures x == newX && y == newY && XRange() == Bounds(newX) && queued == old(queued) + [Bounds(newX)]
      ensures order == old(order) && lineCount == old(lineCount)
    {
      x, y := newX, newY;
      var len := |x.data|;
      if len > 0 {
        xRange := (x.data[0], x.data[len - 1]);
      } else {
        xRange := (NaN, NaN);
      }
      queued := queued + [xRange];
    }

    /** `x_range()`. */
    function XRange(): (r: (Double, Double))
      reads this
      ensures r == xRange
    {
      xRange
    }
  }

  // ---- the legacy curve resampler ----

  /** Line `k`'s layout in the curve resampler: y stride 1 and offset `k * x_size` for x-first
    * data, stride `L` and offset `k` otherwise. */
  predicate IsLegacyCurveLine(c: seq<CurveData>, x: seq<Double>, y: seq<Double>, order: W.DataOrder, k: nat, L: nat)
  {
    var l := W.LineLayout(order, k, L, |x|);
    |c| == |x| &&
    forall i :: 0 <= i < |x| ==> l.0 + i * l.1 < |y| && c[i] == CurveData(D(i as real), x[i], y[l.0 + i * l.1])
  }

  /** The per-line loop of the curve slot: every line is copied whole, with its layout. */
  method CurveLines(xs: seq<Double>, ys: seq<Double>, order: W.DataOrder, L: nat) returns (lines: seq<seq<CurveData>>)
    requires L * |xs| <= |ys|
    ensures |lines| == L && forall k :: 0 <= k < L ==> IsLegacyCurveLine(lines[k], xs, ys, order, k, L)
  {
    lines := [];
    var incr := if order == W.XFirst then 1 else L;
    for k := 0 to L
      invariant |lines| == k
      invariant forall j :: 0 <= j < k ==> IsLegacyCurveLine(lines[j], xs, ys, order, j, L)
    {
      var startY := if order == W.XFirst then |xs| * k else k;
      W.LineLayoutFits(ys, order, k, L, |xs|);
      var line := CR.CurveCopyData(xs, ys, startY, |xs|, incr);
      lines := lines + [line];
    }
  }

  /** `CurveResampler` of `SciQLopCurveResampler.hpp`. */
  class CurveResampler {
    var x: Buffer
    var y: Buffer
    var order: W.DataOrder
    var xRange: (Double, Double)
    var lineCount: nat
    var queued: seq<(Double, Double)>

    constructor (dataOrder: W.DataOrder, lineCnt: nat)
      ensures x == NoBuffer && y == NoBuffer && order == dataOrder && lineCount == lineCnt && queued == []
      ensures xRange == (D(0.0), D(0.0))
    {
      x, y := NoBuffer, NoBuffer;
      order := dataOrder;
      lineCount := lineCnt;
      xRange := (D(0.0), D(0.0));
      queued := [];
    }

    /** `set_line_count`. */
    method SetLineCount(n: nat)
      modifies this
      ensures lineCount == n
      ensures x == old(x) && y == old(y) && order == old(order) && xRange == old(xRange) && queued == old(queued)
    {
      lineCount := n;
    }

    /** `setData(x, y)`: the buffers are replaced, the x range becomes x's bounds and a resampling
      * over it is queued. */
    method SetData(newX: Buffer, newY: Buffer)
      modifies this
      ensures x == newX && y == newY && xRange == Bounds(newX) && queued == old(queued) + [xRange]
      ensures order == old(order) && lineCount == old(lineCount)
    {
      x, y := newX, newY;
      xRange := Bounds(newX);
      queued := queued + [xRange];
    }

    /** `_resample_slot(newRange)` for the oldest request (the range is not used): live buffers
    * give one curve per line, every point of x with its parameter, and are then released, so a
    * second slot run emits no curve. The `refreshPlot` signal is not modelled. */
    method ResampleSlot() returns (lines: seq<seq<CurveData>>)
      requires |queued| > 0
      requires Live(x) ==> lineCount * |x.data| <= |y.data|
      modifies this
      ensures queued == old(queued)[1..] && order == old(order) && lineCount == old(lineCount) && xRange == old(xRange)
      ensures Live(old(x)) ==>
                && x == NoBuffer && y == NoBuffer && |lines| == lineCount
                && forall k :: 0 <= k < lineCount ==> IsLegacyCurveLine(lines[k], old(x).data, old(y).data, order, k, lineCount)
      ensures !Live(old(x)) ==> x == old(x) && y == old(y) && lines == []
    {
      queued := queued[1..];
      lines := [];
      if x.valid && |x.data| > 0 {
        lines := CurveLines(x.data, y.data, order, lineCount);
        x, y := NoBuffer, NoBuffer;
      }
    }
  }

  // ---- the legacy colour-map resampler ----

  /** The map a slot run emits: one built by `_setDataLinear` or `_setDataLog` from the buffers,
    * or the empty 0 by 0 map. */
  datatype MapRequest = LinearMap(x: Buffer, y: Buffer, z: Buffer) | LogMap(x: Buffer, y: Buffer, z: Buffer) | EmptyMap

  /** `QCPRange::operator!=`: not both bounds equal, so a NaN bound differs from everything. */
  predicate RangeDiffers(a: (Double, Double), b: (Double, Double))
  {
    !(Eq(a.0, b.0) && Eq(a.1, b.1))
  }

  /** A request is served only if its range equals the data's x range; after `setData` with an
    * empty x that range is NaN, so every request is dropped, including the one `setData`
    * queued, and the old buffers stay in place. */
  lemma EmptyDataDropsEveryRequest(x: Buffer, request: (Double, Double))
    requires |x.data| == 0
    ensures RangeDiffers(Bounds(x), request)
  {
  }

  /** For a range of numbers, `operator!=` is the negation of equality. */
  lemma RangeDiffersOnNumbers(a: (Double, Double), b: (Double, Double))
    requires !IsNaN(a.0) && !IsNaN(a.1)
    ensures RangeDiffers(a, b) <==> a != b
  {
  }

  /** `ColormapResampler` of `SciQLopColorMapResampler.hpp`. */
  class ColormapResampler {
    var x: Buffer
    var y: Buffer
    var z: Buffer
    var xRange: (Double, Double)
    var scale: ScaleType
    var queued: seq<(Double, Double)>

    constructor (scaleType: ScaleType)
      ensures x == NoBuffer && y == NoBuffer && z == NoBuffer && scale == scaleType && queued == []
      ensures XRange() == (D(0.0), D(0.0))
    {
      x, y, z := NoBuffer, NoBuffer, NoBuffer;
      scale := scaleType;
      xRange := (D(0.0), D(0.0));
      queued := [];
    }

    /** `setData(x, y, z, scale_type)`: the x range, the buffers and the scale type are replaced
      * and a resampling over the new range is queued. */
    method SetData(newX: Buffer, newY: Buffer, newZ: Buffer, scaleType: ScaleType)
      modifies this
      ensures x == newX && y == newY && z == newZ && scale == scaleType
      ensures XRange() == Bounds(newX) && queued == old(queued) + [Bounds(newX)]
    {
      xRange := Bounds(newX);
      x, y, z := newX, newY, newZ;
      scale := scaleType;
      queued := queued + [xRange];
    }

    /** `x_range()`. */
    function XRange(): (r: (Double, Double))
      reads this
      ensures r == xRange
    {
      xRange
    }

    /** `_resample_slot(newRange)` for the oldest request: a request whose range differs from the
      * data's x range is stale and dropped; otherwise the buffers are moved out, so the next slot
      * run finds them empty, and non-empty buffers make a linear or a logarithmic map by the scale
      * type, empty ones the 0 by 0 map. */
    method ResampleSlot() returns (r: Option<MapRequest>)
      requires |queued| > 0
      modifies this
      ensures queued == old(queued)[1..] && XRange() == old(XRange()) && scale == old(scale)
      ensures r.None? <==> RangeDiffers(XRange(), old(queued)[0])
      ensures r.None? ==> x == old(x) && y == old(y) && z == old(z)
      ensures r.Some? ==> x == NoBuffer && y == NoBuffer && z == NoBuffer
      ensures r.Some? ==> r.value == (if |old(x).data| > 0 && |old(y).data| > 0 && |old(z).data| > 0 then
                                        (if scale == Linear then LinearMap(old(x), old(y), old(z)) else LogMap(old(x), old(y), old(z)))
                                      else EmptyMap)
    {
      var range := queued[0];
      queued := queued[1..];
      if RangeDiffers(xRange, range) {
        return None;
      }
      var heldX, heldY, heldZ := x, y, z;
      x, y, z := NoBuffer, NoBuffer, NoBuffer;
      if |heldX.data| > 0 && |heldY.data| > 0 && |heldZ.data| > 0 {
        if scale == Linear {
          r := Some(LinearMap(heldX, heldY, heldZ));
        } else {
          r := Some(LogMap(heldX, heldY, heldZ));
        }
      } else {
        r := Some(EmptyMap);
      }
    }
  }
}
