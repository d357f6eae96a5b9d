/** The plotting side of `QCustomPlotWrapper.hpp`: the strided `copy_data`, the alternating
  * max/min `resample<dest_size>`, the shape checks of the `plot` overloads and the graph and
  * colour-map bookkeeping of `QCustomPlotWrapper`. A `const double*` argument is a buffer and an
  * offset into it; `std::fmax`/`std::fmin` ignore a NaN operand, as `NanSafeMax`/`NanSafeMin`
  * do. */
module QCPWrapper {
  import opened Common
  import opened QtTypes
  import opened ArrayViews
  import opened Views
  import opened Resampling

  /** The number of points above which the `plot` overloads decimate, and the number of buckets
    * they decimate to. */
  const TargetSize: nat := 10000

  // ---- copy_data ----

  /** The points `copy_data` writes: point `i` is `(x[i], ys[i])`. */
  function Copied(x: seq<Double>, ys: seq<Double>): (data: seq<GraphData>)
    requires |ys| == |x|
    ensures |data| == |x|
  {
    seq(|x|, i requires 0 <= i < |x| => GraphData(x[i], ys[i]))
  }

  /** `copy_data(x, y + offset, x_size, y_size, y_incr)`: the y pointer steps by `y_incr` per
    * point. */
  method CopyData(x: seq<Double>, y: seq<Double>, offset: nat, incr: nat) returns (data: seq<GraphData>)
    requires StrideFits(y, offset, incr, |x|)
    ensures data == Copied(x, Strided(y, offset, incr, |x|))
  {
    ghost var ys := Strided(y, offset, incr, |x|);
    var a := new GraphData[|x|](_ => GraphData(NaN, NaN));
    var current := offset;
    for i := 0 to |x|
      invariant current == offset + i * incr
      invariant forall j :: 0 <= j < i ==> a[j] == GraphData(x[j], ys[j])
    {
      assert offset + i * incr < |y| && ys[i] == y[offset + i * incr];
      a[i] := GraphData(x[i], y[current]);
      current := current + incr;
      assert current == offset + (i + 1) * incr;
    }
    data := a[..];
  }

  // ---- resample<dest_size> ----

  /** One step of a bucket's fold: `std::fmax` for a maximum, `std::fmin` for a minimum. */
  function Fold(acc: Double, v: Double, isMax: bool): Double
  {
    if isMax then NanSafeMax(acc, v) else NanSafeMin(acc, v)
  }

  /** The `while` loop of a bucket from point `k`: points are folded while their x is below the
    * bucket's end `bmax`. The loop has no bound check; it stops at the last point at the latest
    * because `bmax` is never above the last x. The result is the point it stops at and the fold. */
  function Consume(xs: seq<Double>, ys: seq<Double>, k: nat, bmax: Double, acc: Double, isMax: bool): (r: (nat, Double))
    requires |ys| == |xs| && k < |xs| && !Lt(xs[|xs| - 1], bmax)
    ensures k <= r.0 < |xs|
    decreases |xs| - k
  {
    if Lt(xs[k], bmax) then Consume(xs, ys, k + 1, bmax, Fold(acc, ys[k], isMax), isMax)
    else (k, acc)
  }

  /** `dx = (x[x_size - 1] - x[0]) / dest_size`. */
  function Step(xs: seq<Double>, d: nat): Double
    requires |xs| > 0
  {
    Div(Sub(xs[|xs| - 1], xs[0]), D(d as real))
  }

  /** Bucket `b` is keyed `x[0] + b * dx`. */
  function BucketKey(xs: seq<Double>, dx: Double, b: nat): Double
    requires |xs| > 0
  {
    Add(xs[0], Mul(D(b as real), dx))
  }

  /** Bucket `b` ends at `min(x[0] + (b + 1) * dx, x[x_size - 1])`: never above the last x. */
  function BucketEnd(xs: seq<Double>, dx: Double, b: nat): (e: Double)
    requires |xs| > 0
    ensures !Lt(xs[|xs| - 1], e)
  {
    StdMin(BucketKey(xs, dx, b + 1), xs[|xs| - 1])
  }

  /** An even bucket keeps the maximum of the points it consumes, an odd one the minimum. */
  predicate IsMaxBucket(b: nat) { b % 2 == 0 }

  /** The points buckets `b` to `d - 1` write, the scan starting at point `k`. */
  function Buckets(xs: seq<Double>, ys: seq<Double>, k: nat, b: nat, d: nat, dx: Double): (out: seq<GraphData>)
    requires |ys| == |xs| && k < |xs| && b <= d
    ensures |out| == d - b
    decreases d - b
  {
    if b == d then []
    else
      var r := Consume(xs, ys, k, BucketEnd(xs, dx, b), NaN, IsMaxBucket(b));
      [GraphData(BucketKey(xs, dx, b), r.1)] + Buckets(xs, ys, r.0, b + 1, d, dx)
  }

  /** The point each of buckets `b` to `d - 1` starts its scan at, then the point after the last. */
  function Starts(xs: seq<Double>, ys: seq<Double>, k: nat, b: nat, d: nat, dx: Double): (st: seq<nat>)
    requires |ys| == |xs| && k < |xs| && b <= d
    ensures |st| == d - b + 1 && st[0] == k
    ensures forall c :: 0 <= c < |st| ==> k <= st[c] < |xs|
    decreases d - b
  {
    if b == d then [k]
    else [k] + Starts(xs, ys, Consume(xs, ys, k, BucketEnd(xs, dx, b), NaN, IsMaxBucket(b)).0, b + 1, d, dx)
  }

  /** The points `resample<d>` writes for the values `ys` of a series `xs`. */
  function Resampled(xs: seq<Double>, ys: seq<Double>, d: nat): (out: seq<GraphData>)
    requires |ys| == |xs| && |xs| > 0
    ensures |out| == d
  {
    Buckets(xs, ys, 0, 0, d, Step(xs, d))
  }

  /** A bucket's scan consumes the points from `k` to the returned point, each with x below the
    * bucket's end, and stops at one that is not; its fold is NaN exactly when the running value
    * and every consumed value are NaN, and otherwise a maximum above (a minimum below) the
    * running value and every consumed number; it is the running value or one of the consumed
    * values. */
  lemma {:induction false} ConsumeProperties(xs: seq<Double>, ys: seq<Double>, k: nat, bmax: Double,
                                             acc: Double, isMax: bool)
    requires |ys| == |xs| && k < |xs| && !Lt(xs[|xs| - 1], bmax)
    ensures var r := Consume(xs, ys, k, bmax, acc, isMax);
      && (forall i :: k <= i < r.0 ==> Lt(xs[i], bmax)) && !Lt(xs[r.0], bmax)
      && (IsNaN(r.1) <==> IsNaN(acc) && forall i :: k <= i < r.0 ==> IsNaN(ys[i]))
      && (isMax ==> (forall i :: k <= i < r.0 && !IsNaN(ys[i]) ==> Le(ys[i], r.1)) && (!IsNaN(acc) ==> Le(acc, r.1)))
      && (!isMax ==> (forall i :: k <= i < r.0 && !IsNaN(ys[i]) ==> Le(r.1, ys[i])) && (!IsNaN(acc) ==> Le(r.1, acc)))
      && (r.1 == acc || exists i :: k <= i < r.0 && r.1 == ys[i])
    decreases |xs| - k
  {
    if Lt(xs[k], bmax) {
      NanSafeMinProperties(acc, ys[k]);
      NanSafeMaxProperties(acc, ys[k]);
      var acc' := Fold(acc, ys[k], isMax);
      ConsumeProperties(xs, ys, k + 1, bmax, acc', isMax);
      var r := Consume(xs, ys, k + 1, bmax, acc', isMax);
      if r.1 == acc' && acc' == ys[k] { assert k <= k < r.0 && r.1 == ys[k]; }
    }
  }

  lemma BucketFirst(xs: seq<Double>, ys: seq<Double>, k: nat, b: nat, d: nat, dx: Double)
    requires |ys| == |xs| && k < |xs| && b < d
    ensures var r := Consume(xs, ys, k, BucketEnd(xs, dx, b), NaN, IsMaxBucket(b));
      && Starts(xs, ys, k, b, d, dx)[1] == r.0
      && Buckets(xs, ys, k, b, d, dx)[0] == GraphData(BucketKey(xs, dx, b), r.1)
  {
  }

  /** Bucket `c` starts its scan at `st[c]` and the next bucket at the point it stopped at; it is
    * keyed `x[0] + c * dx` and holds the fold of its scan. */
  lemma {:induction false} BucketAt(xs: seq<Double>, ys: seq<Double>, k: nat, b: nat, d: nat, dx: Double, c: nat)
    requires |ys| == |xs| && k < |xs| && b <= c < d
    ensures var out, st := Buckets(xs, ys, k, b, d, dx), Starts(xs, ys, k, b, d, dx);
      var r := Consume(xs, ys, st[c - b], BucketEnd(xs, dx, c), NaN, IsMaxBucket(c));
      && st[c - b] < |xs| && st[c - b + 1] == r.0
      && out[c - b] == GraphData(BucketKey(xs, dx, c), r.1)
    decreases c - b
  {
    if c == b {
      BucketFirst(xs, ys, k, b, d, dx);
    } else {
      var k' := Consume(xs, ys, k, BucketEnd(xs, dx, b), NaN, IsMaxBucket(b)).0;
      BucketAt(xs, ys, k', b + 1, d, dx, c);
      BucketsStepDown(xs, ys, k, b, d, dx, c);
    }
  }

  /** Past the first bucket, the buckets and start points from `b` are those from `b + 1`,
    * scanning from where bucket `b` stopped. */
  lemma BucketsStepDown(xs: seq<Double>, ys: seq<Double>, k: nat, b: nat, d: nat, dx: Double, c: nat)
    requires |ys| == |xs| && k < |xs| && b < c < d
    ensures var k' := Consume(xs, ys, k, BucketEnd(xs, dx, b), NaN, IsMaxBucket(b)).0;
      var st, st' := Starts(xs, ys, k, b, d, dx), Starts(xs, ys, k', b + 1, d, dx);
      var out, out' := Buckets(xs, ys, k, b, d, dx), Buckets(xs, ys, k', b + 1, d, dx);
      && st[c - b] == st'[c - (b + 1)] && st[c - b + 1] == st'[c - (b + 1) + 1]
      && out[c - b] == out'[c - (b + 1)]
  {
    var k' := Consume(xs, ys, k, BucketEnd(xs, dx, b), NaN, IsMaxBucket(b)).0;
    var st, st' := Starts(xs, ys, k, b, d, dx), Starts(xs, ys, k', b + 1, d, dx);
    var out, out' := Buckets(xs, ys, k, b, d, dx), Buckets(xs, ys, k', b + 1, d, dx);
    assert st == [k] + st';
    assert out == [out[0]] + out';
  }

  /** `resample<d>` writes exactly `d` points; point `c` is keyed `x[0] + c * dx`; the buckets
    * consume consecutive runs of points and never reach the last point; an even bucket is the
    * maximum and an odd bucket the minimum of the numbers it consumed (one of them), NaN when
    * there are none. */
  lemma ResampledBucket(xs: seq<Double>, ys: seq<Double>, d: nat, c: nat)
    requires |ys| == |xs| && |xs| > 0 && c < d
    ensures var out, st := Resampled(xs, ys, d), Starts(xs, ys, 0, 0, d, Step(xs, d));
      && |out| == d && out[c].key == BucketKey(xs, Step(xs, d), c)
      && st[c] <= st[c + 1] <= |xs| - 1
      && (IsNaN(out[c].value) <==> forall i :: st[c] <= i < st[c + 1] ==> IsNaN(ys[i]))
      && (IsMaxBucket(c) ==> forall i :: st[c] <= i < st[c + 1] && !IsNaN(ys[i]) ==> Le(ys[i], out[c].value))
      && (!IsMaxBucket(c) ==> forall i :: st[c] <= i < st[c + 1] && !IsNaN(ys[i]) ==> Le(out[c].value, ys[i]))
      && (!IsNaN(out[c].value) ==> exists i :: st[c] <= i < st[c + 1] && out[c].value == ys[i])
  {
    var dx := Step(xs, d);
    BucketAt(xs, ys, 0, 0, d, dx, c);
    var st := Starts(xs, ys, 0, 0, d, dx);
    ConsumeProperties(xs, ys, st[c], BucketEnd(xs, dx, c), NaN, IsMaxBucket(c));
  }

  /** The bucket loop: the scan from point `k`, with the y pointer at `current`. */
  method ConsumeLoop(x: seq<Double>, y: seq<Double>, offset: nat, incr: nat, k: nat, current: nat,
                     bmax: Double, isMax: bool) returns (next: nat, nextY: nat, value: Double)
    requires k < |x| && StrideFits(y, offset, incr, |x|) && !Lt(x[|x| - 1], bmax)
    requires current == offset + k * incr
    ensures (next, value) == Consume(x, Strided(y, offset, incr, |x|), k, bmax, NaN, isMax)
    ensures nextY == offset + next * incr
  {
    ghost var ys := Strided(y, offset, incr, |x|);
    next, nextY, value := k, current, NaN;
    while Lt(x[next], bmax)
      invariant k <= next < |x| && nextY == offset + next * incr
      invariant Consume(x, ys, next, bmax, value, isMax) == Consume(x, ys, k, bmax, NaN, isMax)
      decreases |x| - next
    {
      value := if isMax then NanSafeMax(value, y[nextY]) else NanSafeMin(value, y[nextY]);
      nextY := nextY + incr;
      next := next + 1;
    }
  }

  lemma BucketsUnfold(xs: seq<Double>, ys: seq<Double>, k: nat, b: nat, d: nat, dx: Double)
    requires |ys| == |xs| && k < |xs| && b < d
    ensures var r := Consume(xs, ys, k, BucketEnd(xs, dx, b), NaN, IsMaxBucket(b));
      Buckets(xs, ys, k, b, d, dx) == [GraphData(BucketKey(xs, dx, b), r.1)] + Buckets(xs, ys, r.0, b + 1, d, dx)
  {
  }

  lemma ConcatAssoc<T>(a: seq<T>, b: seq<T>, c: seq<T>)
    ensures (a + b) + c == a + (b + c)
  {
  }

  /** `resample<dest_size>(x, y + offset, x_size, y_size, y_incr)`: `(bucket & 1) == 0` is
    * `IsMaxBucket(bucket)`. */
  method Resample(x: seq<Double>, y: seq<Double>, offset: nat, incr: nat, d: nat) returns (data: seq<GraphData>)
    requires |x| > 0 && StrideFits(y, offset, incr, |x|)
    ensures data == Resampled(x, Strided(y, offset, incr, |x|), d)
  {
    ghost var ys := Strided(y, offset, incr, |x|);
    var dx := Div(Sub(x[|x| - 1], x[0]), D(d as real));
    data := [];
    var cx: nat, cy: nat := 0, offset;
    for bucket := 0 to d
      invariant cx < |x| && cy == offset + cx * incr
      invariant data + Buckets(x, ys, cx, bucket, d, dx) == Resampled(x, ys, d)
    {
      var bucketMax := StdMin(Add(x[0], Mul(D((bucket + 1) as real), dx)), x[|x| - 1]);
      assert bucketMax == BucketEnd(x, dx, bucket);
      var value;
      ghost var k := cx;
      cx, cy, value := ConsumeLoop(x, y, offset, incr, cx, cy, bucketMax, bucket % 2 == 0);
      var point := GraphData(Add(x[0], Mul(D(bucket as real), dx)), value);
      BucketsUnfold(x, ys, k, bucket, d, dx);
      ConcatAssoc(data, [point], Buckets(x, ys, cx, bucket + 1, d, dx));
      data := data + [point];
    }
  }

  // ---- the plot overloads ----

  /** What one graph receives: the copied points below `TargetSize` points, the resampled ones
    * from there on. */
  function Series(x: seq<Double>, y: seq<Double>, offset: nat, incr: nat): (data: seq<GraphData>)
    requires StrideFits(y, offset, incr, |x|)
  {
    var ys := Strided(y, offset, incr, |x|);
    if |x| < TargetSize then Copied(x, ys) else Resampled(x, ys, TargetSize)
  }

  /** A graph receives at most `TargetSize` points: all of them, unchanged, below `TargetSize`,
    * and exactly `TargetSize` buckets otherwise. */
  lemma SeriesSize(x: seq<Double>, y: seq<Double>, offset: nat, incr: nat)
    requires StrideFits(y, offset, incr, |x|)
    ensures |Series(x, y, offset, incr)| == MinInt(|x|, TargetSize)
    ensures |x| < TargetSize ==> forall i :: 0 <= i < |x| ==>
              Series(x, y, offset, incr)[i] == GraphData(x[i], y[offset + i * incr])
  {
  }

  method PlotSeries(x: seq<Double>, y: seq<Double>, offset: nat, incr: nat) returns (data: seq<GraphData>)
    requires StrideFits(y, offset, incr, |x|)
    ensures data == Series(x, y, offset, incr)
  {
    if |x| < TargetSize {
      data := CopyData(x, y, offset, incr);
    } else {
      data := Resample(x, y, offset, incr, TargetSize);
    }
  }

  /** `plot(graphIndex, x, y, x_size, y_size)`; `y_size` is not checked, the caller passes at
    * least `x_size` values. */
  method PlotGraph(x: seq<Double>, y: seq<Double>) returns (data: seq<GraphData>)
    requires |y| >= |x|
    ensures data == Series(x, y, 0, 1)
  {
    data := PlotSeries(x, y, 0, 1);
  }

  datatype DataOrder = XFirst | YFirst

  /** Where line `k` of `n` starts in y and how it steps: `x_first` stores the lines one after
    * the other, the other order interleaves them. */
  function LineLayout(order: DataOrder, k: nat, n: nat, xSize: nat): (nat, nat)
  {
    if order == XFirst then (xSize * k, 1) else (k, n)
  }

  /** When y holds `n` lines of `x_size` values, every line's reads stay inside y. */
  lemma LineLayoutFits(y: seq<Double>, order: DataOrder, k: nat, n: nat, xSize: nat)
    requires k < n && n * xSize <= |y|
    ensures var l := LineLayout(order, k, n, xSize); StrideFits(y, l.0, l.1, xSize)
  {
    if xSize > 0 {
      if order == XFirst {
        MulMonotone(k + 1, n, xSize);
        assert xSize * k + xSize == (k + 1) * xSize;
        assert n * xSize == xSize * n;
      } else {
        assert k + (xSize - 1) * n < n + (xSize - 1) * n == xSize * n;
      }
    }
  }

  /** `y_size / n == x_size` means y holds at least `n` lines of `x_size` values. */
  lemma QuotientFits(ySize: nat, n: nat, xSize: nat)
    requires n >= 1 && ySize / n == xSize
    ensures n * xSize <= ySize
  {
    assert ySize == n * (ySize / n) + ySize % n;
  }

  /** Graph `k` of `n` received its line of y, read with the layout of `order`. */
  predicate PlottedLine(x: seq<Double>, y: seq<Double>, order: DataOrder, n: nat, k: nat, data: seq<GraphData>)
  {
    var l := LineLayout(order, k, n, |x|);
    StrideFits(y, l.0, l.1, |x|) && data == Series(x, y, l.0, l.1)
  }

  /** One pass of the graph loop: line `k` in the layout of `order`. */
  method PlotLine(x: seq<Double>, y: seq<Double>, order: DataOrder, n: nat, k: nat) returns (data: seq<GraphData>)
    requires k < n && n * |x| <= |y|
    ensures PlottedLine(x, y, order, n, k, data)
  {
    LineLayoutFits(y, order, k, n, |x|);
    if order == XFirst {
      data := PlotSeries(x, y, |x| * k, 1);
    } else {
      data := PlotSeries(x, y, k, n);
    }
  }

  /** `plot(graphIndexes, x, y, x_size, y_size, order)` for `n` graphs: nothing is emitted unless
    * `y_size / n == x_size`; then graph `k` receives its line of y. */
  method PlotGraphs(n: nat, x: seq<Double>, y: seq<Double>, order: DataOrder) returns (r: Option<seq<seq<GraphData>>>)
    requires n >= 1
    ensures r.Some? <==> |y| / n == |x|
    ensures r.Some? ==> |r.value| == n && forall k :: 0 <= k < n ==> PlottedLine(x, y, order, n, k, r.value[k])
  {
    if |y| / n == |x| {
      QuotientFits(|y|, n, |x|);
      var datas: seq<seq<GraphData>> := [];
      for k := 0 to n
        invariant |datas| == k
        invariant forall j :: 0 <= j < k ==> PlottedLine(x, y, order, n, j, datas[j])
      {
        var data := PlotLine(x, y, order, n, k);
        datas := datas + [data];
      }
      r := Some(datas);
    } else {
      r := None;
    }
  }

  // ---- colour maps ----

  /** `*std::min_element(first, last)`: the running value is replaced by a later one only when
    * that one is below it, which is `std::min` folded from the left. */
  function MinElement(s: seq<Double>): Double
    requires |s| > 0
  {
    if |s| == 1 then s[0] else StdMin(MinElement(s[..|s| - 1]), s[|s| - 1])
  }

  /** `*std::max_element(first, last)`. */
  function MaxElement(s: seq<Double>): Double
    requires |s| > 0
  {
    if |s| == 1 then s[0] else StdMax(MaxElement(s[..|s| - 1]), s[|s| - 1])
  }

  /** Over numbers, the minimum and maximum elements are elements of `s` that enclose it. */
  lemma {:induction false} ElementBounds(s: seq<Double>)
    requires |s| > 0 && forall i :: 0 <= i < |s| ==> !IsNaN(s[i])
    ensures MinElement(s) in s && MaxElement(s) in s
    ensures forall i :: 0 <= i < |s| ==> Le(MinElement(s), s[i]) && Le(s[i], MaxElement(s))
  {
    if |s| > 1 {
      var front := s[..|s| - 1];
      ElementBounds(front);
      forall i | 0 <= i < |s| ensures Le(MinElement(s), s[i]) && Le(s[i], MaxElement(s)) {
        if i < |s| - 1 {
          assert s[i] == front[i];
        }
      }
    }
  }

  /** A `QCPColorMapData` as a `plot` overload fills it: its key and value sizes and ranges, and
    * its `setData(key, value, z)` calls in order. */
  datatype MapData = MapData(keySize: nat, valueSize: nat, keyRange: (Double, Double),
                             valueRange: (Double, Double), writes: seq<(Double, Double, Double)>)

  /** The outcome of a colour-map `plot`: a map is emitted, the shapes disagree and only an error
    * message is printed, nothing happens, or an empty range is dereferenced. */
  datatype MapOutcome = Emitted(data: MapData) | WrongShape | NoData | EmptyDereference

  /** The grid position of key `i` and value `j`: z is read key-major. */
  function ZIndex(i: nat, j: nat, ny: nat): nat
  {
    Times(i, ny) + j
  }

  lemma ZIndexInjective(i1: nat, j1: nat, i2: nat, j2: nat, ny: nat)
    requires j1 < ny && j2 < ny
    ensures ZIndex(i1, j1, ny) == ZIndex(i2, j2, ny) ==> i1 == i2 && j1 == j2
  {
    if i1 < i2 { TimesMonotone(i1 + 1, i2, ny); }
    if i2 < i1 { TimesMonotone(i2 + 1, i1, ny); }
  }

  /** `writes` pairs every key with every value, key-major, for the first `|writes|` z values. */
  predicate GridWrites(x: seq<Double>, y: seq<Double>, z: seq<Double>, writes: seq<(Double, Double, Double)>)
  {
    && |writes| == MinInt(|z|, Times(|x|, |y|))
    && forall i, j :: 0 <= i < |x| && 0 <= j < |y| && ZIndex(i, j, |y|) < |writes| ==>
         writes[ZIndex(i, j, |y|)] == (x[i], y[j], z[ZIndex(i, j, |y|)])
  }

  /** The nested loops over x and y: each pair takes the next z value while there is one. */
  method FillGrid(x: seq<Double>, y: seq<Double>, z: seq<Double>) returns (writes: seq<(Double, Double, Double)>)
    ensures GridWrites(x, y, z, writes)
  {
    var ny := |y|;
    writes := [];
    var it := 0;
    for i := 0 to |x|
      invariant it == |writes| == MinInt(|z|, Times(i, ny))
      invariant forall a, b :: 0 <= a < |x| && 0 <= b < ny && ZIndex(a, b, ny) < |writes| ==>
                  writes[ZIndex(a, b, ny)] == (x[a], y[b], z[ZIndex(a, b, ny)])
    {
      for j := 0 to ny
        invariant it == |writes| == MinInt(|z|, Times(i, ny) + j)
        invariant forall a, b :: 0 <= a < |x| && 0 <= b < ny && ZIndex(a, b, ny) < |writes| ==>
                    writes[ZIndex(a, b, ny)] == (x[a], y[b], z[ZIndex(a, b, ny)])
      {
        if it < |z| {
          forall a, b | 0 <= a < |x| && 0 <= b < ny && ZIndex(a, b, ny) == it
            ensures a == i && b == j
          {
            ZIndexInjective(a, b, i, j, ny);
          }
          writes := writes + [(x[i], y[j], z[it])];
          it := it + 1;
        }
      }
    }
  }

  /** `plot(graphIndex, x, y, z)` on vectors: nothing happens unless all three are non-empty;
    * then an `|x|` by `|y|` map spanning their minima and maxima takes the z values in order,
    * as long as there are any. */
  method PlotColorMapVectors(x: seq<Double>, y: seq<Double>, z: seq<Double>) returns (r: MapOutcome)
    ensures r != WrongShape && r != EmptyDereference
    ensures r == NoData <==> |x| == 0 || |y| == 0 || |z| == 0
    ensures r.Emitted? ==>
              && r.data.keySize == |x| && r.data.valueSize == |y|
              && r.data.keyRange == (MinElement(x), MaxElement(x))
              && r.data.valueRange == (MinElement(y), MaxElement(y))
              && GridWrites(x, y, z, r.data.writes)
  {
    if |x| > 0 && |y| > 0 && |z| > 0 {
      var writes := FillGrid(x, y, z);
      r := Emitted(MapData(|x|, |y|, (MinElement(x), MaxElement(x)), (MinElement(y), MaxElement(y)), writes));
    } else {
      r := NoData;
    }
  }

  /** `plot(x, y, z, x_size, y_size, z_size)` as written: the sizes are checked against
    * `x_size * y_size == z_size` only, so an empty x or y with an empty z reaches
    * `*std::min_element` of an empty range. */
  function ColorMapAsWritten(x: seq<Double>, y: seq<Double>, z: seq<Double>): MapOutcome
  {
    if |x| * |y| != |z| then WrongShape
    else if |x| == 0 || |y| == 0 then EmptyDereference
    else Emitted(MapData(|x|, |y|, (MinElement(x), MaxElement(x)), (MinElement(y), MaxElement(y)), []))
  }

  /** x of size 0, y of size 5 and z of size 0 pass the shape check and dereference the end of
    * an empty x. */
  lemma ColorMapAsWrittenDereferencesEmpty()
    ensures ColorMapAsWritten([], [D(0.0), D(1.0), D(2.0), D(3.0), D(4.0)], []) == EmptyDereference
  {
  }

  /** The raw-pointer overload with the vector overload's emptiness check: nothing happens for empty
    * data, a shape mismatch emits nothing, and otherwise z value `i * y_size + j` goes to
    * `(x[i], y[j])`. */
  method PlotColorMap(x: seq<Double>, y: seq<Double>, z: seq<Double>) returns (r: MapOutcome)
    ensures r != EmptyDereference
    ensures r == WrongShape <==> |x| * |y| != |z|
    ensures r == NoData <==> |x| * |y| == |z| && (|x| == 0 || |y| == 0)
    ensures r.Emitted? ==>
              && r.data.keySize == |x| && r.data.valueSize == |y|
              && r.data.keyRange == (MinElement(x), MaxElement(x))
              && r.data.valueRange == (MinElement(y), MaxElement(y))
              && |r.data.writes| == |z|
              && forall i, j :: 0 <= i < |x| && 0 <= j < |y| ==>
                   ZIndex(i, j, |y|) < |z| && r.data.writes[ZIndex(i, j, |y|)] == (x[i], y[j], z[ZIndex(i, j, |y|)])
  {
    if |x| * |y| == |z| {
      if |x| == 0 || |y| == 0 {
        r := NoData;
      } else {
        TimesIsProduct(|x|, |y|);
        var writes := FillGrid(x, y, z);
        forall i, j | 0 <= i < |x| && 0 <= j < |y| ensures ZIndex(i, j, |y|) < |z| {
          TimesMonotone(i + 1, |x|, |y|);
        }
        r := Emitted(MapData(|x|, |y|, (MinElement(x), MaxElement(x)), (MinElement(y), MaxElement(y)), writes));
      }
    } else {
      r := WrongShape;
    }
  }

  // ---- graphs and the colour map of the wrapper ----

  /** The graphs' pens and whether the wrapper holds its colour map. A new graph starts from
    * `DefaultPen`. */
  class Wrapper {
    var graphs: seq<Pen>
    var hasColorMap: bool

    constructor ()
      ensures graphs == [] && !hasColorMap
    {
      graphs := [];
      hasColorMap := false;
    }

    /** `addGraph(color)`: a graph with the colour is appended and its index returned. */
    method AddGraph(color: Color) returns (index: int)
      modifies this
      ensures graphs == old(graphs) + [WithColor(DefaultPen, color)] && hasColorMap == old(hasColorMap)
      ensures index == |graphs| - 1 && GraphColor(index) == color
    {
      graphs := graphs + [WithColor(DefaultPen, color)];
      index := |graphs| - 1;
    }

    /** `setGraphColor(i, color)`: only the colour of graph `i`'s pen changes. */
    method SetGraphColor(i: nat, color: Color)
      requires i < |graphs|
      modifies this
      ensures graphs == old(graphs)[i := WithColor(old(graphs)[i], color)] && hasColorMap == old(hasColorMap)
      ensures GraphColor(i) == color
    {
      graphs := graphs[i := WithColor(graphs[i], color)];
    }

    /** `graphColor(i)`. */
    function GraphColor(i: int): Color
      reads this
      requires 0 <= i < |graphs|
    {
      graphs[i].color
    }

    /** `addColorMap()`: the colour map is created by the first call, which returns 0; every
      * later call returns -1 and changes nothing. */
    method AddColorMap() returns (r: int)
      modifies this
      ensures r == (if old(hasColorMap) then -1 else 0)
      ensures hasColorMap && graphs == old(graphs)
    {
      if !hasColorMap {
        hasColorMap := true;
        r := 0;
      } else {
        r := -1;
      }
    }
  }
}
