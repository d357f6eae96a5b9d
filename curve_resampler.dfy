/** The curve resampler of `src/SciQLopCurveResampler.cpp`: a parametric curve is never
  * decimated; each line is copied with its sample index as the curve parameter. A pointer into
  * the y buffer is an offset into `y`. */
module CurveResampler {
  import opened Common
  import opened ArrayViews
  import opened Resampling

  /** `curve_copy_data(x, y + offset, x_size, y_incr)`: point `i` is `(i, x[i], y[offset + i * y_incr])`. */
  method CurveCopyData(x: seq<Double>, y: seq<Double>, offset: nat, count: nat, yIncr: nat)
    returns (data: seq<CurveData>)
    requires count <= |x| && (count > 0 ==> offset + (count - 1) * yIncr < |y|)
    ensures |data| == count
    ensures forall i :: 0 <= i < count ==>
              offset + i * yIncr < |y| && data[i] == CurveData(D(i as real), x[i], y[offset + i * yIncr])
  {
    var a := new CurveData[count](_ => CurveData(NaN, NaN, NaN));
    var current := offset;
    for i := 0 to count
      invariant current == offset + i * yIncr
      invariant forall j :: 0 <= j < i ==>
                  offset + j * yIncr < |y| && a[j] == CurveData(D(j as real), x[j], y[offset + j * yIncr])
    {
      MulMonotone(i, count - 1, yIncr);
      a[i] := CurveData(D(i as real), x[i], y[current]);
      current := current + yIncr;
    }
    data := a[..];
  }

  /** The offset of line `k` in a y buffer holding lines of `n` points one after the other. */
  function LineOffset(k: nat, n: nat): nat { k * n }

  lemma LineOffsetBound(k: nat, lineCount: nat, n: nat, i: nat)
    requires k < lineCount && i < n
    ensures LineOffset(k, n) + i < lineCount * n
  {
    MulMonotone(k + 1, lineCount, n);
  }

  /** `c` is line `k` copied from the y buffer: point `i` is `(i, x[i], y[k * |x| + i])`. */
  predicate IsCurveLine(c: seq<CurveData>, x: seq<Double>, y: seq<Double>, k: nat)
  {
    |c| == |x| &&
    forall i :: 0 <= i < |x| ==>
      LineOffset(k, |x|) + i < |y| && c[i] == CurveData(D(i as real), x[i], y[LineOffset(k, |x|) + i])
  }

  /** `CurveResampler::_resample_impl`: only a valid, non-empty x with fresh data gives output:
    * one curve per line, line `k` reading y from offset `k * flat_size(x)` with stride 1. */
  method ResampleImpl(data: ResamplerData, lineCount: nat) returns (r: Option<seq<seq<CurveData>>>)
    requires data.x.valid && data.newData ==> |data.y.data| >= lineCount * |data.x.data|
    ensures r.Some? <==> data.x.valid && |data.x.data| > 0 && data.newData
    ensures r.Some? ==> |r.value| == lineCount
    ensures r.Some? ==> forall k :: 0 <= k < lineCount ==> IsCurveLine(r.value[k], data.x.data, data.y.data, k)
  {
    r := None;
    if data.x.valid && |data.x.data| > 0 && data.newData {
      var x, y := data.x.data, data.y.data;
      var n := |x|;
      var curves: seq<seq<CurveData>> := [];
      for k := 0 to lineCount
        invariant |curves| == k
        invariant forall j :: 0 <= j < k ==> IsCurveLine(curves[j], x, y, j)
      {
        LineOffsetBound(k, lineCount, n, n - 1);
        var c := CurveCopyData(x, y, LineOffset(k, n), n, 1);
        assert IsCurveLine(c, x, y, k);
        curves := curves + [c];
      }
      r := Some(curves);
    }
  }
}
