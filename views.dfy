/** `XYZView` of `Views.hpp` (x, y and z buffers of a spectrogram) and the y-bounds scan that
  * the colour-map resampler uses to build its y axis. */
module Views {
  import opened Common
  import opened ArrayViews

  /** The three views; `yIs2d` is `y.ndim() == 2`. A one-dimensional y is one y axis shared by
    * every x. */
  datatype XYZView = XYZView(x: ArrayView2D, y: ArrayView2D, z: ArrayView2D, yIs2d: bool)

  predicate ShapedBuffer(b: Buffer)
  {
    b.valid && 1 <= |b.shape| <= 2 && b.shape[|b.shape| - 1] >= 1 &&
    |b.data| == (if |b.shape| == 1 then b.shape[0] else b.shape[0] * b.shape[1])
  }

  /** The buffers of one spectrogram: x is 1-D, z has a row per x, a 2-D y has a row per x. */
  predicate SpectrogramBuffers(x: Buffer, y: Buffer, z: Buffer)
  {
    ShapedBuffer(x) && ShapedBuffer(y) && ShapedBuffer(z) &&
    |x.shape| == 1 && |z.shape| == 2 && z.shape[0] == x.shape[0] &&
    (|y.shape| == 2 ==> y.shape[0] == x.shape[0])
  }

  predicate Valid(v: XYZView)
  {
    WellFormed(v.x) && WellFormed(v.y) && WellFormed(v.z) && v.x.nCols == 1 &&
    (!v.yIs2d ==> v.y.nCols == 1)
  }

  /** `_init_views`: x and z (and a 2-D y) get the row window, a 1-D y is viewed whole. */
  function InitViews(x: Buffer, y: Buffer, z: Buffer, start: nat, stop: nat): (v: XYZView)
    requires SpectrogramBuffers(x, y, z)
    requires start <= (if stop == 0 then x.shape[0] else stop) <= x.shape[0]
    ensures Valid(v)
    ensures v.yIs2d <==> |y.shape| == 2
    ensures v.x.start == start && v.x.stop == (if stop == 0 then x.shape[0] else stop)
    ensures v.z.start == v.x.start && v.z.stop == v.x.stop && v.z.nCols == z.shape[1]
    ensures v.yIs2d ==> v.y.start == start && v.y.stop == v.x.stop && v.y.nCols == y.shape[1]
    ensures !v.yIs2d ==> v.y.start == 0 && v.y.stop == y.shape[0]
  {
    var yIs2d := |y.shape| == 2;
    var xv := BufferView(x, start, stop).value;
    var zv := BufferView(z, start, stop).value;
    var yv := if yIs2d then BufferView(y, start, stop).value else BufferView(y, 0, 0).value;
    XYZView(xv, yv, zv, yIs2d)
  }

  /** `XYZView(x, y, z, start, stop)`. */
  function XYZViewByIndex(x: Buffer, y: Buffer, z: Buffer, start: nat, stop: nat): (v: XYZView)
    requires SpectrogramBuffers(x, y, z)
    requires start <= (if stop == 0 then x.shape[0] else stop) <= x.shape[0]
    ensures Valid(v) && v.x.start == start
  {
    InitViews(x, y, z, start, stop)
  }

  /** The views over the rows of the corrected window of `(x_start, x_stop)`; an empty window at
    * row 0 is kept empty rather than read as "up to the end". */
  function RangeView(x: Buffer, y: Buffer, z: Buffer, xStart: Double, xStop: Double): (v: XYZView)
    requires SpectrogramBuffers(x, y, z)
    ensures Valid(v) && (v.yIs2d <==> |y.shape| == 2)
    ensures (v.x.start, v.x.stop) == Window(x.data, xStart, xStop)
    ensures (v.z.start, v.z.stop) == Window(x.data, xStart, xStop) && v.z.nCols == z.shape[1]
    ensures v.yIs2d ==> (v.y.start, v.y.stop) == Window(x.data, xStart, xStop) && v.y.nCols == y.shape[1]
    ensures !v.yIs2d ==> v.y.start == 0 && v.y.stop == y.shape[0]
  {
    var w := Window(x.data, xStart, xStop);
    if w.1 == 0 then
      var v := InitViews(x, y, z, w.0, x.shape[0]);
      v.(x := v.x.(stop := 0), z := v.z.(stop := 0), y := if v.yIs2d then v.y.(stop := 0) else v.y)
    else
      InitViews(x, y, z, w.0, w.1)
  }

  /** `XYZView(x, y, z, x_start, x_stop)`, with the x window of the corrected `XYView`. */
  method XYZViewByRange(x: Buffer, y: Buffer, z: Buffer, xStart: Double, xStop: Double)
    returns (v: XYZView)
    requires SpectrogramBuffers(x, y, z) && Sorted(x.data)
    ensures v == RangeView(x, y, z, xStart, xStop)
    ensures Valid(v)
    ensures (v.x.start, v.x.stop) == Window(x.data, xStart, xStop)
    ensures (v.z.start, v.z.stop) == Window(x.data, xStart, xStop)
  {
    var startIndex := UpperBound(x.data, xStart);
    var stopIndex := LowerBound(x.data, xStop);
    if stopIndex < startIndex {
      stopIndex := startIndex;
    }
    if stopIndex == 0 {
      v := InitViews(x, y, z, startIndex, x.shape[0]);
      v := v.(x := v.x.(stop := 0), z := v.z.(stop := 0),
              y := if v.yIs2d then v.y.(stop := 0) else v.y);
    } else {
      v := InitViews(x, y, z, startIndex, stopIndex);
    }
  }

  /** `y_shape()`: (rows, columns) of a 2-D y, `(1, length)` of a 1-D one. */
  function YShape(v: XYZView): (s: (nat, nat))
    requires Valid(v)
    ensures s.1 == if v.yIs2d then v.y.nCols else v.y.stop - v.y.start
    ensures !v.yIs2d ==> s.0 == 1
  {
    if v.yIs2d then (v.y.stop - v.y.start, v.y.nCols) else (1, v.y.stop - v.y.start)
  }

  /** `z_shape()`. */
  function ZShape(v: XYZView): (s: (nat, nat))
    requires Valid(v)
    ensures s.0 == v.z.stop - v.z.start && s.1 == v.z.nCols
  {
    (v.z.stop - v.z.start, v.z.nCols)
  }

  /** `y(i, j)`: element `(i, j)` of a 2-D y; element `j` of a 1-D y, whatever `i`. */
  function Y(v: XYZView, i: nat, j: nat): Double
    requires Valid(v) && i < YShape(v).0 && j < YShape(v).1
  {
    if v.yIs2d then At(v.y, i, j) else At(v.y, j, 0)
  }

  /** Row `i` of y as `y(i, j)` reads it. */
  function YRow(v: XYZView, i: nat): (row: seq<Double>)
    requires Valid(v) && i < YShape(v).0
    ensures |row| == YShape(v).1
  {
    seq(YShape(v).1, j requires 0 <= j < YShape(v).1 => Y(v, i, j))
  }

  /** `_nan_safe_min`. */
  function NanSafeMin(a: Double, b: Double): Double
  {
    if IsNaN(a) then b else if IsNaN(b) then a else StdMin(a, b)
  }

  /** `_nan_safe_max`. */
  function NanSafeMax(a: Double, b: Double): Double
  {
    if IsNaN(a) then b else if IsNaN(b) then a else StdMax(a, b)
  }

  /** The nan-safe minimum is NaN only when both operands are, is one of them, and is below
    * every operand that is a number. */
  lemma NanSafeMinProperties(a: Double, b: Double)
    ensures IsNaN(NanSafeMin(a, b)) <==> IsNaN(a) && IsNaN(b)
    ensures NanSafeMin(a, b) == a || NanSafeMin(a, b) == b
    ensures !IsNaN(a) ==> NanSafeMin(a, b).value <= a.value
    ensures !IsNaN(b) ==> NanSafeMin(a, b).value <= b.value
    ensures NanSafeMin(a, b) == NanSafeMin(b, a)
  {
  }

  lemma NanSafeMaxProperties(a: Double, b: Double)
    ensures IsNaN(NanSafeMax(a, b)) <==> IsNaN(a) && IsNaN(b)
    ensures NanSafeMax(a, b) == a || NanSafeMax(a, b) == b
    ensures !IsNaN(a) ==> NanSafeMax(a, b).value >= a.value
    ensures !IsNaN(b) ==> NanSafeMax(a, b).value >= b.value
    ensures NanSafeMax(a, b) == NanSafeMax(b, a)
  {
  }

  /** The first value of a row that is a number (NaN when there is none). */
  function FirstValue(s: seq<Double>): Double
  {
    if s == [] then NaN else if !IsNaN(s[0]) then s[0] else FirstValue(s[1..])
  }

  /** The last value of a row that is a number (NaN when there is none). */
  function LastValue(s: seq<Double>): Double
  {
    if s == [] then NaN else if !IsNaN(s[|s| - 1]) then s[|s| - 1] else LastValue(s[..|s| - 1])
  }

  lemma {:induction false} FirstValueAt(s: seq<Double>, j: nat)
    requires j <= |s| && (forall k :: 0 <= k < j ==> IsNaN(s[k]))
    requires j < |s| ==> !IsNaN(s[j])
    ensures FirstValue(s) == if j < |s| then s[j] else NaN
  {
    if s != [] && j > 0 {
      assert IsNaN(s[0]);
      forall k | 0 <= k < j - 1 ensures IsNaN(s[1..][k]) { assert s[1..][k] == s[k + 1]; }
      FirstValueAt(s[1..], j - 1);
    }
  }

  lemma {:induction false} LastValueAt(s: seq<Double>, j: nat)
    requires j <= |s| && (forall k :: j <= k < |s| ==> IsNaN(s[k]))
    requires j > 0 ==> !IsNaN(s[j - 1])
    ensures LastValue(s) == if j > 0 then s[j - 1] else NaN
  {
    if s != [] && j < |s| {
      assert IsNaN(s[|s| - 1]);
      var t := s[..|s| - 1];
      forall k | j <= k < |t| ensures IsNaN(t[k]) { assert t[k] == s[k]; }
      if j > 0 {
        assert t[j - 1] == s[j - 1];
      }
      LastValueAt(t, j);
    }
  }

  /** A row's first and last numbers are NaN exactly when the row holds no number, and are
    * otherwise numbers of the row. */
  lemma {:induction false} FirstLastValueProperties(s: seq<Double>)
    ensures IsNaN(FirstValue(s)) <==> forall k :: 0 <= k < |s| ==> IsNaN(s[k])
    ensures IsNaN(LastValue(s)) <==> forall k :: 0 <= k < |s| ==> IsNaN(s[k])
    ensures !IsNaN(FirstValue(s)) ==> FirstValue(s) in s
    ensures !IsNaN(LastValue(s)) ==> LastValue(s) in s
  {
    if s != [] {
      FirstLastValueProperties(s[1..]);
      FirstLastValueProperties(s[..|s| - 1]);
      if IsNaN(s[0]) {
        forall k | 1 <= k < |s| ensures s[k] == s[1..][k - 1] { }
      }
      if IsNaN(s[|s| - 1]) {
        forall k | 0 <= k < |s| - 1 ensures s[k] == s[..|s| - 1][k] { }
      }
    }
  }

  /** In a row whose numbers are in increasing order the first number is the smallest and the
    * last the largest, which is what the scans rely on. */
  lemma {:induction false} SortedRowBounds(s: seq<Double>, k: nat)
    requires forall a, b :: 0 <= a < b < |s| && !IsNaN(s[a]) && !IsNaN(s[b]) ==> s[a].value <= s[b].value
    requires k < |s| && !IsNaN(s[k])
    ensures !IsNaN(FirstValue(s)) && FirstValue(s).value <= s[k].value
    ensures !IsNaN(LastValue(s)) && LastValue(s).value >= s[k].value
  {
    var f :| 0 <= f <= k && (forall a :: 0 <= a < f ==> IsNaN(s[a])) && !IsNaN(s[f]) by {
      FirstNumberExists(s, k);
    }
    FirstValueAt(s, f);
    var l :| k <= l < |s| && !IsNaN(s[l]) && (forall a :: l < a < |s| ==> IsNaN(s[a])) by {
      LastNumberExists(s, k);
    }
    LastValueAt(s, l + 1);
  }

  lemma {:induction false} FirstNumberExists(s: seq<Double>, k: nat)
    requires k < |s| && !IsNaN(s[k])
    ensures exists f :: 0 <= f <= k && (forall a :: 0 <= a < f ==> IsNaN(s[a])) && !IsNaN(s[f])
  {
    if forall a :: 0 <= a < k ==> IsNaN(s[a]) {
      assert 0 <= k <= k && (forall a :: 0 <= a < k ==> IsNaN(s[a])) && !IsNaN(s[k]);
    } else {
      var a :| 0 <= a < k && !IsNaN(s[a]);
      FirstNumberExists(s, a);
    }
  }

  lemma {:induction false} LastNumberExists(s: seq<Double>, k: nat)
    requires k < |s| && !IsNaN(s[k])
    ensures exists l :: k <= l < |s| && !IsNaN(s[l]) && (forall a :: l < a < |s| ==> IsNaN(s[a]))
    decreases |s| - k
  {
    if forall a :: k < a < |s| ==> IsNaN(s[a]) {
      assert k <= k < |s| && !IsNaN(s[k]) && (forall a :: k < a < |s| ==> IsNaN(s[a]));
    } else {
      var a :| k < a < |s| && !IsNaN(s[a]);
      LastNumberExists(s, a);
    }
  }

  /** The column the left scan of `y_bounds(v, row, n_cols)` reads last, as written: it stops
    * at the first number, or reads column `n_cols` once every column was NaN. */
  function LeftScanLastReadAsWritten(s: seq<Double>, j: nat): (last: nat)
    requires j <= |s|
    ensures j <= last <= |s|
    decreases |s| - j
  {
    if j < |s| && IsNaN(s[j]) then LeftScanLastReadAsWritten(s, j + 1) else j
  }

  /** On a row with a number the left scan stops inside the row, at the first number; on an
    * all-NaN row it reads column `n_cols`, outside the row. */
  lemma {:induction false} LeftScanAsWrittenReadsPastRow(s: seq<Double>, j: nat)
    requires j <= |s| && (forall k :: 0 <= k < j ==> IsNaN(s[k]))
    ensures (forall k :: 0 <= k < |s| ==> IsNaN(s[k])) <==> LeftScanLastReadAsWritten(s, j) == |s|
    ensures LeftScanLastReadAsWritten(s, j) < |s| ==>
              FirstValue(s) == s[LeftScanLastReadAsWritten(s, j)]
    decreases |s| - j
  {
    if j < |s| && IsNaN(s[j]) {
      LeftScanAsWrittenReadsPastRow(s, j + 1);
    } else if j < |s| {
      FirstValueAt(s, j);
    }
  }

  /** The one-column all-NaN row `[NaN]`: the left scan reads column 1. */
  lemma LeftScanCounterexample()
    ensures LeftScanLastReadAsWritten([NaN], 0) == 1
  {
  }

  /** `y_bounds(v, row, n_cols, min, max)` with both scans kept inside the row: the first and
    * the last number of the row merged into `(min, max)` with the nan-safe operators. Both
    * callers pass `n_cols = y_shape().second`. */
  method RowBounds(v: XYZView, row: nat, min: Double, max: Double) returns (lo: Double, hi: Double)
    requires Valid(v) && row < YShape(v).0
    ensures lo == NanSafeMin(FirstValue(YRow(v, row)), min)
    ensures hi == NanSafeMax(LastValue(YRow(v, row)), max)
  {
    var nCols := YShape(v).1;
    ghost var s := YRow(v, row);
    var j := 0;
    while j < nCols && IsNaN(Y(v, row, j))
      invariant j <= nCols
      invariant forall k :: 0 <= k < j ==> IsNaN(s[k])
    {
      j := j + 1;
    }
    var val := if j < nCols then Y(v, row, j) else NaN;
    FirstValueAt(s, j);
    lo := NanSafeMin(val, min);
    j := nCols;
    while j > 0 && IsNaN(Y(v, row, j - 1))
      invariant j <= nCols
      invariant forall k :: j <= k < nCols ==> IsNaN(s[k])
    {
      j := j - 1;
    }
    val := if j > 0 then Y(v, row, j - 1) else NaN;
    LastValueAt(s, j);
    hi := NanSafeMax(val, max);
  }

  /** The rows of y, each as `y(i, j)` reads it. */
  function YRows(v: XYZView): (rows: seq<seq<Double>>)
    requires Valid(v)
    ensures |rows| == YShape(v).0 && forall i :: 0 <= i < |rows| ==> rows[i] == YRow(v, i)
  {
    seq(YShape(v).0, i requires 0 <= i < YShape(v).0 => YRow(v, i))
  }

  /** The bounds folded over `rows` in order, starting from `(NaN, NaN)`. */
  function FoldBounds(rows: seq<seq<Double>>): (Double, Double)
  {
    if rows == [] then (NaN, NaN)
    else
      var b := FoldBounds(rows[..|rows| - 1]);
      (NanSafeMin(FirstValue(rows[|rows| - 1]), b.0), NanSafeMax(LastValue(rows[|rows| - 1]), b.1))
  }

  /** `y_bounds(v)`: the single row of a 1-D y, or the fold over every row of a 2-D y. */
  method YBounds(v: XYZView) returns (lo: Double, hi: Double)
    requires Valid(v)
    ensures (lo, hi) == FoldBounds(YRows(v))
  {
    var shape := YShape(v);
    ghost var rows := YRows(v);
    if !v.yIs2d {
      lo, hi := RowBounds(v, 0, NaN, NaN);
      assert rows == [YRow(v, 0)];
      assert rows[..0] == [];
    } else {
      lo, hi := NaN, NaN;
      var i := 0;
      while i < shape.0
        invariant i <= shape.0
        invariant (lo, hi) == FoldBounds(rows[..i])
      {
        lo, hi := RowBounds(v, i, lo, hi);
        assert rows[..i + 1][..i] == rows[..i];
        i := i + 1;
      }
      assert rows[..i] == rows;
    }
  }

  /** The folded bounds are NaN only when no row has a number, and otherwise lie at or below
    * (above) the first (last) number of every row. */
  lemma {:induction false} FoldBoundsEncloseRows(rows: seq<seq<Double>>)
    ensures IsNaN(FoldBounds(rows).0) <==> forall i :: 0 <= i < |rows| ==> IsNaN(FirstValue(rows[i]))
    ensures IsNaN(FoldBounds(rows).1) <==> forall i :: 0 <= i < |rows| ==> IsNaN(LastValue(rows[i]))
    ensures forall i :: 0 <= i < |rows| && !IsNaN(FirstValue(rows[i])) ==>
              FoldBounds(rows).0.value <= FirstValue(rows[i]).value
    ensures forall i :: 0 <= i < |rows| && !IsNaN(LastValue(rows[i])) ==>
              FoldBounds(rows).1.value >= LastValue(rows[i]).value
  {
    if rows != [] {
      var init := rows[..|rows| - 1];
      FoldBoundsEncloseRows(init);
      var b := FoldBounds(init);
      NanSafeMinProperties(FirstValue(rows[|rows| - 1]), b.0);
      NanSafeMaxProperties(LastValue(rows[|rows| - 1]), b.1);
      assert forall i :: 0 <= i < |init| ==> init[i] == rows[i];
    }
  }

  /** With a 1-D y every row reads the same values. */
  lemma OneDimensionalYIsShared(v: XYZView, i: nat, j: nat)
    requires Valid(v) && !v.yIs2d && i < YShape(v).0 && j < YShape(v).1
    ensures Y(v, i, j) == Y(v, 0, j) == At(v.y, j, 0)
  {
  }
}
