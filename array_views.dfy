/** The buffer views of `PythonInterface.hpp`: `ArrayView2D` (a row window over a row- or
  * column-major matrix of doubles), `PyBuffer::view` and the `XYView` pair of `Views.hpp` with its x-window
  * found by binary search. `std::size_t` differences are written out modulo 2^64. */
module ArrayViews {
  import opened Common

  const SizeModulus: int := 0x1_0000_0000_0000_0000

  /** `a - b` on `std::size_t`. */
  function SizeSub(a: nat, b: nat): (r: nat)
    ensures b <= a && a - b < SizeModulus ==> r == a - b
    ensures a < b && b - a < SizeModulus ==> r == SizeModulus - (b - a)
  {
    (a - b) % SizeModulus
  }

  /** `ArrayView2D<row_major>`: `start`/`stop` are the first and one-past-last rows of the
    * window, `data` the whole buffer behind `ptr`. */
  datatype ArrayView2D = ArrayView2D(data: seq<Double>, nRows: nat, nCols: nat,
                                     start: nat, stop: nat, rowMajor: bool)

  /** A view over a buffer of exactly `n_rows * n_cols` doubles, with its window inside. */
  predicate WellFormed(v: ArrayView2D)
  {
    |v.data| == v.nRows * v.nCols && v.nCols >= 1 && v.start <= v.stop <= v.nRows
  }

  /** The constructor: stores `max(n_cols, 1)` columns; it asserts `stop <= n_rows`. */
  function MakeView(data: seq<Double>, nRows: nat, nCols: nat, start: nat, stop: nat,
                    rowMajor: bool): (v: ArrayView2D)
    requires stop <= nRows
    ensures v.nCols == MaxInt(nCols, 1) && v.nCols >= 1
    ensures v.nRows == nRows && v.start == start && v.stop == stop && v.data == data
  {
    ArrayView2D(data, nRows, if nCols < 1 then 1 else nCols, start, stop, rowMajor)
  }

  /** The position `operator[]({i, j})` reads: `(i + start) * n_cols + j` in row-major order,
    * `i + start + j * n_rows` in column-major order. */
  function FlatIndex(v: ArrayView2D, i: nat, j: nat): nat
  {
    if v.rowMajor then (i + v.start) * v.nCols + j else i + v.start + j * v.nRows
  }

  /** Every index inside the window and the columns falls inside the buffer. */
  lemma FlatIndexInBounds(v: ArrayView2D, i: nat, j: nat)
    requires WellFormed(v) && i < v.stop - v.start && j < v.nCols
    ensures FlatIndex(v, i, j) < |v.data|
  {
    var row := i + v.start;
    assert row < v.nRows;
    if v.rowMajor {
      assert row * v.nCols + j < row * v.nCols + v.nCols == (row + 1) * v.nCols;
      assert (row + 1) * v.nCols <= v.nRows * v.nCols by {
        MulMonotone(row + 1, v.nRows, v.nCols);
      }
    } else {
      assert row + j * v.nRows < v.nRows + j * v.nRows == (j + 1) * v.nRows;
      assert (j + 1) * v.nRows <= v.nCols * v.nRows by {
        MulMonotone(j + 1, v.nCols, v.nRows);
      }
    }
  }

  lemma MulMonotone(a: nat, b: nat, c: nat)
    requires a <= b
    ensures a * c <= b * c
  {
  }

  /** Distinct cells of the window are stored at distinct positions. */
  lemma FlatIndexInjective(v: ArrayView2D, i1: nat, j1: nat, i2: nat, j2: nat)
    requires WellFormed(v)
    requires i1 < v.stop - v.start && j1 < v.nCols && i2 < v.stop - v.start && j2 < v.nCols
    requires FlatIndex(v, i1, j1) == FlatIndex(v, i2, j2)
    ensures i1 == i2 && j1 == j2
  {
    if v.rowMajor {
      if i1 < i2 {
        Below(i1 + v.start, j1, i2 + v.start, j2, v.nCols);
      } else if i2 < i1 {
        Below(i2 + v.start, j2, i1 + v.start, j1, v.nCols);
      }
    } else {
      if j1 < j2 {
        Below(j1, i1 + v.start, j2, i2 + v.start, v.nRows);
      } else if j2 < j1 {
        Below(j2, i2 + v.start, j1, i1 + v.start, v.nRows);
      }
    }
  }

  /** `q1 * n + r1 < q2 * n + r2` whenever `q1 < q2` and `r1 < n`. */
  lemma Below(q1: nat, r1: nat, q2: nat, r2: nat, n: nat)
    requires q1 < q2 && r1 < n
    ensures q1 * n + r1 < q2 * n + r2
  {
    MulMonotone(q1 + 1, q2, n);
  }

  /** `operator[]({i, j})`. */
  function At(v: ArrayView2D, i: nat, j: nat): (x: Double)
    requires WellFormed(v) && i < v.stop - v.start && j < v.nCols
  {
    var p := FlatIndex(v, i, j);
    FlatIndexInBounds(v, i, j);
    v.data[p]
  }

  /** `view(first_row, last_row)`: a new window over the same buffer; `last_row == 0` means
    * "up to `n_rows`". The new view's constructor asserts the last row is within `n_rows`. */
  function SubView(v: ArrayView2D, firstRow: nat, lastRow: nat): (w: ArrayView2D)
    requires (if lastRow == 0 then v.nRows else lastRow) <= v.nRows
    ensures w.start == firstRow && w.stop == (if lastRow == 0 then v.nRows else lastRow)
    ensures w.data == v.data && w.nRows == v.nRows && w.nCols == MaxInt(v.nCols, 1)
  {
    MakeView(v.data, v.nRows, v.nCols, firstRow, if lastRow == 0 then v.nRows else lastRow,
             v.rowMajor)
  }

  /** `flat_size()`: `(stop - start) * n_cols` in `std::size_t` arithmetic. */
  function FlatSize(v: ArrayView2D): (n: nat)
    ensures v.start <= v.stop && (v.stop - v.start) * v.nCols < SizeModulus ==>
              n == (v.stop - v.start) * v.nCols
  {
    FlatSizeInRange(v);
    (SizeSub(v.stop, v.start) * v.nCols) % SizeModulus
  }

  /** Without wrap-around, the `std::size_t` product is the exact one. */
  lemma FlatSizeInRange(v: ArrayView2D)
    ensures v.start <= v.stop && (v.stop - v.start) * v.nCols < SizeModulus ==>
              (SizeSub(v.stop, v.start) * v.nCols) % SizeModulus == (v.stop - v.start) * v.nCols
  {
    if v.start <= v.stop && (v.stop - v.start) * v.nCols < SizeModulus {
      var d, c := v.stop - v.start, v.nCols;
      if c == 0 {
        assert SizeSub(v.stop, v.start) * c == 0;
      } else {
        FactorBelowProduct(d, c);
        assert SizeSub(v.stop, v.start) == d;
        ModOfSmall(d * c);
      }
    }
  }

  lemma ModOfSmall(p: int)
    requires 0 <= p < SizeModulus
    ensures p % SizeModulus == p
  {
  }

  lemma FactorBelowProduct(d: nat, c: nat)
    requires c >= 1
    ensures d <= d * c
  {
    assert d * c == d + d * (c - 1);
  }

  /** A `PyBuffer`: validity, the doubles, the numpy shape and the memory order. */
  datatype Buffer = Buffer(valid: bool, data: seq<Double>, shape: seq<nat>, rowMajor: bool)

  /** A default-constructed, released or moved-from buffer: no data pointer, no values. */
  const NoBuffer := Buffer(false, [], [0], true)

  /** `PyBuffer::view(first_row, last_row)`: `None` for an invalid buffer; a 1-D buffer is seen
    * as one column. `shape()[0]` is read before validity is checked. */
  function BufferView(b: Buffer, firstRow: nat, lastRow: nat): (r: Option<ArrayView2D>)
    requires lastRow == 0 ==> |b.shape| >= 1
    requires b.valid ==> |b.shape| >= 1 && (if lastRow == 0 then b.shape[0] else lastRow) <= b.shape[0]
    requires b.valid && |b.shape| != 1 ==> |b.shape| >= 2
    ensures r.None? <==> !b.valid
    ensures r.Some? ==> r.value.nRows == b.shape[0] && r.value.start == firstRow
    ensures r.Some? ==> r.value.stop == (if lastRow == 0 then b.shape[0] else lastRow)
    ensures r.Some? ==> r.value.nCols == (if |b.shape| == 1 then 1 else MaxInt(b.shape[1], 1))
    ensures r.Some? ==> r.value.rowMajor == b.rowMajor
  {
    var last := if lastRow == 0 then b.shape[0] else lastRow;
    if b.valid then
      Some(MakeView(b.data, b.shape[0], if |b.shape| == 1 then 0 else b.shape[1], firstRow, last,
                    b.rowMajor))
    else None
  }

  // ---- x-window by binary search ----

  /** Non-NaN and non-decreasing: the order `std::upper_bound`/`std::lower_bound` require. */
  predicate Sorted(x: seq<Double>)
  {
    (forall k :: 0 <= k < |x| ==> x[k].Some?) &&
    (forall i, j :: 0 <= i < j < |x| ==> x[i].value <= x[j].value)
  }

  /** The index `std::upper_bound` returns: the first element greater than `v`. */
  function UpperBoundSpec(x: seq<Double>, v: Double): (i: nat)
    ensures i <= |x|
  {
    if x == [] then 0 else if Lt(v, x[0]) then 0 else 1 + UpperBoundSpec(x[1..], v)
  }

  /** The index `std::lower_bound` returns: the first element not less than `v`. */
  function LowerBoundSpec(x: seq<Double>, v: Double): (i: nat)
    ensures i <= |x|
  {
    if x == [] then 0 else if !Lt(x[0], v) then 0 else 1 + LowerBoundSpec(x[1..], v)
  }

  /** An index that splits `x` into "not greater than v" and "greater than v" is the upper
    * bound. */
  lemma {:induction false} UpperBoundUnique(x: seq<Double>, v: Double, i: nat)
    requires i <= |x|
    requires forall k :: 0 <= k < i ==> !Lt(v, x[k])
    requires forall k :: i <= k < |x| ==> Lt(v, x[k])
    ensures i == UpperBoundSpec(x, v)
  {
    if x != [] {
      if i == 0 {
        assert Lt(v, x[0]);
      } else {
        assert !Lt(v, x[0]);
        forall k | 0 <= k < i - 1 ensures !Lt(v, x[1..][k]) { assert x[1..][k] == x[k + 1]; }
        forall k | i - 1 <= k < |x| - 1 ensures Lt(v, x[1..][k]) { assert x[1..][k] == x[k + 1]; }
        UpperBoundUnique(x[1..], v, i - 1);
      }
    }
  }

  lemma {:induction false} LowerBoundUnique(x: seq<Double>, v: Double, i: nat)
    requires i <= |x|
    requires forall k :: 0 <= k < i ==> Lt(x[k], v)
    requires forall k :: i <= k < |x| ==> !Lt(x[k], v)
    ensures i == LowerBoundSpec(x, v)
  {
    if x != [] {
      if i == 0 {
        assert !Lt(x[0], v);
      } else {
        assert Lt(x[0], v);
        forall k | 0 <= k < i - 1 ensures Lt(x[1..][k], v) { assert x[1..][k] == x[k + 1]; }
        forall k | i - 1 <= k < |x| - 1 ensures !Lt(x[1..][k], v) { assert x[1..][k] == x[k + 1]; }
        LowerBoundUnique(x[1..], v, i - 1);
      }
    }
  }

  /** `std::upper_bound` over a sorted buffer, by bisection. */
  method UpperBound(x: seq<Double>, v: Double) returns (i: nat)
    requires Sorted(x)
    ensures i == UpperBoundSpec(x, v)
    ensures forall k :: 0 <= k < i ==> !Lt(v, x[k])
    ensures forall k :: i <= k < |x| ==> Lt(v, x[k])
  {
    var lo, hi := 0, |x|;
    while lo < hi
      invariant 0 <= lo <= hi <= |x|
      invariant forall k :: 0 <= k < lo ==> !Lt(v, x[k])
      invariant forall k :: hi <= k < |x| ==> Lt(v, x[k])
    {
      var mid := (lo + hi) / 2;
      if Lt(v, x[mid]) {
        hi := mid;
      } else {
        lo := mid + 1;
      }
    }
    i := lo;
    UpperBoundUnique(x, v, i);
  }

  /** `std::lower_bound` over a sorted buffer, by bisection. */
  method LowerBound(x: seq<Double>, v: Double) returns (i: nat)
    requires Sorted(x)
    ensures i == LowerBoundSpec(x, v)
    ensures forall k :: 0 <= k < i ==> Lt(x[k], v)
    ensures forall k :: i <= k < |x| ==> !Lt(x[k], v)
  {
    var lo, hi := 0, |x|;
    while lo < hi
      invariant 0 <= lo <= hi <= |x|
      invariant forall k :: 0 <= k < lo ==> Lt(x[k], v)
      invariant forall k :: hi <= k < |x| ==> !Lt(x[k], v)
    {
      var mid := (lo + hi) / 2;
      if Lt(x[mid], v) {
        lo := mid + 1;
      } else {
        hi := mid;
      }
    }
    i := lo;
    LowerBoundUnique(x, v, i);
  }

  /** On a sorted buffer, `upper_bound(a) <= lower_bound(b)` whenever `a < b`. */
  lemma BoundsOrdered(x: seq<Double>, a: real, b: real)
    requires Sorted(x) && a < b
    ensures UpperBoundSpec(x, Some(a)) <= LowerBoundSpec(x, Some(b))
  {
    var u, l := UpperBoundSpec(x, Some(a)), LowerBoundSpec(x, Some(b));
    UpperBoundPartition(x, Some(a));
    LowerBoundPartition(x, Some(b));
  }

  lemma {:induction false} UpperBoundPartition(x: seq<Double>, v: Double)
    requires Sorted(x)
    ensures forall k :: 0 <= k < UpperBoundSpec(x, v) ==> !Lt(v, x[k])
    ensures forall k :: UpperBoundSpec(x, v) <= k < |x| ==> Lt(v, x[k])
  {
    if x != [] {
      assert Sorted(x[1..]);
      UpperBoundPartition(x[1..], v);
      if !Lt(v, x[0]) {
        forall k | 1 <= k < UpperBoundSpec(x, v) ensures !Lt(v, x[k]) { assert x[k] == x[1..][k - 1]; }
        forall k | UpperBoundSpec(x, v) <= k < |x| ensures Lt(v, x[k]) { assert x[k] == x[1..][k - 1]; }
      }
    }
  }

  lemma {:induction false} LowerBoundPartition(x: seq<Double>, v: Double)
    requires Sorted(x)
    ensures forall k :: 0 <= k < LowerBoundSpec(x, v) ==> Lt(x[k], v)
    ensures forall k :: LowerBoundSpec(x, v) <= k < |x| ==> !Lt(x[k], v)
  {
    if x != [] {
      assert Sorted(x[1..]);
      LowerBoundPartition(x[1..], v);
      if Lt(x[0], v) {
        forall k | 1 <= k < LowerBoundSpec(x, v) ensures Lt(x[k], v) { assert x[k] == x[1..][k - 1]; }
        forall k | LowerBoundSpec(x, v) <= k < |x| ensures !Lt(x[k], v) { assert x[k] == x[1..][k - 1]; }
      }
    }
  }

  /** The pair of views an `XYView` holds (`None`: the buffer was invalid). */
  datatype XYView = XYView(x: Option<ArrayView2D>, y: Option<ArrayView2D>)

  /** Two buffers of one series: `x` is one-dimensional, `y` has as many rows as `x` has
    * points. */
  predicate SeriesBuffers(x: Buffer, y: Buffer)
  {
    |x.shape| == 1 && |x.data| == x.shape[0] && |y.shape| >= 1 && y.shape[0] == x.shape[0] &&
    (y.valid && |y.shape| != 1 ==> |y.shape| >= 2)
  }

  /** `XYView(x, y, start, stop)`. */
  function XYViewByIndex(x: Buffer, y: Buffer, start: nat, stop: nat): (v: XYView)
    requires SeriesBuffers(x, y) && stop <= x.shape[0]
    ensures v.x.Some? <==> x.valid
    ensures v.x.Some? ==> v.x.value.start == start && v.x.value.stop == (if stop == 0 then x.shape[0] else stop)
  {
    XYView(BufferView(x, start, stop), BufferView(y, start, stop))
  }

  /** The rows `XYView(x, y, x_start, x_stop)` selects, as written: from `upper_bound(x_start)`
    * to `lower_bound(x_stop)`, except that a stop index of 0 makes `view` run to the end. */
  function WindowAsWritten(x: seq<Double>, xStart: Double, xStop: Double): (w: (nat, nat))
    ensures w.0 <= |x| && w.1 <= |x|
  {
    var start := UpperBoundSpec(x, xStart);
    var stop := LowerBoundSpec(x, xStop);
    (start, if stop == 0 then |x| else stop)
  }

  /** The rows the window is meant to select: exactly the points strictly between the bounds. */
  function Window(x: seq<Double>, xStart: Double, xStop: Double): (w: (nat, nat))
    ensures w.0 <= w.1 <= |x|
  {
    var start := UpperBoundSpec(x, xStart);
    var stop := LowerBoundSpec(x, xStop);
    (start, if stop < start then start else stop)
  }

  /** `XYView(x, y, x_start, x_stop)` with the window as corrected. */
  method XYViewByRange(x: Buffer, y: Buffer, xStart: Double, xStop: Double) returns (v: XYView)
    requires SeriesBuffers(x, y) && Sorted(x.data)
    ensures v.x.Some? <==> x.valid
    ensures v.x.Some? ==> (v.x.value.start, v.x.value.stop) == Window(x.data, xStart, xStop)
    ensures v.y.Some? ==> (v.y.value.start, v.y.value.stop) == Window(x.data, xStart, xStop)
    ensures v.y.Some? <==> y.valid
    ensures var w := Window(x.data, xStart, xStop);
      && (v.x.Some? ==> v.x.value == MakeView(x.data, x.shape[0], 0, w.0, w.1, x.rowMajor))
      && (v.y.Some? ==> v.y.value == MakeView(y.data, y.shape[0], if |y.shape| == 1 then 0 else y.shape[1], w.0, w.1, y.rowMajor))
  {
    var startIndex := UpperBound(x.data, xStart);
    var stopIndex := LowerBound(x.data, xStop);
    if stopIndex < startIndex {
      stopIndex := startIndex;
    }
    var xv := if x.valid then Some(MakeView(x.data, x.shape[0], 0, startIndex, stopIndex, x.rowMajor)) else None;
    var yv := if y.valid then Some(MakeView(y.data, y.shape[0], if |y.shape| == 1 then 0 else y.shape[1], startIndex, stopIndex, y.rowMajor)) else None;
    v := XYView(xv, yv);
  }

  /** `XYView::size()`: the number of rows in the x window. */
  function XYSize(v: XYView): nat
    requires v.x.Some?
  {
    FlatSize(v.x.value)
  }

  // ---- properties ----

  /** On sorted data the corrected window holds exactly the points strictly inside
    * `(x_start, x_stop)`. */
  lemma WindowSelectsInterior(x: seq<Double>, xStart: Double, xStop: Double, k: nat)
    requires Sorted(x) && k < |x|
    ensures Window(x, xStart, xStop).0 <= k < Window(x, xStart, xStop).1 <==>
              Lt(xStart, x[k]) && Lt(x[k], xStop)
  {
    UpperBoundPartition(x, xStart);
    LowerBoundPartition(x, xStop);
  }

  /** For an ordered, non-degenerate range the as-written window agrees with the corrected one
    * unless the lower bound index is 0. */
  lemma WindowAsWrittenAgrees(x: seq<Double>, a: real, b: real)
    requires Sorted(x) && a < b && LowerBoundSpec(x, Some(b)) != 0
    ensures WindowAsWritten(x, Some(a), Some(b)) == Window(x, Some(a), Some(b))
  {
    BoundsOrdered(x, a, b);
  }

  /** As written, a range that ends at or before the first sample selects the whole buffer:
    * for x = [1, 2, 3] and the range (-10, 0.5) the window is rows 0..3, though no point is
    * below 0.5; the corrected window is empty. */
  lemma WindowBeforeDataSelectsAll()
    ensures WindowAsWritten([Some(1.0), Some(2.0), Some(3.0)], Some(-10.0), Some(0.5)) == (0, 3)
    ensures Window([Some(1.0), Some(2.0), Some(3.0)], Some(-10.0), Some(0.5)) == (0, 0)
  {
    var x := [Some(1.0), Some(2.0), Some(3.0)];
    assert UpperBoundSpec(x, Some(-10.0)) == 0;
    assert LowerBoundSpec(x, Some(0.5)) == 0;
  }

  /** As written, a zero-width range on a sample puts the start after the stop and the
    * `size_t` row count wraps: for x = [1, 2, 3] and the range (2, 2) the x view has
    * 2^64 - 1 rows; the corrected window is empty. */
  lemma EmptyRangeWraps()
    ensures WindowAsWritten([Some(1.0), Some(2.0), Some(3.0)], Some(2.0), Some(2.0)) == (2, 1)
    ensures FlatSize(MakeView([Some(1.0), Some(2.0), Some(3.0)], 3, 0, 2, 1, true)) == SizeModulus - 1
    ensures Window([Some(1.0), Some(2.0), Some(3.0)], Some(2.0), Some(2.0)) == (2, 2)
  {
    var x := [Some(1.0), Some(2.0), Some(3.0)];
    assert x[1..] == [Some(2.0), Some(3.0)] && x[1..][1..] == [Some(3.0)];
    assert UpperBoundSpec(x[1..][1..], Some(2.0)) == 0;
    assert UpperBoundSpec(x, Some(2.0)) == 2;
    assert LowerBoundSpec(x[1..], Some(2.0)) == 0;
    assert LowerBoundSpec(x, Some(2.0)) == 1;
  }

  /** `flat_size` of a well-formed view is its row count times its column count. */
  lemma FlatSizeOfWellFormed(v: ArrayView2D)
    requires WellFormed(v) && |v.data| < SizeModulus
    ensures FlatSize(v) == (v.stop - v.start) * v.nCols
    ensures FlatSize(v) <= |v.data|
  {
    assert (v.stop - v.start) * v.nCols <= v.nRows * v.nCols by {
      MulMonotone(v.stop - v.start, v.nRows, v.nCols);
    }
  }
}
