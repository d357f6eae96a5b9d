/** `ColormapResampler` of `SciQLopColorMapResampler.cpp`: a spectrogram window is averaged onto
  * an `n_x` by `n_y` grid of `QCPColorMapData` cells. `_x_loop` walks the source columns and
  * `_y_loop` the source rows of one column; every `_average_value` adds one z value to one cell
  * and bumps that cell's 16-bit count, and `_divide` turns every sum into a mean. The loops are
  * proved to perform exactly the writes listed by the pure functions `XLoopWrites` and
  * `YLoopWrites`, about which the grid properties are proved. */
module ColorMapResampler {
  import opened Common
  import opened ArrayViews
  import opened Views
  import opened Resampling

  /** The counts are `uint16_t`. */
  const CountModulus: nat := 0x1_0000

  // ---- the spectrogram window ----

  /** `std::size(view)`: the rows of the x window. */
  function Size(v: XYZView): nat
    requires Valid(v)
  {
    v.x.stop - v.x.start
  }

  /** A window the loops read inside: z has a row per x, a 2-D y has a row per x, and y has at
    * least as many columns as z (the loops read `y(i, j)` for every column `j` of z). */
  predicate Spectrogram(v: XYZView)
  {
    Valid(v) && ZShape(v).0 == Size(v) && (v.yIs2d ==> YShape(v).0 == Size(v)) &&
    ZShape(v).1 <= YShape(v).1
  }

  function XAt(v: XYZView, i: nat): Double
    requires Spectrogram(v) && i < Size(v)
  {
    At(v.x, i, 0)
  }

  /** `view.y(i, j)`: row `i` of a 2-D y, the single row of a 1-D y. */
  function YAt(v: XYZView, i: nat, j: nat): Double
    requires Spectrogram(v) && i < Size(v) && j < ZShape(v).1
  {
    Y(v, if v.yIs2d then i else 0, j)
  }

  function ZAt(v: XYZView, i: nat, j: nat): Double
    requires Spectrogram(v) && i < Size(v) && j < ZShape(v).1
  {
    At(v.z, i, j)
  }

  // ---- the grid ----

  /** The cells and the counts of an `n_x` by `n_y` grid. */
  function GridSize(nx: nat, ny: nat): nat
  {
    Times(nx, ny)
  }

  /** `unsafe_cell(key, value)` reads `mData[value * key_size + key]`. */
  function CellIndex(i: nat, j: nat, nx: nat): nat
  {
    Times(j, nx) + i
  }

  /** `avg_count[x * n_y + y]`. */
  function CountIndex(i: nat, j: nat, ny: nat): nat
  {
    Times(i, ny) + j
  }

  lemma CellIndexInGrid(i: nat, j: nat, nx: nat, ny: nat)
    requires i < nx && j < ny
    ensures CellIndex(i, j, nx) < GridSize(nx, ny) && CountIndex(i, j, ny) < GridSize(nx, ny)
  {
    TimesMonotone(j + 1, ny, nx);
    TimesMonotone(i + 1, nx, ny);
    TimesCommutes(ny, nx);
  }

  /** Distinct cells of the grid have distinct cell positions and distinct count positions. */
  lemma CellIndexInjective(i1: nat, j1: nat, i2: nat, j2: nat, nx: nat, ny: nat)
    requires i1 < nx && i2 < nx && j1 < ny && j2 < ny
    ensures CellIndex(i1, j1, nx) == CellIndex(i2, j2, nx) ==> i1 == i2 && j1 == j2
    ensures CountIndex(i1, j1, ny) == CountIndex(i2, j2, ny) ==> i1 == i2 && j1 == j2
  {
    if j1 < j2 { TimesMonotone(j1 + 1, j2, nx); }
    if j2 < j1 { TimesMonotone(j2 + 1, j1, nx); }
    if i1 < i2 { TimesMonotone(i1 + 1, i2, ny); }
    if i2 < i1 { TimesMonotone(i2 + 1, i1, ny); }
  }

  /** One `_average_value`: `z` is added to the cell `(xd, yd)` and its count bumped. */
  datatype Write = Write(xd: nat, yd: nat, z: Double)

  predicate InGrid(ws: seq<Write>, nx: nat, ny: nat)
  {
    forall k :: 0 <= k < |ws| ==> ws[k].xd < nx && ws[k].yd < ny
  }

  function AddCell(cells: seq<Double>, nx: nat, ny: nat, w: Write): (r: seq<Double>)
    requires |cells| == GridSize(nx, ny) && w.xd < nx && w.yd < ny
    ensures |r| == |cells|
  {
    CellIndexInGrid(w.xd, w.yd, nx, ny);
    var p := CellIndex(w.xd, w.yd, nx);
    cells[p := Add(cells[p], w.z)]
  }

  /** `avg_count[...] += 1` on a `uint16_t`. */
  function BumpCount(counts: seq<nat>, nx: nat, ny: nat, w: Write): (r: seq<nat>)
    requires |counts| == GridSize(nx, ny) && w.xd < nx && w.yd < ny
    ensures |r| == |counts|
  {
    CellIndexInGrid(w.xd, w.yd, nx, ny);
    var p := CountIndex(w.xd, w.yd, ny);
    counts[p := (counts[p] + 1) % CountModulus]
  }

  /** The cells after the writes `ws`, in order. */
  function CellsAfter(cells: seq<Double>, nx: nat, ny: nat, ws: seq<Write>): (r: seq<Double>)
    requires |cells| == GridSize(nx, ny) && InGrid(ws, nx, ny)
    ensures |r| == |cells|
    decreases |ws|
  {
    if ws == [] then cells
    else AddCell(CellsAfter(cells, nx, ny, ws[..|ws| - 1]), nx, ny, ws[|ws| - 1])
  }

  /** The counts after the writes `ws`, in order. */
  function CountsAfter(counts: seq<nat>, nx: nat, ny: nat, ws: seq<Write>): (r: seq<nat>)
    requires |counts| == GridSize(nx, ny) && InGrid(ws, nx, ny)
    ensures |r| == |counts|
    decreases |ws|
  {
    if ws == [] then counts
    else BumpCount(CountsAfter(counts, nx, ny, ws[..|ws| - 1]), nx, ny, ws[|ws| - 1])
  }

  /** The z values written to cell `(i, j)`, in order. */
  function WritesTo(ws: seq<Write>, i: nat, j: nat): seq<Double>
    decreases |ws|
  {
    if ws == [] then []
    else WritesTo(ws[..|ws| - 1], i, j) +
         (if ws[|ws| - 1].xd == i && ws[|ws| - 1].yd == j then [ws[|ws| - 1].z] else [])
  }

  /** `init + z0 + z1 + ...`, left to right. */
  function SumFrom(init: Double, zs: seq<Double>): Double
    decreases |zs|
  {
    if zs == [] then init else Add(SumFrom(init, zs[..|zs| - 1]), zs[|zs| - 1])
  }

  /** The sum is NaN as soon as one term is: a NaN z value poisons its cell. */
  lemma {:induction false} SumFromNaN(init: Double, zs: seq<Double>)
    ensures IsNaN(SumFrom(init, zs)) <==> IsNaN(init) || exists k :: 0 <= k < |zs| && IsNaN(zs[k])
    decreases |zs|
  {
    if zs != [] {
      var front := zs[..|zs| - 1];
      SumFromNaN(init, front);
      if exists k :: 0 <= k < |zs| && IsNaN(zs[k]) {
        var k :| 0 <= k < |zs| && IsNaN(zs[k]);
        if k < |front| { assert front[k] == zs[k]; }
      }
      if exists k :: 0 <= k < |front| && IsNaN(front[k]) {
        var k :| 0 <= k < |front| && IsNaN(front[k]);
        assert zs[k] == front[k];
      }
    }
  }

  /** Each cell after the writes holds its initial value plus the z values written to it. */
  lemma {:induction false} CellsAfterSums(cells: seq<Double>, nx: nat, ny: nat, ws: seq<Write>, i: nat, j: nat)
    requires |cells| == GridSize(nx, ny) && InGrid(ws, nx, ny) && i < nx && j < ny
    ensures CellIndex(i, j, nx) < GridSize(nx, ny)
    ensures CellsAfter(cells, nx, ny, ws)[CellIndex(i, j, nx)] ==
            SumFrom(cells[CellIndex(i, j, nx)], WritesTo(ws, i, j))
    decreases |ws|
  {
    CellIndexInGrid(i, j, nx, ny);
    if ws != [] {
      var front := ws[..|ws| - 1];
      var w := ws[|ws| - 1];
      assert InGrid(front, nx, ny);
      CellsAfterSums(cells, nx, ny, front, i, j);
      CellIndexInjective(i, j, w.xd, w.yd, nx, ny);
      var zs := WritesTo(ws, i, j);
      if w.xd == i && w.yd == j {
        assert zs[..|zs| - 1] == WritesTo(front, i, j);
      } else {
        assert zs == WritesTo(front, i, j);
      }
    }
  }

  /** Each count after the writes is its initial value plus the number of writes to its cell,
    * modulo 2^16. */
  lemma {:induction false} CountsAfterCounts(counts: seq<nat>, nx: nat, ny: nat, ws: seq<Write>, i: nat, j: nat)
    requires |counts| == GridSize(nx, ny) && InGrid(ws, nx, ny) && i < nx && j < ny
    requires forall p :: 0 <= p < |counts| ==> counts[p] < CountModulus
    ensures CountIndex(i, j, ny) < GridSize(nx, ny)
    ensures CountsAfter(counts, nx, ny, ws)[CountIndex(i, j, ny)] ==
            (counts[CountIndex(i, j, ny)] + |WritesTo(ws, i, j)|) % CountModulus
    decreases |ws|
  {
    CellIndexInGrid(i, j, nx, ny);
    if ws != [] {
      var front := ws[..|ws| - 1];
      var w := ws[|ws| - 1];
      assert InGrid(front, nx, ny);
      CountsAfterCounts(counts, nx, ny, front, i, j);
      CellIndexInjective(i, j, w.xd, w.yd, nx, ny);
      var c := counts[CountIndex(i, j, ny)] + |WritesTo(front, i, j)|;
      if w.xd == i && w.yd == j {
        assert |WritesTo(ws, i, j)| == |WritesTo(front, i, j)| + 1;
        ModSucc(c);
      } else {
        assert WritesTo(ws, i, j) == WritesTo(front, i, j);
      }
    }
  }

  lemma ModSucc(c: nat)
    ensures (c % CountModulus + 1) % CountModulus == (c + 1) % CountModulus
  {
  }

  lemma CellsAfterAppend(cells: seq<Double>, counts: seq<nat>, nx: nat, ny: nat, ws: seq<Write>, w: Write)
    requires |cells| == GridSize(nx, ny) && |counts| == GridSize(nx, ny) && InGrid(ws, nx, ny) && w.xd < nx && w.yd < ny
    ensures InGrid(ws + [w], nx, ny)
    ensures CellsAfter(cells, nx, ny, ws + [w]) == AddCell(CellsAfter(cells, nx, ny, ws), nx, ny, w)
    ensures CountsAfter(counts, nx, ny, ws + [w]) == BumpCount(CountsAfter(counts, nx, ny, ws), nx, ny, w)
  {
    assert (ws + [w])[..|ws|] == ws;
  }

  /** Writing `a` then `b` is writing `a + b`. */
  lemma {:induction false} CellsAfterConcat(cells: seq<Double>, counts: seq<nat>, nx: nat, ny: nat,
                                            a: seq<Write>, b: seq<Write>)
    requires |cells| == GridSize(nx, ny) && |counts| == GridSize(nx, ny) && InGrid(a, nx, ny) && InGrid(b, nx, ny)
    ensures InGrid(a + b, nx, ny)
    ensures CellsAfter(cells, nx, ny, a + b) == CellsAfter(CellsAfter(cells, nx, ny, a), nx, ny, b)
    ensures CountsAfter(counts, nx, ny, a + b) == CountsAfter(CountsAfter(counts, nx, ny, a), nx, ny, b)
    decreases |b|
  {
    if b != [] {
      var front := b[..|b| - 1];
      assert InGrid(front, nx, ny);
      CellsAfterConcat(cells, counts, nx, ny, a, front);
      assert (a + b)[..|a + b| - 1] == a + front;
    } else {
      assert a + b == a;
    }
  }

  /** The samples the loops read: `x(i)`, and `y(i, j)` and `z(i, j)` for every z column `j`, of
    * every source column `i`. */
  datatype Samples = Samples(x: seq<Double>, y: seq<seq<Double>>, z: seq<seq<Double>>, nz: nat)

  predicate WellShaped(s: Samples)
  {
    |s.y| == |s.x| && |s.z| == |s.x| && forall i :: 0 <= i < |s.x| ==> |s.y[i]| == s.nz && |s.z[i]| == s.nz
  }

  /** The samples of a window, as the view's accessors read them. */
  function SamplesOf(v: XYZView): (s: Samples)
    requires Spectrogram(v)
    ensures WellShaped(s) && |s.x| == Size(v) && s.nz == ZShape(v).1
  {
    var n, nz := Size(v), ZShape(v).1;
    Samples(seq(n, i requires 0 <= i < n => XAt(v, i)),
            seq(n, i requires 0 <= i < n => seq(nz, j requires 0 <= j < nz => YAt(v, i, j))),
            seq(n, i requires 0 <= i < n => seq(nz, j requires 0 <= j < nz => ZAt(v, i, j))),
            nz)
  }

  /** The samples are the view's `x(i)`, `y(i, j)` and `z(i, j)`. */
  lemma SamplesOfView(v: XYZView)
    requires Spectrogram(v)
    ensures var s := SamplesOf(v);
      && (forall i :: 0 <= i < |s.x| ==> s.x[i] == XAt(v, i))
      && (forall i, j :: 0 <= i < |s.x| && 0 <= j < s.nz ==> s.y[i][j] == YAt(v, i, j) && s.z[i][j] == ZAt(v, i, j))
  {
  }

  // ---- the writes of `_y_loop` and `_x_loop` ----

  /** The y destination indices of `ws` never decrease. */
  predicate RowsOrdered(ws: seq<Write>)
  {
    forall a, b :: 0 <= a < b < |ws| ==> ws[a].yd <= ws[b].yd
  }

  /** The x destination indices of `ws` never decrease. */
  predicate ColumnsOrdered(ws: seq<Write>)
  {
    forall a, b :: 0 <= a < b < |ws| ==> ws[a].xd <= ws[b].xd
  }

  /** The inner `while` of `_y_loop` for source row `ys`, from destination row `yd`: it moves up
    * while `y(x, ys)` lies above `y_axis[yd]`, adding the z value of the previous source row to
    * every row it passes, except for the first and the last source row. The writes, and the
    * destination row it stops at. */
  function YAdvance(s: Samples, yAxis: seq<Double>, xs: nat, xd: nat, ys: nat, yd: nat): (r: (seq<Write>, nat))
    requires WellShaped(s) && xs < |s.x| && ys < s.nz && yd < |yAxis|
    ensures yd <= r.1 < |yAxis|
    decreases |yAxis| - yd
  {
    if yd < |yAxis| - 1 && Lt(yAxis[yd], s.y[xs][ys]) then
      var w := if ys > 0 && ys != s.nz - 1 then [Write(xd, yd, s.z[xs][ys - 1])] else [];
      var rest := YAdvance(s, yAxis, xs, xd, ys, yd + 1);
      (w + rest.0, rest.1)
    else ([], yd)
  }

  /** `_y_loop` from source row `ys` and destination row `yd`: each source row ends with its z
    * value added to the destination row the advance stopped at. */
  function YSweep(s: Samples, yAxis: seq<Double>, xs: nat, xd: nat, ys: nat, yd: nat): (ws: seq<Write>)
    requires WellShaped(s) && xs < |s.x| && ys <= s.nz && yd < |yAxis|
    decreases s.nz - ys
  {
    if ys == s.nz then []
    else
      var a := YAdvance(s, yAxis, xs, xd, ys, yd);
      var rest := YSweep(s, yAxis, xs, xd, ys + 1, a.1);
      a.0 + [Write(xd, a.1, s.z[xs][ys])] + rest
  }

  /** The advance writes column `xd`, at the rows from `yd` up to the one it stops at, excluded,
    * bottom to top. */
  lemma {:induction false} YAdvanceProperties(s: Samples, yAxis: seq<Double>, xs: nat, xd: nat, ys: nat, yd: nat)
    requires WellShaped(s) && xs < |s.x| && ys < s.nz && yd < |yAxis|
    ensures var r := YAdvance(s, yAxis, xs, xd, ys, yd);
      && (forall k :: 0 <= k < |r.0| ==> r.0[k].xd == xd && yd <= r.0[k].yd < r.1)
      && RowsOrdered(r.0)
    decreases |yAxis| - yd
  {
    if yd < |yAxis| - 1 && Lt(yAxis[yd], s.y[xs][ys]) {
      var w := if ys > 0 && ys != s.nz - 1 then [Write(xd, yd, s.z[xs][ys - 1])] else [];
      YAdvanceProperties(s, yAxis, xs, xd, ys, yd + 1);
      var rest := YAdvance(s, yAxis, xs, xd, ys, yd + 1);
      assert YAdvance(s, yAxis, xs, xd, ys, yd) == (w + rest.0, rest.1);
      RowsOrderedConcat(w, rest.0, yd);
    }
  }

  /** The sweep writes column `xd`, at rows from `yd` on, bottom to top. */
  lemma {:induction false} YSweepProperties(s: Samples, yAxis: seq<Double>, xs: nat, xd: nat, ys: nat, yd: nat)
    requires WellShaped(s) && xs < |s.x| && ys <= s.nz && yd < |yAxis|
    ensures var ws := YSweep(s, yAxis, xs, xd, ys, yd);
      && (forall k :: 0 <= k < |ws| ==> ws[k].xd == xd && yd <= ws[k].yd < |yAxis|)
      && RowsOrdered(ws)
    decreases s.nz - ys
  {
    if ys < s.nz {
      var a := YAdvance(s, yAxis, xs, xd, ys, yd);
      YAdvanceProperties(s, yAxis, xs, xd, ys, yd);
      var rest := YSweep(s, yAxis, xs, xd, ys + 1, a.1);
      YSweepProperties(s, yAxis, xs, xd, ys + 1, a.1);
      var w := [Write(xd, a.1, s.z[xs][ys])];
      RowsOrderedConcat(a.0, w, a.1);
      RowsOrderedConcat(a.0 + w, rest, a.1);
      assert YSweep(s, yAxis, xs, xd, ys, yd) == a.0 + w + rest;
    }
  }

  /** Writes at rows up to `m` followed by writes at rows from `m` on, each in row order, are in
    * row order. */
  lemma RowsOrderedConcat(a: seq<Write>, b: seq<Write>, m: nat)
    requires RowsOrdered(a) && RowsOrdered(b)
    requires forall k :: 0 <= k < |a| ==> a[k].yd <= m
    requires forall k :: 0 <= k < |b| ==> m <= b[k].yd
    ensures RowsOrdered(a + b)
  {
    forall i, j | 0 <= i < j < |a + b| ensures (a + b)[i].yd <= (a + b)[j].yd {
      if j < |a| {
        assert (a + b)[i] == a[i] && (a + b)[j] == a[j];
      } else if i >= |a| {
        assert (a + b)[i] == b[i - |a|] && (a + b)[j] == b[j - |a|];
      } else {
        assert (a + b)[i] == a[i] && (a + b)[j] == b[j - |a|];
      }
    }
  }

  /** One source row of the sweep: its advance, then its own write. */
  lemma YSweepUnfold(s: Samples, yAxis: seq<Double>, xs: nat, xd: nat, ys: nat, yd: nat)
    requires WellShaped(s) && xs < |s.x| && ys < s.nz && yd < |yAxis|
    ensures var a := YAdvance(s, yAxis, xs, xd, ys, yd);
      YSweep(s, yAxis, xs, xd, ys, yd)
        == a.0 + [Write(xd, a.1, s.z[xs][ys])] + YSweep(s, yAxis, xs, xd, ys + 1, a.1)
  {
  }

  /** The writes of `_y_loop(view, data, y_axis, avg_count, xs, xd)`. */
  function YLoopWrites(s: Samples, yAxis: seq<Double>, xs: nat, xd: nat): (ws: seq<Write>)
    requires WellShaped(s) && xs < |s.x| && |yAxis| >= 1
  {
    YSweep(s, yAxis, xs, xd, 0, 0)
  }

  /** `_y_loop` writes one destination column, inside the y axis, moving up the rows; and every
    * source row's z value is written at least once. */
  lemma YLoopWritesProperties(s: Samples, yAxis: seq<Double>, xs: nat, xd: nat)
    requires WellShaped(s) && xs < |s.x| && |yAxis| >= 1
    ensures var ws := YLoopWrites(s, yAxis, xs, xd);
      && (forall k :: 0 <= k < |ws| ==> ws[k].xd == xd && ws[k].yd < |yAxis|)
      && RowsOrdered(ws)
      && |ws| >= s.nz
  {
    YSweepLength(s, yAxis, xs, xd, 0, 0);
    YSweepProperties(s, yAxis, xs, xd, 0, 0);
  }

  lemma {:induction false} YSweepLength(s: Samples, yAxis: seq<Double>, xs: nat, xd: nat, ys: nat, yd: nat)
    requires WellShaped(s) && xs < |s.x| && ys <= s.nz && yd < |yAxis|
    ensures |YSweep(s, yAxis, xs, xd, ys, yd)| >= s.nz - ys
    decreases s.nz - ys
  {
    if ys < s.nz {
      YSweepLength(s, yAxis, xs, xd, ys + 1, YAdvance(s, yAxis, xs, xd, ys, yd).1);
    }
  }

  /** `_x_loop`'s data-gap criterion: a skipped destination column is filled from this source
    * column when neither the step before nor the step after grew by half or more, or when the
    * step is zero. */
  predicate FillsGap(dx: Double, nextDx: Double, prevDx: Double)
  {
    (Lt(nextDx, Mul(D(1.5), dx)) && Lt(dx, Mul(D(1.5), prevDx))) || Eq(dx, D(0.0))
  }

  /** The inner `while` of `_x_loop` for source column `xs` with step `dx`, from destination
    * column `xd`: it moves right while `x(xs)` lies past `x_axis[xd]`, running `_y_loop` into
    * every column it passes when the source column is not the last and does not follow a gap. */
  function XAdvance(s: Samples, xAxis: seq<Double>, yAxis: seq<Double>, xs: nat, xd: nat,
                    dx: Double, prevDx: Double): (r: (seq<Write>, nat))
    requires WellShaped(s) && xs < |s.x| && xd < |xAxis| && |yAxis| >= 1
    ensures xd <= r.1 < |xAxis|
    decreases |xAxis| - xd
  {
    if xd < |xAxis| - 1 && Lt(xAxis[xd], s.x[xs]) then
      var w := ColumnWrites(s, yAxis, xs, xd, dx, prevDx);
      var rest := XAdvance(s, xAxis, yAxis, xs, xd + 1, dx, prevDx);
      (w + rest.0, rest.1)
    else ([], xd)
  }

  /** The advance writes the destination columns from `xd` up to the one it stops at, excluded,
    * left to right, inside the y axis. */
  lemma {:induction false} XAdvanceProperties(s: Samples, xAxis: seq<Double>, yAxis: seq<Double>, xs: nat, xd: nat,
                                              dx: Double, prevDx: Double)
    requires WellShaped(s) && xs < |s.x| && xd < |xAxis| && |yAxis| >= 1
    ensures var r := XAdvance(s, xAxis, yAxis, xs, xd, dx, prevDx);
      && (forall k :: 0 <= k < |r.0| ==> xd <= r.0[k].xd < r.1 && r.0[k].yd < |yAxis|)
      && ColumnsOrdered(r.0)
    decreases |xAxis| - xd
  {
    if xd < |xAxis| - 1 && Lt(xAxis[xd], s.x[xs]) {
      var w := ColumnWrites(s, yAxis, xs, xd, dx, prevDx);
      YLoopWritesProperties(s, yAxis, xs, xd);
      assert forall k :: 0 <= k < |w| ==> w[k].xd == xd && w[k].yd < |yAxis|;
      XAdvanceProperties(s, xAxis, yAxis, xs, xd + 1, dx, prevDx);
      var rest := XAdvance(s, xAxis, yAxis, xs, xd + 1, dx, prevDx);
      XAdvanceUnfold(s, xAxis, yAxis, xs, xd, dx, prevDx);
      OrderedConcat(w, rest.0, xd);
    }
  }

  /** Writes at columns up to `m` followed by writes at columns from `m` on, each in column
    * order, are in column order. */
  lemma OrderedConcat(a: seq<Write>, b: seq<Write>, m: nat)
    requires ColumnsOrdered(a) && ColumnsOrdered(b)
    requires forall k :: 0 <= k < |a| ==> a[k].xd <= m
    requires forall k :: 0 <= k < |b| ==> m <= b[k].xd
    ensures ColumnsOrdered(a + b)
  {
    forall i, j | 0 <= i < j < |a + b| ensures (a + b)[i].xd <= (a + b)[j].xd {
      if j < |a| {
        assert (a + b)[i] == a[i] && (a + b)[j] == a[j];
      } else if i >= |a| {
        assert (a + b)[i] == b[i - |a|] && (a + b)[j] == b[j - |a|];
      } else {
        assert (a + b)[i] == a[i] && (a + b)[j] == b[j - |a|];
      }
    }
  }

  /** One step of the advance: the source column is spread over `xd` when it fills a gap. */
  lemma XAdvanceUnfold(s: Samples, xAxis: seq<Double>, yAxis: seq<Double>, xs: nat, xd: nat,
                       dx: Double, prevDx: Double)
    requires WellShaped(s) && xs < |s.x| && xd < |xAxis| - 1 && |yAxis| >= 1 && Lt(xAxis[xd], s.x[xs])
    ensures var rest := XAdvance(s, xAxis, yAxis, xs, xd + 1, dx, prevDx);
      XAdvance(s, xAxis, yAxis, xs, xd, dx, prevDx)
        == (ColumnWrites(s, yAxis, xs, xd, dx, prevDx) + rest.0, rest.1)
  {
  }

  /** What the advance spreads over destination column `xd`: the whole y loop of source column
    * `xs` when the next x step fills a gap, nothing otherwise. */
  function ColumnWrites(s: Samples, yAxis: seq<Double>, xs: nat, xd: nat, dx: Double, prevDx: Double): seq<Write>
    requires WellShaped(s) && xs < |s.x| && |yAxis| >= 1
  {
    if xs < |s.x| - 1 && FillsGap(dx, Sub(s.x[xs + 1], s.x[xs]), prevDx)
    then YLoopWrites(s, yAxis, xs, xd) else []
  }

  /** `_x_loop` from source column `xs` and destination column `xd`, with the previous x value
    * and step. */
  function XSweep(s: Samples, xAxis: seq<Double>, yAxis: seq<Double>, xs: nat, xd: nat,
                  prevX: Double, prevDx: Double): (ws: seq<Write>)
    requires WellShaped(s) && xs <= |s.x| && xd < |xAxis| && |yAxis| >= 1
    decreases |s.x| - xs
  {
    if xs == |s.x| then []
    else
      var xv := s.x[xs];
      var dx := Sub(xv, prevX);
      var a := XAdvance(s, xAxis, yAxis, xs, xd, dx, prevDx);
      var col := YLoopWrites(s, yAxis, xs, a.1);
      var rest := XSweep(s, xAxis, yAxis, xs + 1, a.1, xv, dx);
      a.0 + col + rest
  }

  /** The sweep writes destination columns from `xd` on, left to right, inside the grid. */
  lemma {:induction false} XSweepProperties(s: Samples, xAxis: seq<Double>, yAxis: seq<Double>, xs: nat, xd: nat,
                                            prevX: Double, prevDx: Double)
    requires WellShaped(s) && xs <= |s.x| && xd < |xAxis| && |yAxis| >= 1
    ensures var ws := XSweep(s, xAxis, yAxis, xs, xd, prevX, prevDx);
      && (forall k :: 0 <= k < |ws| ==> xd <= ws[k].xd < |xAxis| && ws[k].yd < |yAxis|)
      && ColumnsOrdered(ws)
    decreases |s.x| - xs
  {
    if xs < |s.x| {
      var xv := s.x[xs];
      var dx := Sub(xv, prevX);
      var a := XAdvance(s, xAxis, yAxis, xs, xd, dx, prevDx);
      XAdvanceProperties(s, xAxis, yAxis, xs, xd, dx, prevDx);
      var col := YLoopWrites(s, yAxis, xs, a.1);
      YLoopWritesProperties(s, yAxis, xs, a.1);
      var rest := XSweep(s, xAxis, yAxis, xs + 1, a.1, xv, dx);
      XSweepProperties(s, xAxis, yAxis, xs + 1, a.1, xv, dx);
      assert forall k :: 0 <= k < |col| ==> col[k].xd == a.1;
      assert ColumnsOrdered(col) by {
        forall i, j | 0 <= i < j < |col| ensures col[i].xd <= col[j].xd { }
      }
      OrderedConcat(a.0, col, a.1);
      OrderedConcat(a.0 + col, rest, a.1);
      assert XSweep(s, xAxis, yAxis, xs, xd, prevX, prevDx) == a.0 + col + rest;
    }
  }

  /** The writes of `_x_loop(view, data, x_axis, y_axis, avg_count)`: the first step is
    * `x(1) - x(0)` and the loop starts as if one such step preceded `x(0)`. */
  function XLoopWrites(s: Samples, xAxis: seq<Double>, yAxis: seq<Double>): seq<Write>
    requires WellShaped(s) && |s.x| >= 2 && |xAxis| >= 1 && |yAxis| >= 1
  {
    var x0 := s.x[0];
    var dx := Sub(s.x[1], x0);
    XSweep(s, xAxis, yAxis, 0, 0, Sub(x0, dx), dx)
  }

  /** Every write of `_x_loop` lands inside the `n_x` by `n_y` grid, with the destination column
    * moving only rightwards; every source column is swept at least once, so the loop writes at
    * least one value per z element. */
  lemma XLoopWritesProperties(s: Samples, xAxis: seq<Double>, yAxis: seq<Double>)
    requires WellShaped(s) && |s.x| >= 2 && |xAxis| >= 1 && |yAxis| >= 1
    ensures InGrid(XLoopWrites(s, xAxis, yAxis), |xAxis|, |yAxis|)
    ensures ColumnsOrdered(XLoopWrites(s, xAxis, yAxis))
    ensures |XLoopWrites(s, xAxis, yAxis)| >= Times(|s.x|, s.nz)
  {
    var x0 := s.x[0];
    var dx := Sub(s.x[1], x0);
    XSweepLength(s, xAxis, yAxis, 0, 0, Sub(x0, dx), dx);
    XSweepProperties(s, xAxis, yAxis, 0, 0, Sub(x0, dx), dx);
  }

  lemma {:induction false} XSweepLength(s: Samples, xAxis: seq<Double>, yAxis: seq<Double>, xs: nat, xd: nat,
                                        prevX: Double, prevDx: Double)
    requires WellShaped(s) && xs <= |s.x| && xd < |xAxis| && |yAxis| >= 1
    ensures |XSweep(s, xAxis, yAxis, xs, xd, prevX, prevDx)| >= Times(|s.x| - xs, s.nz)
    decreases |s.x| - xs
  {
    if xs < |s.x| {
      var xv := s.x[xs];
      var dx := Sub(xv, prevX);
      var a := XAdvance(s, xAxis, yAxis, xs, xd, dx, prevDx);
      YLoopWritesProperties(s, yAxis, xs, a.1);
      XSweepLength(s, xAxis, yAxis, xs + 1, a.1, xv, dx);
    }
  }

  // ---- the loops over the grid ----

  /** `_average_value(view, data, avg_count, xs, xd, ys, yd, n_y)`. */
  method AverageValue(s: Samples, cells: array<Double>, counts: array<nat>,
                      xs: nat, xd: nat, ys: nat, yd: nat, nx: nat, ny: nat)
    requires WellShaped(s) && xs < |s.x| && ys < s.nz && xd < nx && yd < ny
    requires cells.Length == GridSize(nx, ny) && counts.Length == GridSize(nx, ny)
    modifies cells, counts
    ensures cells[..] == AddCell(old(cells[..]), nx, ny, Write(xd, yd, s.z[xs][ys]))
    ensures counts[..] == BumpCount(old(counts[..]), nx, ny, Write(xd, yd, s.z[xs][ys]))
  {
    CellIndexInGrid(xd, yd, nx, ny);
    var z := s.z[xs][ys];
    var p := CellIndex(xd, yd, nx);
    cells[p] := Add(cells[p], z);
    var q := CountIndex(xd, yd, ny);
    counts[q] := (counts[q] + 1) % CountModulus;
  }

  /** The cells and counts after the writes `ws` from `cells0` and `counts0`. */
  predicate Applied(cells: seq<Double>, counts: seq<nat>, cells0: seq<Double>, counts0: seq<nat>,
                    nx: nat, ny: nat, ws: seq<Write>)
    requires |cells0| == GridSize(nx, ny) && |counts0| == GridSize(nx, ny)
  {
    InGrid(ws, nx, ny) && cells == CellsAfter(cells0, nx, ny, ws) && counts == CountsAfter(counts0, nx, ny, ws)
  }

  lemma ConcatAssoc<T>(a: seq<T>, b: seq<T>, c: seq<T>)
    ensures (a + b) + c == a + (b + c)
  {
  }

  lemma EmptyConcat<T>(a: seq<T>)
    ensures a + [] == a && [] + a == a
  {
  }

  /** One more `_average_value` extends the writes applied so far by one. */
  lemma AppliedStep(cells: seq<Double>, counts: seq<nat>, cells1: seq<Double>, counts1: seq<nat>,
                    cells0: seq<Double>, counts0: seq<nat>, nx: nat, ny: nat, done: seq<Write>, w: Write)
    requires |cells0| == GridSize(nx, ny) && |counts0| == GridSize(nx, ny) && w.xd < nx && w.yd < ny
    requires Applied(cells, counts, cells0, counts0, nx, ny, done)
    requires cells1 == AddCell(cells, nx, ny, w) && counts1 == BumpCount(counts, nx, ny, w)
    ensures Applied(cells1, counts1, cells0, counts0, nx, ny, done + [w])
  {
    CellsAfterAppend(cells0, counts0, nx, ny, done, w);
  }

  /** Applying `more` after `done` is applying `done + more`. */
  lemma AppliedConcat(cells: seq<Double>, counts: seq<nat>, cells1: seq<Double>, counts1: seq<nat>,
                      cells0: seq<Double>, counts0: seq<nat>, nx: nat, ny: nat, done: seq<Write>, more: seq<Write>)
    requires |cells0| == GridSize(nx, ny) && |counts0| == GridSize(nx, ny)
    requires Applied(cells, counts, cells0, counts0, nx, ny, done)
    requires |cells| == GridSize(nx, ny) && |counts| == GridSize(nx, ny)
    requires Applied(cells1, counts1, cells, counts, nx, ny, more)
    ensures Applied(cells1, counts1, cells0, counts0, nx, ny, done + more)
  {
    CellsAfterConcat(cells0, counts0, nx, ny, done, more);
  }

  /** The inner `while` of `_y_loop`: it returns the destination row it stops at. */
  method YAdvanceLoop(s: Samples, cells: array<Double>, yAxis: seq<Double>, counts: array<nat>,
                      xs: nat, xd: nat, nx: nat, ys: nat, yd0: nat) returns (yd: nat)
    requires WellShaped(s) && xs < |s.x| && ys < s.nz && xd < nx && yd0 < |yAxis|
    requires cells.Length == GridSize(nx, |yAxis|) && counts.Length == GridSize(nx, |yAxis|)
    modifies cells, counts
    ensures yd == YAdvance(s, yAxis, xs, xd, ys, yd0).1
    ensures Applied(cells[..], counts[..], old(cells[..]), old(counts[..]), nx, |yAxis|,
                    YAdvance(s, yAxis, xs, xd, ys, yd0).0)
  {
    var ny := |yAxis|;
    ghost var cells0, counts0 := cells[..], counts[..];
    ghost var adv := YAdvance(s, yAxis, xs, xd, ys, yd0);
    ghost var done: seq<Write> := [];
    var yv := s.y[xs][ys];
    yd := yd0;
    while yd < ny - 1 && Lt(yAxis[yd], yv)
      invariant yd0 <= yd < ny
      invariant done + YAdvance(s, yAxis, xs, xd, ys, yd).0 == adv.0
      invariant YAdvance(s, yAxis, xs, xd, ys, yd).1 == adv.1
      invariant Applied(cells[..], counts[..], cells0, counts0, nx, ny, done)
      decreases ny - yd
    {
      ghost var rest := YAdvance(s, yAxis, xs, xd, ys, yd + 1);
      if ys > 0 && ys != s.nz - 1 {
        ghost var w := Write(xd, yd, s.z[xs][ys - 1]);
        ghost var c, n := cells[..], counts[..];
        AverageValue(s, cells, counts, xs, xd, ys - 1, yd, nx, ny);
        AppliedStep(c, n, cells[..], counts[..], cells0, counts0, nx, ny, done, w);
        ConcatAssoc(done, [w], rest.0);
        done := done + [w];
      }
      yd := yd + 1;
    }
    assert done == adv.0;
  }

  /** `_y_loop(view, data, y_axis, avg_count, xs, xd)`. */
  method YLoop(s: Samples, cells: array<Double>, yAxis: seq<Double>, counts: array<nat>,
               xs: nat, xd: nat, nx: nat)
    requires WellShaped(s) && xs < |s.x| && xd < nx && |yAxis| >= 1
    requires cells.Length == GridSize(nx, |yAxis|) && counts.Length == GridSize(nx, |yAxis|)
    modifies cells, counts
    ensures Applied(cells[..], counts[..], old(cells[..]), old(counts[..]), nx, |yAxis|,
                    YLoopWrites(s, yAxis, xs, xd))
  {
    var ny := |yAxis|;
    var nz := s.nz;
    ghost var cells0, counts0 := cells[..], counts[..];
    ghost var total := YLoopWrites(s, yAxis, xs, xd);
    ghost var done: seq<Write> := [];
    var yd: nat := 0;
    for ys := 0 to nz
      invariant yd < ny
      invariant done + YSweep(s, yAxis, xs, xd, ys, yd) == total
      invariant Applied(cells[..], counts[..], cells0, counts0, nx, ny, done)
    {
      ghost var yd0 := yd;
      ghost var adv := YAdvance(s, yAxis, xs, xd, ys, yd0);
      ghost var w := Write(xd, adv.1, s.z[xs][ys]);
      ghost var rest := YSweep(s, yAxis, xs, xd, ys + 1, adv.1);
      YSweepUnfold(s, yAxis, xs, xd, ys, yd0);
      ConcatAssoc(adv.0, [w], rest);
      ConcatAssoc(done, adv.0, [w] + rest);
      ConcatAssoc(done + adv.0, [w], rest);
      ghost var c, n := cells[..], counts[..];
      yd := YAdvanceLoop(s, cells, yAxis, counts, xs, xd, nx, ys, yd);
      AppliedConcat(c, n, cells[..], counts[..], cells0, counts0, nx, ny, done, adv.0);
      done := done + adv.0;
      c, n := cells[..], counts[..];
      AverageValue(s, cells, counts, xs, xd, ys, yd, nx, ny);
      AppliedStep(c, n, cells[..], counts[..], cells0, counts0, nx, ny, done, w);
      done := done + [w];
    }
    assert done == total;
  }

  /** The inner `while` of `_x_loop`: it returns the destination column it stops at. */
  method XAdvanceLoop(s: Samples, cells: array<Double>, xAxis: seq<Double>, yAxis: seq<Double>,
                      counts: array<nat>, xs: nat, xd0: nat, dx: Double, prevDx: Double) returns (xd: nat)
    requires WellShaped(s) && xs < |s.x| && xd0 < |xAxis| && |yAxis| >= 1
    requires cells.Length == GridSize(|xAxis|, |yAxis|) && counts.Length == GridSize(|xAxis|, |yAxis|)
    modifies cells, counts
    ensures xd == XAdvance(s, xAxis, yAxis, xs, xd0, dx, prevDx).1
    ensures Applied(cells[..], counts[..], old(cells[..]), old(counts[..]), |xAxis|, |yAxis|,
                    XAdvance(s, xAxis, yAxis, xs, xd0, dx, prevDx).0)
  {
    var nx, ny := |xAxis|, |yAxis|;
    ghost var cells0, counts0 := cells[..], counts[..];
    ghost var adv := XAdvance(s, xAxis, yAxis, xs, xd0, dx, prevDx);
    ghost var done: seq<Write> := [];
    var xv := s.x[xs];
    xd := xd0;
    while xd < nx - 1 && Lt(xAxis[xd], xv)
      invariant xd0 <= xd < nx
      invariant done + XAdvance(s, xAxis, yAxis, xs, xd, dx, prevDx).0 == adv.0
      invariant XAdvance(s, xAxis, yAxis, xs, xd, dx, prevDx).1 == adv.1
      invariant Applied(cells[..], counts[..], cells0, counts0, nx, ny, done)
      decreases nx - xd
    {
      ghost var c, n := cells[..], counts[..];
      FillColumn(s, cells, yAxis, counts, xs, xd, nx, dx, prevDx);
      XAdvanceStep(s, xAxis, yAxis, xs, xd, dx, prevDx, done, adv.0, c, n, cells[..], counts[..], cells0, counts0);
      done := done + ColumnWrites(s, yAxis, xs, xd, dx, prevDx);
      xd := xd + 1;
    }
    assert done == adv.0;
  }

  /** One pass of the advance keeps its invariant: the writes so far and those still to come
    * make up the whole advance, and the grid holds the writes so far. */
  lemma XAdvanceStep(s: Samples, xAxis: seq<Double>, yAxis: seq<Double>, xs: nat, xd: nat,
                     dx: Double, prevDx: Double, done: seq<Write>, all: seq<Write>,
                     cells: seq<Double>, counts: seq<nat>, cells1: seq<Double>, counts1: seq<nat>,
                     cells0: seq<Double>, counts0: seq<nat>)
    requires WellShaped(s) && xs < |s.x| && xd < |xAxis| - 1 && |yAxis| >= 1 && Lt(xAxis[xd], s.x[xs])
    requires |cells0| == GridSize(|xAxis|, |yAxis|) && |counts0| == GridSize(|xAxis|, |yAxis|)
    requires |cells| == GridSize(|xAxis|, |yAxis|) && |counts| == GridSize(|xAxis|, |yAxis|)
    requires done + XAdvance(s, xAxis, yAxis, xs, xd, dx, prevDx).0 == all
    requires Applied(cells, counts, cells0, counts0, |xAxis|, |yAxis|, done)
    requires Applied(cells1, counts1, cells, counts, |xAxis|, |yAxis|, ColumnWrites(s, yAxis, xs, xd, dx, prevDx))
    ensures var done' := done + ColumnWrites(s, yAxis, xs, xd, dx, prevDx);
      && done' + XAdvance(s, xAxis, yAxis, xs, xd + 1, dx, prevDx).0 == all
      && XAdvance(s, xAxis, yAxis, xs, xd + 1, dx, prevDx).1 == XAdvance(s, xAxis, yAxis, xs, xd, dx, prevDx).1
      && Applied(cells1, counts1, cells0, counts0, |xAxis|, |yAxis|, done')
  {
    var ys := ColumnWrites(s, yAxis, xs, xd, dx, prevDx);
    XAdvanceUnfold(s, xAxis, yAxis, xs, xd, dx, prevDx);
    ConcatAssoc(done, ys, XAdvance(s, xAxis, yAxis, xs, xd + 1, dx, prevDx).0);
    AppliedConcat(cells, counts, cells1, counts1, cells0, counts0, |xAxis|, |yAxis|, done, ys);
  }

  /** The body of `_x_loop`'s inner `while`: the y loop of source column `xs` into destination
    * column `xd`, run only when the next x step fills a gap. */
  method FillColumn(s: Samples, cells: array<Double>, yAxis: seq<Double>, counts: array<nat>,
                    xs: nat, xd: nat, nx: nat, dx: Double, prevDx: Double)
    requires WellShaped(s) && xs < |s.x| && xd < nx && |yAxis| >= 1
    requires cells.Length == GridSize(nx, |yAxis|) && counts.Length == GridSize(nx, |yAxis|)
    modifies cells, counts
    ensures Applied(cells[..], counts[..], old(cells[..]), old(counts[..]), nx, |yAxis|,
                    ColumnWrites(s, yAxis, xs, xd, dx, prevDx))
  {
    if xs < |s.x| - 1 {
      var nextDx := Sub(s.x[xs + 1], s.x[xs]);
      if FillsGap(dx, nextDx, prevDx) {
        YLoop(s, cells, yAxis, counts, xs, xd, nx);
      }
    }
  }

  /** `_x_loop(view, data, x_axis, y_axis, avg_count)`. */
  method XLoop(s: Samples, cells: array<Double>, xAxis: seq<Double>, yAxis: seq<Double>, counts: array<nat>)
    requires WellShaped(s) && |s.x| >= 2 && |xAxis| >= 1 && |yAxis| >= 1
    requires cells.Length == GridSize(|xAxis|, |yAxis|) && counts.Length == GridSize(|xAxis|, |yAxis|)
    modifies cells, counts
    ensures Applied(cells[..], counts[..], old(cells[..]), old(counts[..]), |xAxis|, |yAxis|,
                    XLoopWrites(s, xAxis, yAxis))
  {
    var nx, ny := |xAxis|, |yAxis|;
    var size := |s.x|;
    ghost var cells0, counts0 := cells[..], counts[..];
    ghost var total := XLoopWrites(s, xAxis, yAxis);
    ghost var done: seq<Write> := [];
    var xd: nat := 0;
    var xv := s.x[0];
    var dx := Sub(s.x[1], xv);
    var prevX := Sub(xv, dx);
    var prevDx := dx;
    for xs := 0 to size
      invariant xd < nx
      invariant done + XSweep(s, xAxis, yAxis, xs, xd, prevX, prevDx) == total
      invariant Applied(cells[..], counts[..], cells0, counts0, nx, ny, done)
    {
      xv := s.x[xs];
      dx := Sub(xv, prevX);
      ghost var adv := XAdvance(s, xAxis, yAxis, xs, xd, dx, prevDx);
      ghost var ys := YLoopWrites(s, yAxis, xs, adv.1);
      ghost var rest := XSweep(s, xAxis, yAxis, xs + 1, adv.1, xv, dx);
      assert XSweep(s, xAxis, yAxis, xs, xd, prevX, prevDx) == adv.0 + ys + rest;
      ConcatAssoc(adv.0, ys, rest);
      ConcatAssoc(done, adv.0, ys + rest);
      ConcatAssoc(done + adv.0, ys, rest);
      ghost var c, n := cells[..], counts[..];
      xd := XAdvanceLoop(s, cells, xAxis, yAxis, counts, xs, xd, dx, prevDx);
      AppliedConcat(c, n, cells[..], counts[..], cells0, counts0, nx, ny, done, adv.0);
      done := done + adv.0;
      c, n := cells[..], counts[..];
      YLoop(s, cells, yAxis, counts, xs, xd, nx);
      AppliedConcat(c, n, cells[..], counts[..], cells0, counts0, nx, ny, done, ys);
      done := done + ys;
      prevX := xv;
      prevDx := dx;
    }
    assert done == total;
  }

  /** A cell's final value: its sum divided by its count, NaN for a zero count. */
  function DivCell(sum: Double, count: nat): Double
  {
    if count != 0 then Div(sum, D(count as real)) else NaN
  }

  /** `_divide(data, avg_count, n_x, n_y)`: each cell divided by its own count. */
  method Divide(cells: array<Double>, counts: array<nat>, nx: nat, ny: nat)
    requires cells.Length == GridSize(nx, ny) && counts.Length == GridSize(nx, ny)
    modifies cells
    ensures forall i, j :: 0 <= i < nx && 0 <= j < ny ==>
              CellIndex(i, j, nx) < GridSize(nx, ny) && CountIndex(i, j, ny) < GridSize(nx, ny)
    ensures forall i, j :: 0 <= i < nx && 0 <= j < ny ==>
              cells[CellIndex(i, j, nx)] == DivCell(old(cells[CellIndex(i, j, nx)]), counts[CountIndex(i, j, ny)])
  {
    ghost var c0 := cells[..];
    forall i, j | 0 <= i < nx && 0 <= j < ny ensures CellIndex(i, j, nx) < GridSize(nx, ny) && CountIndex(i, j, ny) < GridSize(nx, ny) {
      CellIndexInGrid(i, j, nx, ny);
    }
    for i := 0 to nx
      invariant forall a, b :: 0 <= a < nx && 0 <= b < ny ==>
                  cells[CellIndex(a, b, nx)] == if a < i then DivCell(c0[CellIndex(a, b, nx)], counts[CountIndex(a, b, ny)])
                                                else c0[CellIndex(a, b, nx)]
    {
      for j := 0 to ny
        invariant forall a, b :: 0 <= a < nx && 0 <= b < ny ==>
                    cells[CellIndex(a, b, nx)] == if a < i || (a == i && b < j) then DivCell(c0[CellIndex(a, b, nx)], counts[CountIndex(a, b, ny)])
                                                  else c0[CellIndex(a, b, nx)]
      {
        var p := CellIndex(i, j, nx);
        var count := counts[CountIndex(i, j, ny)];
        ghost var before := cells[..];
        if count != 0 {
          cells[p] := Div(cells[p], D(count as real));
        } else {
          cells[p] := NaN;
        }
        forall a, b | 0 <= a < nx && 0 <= b < ny && (a != i || b != j)
          ensures cells[CellIndex(a, b, nx)] == before[CellIndex(a, b, nx)]
        {
          CellIndexInjective(a, b, i, j, nx, ny);
        }
      }
    }
  }

  /** The mean of the z values written to one cell, as `_divide` leaves it: their sum over their
    * 16-bit count, NaN for a cell nothing was written to. */
  function Mean(zs: seq<Double>): Double
  {
    DivCell(SumFrom(D(0.0), zs), |zs| % CountModulus)
  }

  /** `_copy_and_average(view, data, x_axis, y_axis)` on a zero-filled grid: every cell ends as
    * the mean of the z values `_x_loop` wrote to it. */
  method CopyAndAverage(s: Samples, cells: array<Double>, xAxis: seq<Double>, yAxis: seq<Double>)
    requires WellShaped(s) && |s.x| >= 2 && |xAxis| >= 1 && |yAxis| >= 1
    requires cells.Length == GridSize(|xAxis|, |yAxis|) && forall p :: 0 <= p < cells.Length ==> cells[p] == D(0.0)
    modifies cells
    ensures GridAverages(cells[..], |xAxis|, |yAxis|, XLoopWrites(s, xAxis, yAxis))
  {
    var nx, ny := |xAxis|, |yAxis|;
    var counts := new nat[GridSize(nx, ny)](_ => 0);
    ghost var cells0, counts0 := cells[..], counts[..];
    XLoop(s, cells, xAxis, yAxis, counts);
    Divide(cells, counts, nx, ny);
    ghost var ws := XLoopWrites(s, xAxis, yAxis);
    ghost var grid := cells[..];
    forall i, j | 0 <= i < nx && 0 <= j < ny
      ensures CellIndex(i, j, nx) < |grid| && grid[CellIndex(i, j, nx)] == Mean(WritesTo(ws, i, j))
    {
      CellsAfterSums(cells0, nx, ny, ws, i, j);
      CountsAfterCounts(counts0, nx, ny, ws, i, j);
    }
  }

  /** Cell `(i, j)` of an `nx` by `ny` grid holds the mean of the z values written to it. */
  predicate GridAverages(grid: seq<Double>, nx: nat, ny: nat, ws: seq<Write>)
  {
    && |grid| == GridSize(nx, ny)
    && forall i, j :: 0 <= i < nx && 0 <= j < ny ==>
         CellIndex(i, j, nx) < |grid| && grid[CellIndex(i, j, nx)] == Mean(WritesTo(ws, i, j))
  }

  // ---- the axes ----

  /** `_generate_range(start, end, n)`: `n` values from `start` in steps of `(end - start) / n`,
    * so `end` itself is not reached. */
  function LinearRange(start: Double, end: Double, n: nat): (r: seq<Double>)
    ensures |r| == n
  {
    var step := Div(Sub(end, start), D(n as real));
    seq(n, i requires 0 <= i < n => Add(start, Mul(D(i as real), step)))
  }

  /** `_generate_range(start, end, n, true)`: `n` values from `start` in equal ratios, with the
    * exponent step `(log10(end) - log10(start)) / (n - 1)`; `log10` and `pow(10, .)` are
    * parameters, `log10` returning NaN where the C library gives NaN or an infinity. */
  function LogRange(start: Double, end: Double, n: nat, log10: real -> Double, pow10: real -> real): (r: seq<Double>)
    ensures |r| == n
  {
    var step := LogStep(start, end, n, log10);
    seq(n, i requires 0 <= i < n =>
      if step.Some? then Mul(start, D(pow10(Exponent(i, step.value)))) else NaN)
  }

  /** The exponent step of a log range. */
  function LogStep(start: Double, end: Double, n: nat, log10: real -> Double): Double
  {
    var lg := (d: Double) => if d.Some? then log10(d.value) else NaN;
    Div(Sub(lg(end), lg(start)), D((n - 1) as real))
  }

  /** The exponent of value `i`, `i * step`. */
  function Exponent(i: nat, step: real): real
  {
    (i as real) * step
  }

  /** A linear range over `start < end` starts at `start`, increases strictly and stays below
    * `end`. */
  lemma LinearRangeProperties(start: real, end: real, n: nat)
    requires start < end && n >= 1
    ensures var r := LinearRange(D(start), D(end), n);
      && r[0] == D(start)
      && (forall i :: 0 <= i < n ==> r[i].Some? && start <= r[i].value < end)
      && (forall i :: 0 <= i < n - 1 ==> r[i].value < r[i + 1].value)
  {
    var r := LinearRange(D(start), D(end), n);
    var step := (end - start) / (n as real);
    assert step > 0.0;
    assert (n as real) * step == end - start;
    forall i | 0 <= i < n ensures r[i].Some? && start <= r[i].value < end {
      assert Div(Sub(D(end), D(start)), D(n as real)) == D(step);
      assert r[i].Some? && r[i].value == start + (i as real) * step;
      assert (i as real) * step <= ((n - 1) as real) * step;
    }
    forall i | 0 <= i < n - 1 ensures r[i].value < r[i + 1].value {
      assert r[i + 1].value == start + ((i + 1) as real) * step;
      assert r[i + 1].value == r[i].value + step;
    }
    assert r[0].value == start + 0.0 * step;
  }

  /** A single-value log range is NaN: its exponent step divides by zero. */
  lemma LogRangeSingle(start: Double, end: Double, log10: real -> Double, pow10: real -> real)
    ensures LogRange(start, end, 1, log10, pow10) == [NaN]
  {
  }

  /** A log range whose bounds have numeric logarithms in increasing order starts at a positive
    * `start` and increases strictly from value `i` to value `i + 1`, when `pow(10, .)` is
    * increasing with `pow(10, 0) == 1`. */
  lemma LogRangeIncreases(start: real, end: real, n: nat, log10: real -> Double, pow10: real -> real, i: nat)
    requires start > 0.0 && log10(start).Some? && log10(end).Some? && log10(start).value < log10(end).value
    requires pow10(0.0) == 1.0 && forall a, b :: a < b ==> pow10(a) < pow10(b)
    requires n >= 2 && i < n - 1
    ensures LogRange(D(start), D(end), n, log10, pow10)[0] == D(start)
    ensures var r := LogRange(D(start), D(end), n, log10, pow10);
      r[i].Some? && r[i + 1].Some? && r[i].value < r[i + 1].value
  {
    var ds := LogStep(D(start), D(end), n, log10);
    assert ds == Div(Sub(log10(end), log10(start)), D((n - 1) as real));
    StepPositive(log10(end).value - log10(start).value, n - 1);
    assert ds.Some? && ds.value > 0.0;
    var a, b := Exponent(i, ds.value), Exponent(i + 1, ds.value);
    ExponentIncreases(i, ds.value);
    LogRangeAt(D(start), D(end), n, log10, pow10, i);
    LogRangeAt(D(start), D(end), n, log10, pow10, i + 1);
    LogRangeAt(D(start), D(end), n, log10, pow10, 0);
    assert pow10(a) < pow10(b);
    PositiveScale(start, pow10(a), pow10(b));
    assert Exponent(0, ds.value) == 0.0;
  }

  /** Value `i` of a log range: `start` times ten to the `i`-th exponent, NaN without a step. */
  lemma LogRangeAt(start: Double, end: Double, n: nat, log10: real -> Double, pow10: real -> real, i: nat)
    requires i < n
    ensures var step := LogStep(start, end, n, log10);
      LogRange(start, end, n, log10, pow10)[i]
      == if step.Some? then Mul(start, D(pow10(Exponent(i, step.value)))) else NaN
  {
  }

  lemma ExponentIncreases(i: nat, step: real)
    requires step > 0.0
    ensures Exponent(i, step) < Exponent(i + 1, step)
  {
  }

  lemma StepPositive(d: real, m: nat)
    requires d > 0.0 && m >= 1
    ensures d / (m as real) > 0.0
  {
  }

  lemma PositiveScale(c: real, a: real, b: real)
    requires c > 0.0 && a < b
    ensures Mul(D(c), D(a)).Some? && Mul(D(c), D(b)).Some? && Mul(D(c), D(a)).value < Mul(D(c), D(b)).value
  {
    var ca, cb := c * a, c * b;
    assert cb - ca == c * (b - a);
  }

  /** The axes `_generate_axes(view, max_x, max_y, log)` returns: `min(max_x, size)` linear x
    * values over `(x(0), x(size - 1))` and `min(max_y, y columns)` y values over the y bounds,
    * linear or logarithmic. */
  function Axes(v: XYZView, maxX: nat, maxY: nat, log: bool, yBounds: (Double, Double),
                log10: real -> Double, pow10: real -> real): (a: (seq<Double>, seq<Double>))
    requires Spectrogram(v) && Size(v) >= 1
    ensures |a.0| == MinInt(maxX, Size(v)) && |a.1| == MinInt(maxY, YShape(v).1)
  {
    var nx: nat := MinInt(maxX, Size(v));
    var ny: nat := MinInt(maxY, YShape(v).1);
    (LinearRange(XAt(v, 0), XAt(v, Size(v) - 1), nx),
     if log then LogRange(yBounds.0, yBounds.1, ny, log10, pow10) else LinearRange(yBounds.0, yBounds.1, ny))
  }

  /** `_generate_axes`: the y bounds come from `y_bounds(view)`. */
  method GenerateAxes(v: XYZView, maxX: nat, maxY: nat, log: bool, log10: real -> Double, pow10: real -> real)
    returns (xAxis: seq<Double>, yAxis: seq<Double>)
    requires Spectrogram(v) && Size(v) >= 1
    ensures (xAxis, yAxis) == Axes(v, maxX, maxY, log, FoldBounds(YRows(v)), log10, pow10)
  {
    var lo, hi := YBounds(v);
    var a := Axes(v, maxX, maxY, log, (lo, hi), log10, pow10);
    xAxis, yAxis := a.0, a.1;
  }

  // ---- _resample_impl ----

  /** The `QCPColorMapData` that is emitted: key and value sizes, key and value ranges, and the
    * cells, cell `(i, j)` at `CellIndex(i, j, key size)`. */
  datatype ColorMapData = ColorMapData(keySize: nat, valueSize: nat, keyRange: (Double, Double),
                                       valueRange: (Double, Double), cells: seq<Double>)

  /** The colour-map buffers the model handles: x valid, z present, the three forming one
    * spectrogram with x sorted, and y with at least as many columns as z. */
  predicate ColorMapBuffers(data: ResamplerData)
  {
    data.z.Some? && SpectrogramBuffers(data.x, data.y, data.z.value) && Sorted(data.x.data) &&
    data.z.value.shape[1] <= (if |data.y.shape| == 2 then data.y.shape[1] else data.y.shape[0])
  }

  /** A Qt `int`. */
  predicate QtInt(i: int)
  {
    -0x8000_0000 <= i < 0x8000_0000
  }

  /** The window view of `make_view(data, plot_info)`. */
  function WindowView(data: ResamplerData, info: PlotInfo): (v: XYZView)
    requires ColorMapBuffers(data)
    ensures Spectrogram(v)
  {
    var v := RangeView(data.x, data.y, data.z.value, info.plotRange.0, info.plotRange.1);
    assert ZShape(v).0 == Size(v);
    v
  }

  /** The colour map produced from window `v` for a plot of at most `maxX` by `maxY` cells: a
    * grid of `min(maxX, size)` by `min(maxY, y columns)` cells spanning the generated axes, each
    * cell the mean of the z values `_x_loop` sent to it. */
  predicate Resampled(v: XYZView, maxX: nat, maxY: nat, log: bool, log10: real -> Double, pow10: real -> real,
                      d: ColorMapData)
    requires Spectrogram(v) && Size(v) >= 2
  {
    var axes := Axes(v, maxX, maxY, log, FoldBounds(YRows(v)), log10, pow10);
    && d.keySize == MinInt(maxX, Size(v))
    && d.valueSize == MinInt(maxY, YShape(v).1)
    && MapOver(axes.0, axes.1, SamplesOf(v), d)
  }

  /** `d` is the map over the axes `xAxis` and `yAxis`: their sizes, their first and last values
    * as ranges, each cell the mean of the z values `_x_loop` sent to it. */
  predicate MapOver(xAxis: seq<Double>, yAxis: seq<Double>, s: Samples, d: ColorMapData)
    requires WellShaped(s) && |s.x| >= 2
  {
    var nx, ny := |xAxis|, |yAxis|;
    && nx >= 1 && ny >= 1
    && d.keySize == nx && d.valueSize == ny
    && d.keyRange == (xAxis[0], xAxis[nx - 1])
    && d.valueRange == (yAxis[0], yAxis[ny - 1])
    && GridAverages(d.cells, nx, ny, XLoopWrites(s, xAxis, yAxis))
  }

  /** The map assembled from the axes and the averaged grid. */
  lemma MapOverGrid(xAxis: seq<Double>, yAxis: seq<Double>, s: Samples, grid: seq<Double>)
    requires WellShaped(s) && |s.x| >= 2 && |xAxis| >= 1 && |yAxis| >= 1
    requires GridAverages(grid, |xAxis|, |yAxis|, XLoopWrites(s, xAxis, yAxis))
    ensures MapOver(xAxis, yAxis, s, ColorMapData(|xAxis|, |yAxis|, (xAxis[0], xAxis[|xAxis| - 1]),
                                                  (yAxis[0], yAxis[|yAxis| - 1]), grid))
  {
  }

  /** The part of `_resample_impl` after the checks: the axes, the zero-filled
    * `QCPColorMapData`, `_copy_and_average`. */
  method ResampleWindow(v: XYZView, maxX: nat, maxY: nat, log: bool, log10: real -> Double, pow10: real -> real)
    returns (d: ColorMapData)
    requires Spectrogram(v) && Size(v) > 10 && maxX >= 1 && maxY >= 1
    ensures Resampled(v, maxX, maxY, log, log10, pow10, d)
  {
    var xAxis, yAxis := GenerateAxes(v, maxX, maxY, log, log10, pow10);
    var nx, ny := |xAxis|, |yAxis|;
    var grid := AveragedGrid(SamplesOf(v), xAxis, yAxis);
    d := ColorMapData(nx, ny, (xAxis[0], xAxis[nx - 1]), (yAxis[0], yAxis[ny - 1]), grid);
    MapOverGrid(xAxis, yAxis, SamplesOf(v), grid);
  }

  /** The zero-filled cells of a new `QCPColorMapData` after `_copy_and_average`. */
  method AveragedGrid(s: Samples, xAxis: seq<Double>, yAxis: seq<Double>) returns (grid: seq<Double>)
    requires WellShaped(s) && |s.x| >= 2 && |xAxis| >= 1 && |yAxis| >= 1
    ensures GridAverages(grid, |xAxis|, |yAxis|, XLoopWrites(s, xAxis, yAxis))
  {
    var cells := new Double[GridSize(|xAxis|, |yAxis|)](_ => D(0.0));
    CopyAndAverage(s, cells, xAxis, yAxis);
    grid := cells[..];
  }

  /** `ColormapResampler::_resample_impl`: nothing is emitted for an x buffer without data, an
    * empty x, a zero plot width or height, or a window of at most 10 points; otherwise the
    * colour map of the window. Past the guard the three buffers must form a spectrogram with
    * x sorted (as `upper_bound` needs). */
  method ResampleImpl(data: ResamplerData, info: PlotInfo, log10: real -> Double, pow10: real -> real)
    returns (r: Option<ColorMapData>)
    requires QtInt(info.width) && QtInt(info.height)
    requires data.x.valid && |data.x.data| > 0 && info.width != 0 && info.height != 0 ==> ColorMapBuffers(data)
    ensures !data.x.valid || |data.x.data| == 0 || info.width == 0 || info.height == 0 ==> r.None?
    ensures r.Some? <==> data.x.valid && |data.x.data| > 0 && info.width != 0 && info.height != 0 &&
                         Size(WindowView(data, info)) > 10
    ensures r.Some? ==> Resampled(WindowView(data, info), ToSizeT(info.width), ToSizeT(info.height),
                                  info.yIsLog, log10, pow10, r.value)
  {
    r := None;
    if data.x.valid && |data.x.data| > 0 && info.width != 0 && info.height != 0 {
      var v := XYZViewByRange(data.x, data.y, data.z.value, info.plotRange.0, info.plotRange.1);
      assert v == WindowView(data, info);
      if Size(v) > 10 {
        var d := ResampleWindow(v, ToSizeT(info.width), ToSizeT(info.height), info.yIsLog, log10, pow10);
        r := Some(d);
      }
    }
  }

  /** The running sum of numbers between `lo` and `hi` stays between `k * lo` and `k * hi`
    * after `k` terms. */
  lemma {:induction false} SumFromBounds(zs: seq<Double>, lo: real, hi: real)
    requires forall k :: 0 <= k < |zs| ==> zs[k].Some? && lo <= zs[k].value <= hi
    ensures SumFrom(D(0.0), zs).Some?
    ensures (|zs| as real) * lo <= SumFrom(D(0.0), zs).value <= (|zs| as real) * hi
    decreases |zs|
  {
    if zs != [] {
      var front := zs[..|zs| - 1];
      SumFromBounds(front, lo, hi);
      assert (|zs| as real) * lo == (|front| as real) * lo + lo;
      assert (|zs| as real) * hi == (|front| as real) * hi + hi;
    }
  }

  /** A cell that received at least one and fewer than 2^16 z values, all numbers in
    * `[lo, hi]`, ends inside `[lo, hi]`; a cell that received none is NaN, and one NaN among
    * its values makes it NaN. */
  lemma MeanWithinValues(zs: seq<Double>, lo: real, hi: real)
    requires |zs| < CountModulus
    ensures zs == [] ==> IsNaN(Mean(zs))
    ensures (exists k :: 0 <= k < |zs| && IsNaN(zs[k])) ==> IsNaN(Mean(zs))
    ensures zs != [] && (forall k :: 0 <= k < |zs| ==> zs[k].Some? && lo <= zs[k].value <= hi) ==>
              Mean(zs).Some? && lo <= Mean(zs).value <= hi
  {
    SumFromNaN(D(0.0), zs);
    if zs != [] && (forall k :: 0 <= k < |zs| ==> zs[k].Some? && lo <= zs[k].value <= hi) {
      SumFromBounds(zs, lo, hi);
      var n := |zs| as real;
      var s := SumFrom(D(0.0), zs).value;
      assert Mean(zs) == D(s / n);
      DivideBounds(s, n, lo, hi);
    }
  }

  lemma DivideBounds(s: real, n: real, lo: real, hi: real)
    requires n > 0.0 && n * lo <= s <= n * hi
    ensures lo <= s / n <= hi
  {
  }
}
