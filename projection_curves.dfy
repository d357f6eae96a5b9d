/** `SciQLopNDProjectionCurves` (`src/SciQLopNDProjectionCurves.cpp`): one parametric curve per
  * plot, the routing of the buffers a data source delivers to the curves, and the selection that
  * every curve shares. A curve is the record of the fields these operations touch. */
module ProjectionCurves {
  import opened Common
  import opened ArrayViews

  /** The part of a `SciQLopCurve` the projection reads or writes. */
  datatype Curve = Curve(name: string, selected: bool, x: Buffer, y: Buffer)

  /** How `set_data` pairs buffers with curves: curve `i` gets buffers `pairs[i]`; a buffer count
    * it does not handle updates nothing; one curve with two buffers computes `i % 0`. */
  datatype Route = Routed(pairs: seq<(nat, nat)>) | Ignored | ModuloByZero

  /** The pairs for `n` curves and `n + 1` buffers, the first (time) buffer dropped: curve `i`
    * gets `(d[i % (n - 1)], d[min(i + 1, n - 1)])` of the remaining buffers. */
  function ProjectionPairs(n: nat): (pairs: seq<(nat, nat)>)
    requires n != 1
    ensures |pairs| == n
  {
    seq(n, i requires 0 <= i < n => (1 + i % (n - 1), 1 + MinInt(i + 1, n - 1)))
  }

  /** The pairs for `n` curves and `2n` buffers: curve `i` gets `(d[2i], d[2i + 1])`. */
  function PairwisePairs(n: nat): (pairs: seq<(nat, nat)>)
    ensures |pairs| == n
  {
    seq(n, i requires 0 <= i < n => (2 * i, 2 * i + 1))
  }

  /** `set_data` as written for `n` curves and `m` buffers: the `n + 1` test comes first, so one
    * curve with two buffers takes it and divides by `n - 1 == 0`. */
  function RoutingAsWritten(n: nat, m: nat): Route
  {
    if m == n + 1 then (if n == 1 then ModuloByZero else Routed(ProjectionPairs(n)))
    else if m == 2 * n then Routed(PairwisePairs(n))
    else Ignored
  }

  /** One curve and two buffers reach the modulo by zero. */
  lemma OneCurveDividesByZero()
    ensures RoutingAsWritten(1, 2) == ModuloByZero
  {
  }

  /** `set_data` with the degenerate case given to the `2n` branch, the only one that pairs
    * buffers for a single curve. */
  function Routing(n: nat, m: nat): (r: Route)
    ensures r != ModuloByZero
    ensures RoutingAsWritten(n, m) != ModuloByZero ==> r == RoutingAsWritten(n, m)
  {
    if m == n + 1 && n != 1 then Routed(ProjectionPairs(n))
    else if m == 2 * n then Routed(PairwisePairs(n))
    else Ignored
  }

  /** Every routing reads existing buffers only: with `n + 1` buffers never the time buffer and
    * never the same buffer twice, with `2n` buffers each buffer exactly once. */
  lemma RoutingInBounds(n: nat, m: nat)
    ensures var r := Routing(n, m);
      r.Routed? ==> |r.pairs| == n && forall i :: 0 <= i < n ==>
        1 <= r.pairs[i].0 + (if m == 2 * n then 1 else 0) && r.pairs[i].0 < m && r.pairs[i].1 < m &&
        r.pairs[i].0 != r.pairs[i].1
    ensures Routing(n, m).Routed? <==> (m == n + 1 && n != 1) || m == 2 * n
  {
    if m == n + 1 && n != 1 {
      forall i | 0 <= i < n
        ensures 1 <= ProjectionPairs(n)[i].0 < m && ProjectionPairs(n)[i].1 < m
        ensures ProjectionPairs(n)[i].0 != ProjectionPairs(n)[i].1
      {
        ProjectionPairAt(n, i);
      }
    }
  }

  /** Curve `i` of `n >= 2` projections reads buffer `1 + i` against the next one, and the last
    * curve reads buffer 1 against the last buffer. */
  lemma ProjectionPairAt(n: nat, i: nat)
    requires n >= 2 && i < n
    ensures ProjectionPairs(n)[i] == if i < n - 1 then (1 + i, 2 + i) else (1, n)
  {
    var k := n - 1;
    assert ProjectionPairs(n)[i] == (1 + i % k, 1 + MinInt(i + 1, k));
    if i < k {
      assert i % k == i;
    } else {
      assert i == k;
      assert k % k == 0;
    }
  }

  /** With `2n` buffers the curves share no buffer and together read all of them. */
  lemma PairwiseIsPartition(n: nat)
    ensures forall b :: 0 <= b < 2 * n ==>
              var i := b / 2; i < n && (b == PairwisePairs(n)[i].0 || b == PairwisePairs(n)[i].1)
    ensures forall i, j :: 0 <= i < n && 0 <= j < n && i != j ==>
              PairwisePairs(n)[i].0 != PairwisePairs(n)[j].0 && PairwisePairs(n)[i].0 != PairwisePairs(n)[j].1 &&
              PairwisePairs(n)[i].1 != PairwisePairs(n)[j].1
  {
  }

  /** Three curves and four buffers, following the comment in the source: Y(x), Z(y), Z(x). */
  lemma ThreeCurves()
    ensures ProjectionPairs(3) == [(1, 2), (2, 3), (1, 3)]
  {
    var p := ProjectionPairs(3);
    assert p[0] == (1 + 0 % 2, 1 + MinInt(1, 2));
    assert p[1] == (1 + 1 % 2, 1 + MinInt(2, 2));
    assert p[2] == (1 + 2 % 2, 1 + MinInt(3, 2));
  }

  /** The curves after `set_data`: each routed curve takes its pair of buffers. */
  function Assign(curves: seq<Curve>, pairs: seq<(nat, nat)>, data: seq<Buffer>): (r: seq<Curve>)
    requires |pairs| == |curves| && RoutingFits(pairs, data)
    ensures |r| == |curves|
  {
    seq(|curves|, i requires 0 <= i < |curves| => curves[i].(x := data[pairs[i].0], y := data[pairs[i].1]))
  }

  class NDProjectionCurves {
    var curves: seq<Curve>

    /** The constructor: one curve per plot, labelled from `labels`, empty and unselected; none
      * at all when the counts differ. */
    constructor (plotCount: nat, labels: seq<string>)
      ensures |labels| != plotCount ==> curves == []
      ensures |labels| == plotCount ==>
                |curves| == plotCount && forall i :: 0 <= i < plotCount ==> curves[i] == Curve(labels[i], false, NoBuffer, NoBuffer)
    {
      if |labels| != plotCount {
        curves := [];
      } else {
        var built: seq<Curve> := [];
        for i := 0 to plotCount
          invariant |built| == i && forall j :: 0 <= j < i ==> built[j] == Curve(labels[j], false, NoBuffer, NoBuffer)
        {
          built := built + [Curve(labels[i], false, NoBuffer, NoBuffer)];
        }
        curves := built;
      }
    }

    /** `set_selected`: every curve takes the state. */
    method SetSelected(selected: bool)
      modifies this
      ensures |curves| == |old(curves)|
      ensures forall i :: 0 <= i < |curves| ==> curves[i] == old(curves)[i].(selected := selected)
      ensures Selected() == (selected && |curves| > 0)
    {
      var i := 0;
      while i < |curves|
        invariant 0 <= i <= |curves| == |old(curves)|
        invariant forall j :: 0 <= j < i ==> curves[j] == old(curves)[j].(selected := selected)
        invariant forall j :: i <= j < |curves| ==> curves[j] == old(curves)[j]
      {
        curves := curves[i := curves[i].(selected := selected)];
        i := i + 1;
      }
    }

    /** `selected()`: the first curve's state, false without curves. */
    function Selected(): bool
      reads this
    {
      |curves| > 0 && curves[0].selected
    }

    /** `set_data(data)` with the routing of `Routing`: routed curves take their pair, a buffer
      * count that is not handled leaves every curve as it was. */
    method SetData(data: seq<Buffer>)
      modifies this
      ensures var r := Routing(|old(curves)|, |data|);
        && (r.Routed? ==> RoutingFits(r.pairs, data) && curves == Assign(old(curves), r.pairs, data))
        && (!r.Routed? ==> curves == old(curves))
    {
      var n := |curves|;
      RoutingInBounds(n, |data|);
      if |data| == n + 1 && n != 1 {
        SetProjections(data);
      } else if |data| == 2 * n {
        SetPairwise(data);
      }
    }

    /** The `n + 1` branch: curve `i` takes buffers `1 + i % (n - 1)` and `1 + min(i + 1, n - 1)`. */
    method SetProjections(data: seq<Buffer>)
      requires |data| == |curves| + 1 && |curves| != 1
      modifies this
      ensures RoutingFits(ProjectionPairs(|old(curves)|), data)
      ensures curves == Assign(old(curves), ProjectionPairs(|old(curves)|), data)
    {
      var n := |curves|;
      RoutingInBounds(n, |data|);
      var withoutTime := data[1..];
      var i := 0;
      while i < n
        invariant 0 <= i <= n == |curves|
        invariant forall j :: 0 <= j < i ==> curves[j] == Assign(old(curves), ProjectionPairs(n), data)[j]
        invariant forall j :: i <= j < n ==> curves[j] == old(curves)[j]
      {
        curves := curves[i := curves[i].(x := withoutTime[i % (n - 1)], y := withoutTime[MinInt(i + 1, n - 1)])];
        i := i + 1;
      }
    }

    /** The `2n` branch: curve `i` takes buffers `2i` and `2i + 1`. */
    method SetPairwise(data: seq<Buffer>)
      requires |data| == 2 * |curves|
      modifies this
      ensures RoutingFits(PairwisePairs(|old(curves)|), data)
      ensures curves == Assign(old(curves), PairwisePairs(|old(curves)|), data)
    {
      var n := |curves|;
      RoutingInBounds(n, |data|);
      var i := 0;
      while i < n
        invariant 0 <= i <= n == |curves|
        invariant forall j :: 0 <= j < i ==> curves[j] == Assign(old(curves), PairwisePairs(n), data)[j]
        invariant forall j :: i <= j < n ==> curves[j] == old(curves)[j]
      {
        curves := curves[i := curves[i].(x := data[2 * i], y := data[2 * i + 1])];
        i := i + 1;
      }
    }
  }

  predicate RoutingFits(pairs: seq<(nat, nat)>, data: seq<Buffer>)
  {
    forall i :: 0 <= i < |pairs| ==> pairs[i].0 < |data| && pairs[i].1 < |data|
  }
}
