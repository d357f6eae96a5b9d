/** `SciQLopPlotRange`: a pair of doubles (first, second) used for every axis and
  * time range. NaN bounds are `None`. */
module PlotRange {
  import opened Common

  datatype SciQLopPlotRange = SciQLopPlotRange(first: Double, second: Double)

  /** The default constructor: both bounds NaN. */
  function NullRange(): (r: SciQLopPlotRange)
    ensures IsNull(r) && !IsValid(r)
  {
    SciQLopPlotRange(NaN, NaN)
  }

  /** The two-number constructor stores `(std::min(start, stop), std::max(start, stop))`. */
  function Make(start: Double, stop: Double): (r: SciQLopPlotRange)
    ensures start.Some? && stop.Some? ==>
              Le(r.first, r.second) && multiset{r.first, r.second} == multiset{start, stop}
    ensures start.None? ==> IsNull(r)
    ensures start.Some? && stop.None? ==> r.first == start && r.second == start
  {
    SciQLopPlotRange(StdMin(start, stop), StdMax(start, stop))
  }

  /** The date constructor stores the two epoch-second values as given, without ordering them. */
  function FromDates(startSecs: int, endSecs: int): (r: SciQLopPlotRange)
    ensures r.first == Some(startSecs as real) && r.second == Some(endSecs as real)
  {
    SciQLopPlotRange(Some(startSecs as real), Some(endSecs as real))
  }

  function Size(r: SciQLopPlotRange): Double { Sub(r.second, r.first) }

  function Center(r: SciQLopPlotRange): Double
  {
    if r.first.Some? && r.second.Some? then Some((r.first.value + r.second.value) / 2.0) else NaN
  }

  predicate IsEmpty(r: SciQLopPlotRange) { Eq(r.first, r.second) }

  predicate Contains(r: SciQLopPlotRange, v: Double) { Le(r.first, v) && Le(v, r.second) }

  predicate IsNull(r: SciQLopPlotRange) { IsNaN(r.first) || IsNaN(r.second) }

  predicate IsValid(r: SciQLopPlotRange) { !IsNull(r) && !IsEmpty(r) }

  predicate ContainsRange(r: SciQLopPlotRange, o: SciQLopPlotRange)
  {
    Le(r.first, o.first) && Le(o.second, r.second)
  }

  predicate Intersects(r: SciQLopPlotRange, o: SciQLopPlotRange)
  {
    Le(r.first, o.second) && Le(o.first, r.second)
  }

  function IntersectionWith(r: SciQLopPlotRange, o: SciQLopPlotRange): SciQLopPlotRange
  {
    Make(StdMax(r.first, o.first), StdMin(r.second, o.second))
  }

  function UnionWith(r: SciQLopPlotRange, o: SciQLopPlotRange): SciQLopPlotRange
  {
    Make(StdMin(r.first, o.first), StdMax(r.second, o.second))
  }

  predicate Equal(r: SciQLopPlotRange, o: SciQLopPlotRange)
  {
    Eq(r.first, o.first) && Eq(r.second, o.second)
  }

  predicate NotEqual(r: SciQLopPlotRange, o: SciQLopPlotRange) { !Equal(r, o) }

  function Plus(r: SciQLopPlotRange, v: Double): SciQLopPlotRange
  {
    Make(Add(r.first, v), Add(r.second, v))
  }

  function Minus(r: SciQLopPlotRange, v: Double): SciQLopPlotRange
  {
    Make(Sub(r.first, v), Sub(r.second, v))
  }

  /** `operator*`: about the centre, half-width `size * v / 2` on each side. */
  function Times(r: SciQLopPlotRange, v: real): SciQLopPlotRange
  {
    if r.first.Some? && r.second.Some? then
      AboutCenterRange((r.first.value + r.second.value) / 2.0, (r.second.value - r.first.value) * v / 2.0)
    else Make(NaN, NaN)
  }

  /** The range both operators build: `(c - h, c + h)` through the two-number constructor. */
  function AboutCenterRange(c: real, h: real): SciQLopPlotRange
  {
    Make(Some(c - h), Some(c + h))
  }

  /** `operator/`: about the centre, half-width `size / v / 2`. Division by zero (an infinity in
    * IEEE arithmetic) is modelled as NaN. */
  function Divide(r: SciQLopPlotRange, v: real): SciQLopPlotRange
  {
    if r.first.Some? && r.second.Some? && v != 0.0 then
      AboutCenterRange((r.first.value + r.second.value) / 2.0, (r.second.value - r.first.value) / v / 2.0)
    else Make(NaN, NaN)
  }

  /** `sorted()`: the copy after `sort()`, which swaps the bounds iff `first > second`. */
  function Sorted(r: SciQLopPlotRange): SciQLopPlotRange
  {
    if Lt(r.second, r.first) then SciQLopPlotRange(r.second, r.first) else r
  }

  /** `operator[]`: index 0 is `first`, any other index `second`. */
  function At(r: SciQLopPlotRange, index: int): Double
  {
    if index == 0 then r.first else r.second
  }

  /** A range as produced by the two-number constructor: both bounds present and ordered. */
  predicate Normalised(r: SciQLopPlotRange) { Le(r.first, r.second) }

  /** A range variable on which `sort()` is called in place. */
  class RangeVar {
    var first: Double
    var second: Double

    function Value(): SciQLopPlotRange reads this { SciQLopPlotRange(first, second) }

    constructor (r: SciQLopPlotRange)
      ensures Value() == r
    {
      first, second := r.first, r.second;
    }

    method Sort()
      modifies this
      ensures Value() == Sorted(old(Value()))
    {
      if Lt(second, first) {
        first, second := second, first;
      }
    }
  }

  // ---- properties ----

  lemma IsValidIff(r: SciQLopPlotRange)
    ensures IsValid(r) <==> r.first.Some? && r.second.Some? && r.first.value != r.second.value
  {
  }

  /** Every range the two-number constructor builds from non-NaN numbers is normalised. */
  lemma MakeIsNormalised(start: real, stop: real)
    ensures Normalised(Make(Some(start), Some(stop)))
    ensures Make(Some(start), Some(stop)) == Make(Some(stop), Some(start))
  {
  }

  lemma ContainsIff(r: SciQLopPlotRange, v: real)
    ensures Contains(r, Some(v)) <==> !IsNull(r) && r.first.value <= v <= r.second.value
    ensures Contains(r, Some(v)) ==> Normalised(r)
  {
  }

  lemma IntersectsSymmetric(a: SciQLopPlotRange, b: SciQLopPlotRange)
    ensures Intersects(a, b) <==> Intersects(b, a)
  {
  }

  lemma UnionContainsBoth(a: SciQLopPlotRange, b: SciQLopPlotRange)
    requires Normalised(a) && Normalised(b)
    ensures ContainsRange(UnionWith(a, b), a) && ContainsRange(UnionWith(a, b), b)
    ensures Normalised(UnionWith(a, b))
  {
  }

  lemma IntersectionInBoth(a: SciQLopPlotRange, b: SciQLopPlotRange)
    requires Normalised(a) && Normalised(b) && Intersects(a, b)
    ensures ContainsRange(a, IntersectionWith(a, b)) && ContainsRange(b, IntersectionWith(a, b))
    ensures Normalised(IntersectionWith(a, b))
  {
  }

  /** Two normalised ranges that do not intersect give an intersection with its bounds
    * swapped back into order, spanning the gap between them. */
  lemma DisjointIntersectionIsTheGap(a: SciQLopPlotRange, b: SciQLopPlotRange)
    requires Normalised(a) && Normalised(b) && Lt(a.second, b.first)
    ensures IntersectionWith(a, b) == SciQLopPlotRange(a.second, b.first)
  {
  }

  lemma ShiftKeepsSize(r: SciQLopPlotRange, v: real)
    requires Normalised(r)
    ensures Plus(r, Some(v)) == SciQLopPlotRange(Add(r.first, Some(v)), Add(r.second, Some(v)))
    ensures Size(Plus(r, Some(v))) == Size(r) && Size(Minus(r, Some(v))) == Size(r)
  {
  }

  lemma ShiftRoundTrip(r: SciQLopPlotRange, v: real)
    requires Normalised(r)
    ensures Minus(Plus(r, Some(v)), Some(v)) == r
  {
  }

  /** The two-number constructor on two numbers. */
  lemma MakeOfNumbers(a: real, b: real)
    ensures Make(Some(a), Some(b)) == if a <= b then SciQLopPlotRange(Some(a), Some(b)) else SciQLopPlotRange(Some(b), Some(a))
  {
  }

  /** A range built about `c` with half-width `h` on each side: centred on `c`, of size `2|h|`,
    * ordered. */
  lemma AboutCenter(c: real, h: real)
    ensures Center(AboutCenterRange(c, h)) == Some(c)
    ensures Size(AboutCenterRange(c, h)) == Some(2.0 * Abs(h))
    ensures Normalised(AboutCenterRange(c, h))
  {
    MakeOfNumbers(c - h, c + h);
  }

  /** The sign of a product with a non-negative factor. */
  lemma ScaledAbs(sz: real, v: real)
    requires sz >= 0.0
    ensures Abs(sz * v) == Abs(v) * sz
  {
    if v < 0.0 {
      assert sz * v == -(sz * -v);
      assert sz * -v >= 0.0;
    } else {
      assert sz * v >= 0.0;
    }
  }

  lemma TimesKeepsCenter(r: SciQLopPlotRange, v: real)
    requires Normalised(r)
    ensures Center(Times(r, v)) == Center(r)
    ensures Size(Times(r, v)).Some? && Size(Times(r, v)).value == Abs(v) * Size(r).value
    ensures Normalised(Times(r, v))
  {
    var sz := r.second.value - r.first.value;
    var c := (r.first.value + r.second.value) / 2.0;
    var h := sz * v / 2.0;
    assert Times(r, v) == AboutCenterRange(c, h);
    AboutCenter(c, h);
    ScaledAbs(sz, v);
    var p := sz * v;
    assert 2.0 * Abs(h) == Abs(p);
    assert Size(r) == Some(sz);
  }

  lemma DivideKeepsCenter(r: SciQLopPlotRange, v: real)
    requires Normalised(r) && v != 0.0
    ensures Center(Divide(r, v)) == Center(r)
    ensures Size(Divide(r, v)) == Some((r.second.value - r.first.value) / Abs(v))
    ensures Normalised(Divide(r, v))
  {
    var sz := r.second.value - r.first.value;
    var c := (r.first.value + r.second.value) / 2.0;
    var q := sz / v;
    var h := q / 2.0;
    AboutCenter(c, h);
    assert 2.0 * Abs(h) == Abs(q);
    DividedAbs(sz, v);
  }

  /** The size of a quotient by a non-zero divisor. */
  lemma DividedAbs(sz: real, v: real)
    requires sz >= 0.0 && v != 0.0
    ensures Abs(sz / v) == sz / Abs(v)
  {
    if v < 0.0 {
      assert sz / v == -(sz / -v);
      assert sz / -v >= 0.0;
    } else {
      assert sz / v >= 0.0;
    }
  }

  lemma SortedOrdersBounds(r: SciQLopPlotRange)
    requires !IsNull(r)
    ensures Normalised(Sorted(r))
    ensures multiset{Sorted(r).first, Sorted(r).second} == multiset{r.first, r.second}
    ensures Sorted(Sorted(r)) == Sorted(r)
  {
  }

  /** The date constructor keeps a reversed pair reversed. */
  lemma FromDatesDoesNotReorder()
    ensures !Normalised(FromDates(10, 5)) && Normalised(Make(Some(10.0), Some(5.0)))
  {
  }

  /** A NaN range never compares equal, even to itself. */
  lemma NullNeverEqual(r: SciQLopPlotRange)
    requires IsNull(r)
    ensures NotEqual(r, r)
  {
  }

  /** The change-only range setters (`set_range` of plottables and axes): the range is stored and
    * `range_changed` emitted when `!=` holds, which for a range with a NaN bound is always. */
  function SetRangeNotified(p: Notified<SciQLopPlotRange>, r: SciQLopPlotRange): Notified<SciQLopPlotRange>
  {
    if NotEqual(p.value, r) then Notified(r, p.emitted + [r]) else p
  }

  /** A changed range is stored and emitted once; an equal one changes nothing and is then
    * already held bound for bound. Repeating a call is a no-op for a range of numbers, while a
    * range with a NaN bound is stored and emitted again on every call. */
  lemma SetRangeNotifiedProperties(p: Notified<SciQLopPlotRange>, r: SciQLopPlotRange)
    ensures NotEqual(p.value, r) ==> SetRangeNotified(p, r) == Notified(r, p.emitted + [r])
    ensures !NotEqual(p.value, r) ==> SetRangeNotified(p, r) == p && Equal(p.value, r)
    ensures !IsNull(r) ==> SetRangeNotified(SetRangeNotified(p, r), r) == SetRangeNotified(p, r)
    ensures IsNull(r) ==> SetRangeNotified(SetRangeNotified(p, r), r).emitted == SetRangeNotified(p, r).emitted + [r]
  {
  }
}
