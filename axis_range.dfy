/** `axis::range`: the (first, second) pair the legacy plot widgets use for an axis. Doubles are
  * modelled as reals. This older range type does not normalise its bounds on construction;
  * only `*=` rebuilds them around the centre, in increasing order. */
module AxisRange {
  import opened Common

  datatype Range = Range(first: real, second: real)

  /** The default-constructed range. */
  function Default(): (r: Range)
    ensures r.first == 0.0 && r.second == 0.0
  {
    Range(0.0, 0.0)
  }

  function Center(r: Range): real { (r.second + r.first) / 2.0 }

  function Width(r: Range): real { Abs(r.second - r.first) }

  /** The value `operator*=` leaves behind: the same centre, half-width `width * factor / 2`. */
  function Scaled(r: Range, factor: real): Range
  {
    var c := Center(r);
    var hw := Width(r) * factor / 2.0;
    Range(c - hw, c + hw)
  }

  /** The value `operator+=` leaves behind. */
  function Shifted(r: Range, offset: real): Range { Range(r.first + offset, r.second + offset) }

  /** The value `operator-=` leaves behind. */
  function ShiftedBack(r: Range, offset: real): Range { Range(r.first - offset, r.second - offset) }

  /** `operator==`: both bounds compare equal. */
  predicate Equal(a: Range, b: Range) { a.first == b.first && a.second == b.second }

  predicate NotEqual(a: Range, b: Range) { !Equal(a, b) }

  /** An `axis::range` variable, updated in place by the compound assignment operators. */
  class RangeVar {
    var first: real
    var second: real

    function Value(): Range reads this { Range(first, second) }

    /** The default constructor. */
    constructor Init()
      ensures Value() == Default()
    {
      first, second := 0.0, 0.0;
    }

    /** The `(lower, upper)` and copy constructors. */
    constructor (r: Range)
      ensures Value() == r
    {
      first, second := r.first, r.second;
    }

    /** `operator=`. */
    method Assign(other: Range)
      modifies this
      ensures Value() == other
    {
      first := other.first;
      second := other.second;
    }

    /** `operator*=`. */
    method ScaleBy(factor: real)
      modifies this
      ensures Value() == Scaled(old(Value()), factor)
    {
      var c := (second + first) / 2.0;
      var newHalfWidth := Abs(second - first) * factor / 2.0;
      first := c - newHalfWidth;
      second := c + newHalfWidth;
    }

    /** `operator+=`. */
    method AddOffset(offset: real)
      modifies this
      ensures Value() == Shifted(old(Value()), offset)
    {
      first := first + offset;
      second := second + offset;
    }

    /** `operator-=`. */
    method SubtractOffset(offset: real)
      modifies this
      ensures Value() == ShiftedBack(old(Value()), offset)
    {
      first := first - offset;
      second := second - offset;
    }

    /** The const `operator*`: scales a copy; `this` is not modified. */
    method Times(factor: real) returns (r: Range)
      ensures r == Scaled(Value(), factor)
      ensures Center(r) == Center(Value())
      ensures Width(r) == Width(Value()) * Abs(factor)
    {
      var copy := new RangeVar(Value());
      copy.ScaleBy(factor);
      r := copy.Value();
      ScaleKeepsCenter(Value(), factor);
    }

    /** The const `operator+`: shifts a copy. */
    method Plus(offset: real) returns (r: Range)
      ensures r == Shifted(Value(), offset)
      ensures Width(r) == Width(Value()) && Center(r) == Center(Value()) + offset
      ensures ShiftedBack(r, offset) == Value()
    {
      var copy := new RangeVar(Value());
      copy.AddOffset(offset);
      r := copy.Value();
    }

    /** The const `operator-`: shifts a copy back. */
    method Minus(offset: real) returns (r: Range)
      ensures r == ShiftedBack(Value(), offset)
      ensures Width(r) == Width(Value()) && Center(r) == Center(Value()) - offset
      ensures Shifted(r, offset) == Value()
    {
      var copy := new RangeVar(Value());
      copy.SubtractOffset(offset);
      r := copy.Value();
    }
  }

  // ---- properties ----

  /** Scaling keeps the centre and multiplies the width by `|factor|`. */
  lemma ScaleKeepsCenter(r: Range, factor: real)
    ensures Center(Scaled(r, factor)) == Center(r)
    ensures Width(Scaled(r, factor)) == Width(r) * Abs(factor)
  {
    var hw := Width(r) * factor / 2.0;
    var s := Scaled(r, factor);
    assert s.second - s.first == 2.0 * hw;
    assert Width(r) >= 0.0;
    if factor < 0.0 {
      assert 2.0 * hw == -(Width(r) * Abs(factor));
    } else {
      assert 2.0 * hw == Width(r) * Abs(factor);
    }
  }

  /** With a non-negative factor `*=` leaves the bounds in increasing order, whatever their order
    * before, since it rebuilds them from the centre and the absolute width. */
  lemma ScaleOrdersBounds(r: Range, factor: real)
    requires factor >= 0.0
    ensures Scaled(r, factor).first <= Scaled(r, factor).second
  {
  }

  /** `+=` followed by `-=` by the same offset gives back the range, and both keep the width. */
  lemma ShiftRoundTrip(r: Range, offset: real)
    ensures ShiftedBack(Shifted(r, offset), offset) == r
    ensures Shifted(ShiftedBack(r, offset), offset) == r
    ensures Width(Shifted(r, offset)) == Width(r) && Width(ShiftedBack(r, offset)) == Width(r)
  {
  }

  /** `==` holds exactly for identical bounds, and `!=` is its negation. */
  lemma EqualIff(a: Range, b: Range)
    ensures Equal(a, b) <==> a == b
    ensures NotEqual(a, b) <==> a != b
  {
  }
}
