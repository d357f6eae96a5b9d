/** Shared vocabulary: optional values, error results, IEEE-like doubles with NaN made explicit,
  * and the C++ standard-library primitives the rest of the model uses. */
module Common {

  datatype Option<T> = None | Some(value: T)

  /** The outcome of an operation that may throw or report an error. */
  datatype Result<T> = Ok(value: T) | Err(error: string)

  /** A C++ `double`, with NaN as `None`. Infinities are not modelled. */
  type Double = Option<real>

  const NaN: Double := None

  function D(x: real): Double { Some(x) }

  predicate IsNaN(a: Double) { a.None? }

  /** IEEE comparisons: any comparison involving NaN is false. */
  predicate Eq(a: Double, b: Double) { a.Some? && b.Some? && a.value == b.value }
  predicate Ne(a: Double, b: Double) { !Eq(a, b) }
  predicate Lt(a: Double, b: Double) { a.Some? && b.Some? && a.value < b.value }
  predicate Le(a: Double, b: Double) { a.Some? && b.Some? && a.value <= b.value }

  /** IEEE arithmetic: NaN is absorbing. */
  function Add(a: Double, b: Double): Double { if a.Some? && b.Some? then Some(a.value + b.value) else None }
  function Sub(a: Double, b: Double): Double { if a.Some? && b.Some? then Some(a.value - b.value) else None }
  function Mul(a: Double, b: Double): Double { if a.Some? && b.Some? then Some(a.value * b.value) else None }
  /** Division; a zero divisor gives an infinity or NaN in IEEE arithmetic, both modelled as NaN. */
  function Div(a: Double, b: Double): Double
  {
    if a.Some? && b.Some? && b.value != 0.0 then Some(a.value / b.value) else None
  }

  /** `std::min(a, b)` is `(b < a) ? b : a`, so a NaN in first position wins and one in second
    * position loses. */
  function StdMin(a: Double, b: Double): Double { if Lt(b, a) then b else a }
  /** `std::max(a, b)` is `(a < b) ? b : a`. */
  function StdMax(a: Double, b: Double): Double { if Lt(a, b) then b else a }

  function Min(a: real, b: real): real { if b < a then b else a }
  function Max(a: real, b: real): real { if a < b then b else a }
  function Abs(a: real): real { if a < 0.0 then -a else a }

  function MinInt(a: int, b: int): int { if b < a then b else a }
  function MaxInt(a: int, b: int): int { if a < b then b else a }

  /** C++ integer division truncates toward zero (Dafny's `/` is Euclidean). */
  function TruncDiv(a: int, b: int): (q: int)
    requires b != 0
    ensures MaxInt(a - q * b, q * b - a) < MaxInt(b, -b)
    ensures a - q * b == 0 || (a - q * b > 0) == (a > 0)
  {
    var n, d := (if a >= 0 then a else -a), (if b >= 0 then b else -b);
    var q0 := n / d;
    EuclidBounds(n, d, q0);
    if (a >= 0) == (b >= 0) then q0 else -q0
  }

  /** The quotient of two naturals: the remainder is below the divisor, and the product's
    * sign rules for the quotient's negation. */
  lemma EuclidBounds(n: int, d: int, q0: int)
    requires n >= 0 && d > 0 && q0 == n / d
    ensures q0 >= 0 && q0 * d <= n < q0 * d + d
    ensures (-q0) * (-d) == q0 * d && (-q0) * d == -(q0 * d) && q0 * (-d) == -(q0 * d)
  {
  }

  /** `static_cast<int>` of a double: truncation toward zero. */
  function TruncReal(x: real): (n: int)
    ensures x >= 0.0 ==> n as real <= x < n as real + 1.0
    ensures x < 0.0 ==> n as real - 1.0 < x <= n as real
  {
    if x >= 0.0 then x.Floor else -((-x).Floor)
  }

  /** The number of elements of `s` equal to `x` (used for "append exactly one" statements). */
  function Count<T(==)>(s: seq<T>, x: T): nat
  {
    if s == [] then 0 else (if s[0] == x then 1 else 0) + Count(s[1..], x)
  }

  /** First index of `x` in `s`, or -1 (`QList::indexOf`). */
  function IndexOf<T(==)>(s: seq<T>, x: T): (i: int)
    ensures -1 <= i < |s|
    ensures i >= 0 ==> s[i] == x && forall j :: 0 <= j < i ==> s[j] != x
    ensures i == -1 <==> x !in s
  {
    if s == [] then -1
    else if s[0] == x then 0
    else var k := IndexOf(s[1..], x); if k == -1 then -1 else k + 1
  }

  /** `s` with position `i` removed (`QList::removeAt`). */
  function RemoveAt<T>(s: seq<T>, i: nat): (r: seq<T>)
    requires i < |s|
    ensures |r| == |s| - 1
    ensures forall j :: 0 <= j < i ==> r[j] == s[j]
    ensures forall j :: i <= j < |r| ==> r[j] == s[j + 1]
  {
    s[..i] + s[i + 1..]
  }

  /** `x` inserted at position `i` (`QList::insert`). */
  function InsertAt<T>(s: seq<T>, i: nat, x: T): (r: seq<T>)
    requires i <= |s|
    ensures |r| == |s| + 1 && r[i] == x
    ensures forall j :: 0 <= j < i ==> r[j] == s[j]
    ensures forall j :: i < j < |r| ==> r[j] == s[j - 1]
  {
    s[..i] + [x] + s[i..]
  }

  /** A Qt property whose setter acts and emits its change signal only when the value differs:
    * the current value and the values emitted so far, oldest first. */
  datatype Notified<T> = Notified(value: T, emitted: seq<T>)

  function SetNotified<T(==)>(p: Notified<T>, v: T): (q: Notified<T>)
  {
    if p.value == v then p else Notified(v, p.emitted + [v])
  }

  /** After the setter the property holds the argument; exactly one signal carrying it is emitted
    * when the value changed and none otherwise, and a repeated call is a no-op. */
  lemma SetNotifiedProperties<T>(p: Notified<T>, v: T)
    ensures SetNotified(p, v).value == v
    ensures p.value == v <==> SetNotified(p, v) == p
    ensures p.value != v ==> SetNotified(p, v).emitted == p.emitted + [v]
    ensures SetNotified(SetNotified(p, v), v) == SetNotified(p, v)
  {
  }

  /** `a * b` by repeated addition. Grid sizes and flat positions are written with it, so that
    * proofs about grids only meet the products through the lemmas below. */
  function Times(a: nat, b: nat): nat
  {
    if a == 0 then 0 else b + Times(a - 1, b)
  }

  lemma {:induction false} TimesMonotone(a: nat, c: nat, b: nat)
    requires a <= c
    ensures Times(a, b) <= Times(c, b)
    decreases c
  {
    if a < c {
      TimesMonotone(a, c - 1, b);
    }
  }

  lemma {:induction false} TimesSucc(a: nat, b: nat)
    ensures Times(a, b + 1) == Times(a, b) + a
  {
    if a > 0 {
      TimesSucc(a - 1, b);
    }
  }

  lemma {:induction false} TimesZero(a: nat)
    ensures Times(a, 0) == 0
  {
    if a > 0 {
      TimesZero(a - 1);
    }
  }

  lemma {:induction false} TimesCommutes(a: nat, b: nat)
    ensures Times(a, b) == Times(b, a)
    decreases b
  {
    if b > 0 {
      TimesCommutes(a, b - 1);
      TimesSucc(a, b - 1);
    } else {
      TimesZero(a);
    }
  }

  lemma {:induction false} TimesIsProduct(a: nat, b: nat)
    ensures Times(a, b) == a * b
  {
    if a > 0 {
      TimesIsProduct(a - 1, b);
      assert a * b == (a - 1) * b + b;
    }
  }
}
