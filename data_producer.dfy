/** `DataProviderInterface` (`src/DataProducer.cpp`, `DataProducer/DataProducer.hpp`): range
  * requests are coalesced behind a pending flag, and the update slot fetches data for the last
  * requested range only when it differs from the current one. */
module DataProducer {
  import opened Common

  /** `_TrivialRange`: two doubles compared with the C++ `==`, so a NaN bound never matches. */
  datatype TrivialRange = TrivialRange(lower: Double, upper: Double)

  predicate RangeEq(a: TrivialRange, b: TrivialRange)
  {
    Eq(a.lower, b.lower) && Eq(a.upper, b.upper)
  }

  /** A range equals itself exactly when neither bound is NaN. */
  lemma RangeEqReflexive(r: TrivialRange)
    ensures RangeEq(r, r) <==> r.lower.Some? && r.upper.Some?
  {
  }

  /** A buffer returned by the Python callable, by identity. */
  datatype Buffer = Buffer(id: nat)

  /** What one fetch produces: a `new_data_2d` or `new_data_3d` signal, or the message on the
    * error stream for a list of any other non-zero size. */
  datatype Output = NewData2d(x: Buffer, y: Buffer) | NewData3d(x: Buffer, y: Buffer, z: Buffer) | InvalidData

  /** The emissions for the buffers `get_data` returned. */
  function OutputsOf(r: seq<Buffer>): (o: seq<Output>)
    ensures |r| == 0 <==> o == []
    ensures |r| == 2 ==> o == [NewData2d(r[0], r[1])]
    ensures |r| == 3 ==> o == [NewData3d(r[0], r[1], r[2])]
    ensures |r| != 0 && |r| != 2 && |r| != 3 <==> o == [InvalidData]
  {
    if |r| == 2 then [NewData2d(r[0], r[1])]
    else if |r| == 3 then [NewData3d(r[0], r[1], r[2])]
    else if |r| != 0 then [InvalidData]
    else []
  }

  /** The provider's state: `m_next_range`, `m_current_range`, `m_has_pending_range`, the number
    * of `_range_changed` signals emitted, the ranges fetched with `get_data` and the outputs,
    * oldest first. */
  datatype State = State(next: TrivialRange, current: TrivialRange, pending: bool, signals: nat,
                         fetches: seq<TrivialRange>, outputs: seq<Output>)

  /** `set_range`. */
  function SetRangeStep(s: State, r: TrivialRange): State
  {
    if s.pending then s.(next := r) else s.(next := r, pending := true, signals := s.signals + 1)
  }

  /** The next range is always stored; `_range_changed` is emitted exactly when no update was
    * pending, and afterwards one is; nothing is fetched. */
  lemma SetRangeStepProperties(s: State, r: TrivialRange)
    ensures SetRangeStep(s, r).next == r && SetRangeStep(s, r).pending
    ensures SetRangeStep(s, r).signals == if s.pending then s.signals else s.signals + 1
    ensures SetRangeStep(s, r).current == s.current
    ensures SetRangeStep(s, r).fetches == s.fetches && SetRangeStep(s, r).outputs == s.outputs
  {
  }

  /** `_threaded_update`, with `get_data` as the function `getData` of the requested range. */
  function UpdateStep(s: State, getData: TrivialRange -> seq<Buffer>): State
  {
    var t := s.(pending := false);
    if RangeEq(s.next, s.current) then t
    else t.(current := s.next, fetches := s.fetches + [s.next], outputs := s.outputs + OutputsOf(getData(s.next)))
  }

  /** The update clears the pending flag; it fetches nothing when the next range equals the
    * current one, and otherwise fetches the next range once, makes it current and emits what the
    * buffers call for. */
  lemma UpdateStepProperties(s: State, getData: TrivialRange -> seq<Buffer>)
    ensures !UpdateStep(s, getData).pending && UpdateStep(s, getData).next == s.next
    ensures UpdateStep(s, getData).signals == s.signals
    ensures RangeEq(s.next, s.current) ==> UpdateStep(s, getData) == s.(pending := false)
    ensures !RangeEq(s.next, s.current) ==>
              && UpdateStep(s, getData).current == s.next
              && UpdateStep(s, getData).fetches == s.fetches + [s.next]
              && UpdateStep(s, getData).outputs == s.outputs + OutputsOf(getData(s.next))
  {
  }

  /** Several `set_range` calls in a row. */
  function SetRanges(s: State, rs: seq<TrivialRange>): State
    decreases |rs|
  {
    if rs == [] then s else SetRangeStep(SetRanges(s, rs[..|rs| - 1]), rs[|rs| - 1])
  }

  /** A burst of requests stores the last one and emits at most one signal: one when no update
    * was pending before it, none otherwise. */
  lemma {:induction false} SetRangesCoalesce(s: State, rs: seq<TrivialRange>)
    requires rs != []
    ensures SetRanges(s, rs).next == rs[|rs| - 1] && SetRanges(s, rs).pending
    ensures SetRanges(s, rs).signals == if s.pending then s.signals else s.signals + 1
    ensures SetRanges(s, rs).current == s.current
    ensures SetRanges(s, rs).fetches == s.fetches && SetRanges(s, rs).outputs == s.outputs
    decreases |rs|
  {
    var init := rs[..|rs| - 1];
    if init != [] {
      SetRangesCoalesce(s, init);
    }
  }

  /** Several `set_range` calls before one update cause a single fetch, of the last range, or
    * none when it is the current range. */
  lemma BurstFetchesLast(s: State, rs: seq<TrivialRange>, getData: TrivialRange -> seq<Buffer>)
    requires rs != []
    ensures var last := rs[|rs| - 1];
            UpdateStep(SetRanges(s, rs), getData).fetches ==
              if RangeEq(last, s.current) then s.fetches else s.fetches + [last]
  {
    SetRangesCoalesce(s, rs);
  }

  /** A second update with no request in between fetches nothing, unless a bound is NaN. */
  lemma UpdateTwice(s: State, getData: TrivialRange -> seq<Buffer>)
    requires s.next.lower.Some? && s.next.upper.Some?
    ensures UpdateStep(UpdateStep(s, getData), getData).fetches == UpdateStep(s, getData).fetches
  {
  }

  class DataProvider {
    var next: TrivialRange
    var current: TrivialRange
    var pending: bool
    /** `_range_changed` emissions not yet delivered to the queued `_threaded_update`. */
    var queued: nat
    var signals: nat
    var fetches: seq<TrivialRange>
    var outputs: seq<Output>

    function Current(): State
      reads this
    {
      State(next, current, pending, signals, fetches, outputs)
    }

    /** The queued connection holds one call to deliver exactly while an update is pending. */
    ghost predicate Valid()
      reads this
    {
      queued <= 1 && (queued == 1 <==> pending)
    }

    /** The constructor. `m_next_range` and `m_current_range` are left uninitialised by the
      * source, so they are parameters here. */
    constructor (next0: TrivialRange, current0: TrivialRange)
      ensures Valid() && Current() == State(next0, current0, false, 0, [], [])
    {
      next, current, pending, queued, signals := next0, current0, false, 0, 0;
      fetches, outputs := [], [];
    }

    /** `set_range`: the request is stored under the mutex and `_range_changed` emitted (and
      * queued to the update slot) only when no update is pending. */
    method SetRange(r: TrivialRange)
      requires Valid()
      modifies this
      ensures Valid() && Current() == SetRangeStep(old(Current()), r)
      ensures queued == (if old(pending) then old(queued) else old(queued) + 1)
    {
      next := r;
      if !pending {
        pending := true;
        signals := signals + 1;
        queued := queued + 1;
      }
    }

    /** `_threaded_update`. */
    method ThreadedUpdate(getData: TrivialRange -> seq<Buffer>)
      modifies this
      ensures Current() == UpdateStep(old(Current()), getData) && queued == old(queued)
    {
      var newRange := next;
      pending := false;
      if RangeEq(newRange, current) {
        return;
      }
      var r := getData(newRange);
      fetches := fetches + [newRange];
      current := newRange;
      if |r| == 2 {
        outputs := outputs + [NewData2d(r[0], r[1])];
      } else if |r| == 3 {
        outputs := outputs + [NewData3d(r[0], r[1], r[2])];
      } else if |r| != 0 {
        outputs := outputs + [InvalidData];
      }
    }

    /** The event loop delivering one queued `_range_changed` to `_threaded_update`. */
    method Deliver(getData: TrivialRange -> seq<Buffer>)
      requires Valid() && queued > 0
      modifies this
      ensures Valid() && queued == 0 && Current() == UpdateStep(old(Current()), getData)
    {
      queued := queued - 1;
      ThreadedUpdate(getData);
    }
  }
}
