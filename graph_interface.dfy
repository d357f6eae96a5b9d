/** `SciQLopGraphInterface` and `SciQLopPlottableInterface` (`src/SciQLopGraphInterface.cpp`): the
  * object name a new graph takes from the unique-name factory, the change-only range setter,
  * and the pipeline signal a function graph listens to. */
module GraphInterface {
  import opened Common
  import opened PlotRange
  import opened UniqueNames

  class PlottableInterface {
    /** `objectName()`. */
    var name: string
    /** `m_range` and the `range_changed` signals emitted so far. */
    var range: Notified<SciQLopPlotRange>

    /** The `SciQLopGraphInterface` constructor: the object is named with a fresh name for
      * `prefix`, and its range is the default (null) range. */
    constructor (prefix: string, factory: Factory)
      modifies factory
      ensures name !in old(factory.Used(prefix)) && factory.Used(prefix) == old(factory.Used(prefix)) + {name}
      ensures old(factory.Used(prefix)) == {} ==> name == prefix
      ensures range == Notified(NullRange(), [])
    {
      var n := factory.UniqueName(prefix);
      name := n;
      range := Notified(NullRange(), []);
    }

    /** `set_range`. */
    method SetRange(r: SciQLopPlotRange)
      modifies this
      ensures range == SetRangeNotified(old(range), r)
      ensures name == old(name)
    {
      if NotEqual(range.value, r) {
        range := Notified(r, range.emitted + [r]);
      }
    }

    /** `range()`. */
    function Range(): SciQLopPlotRange
      reads this
    {
      range.value
    }
  }

  /** The pipeline signal a `SciQLopFunctionGraph` connects to its graph's `set_data`. */
  datatype DataSignal = NewData2d | NewData3d | NewDataNd

  /** The `switch (N)` of the `SciQLopFunctionGraph` constructor. */
  function PipelineSignal(n: int): (s: DataSignal)
    ensures s == NewData2d <==> n == 2
    ensures s == NewData3d <==> n == 3
    ensures s == NewDataNd <==> n != 2 && n != 3
  {
    if n == 2 then NewData2d else if n == 3 then NewData3d else NewDataNd
  }
}
