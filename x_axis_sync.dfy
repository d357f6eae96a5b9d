/** `XAxisSynchronizer` (`src/XAxisSynchronizer.cpp`): after every change of a panel's plot
  * list only the last plot shows its x axis. The x-axis visibility of the plots is a map from
  * plot to flag here; the plot list holds `QPointer`s, so an entry may be null. */
module XAxisSync {
  import opened Common
  import opened MultiPlotObjects

  /** The loop of `_display_x_axis_only_last_plot`: the x axis of every non-null plot of `ps`
    * is hidden. */
  function Hidden(shown: map<PlotId, bool>, ps: seq<Option<PlotId>>): map<PlotId, bool>
    decreases |ps|
  {
    if ps == [] then shown
    else
      var before := Hidden(shown, ps[..|ps| - 1]);
      match ps[|ps| - 1]
      case None => before
      case Some(p) => before[p := false]
  }

  /** `_display_x_axis_only_last_plot`: every non-null plot hidden, then the last plot shown. */
  function OnlyLastShown(shown: map<PlotId, bool>, ps: seq<Option<PlotId>>): map<PlotId, bool>
    requires ps == [] || ps[|ps| - 1].Some?
  {
    if ps == [] then shown else Hidden(shown, ps)[ps[|ps| - 1].value := true]
  }

  /** The hiding loop hides exactly the non-null plots of the list and touches no other
    * plot. */
  lemma {:induction false} HiddenProperties(shown: map<PlotId, bool>, ps: seq<Option<PlotId>>)
    ensures forall p :: Some(p) in ps ==> p in Hidden(shown, ps) && !Hidden(shown, ps)[p]
    ensures forall p :: Some(p) !in ps ==>
              (p in Hidden(shown, ps) <==> p in shown) && (p in shown ==> Hidden(shown, ps)[p] == shown[p])
    decreases |ps|
  {
    if ps != [] {
      var init := ps[..|ps| - 1];
      HiddenProperties(shown, init);
      assert ps == init + [ps[|ps| - 1]];
      assert forall o :: o in ps <==> o in init || o == ps[|ps| - 1];
    }
  }

  /** After the display the last plot's x axis is visible, every other non-null plot's is
    * hidden, and the plots not in the list keep theirs; an empty list changes nothing. */
  lemma OnlyLastShownProperties(shown: map<PlotId, bool>, ps: seq<Option<PlotId>>)
    requires ps == [] || ps[|ps| - 1].Some?
    ensures ps == [] ==> OnlyLastShown(shown, ps) == shown
    ensures ps != [] ==> var last := ps[|ps| - 1].value;
              && last in OnlyLastShown(shown, ps) && OnlyLastShown(shown, ps)[last]
              && forall p :: Some(p) in ps && p != last ==>
                   p in OnlyLastShown(shown, ps) && !OnlyLastShown(shown, ps)[p]
    ensures forall p :: Some(p) !in ps ==>
              (p in OnlyLastShown(shown, ps) <==> p in shown)
              && (p in shown ==> OnlyLastShown(shown, ps)[p] == shown[p])
  {
    HiddenProperties(shown, ps);
  }

  /** Exactly one plot of a non-empty list shows its x axis. */
  lemma ExactlyOneShown(shown: map<PlotId, bool>, ps: seq<Option<PlotId>>, p: PlotId)
    requires ps != [] && ps[|ps| - 1].Some? && Some(p) in ps
    ensures p in OnlyLastShown(shown, ps) && (OnlyLastShown(shown, ps)[p] <==> p == ps[|ps| - 1].value)
  {
    OnlyLastShownProperties(shown, ps);
  }

  /** The synchronizer: `_plots`, and the x-axis visibility of every plot. */
  class XAxisSynchronizer {
    var plots: seq<Option<PlotId>>
    var shown: map<PlotId, bool>

    constructor (axes: map<PlotId, bool>)
      ensures plots == [] && shown == axes
    {
      plots, shown := [], axes;
    }

    /** `updatePlotList`: the base class stores the new list (its connection diffing is not
      * modelled), then only the last plot's x axis is shown. The last entry is dereferenced
      * without a null check, so it must not be null. */
    method UpdatePlotList(newPlots: seq<Option<PlotId>>)
      requires newPlots == [] || newPlots[|newPlots| - 1].Some?
      modifies this
      ensures plots == newPlots && shown == OnlyLastShown(old(shown), newPlots)
    {
      plots := newPlots;
      DisplayOnlyLast();
    }

    /** `_display_x_axis_only_last_plot`. */
    method DisplayOnlyLast()
      requires plots == [] || plots[|plots| - 1].Some?
      modifies this
      ensures plots == old(plots) && shown == OnlyLastShown(old(shown), plots)
    {
      for i := 0 to |plots|
        invariant plots == old(plots) && shown == Hidden(old(shown), plots[..i])
      {
        assert plots[..i + 1][..i] == plots[..i];
        if plots[i].Some? {
          shown := shown[plots[i].value := false];
        }
      }
      assert plots[..|plots|] == plots;
      if plots != [] {
        shown := shown[plots[|plots| - 1].value := true];
      }
    }
  }
}
