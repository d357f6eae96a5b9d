/** `SQPQCPAbstractPlottableWrapper` (`Plotables/QCPAbstractPlottableWrapper.hpp` and
  * `src/QCPAbstractPlottableWrapper.cpp`): the list of graph components behind one plottable, the
  * lookups into it, and the loops that name, colour, show and query its components. */
module PlottableWrapper {
  import opened Common
  import opened QtTypes
  import opened GraphComponent

  /** The part of a `QCPAbstractPlottable` that selection touches: its kind, the number of data
    * points and the selected data range, `None` for an empty selection. */
  datatype QcpPlottable = QcpPlottable(kind: PlottableKind, dataSize: nat, selection: Option<(nat, nat)>)

  /** `QCPAbstractPlottable::selected()`: the selection is not empty. */
  predicate IsSelected(p: QcpPlottable) { p.selection.Some? }

  /** `_set_selected`: nothing happens when the plottable is already in the requested state;
    * selecting takes the whole data range, deselecting clears the selection. */
  function SetSelectedOn(p: QcpPlottable, selected: bool): (r: QcpPlottable)
    ensures IsSelected(r) == selected
    ensures IsSelected(p) == selected ==> r == p
    ensures IsSelected(p) != selected && selected ==> r.selection == Some((0, p.dataSize))
    ensures r.kind == p.kind && r.dataSize == p.dataSize
  {
    if IsSelected(p) != selected then
      if selected then p.(selection := Some((0, p.dataSize))) else p.(selection := None)
    else p
  }

  /** The free `set_selected(QCPAbstractPlottable*, bool)`: graphs and curves are selected, any
    * other kind of plottable is left alone. */
  function SetSelectedPlottable(p: QcpPlottable, selected: bool): (r: QcpPlottable)
    ensures p.kind != OtherKind ==> IsSelected(r) == selected
    ensures p.kind == OtherKind ==> r == p
  {
    match p.kind
    case GraphKind => SetSelectedOn(p, selected)
    case CurveKind => SetSelectedOn(p, selected)
    case OtherKind => p
  }

  /** Selecting twice is selecting once. */
  lemma SetSelectedIdempotent(p: QcpPlottable, selected: bool)
    ensures SetSelectedPlottable(SetSelectedPlottable(p, selected), selected) == SetSelectedPlottable(p, selected)
  {
  }

  /** One `SciQLopGraphComponent` as the wrapper sees it. */
  datatype Part = Part(name: string, color: Color, visible: bool, selected: bool, plottable: QcpPlottable)

  /** The index `component(index)` reads, as written: the index is cast to an unsigned size
    * first, so -1 and every other negative index, like an index past the end, mean the last
    * component; with no components that is -1. */
  function ComponentIndexAsWritten(count: nat, index: int): int
  {
    if index == -1 || index < 0 || index >= count then count - 1 else index
  }

  /** As written the index read is inside the list exactly when the list is not empty. */
  lemma ComponentIndexOutOfRange(count: nat, index: int)
    ensures 0 <= ComponentIndexAsWritten(count, index) < count <==> count > 0
    ensures ComponentIndexAsWritten(0, index) == -1
  {
  }

  /** `component(index)` with the list access guarded: null for an empty list, otherwise the
    * component at `index`, or the last one for an index outside the list. */
  function ComponentAt(parts: seq<Part>, index: int): (r: Option<Part>)
    ensures r.Some? <==> |parts| > 0
    ensures r.Some? && 0 <= index < |parts| ==> r.value == parts[index]
    ensures r.Some? && !(0 <= index < |parts|) ==> r.value == parts[|parts| - 1]
  {
    if |parts| > 0 then Some(parts[ComponentIndexAsWritten(|parts|, index)]) else None
  }

  /** `component(name)`: the first component with that name, else null. */
  function ComponentNamed(parts: seq<Part>, name: string): (r: Option<nat>)
    ensures r.Some? ==> r.value < |parts| && parts[r.value].name == name &&
                        forall j :: 0 <= j < r.value ==> parts[j].name != name
    ensures r.None? ==> forall j :: 0 <= j < |parts| ==> parts[j].name != name
  {
    if |parts| == 0 then None
    else if parts[0].name == name then Some(0)
    else match ComponentNamed(parts[1..], name)
      case None => None
      case Some(k) => Some(k + 1)
  }

  class Wrapper {
    /** `m_components`. */
    var components: seq<Part>

    constructor ()
      ensures components == []
    {
      components := [];
    }

    /** `plottable_count()`. */
    function PlottableCount(): nat
      reads this
    {
      |components|
    }

    /** `_register_component`: exactly one component is appended. */
    method RegisterComponent(p: Part)
      modifies this
      ensures components == old(components) + [p]
      ensures PlottableCount() == old(PlottableCount()) + 1
    {
      components := components + [p];
    }

    /** `clear_plottables`. */
    method ClearPlottables()
      modifies this
      ensures components == [] && PlottableCount() == 0
    {
      components := [];
    }

    /** `qcp_plottables()`: the plottables of the components, in order. */
    method QcpPlottables() returns (ps: seq<QcpPlottable>)
      ensures |ps| == |components|
      ensures forall i :: 0 <= i < |ps| ==> ps[i] == components[i].plottable
    {
      ps := [];
      for i := 0 to |components|
        invariant |ps| == i
        invariant forall j :: 0 <= j < i ==> ps[j] == components[j].plottable
      {
        ps := ps + [components[i].plottable];
      }
    }

    /** `set_visible`: every component takes the state. */
    method SetVisible(visible: bool)
      modifies this
      ensures |components| == |old(components)|
      ensures forall i :: 0 <= i < |components| ==> components[i] == old(components)[i].(visible := visible)
    {
      var i := 0;
      while i < |components|
        invariant 0 <= i <= |components| == |old(components)|
        invariant forall j :: 0 <= j < i ==> components[j] == old(components)[j].(visible := visible)
        invariant forall j :: i <= j < |components| ==> components[j] == old(components)[j]
      {
        components := components[i := components[i].(visible := visible)];
        i := i + 1;
      }
    }

    /** `set_labels`: throws unless there is one label per component; otherwise component `i`
      * is named `labels[i]`. */
    method SetLabels(labels: seq<string>) returns (r: Result<()>)
      modifies this
      ensures r.Err? <==> |labels| != |old(components)|
      ensures r.Err? ==> components == old(components)
      ensures r.Ok? ==> |components| == |labels|
      ensures r.Ok? ==> forall i :: 0 <= i < |labels| ==> components[i] == old(components)[i].(name := labels[i])
    {
      if |labels| != |components| {
        return Err("Invalid number of labels");
      }
      var i := 0;
      while i < |components|
        invariant 0 <= i <= |components| == |old(components)| == |labels|
        invariant forall j :: 0 <= j < i ==> components[j] == old(components)[j].(name := labels[j])
        invariant forall j :: i <= j < |components| ==> components[j] == old(components)[j]
      {
        components := components[i := components[i].(name := labels[i])];
        i := i + 1;
      }
      r := Ok(());
    }

    /** `set_colors`: throws unless there is one colour per component; otherwise component `i`
      * takes `colors[i]`. */
    method SetColors(colors: seq<Color>) returns (r: Result<()>)
      modifies this
      ensures r.Err? <==> |colors| != |old(components)|
      ensures r.Err? ==> components == old(components)
      ensures r.Ok? ==> |components| == |colors|
      ensures r.Ok? ==> forall i :: 0 <= i < |colors| ==> components[i] == old(components)[i].(color := colors[i])
    {
      if |colors| != |components| {
        return Err("Invalid number of colors");
      }
      var i := 0;
      while i < |components|
        invariant 0 <= i <= |components| == |old(components)| == |colors|
        invariant forall j :: 0 <= j < i ==> components[j] == old(components)[j].(color := colors[j])
        invariant forall j :: i <= j < |components| ==> components[j] == old(components)[j]
      {
        components := components[i := components[i].(color := colors[i])];
        i := i + 1;
      }
      r := Ok(());
    }

    /** `visible()`: at least one component is visible. */
    method Visible() returns (v: bool)
      ensures v <==> exists i :: 0 <= i < |components| && components[i].visible
    {
      for i := 0 to |components|
        invariant forall j :: 0 <= j < i ==> !components[j].visible
      {
        if components[i].visible {
          return true;
        }
      }
      return false;
    }

    /** `labels()`: the component names, in order. */
    method Labels() returns (labels: seq<string>)
      ensures |labels| == |components|
      ensures forall i :: 0 <= i < |labels| ==> labels[i] == components[i].name
    {
      labels := [];
      for i := 0 to |components|
        invariant |labels| == i
        invariant forall j :: 0 <= j < i ==> labels[j] == components[j].name
      {
        labels := labels + [components[i].name];
      }
    }

    /** `set_selected`: the loop over the components is commented out in the source, so
      * nothing changes and `selection_changed` is never emitted. */
    method SetSelected(selected: bool) returns (emitted: bool)
      ensures !emitted
    {
      var changed := false;
      emitted := changed;
    }

    /** `selected()`: at least one component is selected. */
    method Selected() returns (s: bool)
      ensures s <==> exists i :: 0 <= i < |components| && components[i].selected
    {
      for i := 0 to |components|
        invariant forall j :: 0 <= j < i ==> !components[j].selected
      {
        if components[i].selected {
          return true;
        }
      }
      return false;
    }
  }
}
