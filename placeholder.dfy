/** Drag-and-drop placement of plots in a panel (`DragNDrop/PlaceHolderManager.hpp`): while a
  * drag hovers near the top or bottom of a plot, an empty placeholder widget is inserted above
  * or below it, and a drop on the placeholder asks for a new plot at its place. */
module PlaceHolders {
  import opened Common

  /** A widget of the panel's list: a plot, or a placeholder made by the manager (numbered in
    * the order they were made). */
  datatype Widget = Plot(id: nat) | Holder(serial: nat)

  /** A widget's geometry in the panel, in integer pixels (a `QRect`). */
  datatype Geometry = Geometry(top: int, height: int)

  /** `QRect::bottom`: the last row inside, one above top + height. */
  function BottomRow(g: Geometry): int { g.top + g.height - 1 }

  /** What is under the cursor: the index of the widget there (`index(pos)`, -1 for none),
    * that widget's geometry, and the cursor's height. */
  datatype Hover = Hover(under: int, geometry: Geometry, y: real)

  datatype Location = NoLocation | Top | Bottom

  /** `_compute_location`: Top when the cursor is above the upper fifth of the plot under it,
    * else Bottom when it is below the lower fifth (measured from `QRect::bottom`), else none;
    * none when no plot is under it. */
  function ComputeLocation(h: Hover): Location
  {
    if h.under != -1 then
      var g := h.geometry;
      if h.y < g.top as real + 0.2 * g.height as real then Top
      else if h.y > BottomRow(g) as real - 0.2 * g.height as real then Bottom
      else NoLocation
    else NoLocation
  }

  /** The three outcomes, each exactly characterised; Top wins where the two zones overlap
    * (plots under two pixels high). */
  lemma ComputeLocationCases(h: Hover)
    ensures ComputeLocation(h) == Top <==> h.under != -1 && h.y < h.geometry.top as real + 0.2 * h.geometry.height as real
    ensures ComputeLocation(h) == Bottom <==>
              && h.under != -1
              && h.y >= h.geometry.top as real + 0.2 * h.geometry.height as real
              && h.y > BottomRow(h.geometry) as real - 0.2 * h.geometry.height as real
    ensures h.under == -1 ==> ComputeLocation(h) == NoLocation
  {
  }

  /** A pointer in the middle three fifths of a plot gets no placeholder. */
  lemma MiddleHasNoLocation(h: Hover)
    requires h.under != -1 && h.geometry.height >= 5
    requires h.geometry.top as real + 0.2 * h.geometry.height as real <= h.y
    requires h.y <= BottomRow(h.geometry) as real - 0.2 * h.geometry.height as real
    ensures ComputeLocation(h) == NoLocation
  {
  }

  /** Where `_create_place_holder_if_needed` puts a placeholder: at 0 in an empty panel, at the
    * hovered index (at least 0) for Top, just after it for Bottom, nowhere otherwise. */
  function PlaceHolderIndex(empty: bool, h: Hover): (r: Option<int>)
    ensures empty ==> r == Some(0)
    ensures !empty && ComputeLocation(h) == Top ==> r == Some(MaxInt(0, h.under))
    ensures !empty && ComputeLocation(h) == Bottom ==> r == Some(h.under + 1)
    ensures !empty && ComputeLocation(h) == NoLocation ==> r.None?
  {
    if empty then Some(0)
    else match ComputeLocation(h)
      case Top => Some(MaxInt(0, h.under))
      case Bottom => Some(h.under + 1)
      case NoLocation => None
  }

  /** A hover over one of `n` widgets, or over none. */
  predicate HoverWithin(h: Hover, n: nat) { -1 <= h.under < n }

  /** The placeholder index is always a valid insertion point of the list. */
  lemma PlaceHolderIndexInRange(n: nat, h: Hover)
    requires HoverWithin(h, n)
    ensures var r := PlaceHolderIndex(n == 0, h); r.Some? ==> 0 <= r.value <= n
  {
  }

  /** Inserting a widget and then removing the first occurrence of it, when it was not in the
    * list, gives the list back. */
  lemma InsertThenRemove(s: seq<Widget>, i: nat, w: Widget)
    requires i <= |s| && w !in s
    ensures IndexOf(InsertAt(s, i, w), w) == i
    ensures RemoveAt(InsertAt(s, i, w), i) == s
  {
    var t := InsertAt(s, i, w);
    assert forall j :: 0 <= j < i ==> t[j] != w;
    assert RemoveAt(t, i) == s[..i] + s[i..];
    assert s[..i] + s[i..] == s;
  }

  /** `DropResult`. */
  datatype DropLocation = NewPlot | ExistingPlot
  datatype DropResult = DropResult(location: DropLocation, index: int)

  /** The widget list of the panel's collection: `insert_plot` and `remove_plot`, each
    * emitting `plot_list_changed`. */
  class PlotList {
    var widgets: seq<Widget>
    var changes: nat

    constructor (ws: seq<Widget>)
      ensures widgets == ws && changes == 0
    {
      widgets, changes := ws, 0;
    }

    method InsertPlot(i: nat, w: Widget)
      requires i <= |widgets|
      modifies this
      ensures widgets == InsertAt(old(widgets), i, w) && changes == old(changes) + 1
    {
      widgets := InsertAt(widgets, i, w);
      changes := changes + 1;
    }

    /** `removeOne`: the first occurrence goes, and the change is signalled only then. */
    method RemovePlot(w: Widget)
      modifies this
      ensures w in old(widgets) ==> widgets == RemoveAt(old(widgets), IndexOf(old(widgets), w)) && changes == old(changes) + 1
      ensures w !in old(widgets) ==> widgets == old(widgets) && changes == old(changes)
    {
      var i := IndexOf(widgets, w);
      if i != -1 {
        widgets := RemoveAt(widgets, i);
        changes := changes + 1;
      }
    }
  }

  /** `PlaceHolderManager`: the current placeholder (`_place_holder`, null when none), the
    * number of placeholders made, the minimum height given to the last one, and the panel's
    * widget list. */
  class PlaceHolderManager {
    const panel: PlotList
    const panelHeight: int
    var placeHolder: Option<Widget>
    var made: nat
    var holderMinHeight: int

    /** The current placeholder is a placeholder, it is in the list exactly once, and every
      * placeholder in the list was made by this manager. */
    ghost predicate Valid()
      reads this, panel
    {
      && (placeHolder.Some? ==> placeHolder.value.Holder? && placeHolder.value in panel.widgets
                                && Count(panel.widgets, placeHolder.value) == 1)
      && (forall i :: 0 <= i < |panel.widgets| && panel.widgets[i].Holder? ==> panel.widgets[i].serial < made)
    }

    /** The manager of a panel holding plots only. */
    constructor (p: PlotList, height: int)
      requires forall i :: 0 <= i < |p.widgets| ==> p.widgets[i].Plot?
      ensures Valid() && panel == p && panelHeight == height && placeHolder.None? && made == 0
    {
      panel, panelHeight := p, height;
      placeHolder, made, holderMinHeight := None, 0, 0;
    }

    /** `_create_place_holder`: a new placeholder, inserted at `i`, whose minimum height is nine
      * tenths of the panel's height shared out among the widgets and it, truncated to whole
      * pixels. */
    method CreatePlaceHolder(i: nat) returns (w: Widget)
      requires Valid() && i <= |panel.widgets|
      modifies this, panel
      ensures w == Holder(old(made)) && made == old(made) + 1 && w !in old(panel.widgets)
      ensures panel.widgets == InsertAt(old(panel.widgets), i, w)
      ensures holderMinHeight == TruncReal(0.9 * panelHeight as real / (1 + |old(panel.widgets)|) as real)
      ensures placeHolder == old(placeHolder)
      ensures forall j :: 0 <= j < |panel.widgets| && panel.widgets[j].Holder? ==> panel.widgets[j].serial < made
    {
      w := Holder(made);
      assert forall j :: 0 <= j < |panel.widgets| ==> panel.widgets[j] != w;
      holderMinHeight := TruncReal(0.9 * panelHeight as real / (1 + |panel.widgets|) as real);
      panel.InsertPlot(i, w);
      made := made + 1;
    }

    /** `_create_place_holder_if_needed`: a placeholder at `PlaceHolderIndex`, or none. */
    method CreatePlaceHolderIfNeeded(h: Hover) returns (r: Option<Widget>)
      requires Valid() && HoverWithin(h, |panel.widgets|)
      modifies this, panel
      ensures var at := PlaceHolderIndex(old(|panel.widgets|) == 0, h);
              && (at.None? <==> r.None?)
              && (at.None? ==> panel.widgets == old(panel.widgets) && made == old(made))
              && (at.Some? ==> r == Some(Holder(old(made))) && 0 <= at.value
                                 && panel.widgets == InsertAt(old(panel.widgets), at.value, r.value)
                                 && made == old(made) + 1)
      ensures placeHolder == old(placeHolder)
      ensures forall j :: 0 <= j < |panel.widgets| && panel.widgets[j].Holder? ==> panel.widgets[j].serial < made
    {
      var at := PlaceHolderIndex(|panel.widgets| == 0, h);
      PlaceHolderIndexInRange(|panel.widgets|, h);
      if at.Some? {
        var w := CreatePlaceHolder(at.value);
        r := Some(w);
      } else {
        r := None;
      }
    }

    /** `_remove_place_holder`: the placeholder leaves the list and the field is cleared. */
    method RemovePlaceHolder()
      requires Valid() && placeHolder.Some?
      modifies this, panel
      ensures Valid() && placeHolder.None? && made == old(made)
      ensures panel.widgets == RemoveAt(old(panel.widgets), IndexOf(old(panel.widgets), old(placeHolder.value)))
      ensures old(placeHolder.value) !in panel.widgets
    {
      var w := placeHolder.value;
      CountOneRemoved(panel.widgets, w);
      panel.RemovePlot(w);
      placeHolder := None;
    }

    /** `dragEnterEvent`: the placeholder is whatever `_create_place_holder_if_needed` gives; a
      * placeholder already there is not removed. */
    method DragEnter(h: Hover)
      requires Valid() && HoverWithin(h, |panel.widgets|)
      modifies this, panel
      ensures Valid()
      ensures var at := PlaceHolderIndex(old(|panel.widgets|) == 0, h);
              && (at.None? ==> placeHolder.None? && panel.widgets == old(panel.widgets))
              && (at.Some? ==> placeHolder == Some(Holder(old(made)))
                                 && panel.widgets == InsertAt(old(panel.widgets), at.value, Holder(old(made))))
    {
      var r := CreatePlaceHolderIfNeeded(h);
      NewHolderOnce(old(panel.widgets), panel.widgets, old(made), PlaceHolderIndex(old(|panel.widgets|) == 0, h));
      placeHolder := r;
    }

    /** `dragMoveEvent`: a placeholder is removed as soon as the mouse is off it, without a new
      * one on the same step; without one, one is made if the mouse position calls for one. */
    method DragMove(h: Hover)
      requires Valid() && HoverWithin(h, |panel.widgets|)
      modifies this, panel
      ensures Valid()
      ensures old(placeHolder).Some? && !(h.under != -1 && old(panel.widgets)[h.under] == old(placeHolder).value) ==>
                placeHolder.None? && made == old(made)
                && panel.widgets == RemoveAt(old(panel.widgets), IndexOf(old(panel.widgets), old(placeHolder).value))
      ensures old(placeHolder).Some? && h.under != -1 && old(panel.widgets)[h.under] == old(placeHolder).value ==>
                placeHolder == old(placeHolder) && panel.widgets == old(panel.widgets) && made == old(made)
      ensures old(placeHolder).None? ==>
                var at := PlaceHolderIndex(old(|panel.widgets|) == 0, h);
                && (at.None? ==> placeHolder.None? && panel.widgets == old(panel.widgets))
                && (at.Some? ==> placeHolder == Some(Holder(old(made)))
                                   && panel.widgets == InsertAt(old(panel.widgets), at.value, Holder(old(made))))
    {
      if placeHolder.Some? {
        var under := if h.under != -1 then Some(panel.widgets[h.under]) else None;
        if under != placeHolder {
          RemovePlaceHolder();
          return;
        }
      } else {
        DragEnter(h);
      }
    }

    /** `dragLeaveEvent`: any placeholder is removed. */
    method DragLeave()
      requires Valid()
      modifies this, panel
      ensures Valid() && placeHolder.None? && made == old(made)
      ensures old(placeHolder).Some? ==>
                panel.widgets == RemoveAt(old(panel.widgets), IndexOf(old(panel.widgets), old(placeHolder).value))
      ensures old(placeHolder).None? ==> panel.widgets == old(panel.widgets)
    {
      if placeHolder.Some? {
        RemovePlaceHolder();
      }
    }

    /** `dropEvent`: on a placeholder, a new plot at its index and the placeholder removed;
      * otherwise the existing plot under the cursor (`index_from_global_position`, given). */
    method Drop(cursorIndex: int) returns (r: DropResult)
      requires Valid()
      modifies this, panel
      ensures Valid() && placeHolder.None? && made == old(made)
      ensures old(placeHolder).Some? ==>
                && r == DropResult(NewPlot, IndexOf(old(panel.widgets), old(placeHolder).value))
                && 0 <= r.index < |old(panel.widgets)| && old(panel.widgets)[r.index] == old(placeHolder).value
                && panel.widgets == RemoveAt(old(panel.widgets), r.index)
      ensures old(placeHolder).None? ==> r == DropResult(ExistingPlot, cursorIndex) && panel.widgets == old(panel.widgets)
    {
      if placeHolder.Some? {
        var index := IndexOf(panel.widgets, placeHolder.value);
        RemovePlaceHolder();
        return DropResult(NewPlot, index);
      }
      return DropResult(ExistingPlot, cursorIndex);
    }
  }

  /** Removing the one occurrence of a widget leaves none, and keeps every other widget and its
    * count. */
  lemma CountOneRemoved(s: seq<Widget>, w: Widget)
    requires Count(s, w) == 1
    ensures w in s
    ensures w !in RemoveAt(s, IndexOf(s, w))
    ensures forall v :: v != w ==> Count(RemoveAt(s, IndexOf(s, w)), v) == Count(s, v)
  {
    CountPositive(s, w);
    var i := IndexOf(s, w);
    assert s == s[..i] + [w] + s[i + 1..];
    CountConcat(s[..i] + [w], s[i + 1..], w);
    CountConcat(s[..i], [w], w);
    assert Count([w], w) == 1;
    assert Count(s[..i], w) == 0 by { CountZero(s[..i], w); }
    CountZeroBack(s[i + 1..], w);
    forall v | v != w
      ensures Count(RemoveAt(s, i), v) == Count(s, v)
    {
      CountConcat(s[..i] + [w], s[i + 1..], v);
      CountConcat(s[..i], [w], v);
      CountConcat(s[..i], s[i + 1..], v);
      assert Count([w], v) == 0;
    }
    assert RemoveAt(s, i) == s[..i] + s[i + 1..];
    CountConcat(s[..i], s[i + 1..], w);
    CountZeroBack(RemoveAt(s, i), w);
  }

  /** Inserting a widget that was not in a list counts it once and keeps every other count. */
  lemma NewHolderOnce(before: seq<Widget>, after: seq<Widget>, serial: nat, at: Option<int>)
    requires at.Some? ==> 0 <= at.value <= |before| && Holder(serial) !in before && after == InsertAt(before, at.value, Holder(serial))
    ensures at.Some? ==> Count(after, Holder(serial)) == 1
    ensures at.Some? ==> forall v :: v != Holder(serial) ==> Count(after, v) == Count(before, v)
  {
    if at.Some? {
      var i, w := at.value, Holder(serial);
      assert after == before[..i] + [w] + before[i..];
      assert before == before[..i] + before[i..];
      forall v
        ensures Count(after, v) == Count(before, v) + (if v == w then 1 else 0)
      {
        CountConcat(before[..i] + [w], before[i..], v);
        CountConcat(before[..i], [w], v);
        CountConcat(before[..i], before[i..], v);
      }
      CountZero(before, w);
    }
  }

  lemma {:induction false} CountConcat(a: seq<Widget>, b: seq<Widget>, v: Widget)
    ensures Count(a + b, v) == Count(a, v) + Count(b, v)
    decreases |a|
  {
    if a == [] {
      assert a + b == b;
    } else {
      assert (a + b)[0] == a[0] && (a + b)[1..] == a[1..] + b;
      CountConcat(a[1..], b, v);
    }
  }

  lemma {:induction false} CountZero(s: seq<Widget>, v: Widget)
    ensures v !in s ==> Count(s, v) == 0
    decreases |s|
  {
    if s != [] {
      CountZero(s[1..], v);
    }
  }

  lemma {:induction false} CountZeroBack(s: seq<Widget>, v: Widget)
    ensures Count(s, v) == 0 ==> v !in s
    decreases |s|
  {
    if s != [] {
      CountZeroBack(s[1..], v);
    }
  }

  lemma {:induction false} CountPositive(s: seq<Widget>, v: Widget)
    ensures Count(s, v) > 0 ==> v in s
    decreases |s|
  {
    if s != [] {
      CountPositive(s[1..], v);
    }
  }
}
