/** The axis wrappers of `src/SciQLopPlotAxis.cpp`: `SciQLopPlotAxis` over a guarded
  * `QPointer<QCPAxis>`, the stand-alone `SciQLopPlotDummyAxis`, and `SciQLopPlotColorScaleAxis`
  * over a colour scale. Every setter acts only on a live axis and only when the value differs;
  * acting queues one replot and emits the matching change signal. */
module PlotAxis {
  import opened Common
  import opened PlotRange
  import opened QcpEnums
  import PI = PlotInterface

  /** `Qt::Orientation` and `Qt::Axis`. */
  datatype Orientation = Horizontal | Vertical
  datatype QtAxis = QtXAxis | QtYAxis | QtZAxis

  /** `QCPAxis::AxisType`. */
  datatype QcpAxisType = AtLeft | AtRight | AtTop | AtBottom

  /** The fields of a `QCPAxis` the wrapper reads or writes. `selected` is the `spAxis` flag of
    * the selected parts, which the setter sets together with the tick and axis labels. */
  datatype QcpAxis = QcpAxis(lower: real, upper: real, visible: bool, log: bool, labelText: string,
                             tickLabels: bool, tickLabelPadding: int, padding: int,
                             basePenWidth: int, selected: bool, axisType: QcpAxisType)

  /** `QCPAxis::orientation()`: left and right axes are vertical. */
  function QcpOrientation(t: QcpAxisType): Orientation
  {
    if t == AtLeft || t == AtRight then Vertical else Horizontal
  }

  /** The signals of `SciQLopPlotAxisInterface`. */
  datatype AxisSignal =
    | VisibleChanged(visible: bool) | LogChanged(log: bool) | LabelChanged(text: string)
    | SelectionChanged(selected: bool) | TickLabelsVisibleChanged(tickLabels: bool)
    | ColorGradientChanged(gradient: ColorGradient)

  /** The paddings `set_tick_labels_visible` applies: 5 and 5 when the tick labels are shown,
    * otherwise 0 and `max(1, pen width)`. */
  function TickPaddings(visible: bool, penWidth: int): (p: (int, int))
    ensures visible ==> p == (5, 5)
    ensures !visible ==> p.0 == 0 && p.1 >= 1 && p.1 >= penWidth && (p.1 == 1 || p.1 == penWidth)
  {
    if visible then (5, 5) else (0, MaxInt(1, penWidth))
  }

  /** `anchor()` of a live axis. */
  function AnchorOf(t: QcpAxisType): (a: PI.AnchorPoint)
  {
    match t
    case AtLeft => PI.AnchorLeft
    case AtRight => PI.AnchorRight
    case AtTop => PI.AnchorTop
    case AtBottom => PI.AnchorBottom
  }

  /** The four axis types map one-to-one onto the four side anchors, keeping the side. */
  lemma AnchorOneToOne(s: QcpAxisType, t: QcpAxisType)
    ensures AnchorOf(s) == AnchorOf(t) <==> s == t
    ensures AnchorOf(s) !in {PI.AnchorHorizontalCenter, PI.AnchorVerticalCenter}
  {
  }

  class Axis {
    /** `m_axis`; `None` once the `QCPAxis` is destroyed. */
    var axis: Option<QcpAxis>
    var isTimeAxis: bool
    /** The change signals emitted so far, oldest first. */
    var emitted: seq<AxisSignal>
    /** Queued replots requested from the parent plot. */
    var replots: nat

    constructor (a: Option<QcpAxis>, isTime: bool)
      ensures axis == a && isTimeAxis == isTime && emitted == [] && replots == 0
    {
      axis, isTimeAxis, emitted, replots := a, isTime, [], 0;
    }

    /** `set_range`: a live axis takes a valid range; anything else is ignored. */
    method SetRange(r: SciQLopPlotRange)
      modifies this
      ensures old(axis).Some? && IsValid(r) ==>
                axis == Some(old(axis).value.(lower := r.first.value, upper := r.second.value)) &&
                replots == old(replots) + 1
      ensures !(old(axis).Some? && IsValid(r)) ==> axis == old(axis) && replots == old(replots)
      ensures emitted == old(emitted) && isTimeAxis == old(isTimeAxis)
    {
      if axis.Some? && IsValid(r) {
        axis := Some(axis.value.(lower := r.first.value, upper := r.second.value));
        replots := replots + 1;
      }
    }

    /** `set_visible`. */
    method SetVisible(v: bool)
      modifies this
      ensures old(axis).Some? && old(axis).value.visible != v ==>
                axis == Some(old(axis).value.(visible := v)) && emitted == old(emitted) + [VisibleChanged(v)] &&
                replots == old(replots) + 1
      ensures !(old(axis).Some? && old(axis).value.visible != v) ==> Unchanged(old(axis), old(emitted), old(replots))
      ensures isTimeAxis == old(isTimeAxis)
    {
      if axis.Some? && axis.value.visible != v {
        axis := Some(axis.value.(visible := v));
        replots := replots + 1;
        emitted := emitted + [VisibleChanged(v)];
      }
    }

    /** `set_log`: the scale type (and with it the ticker) switches. */
    method SetLog(log: bool)
      modifies this
      ensures old(axis).Some? && old(axis).value.log != log ==>
                axis == Some(old(axis).value.(log := log)) && emitted == old(emitted) + [LogChanged(log)] &&
                replots == old(replots) + 1
      ensures !(old(axis).Some? && old(axis).value.log != log) ==> Unchanged(old(axis), old(emitted), old(replots))
      ensures isTimeAxis == old(isTimeAxis)
    {
      if axis.Some? && axis.value.log != log {
        axis := Some(axis.value.(log := log));
        replots := replots + 1;
        emitted := emitted + [LogChanged(log)];
      }
    }

    /** `set_label`. */
    method SetLabel(text: string)
      modifies this
      ensures old(axis).Some? && old(axis).value.labelText != text ==>
                axis == Some(old(axis).value.(labelText := text)) && emitted == old(emitted) + [LabelChanged(text)] &&
                replots == old(replots) + 1
      ensures !(old(axis).Some? && old(axis).value.labelText != text) ==> Unchanged(old(axis), old(emitted), old(replots))
      ensures isTimeAxis == old(isTimeAxis)
    {
      if axis.Some? && axis.value.labelText != text {
        axis := Some(axis.value.(labelText := text));
        replots := replots + 1;
        emitted := emitted + [LabelChanged(text)];
      }
    }

    /** `set_selected`: selecting sets the axis, tick-label and label parts, deselecting clears
      * them; `selected()` reads the axis part. */
    method SetSelected(s: bool)
      modifies this
      ensures old(axis).Some? && old(axis).value.selected != s ==>
                axis == Some(old(axis).value.(selected := s)) && emitted == old(emitted) + [SelectionChanged(s)] &&
                replots == old(replots) + 1
      ensures !(old(axis).Some? && old(axis).value.selected != s) ==> Unchanged(old(axis), old(emitted), old(replots))
      ensures isTimeAxis == old(isTimeAxis)
    {
      if axis.Some? && Selected() != s {
        axis := Some(axis.value.(selected := s));
        replots := replots + 1;
        emitted := emitted + [SelectionChanged(s)];
      }
    }

    /** `set_tick_labels_visible`: the paddings follow `TickPaddings`. */
    method SetTickLabelsVisible(v: bool)
      modifies this
      ensures old(axis).Some? && old(axis).value.tickLabels != v ==>
                var p := TickPaddings(v, old(axis).value.basePenWidth);
                axis == Some(old(axis).value.(tickLabels := v, tickLabelPadding := p.0, padding := p.1)) &&
                emitted == old(emitted) + [TickLabelsVisibleChanged(v)] && replots == old(replots) + 1
      ensures !(old(axis).Some? && old(axis).value.tickLabels != v) ==> Unchanged(old(axis), old(emitted), old(replots))
      ensures isTimeAxis == old(isTimeAxis)
    {
      if axis.Some? && axis.value.tickLabels != v {
        var a := axis.value.(tickLabels := v);
        if !v {
          a := a.(tickLabelPadding := 0, padding := MaxInt(1, a.basePenWidth));
        } else {
          a := a.(tickLabelPadding := 5, padding := 5);
        }
        axis := Some(a);
        replots := replots + 1;
        emitted := emitted + [TickLabelsVisibleChanged(v)];
      }
    }

    /** Nothing of the axis, its signals or its replots changed. */
    predicate Unchanged(a: Option<QcpAxis>, e: seq<AxisSignal>, n: nat)
      reads this
    {
      axis == a && emitted == e && replots == n
    }

    /** `range()`: the null range without an axis. */
    function Range(): (r: SciQLopPlotRange)
      reads this
      ensures axis.None? ==> IsNull(r)
      ensures axis.Some? ==> !IsNull(r) && Le(r.first, r.second)
      ensures axis.Some? ==> multiset{r.first, r.second} == multiset{D(axis.value.lower), D(axis.value.upper)}
    {
      if axis.None? then NullRange() else Make(D(axis.value.lower), D(axis.value.upper))
    }

    function Visible(): bool reads this { axis.Some? && axis.value.visible }
    function Log(): bool reads this { axis.Some? && axis.value.log }
    function Label(): string reads this { if axis.Some? then axis.value.labelText else "" }
    function TickLabelsVisible(): bool reads this { axis.Some? && axis.value.tickLabels }
    function Selected(): bool reads this { axis.Some? && axis.value.selected }

    /** `orientation()`: Horizontal without an axis. */
    function GetOrientation(): Orientation
      reads this
    {
      if axis.None? then Horizontal else QcpOrientation(axis.value.axisType)
    }

    /** `axis()`: X for a horizontal axis (and without an axis), Y otherwise. */
    function GetAxis(): (q: QtAxis)
      reads this
      ensures q == QtXAxis <==> GetOrientation() == Horizontal
      ensures q != QtZAxis
    {
      if axis.None? then QtXAxis else if GetOrientation() == Horizontal then QtXAxis else QtYAxis
    }

    /** `anchor()`: Bottom without an axis. */
    function Anchor(): (a: PI.AnchorPoint)
      reads this
      ensures axis.None? ==> a == PI.AnchorBottom
      ensures axis.Some? ==> a == AnchorOf(axis.value.axisType)
    {
      if axis.None? then PI.AnchorBottom else AnchorOf(axis.value.axisType)
    }
  }

  /** Without a live axis every getter gives its default: a null range, false, an empty label,
    * Horizontal, X and AnchorBottom. */
  lemma NullAxisDefaults(a: Axis)
    requires a.axis.None?
    ensures IsNull(a.Range()) && !a.Visible() && !a.Log() && a.Label() == "" && !a.TickLabelsVisible() && !a.Selected()
    ensures a.GetOrientation() == Horizontal && a.GetAxis() == QtXAxis && a.Anchor() == PI.AnchorBottom
  {
  }

  /** A live axis reports X exactly when it is a top or bottom axis, and its anchor names its
    * side. */
  lemma LiveAxisSides(a: Axis)
    requires a.axis.Some?
    ensures a.GetAxis() == QtXAxis <==> a.axis.value.axisType in {AtTop, AtBottom}
    ensures a.Anchor() == PI.AnchorLeft <==> a.axis.value.axisType == AtLeft
    ensures a.Anchor() == PI.AnchorRight <==> a.axis.value.axisType == AtRight
  {
  }

  /** `SciQLopPlotDummyAxis`: only a range, stored by the change-only setter. */
  class DummyAxis {
    var range: Notified<SciQLopPlotRange>

    constructor ()
      ensures range == Notified(NullRange(), [])
    {
      range := Notified(NullRange(), []);
    }

    method SetRange(r: SciQLopPlotRange)
      modifies this
      ensures range == SetRangeNotified(old(range), r)
    {
      if NotEqual(range.value, r) {
        range := Notified(r, range.emitted + [r]);
      }
    }
  }

  /** The fields of a `QCPColorScale` the colour-scale axis reads or writes. */
  datatype ColorScale = ColorScale(dataLower: Double, dataUpper: Double, visible: bool, log: bool,
                                   labelText: string, selected: bool)

  /** `SciQLopPlotColorScaleAxis`. */
  class ColorScaleAxis {
    var scale: Option<ColorScale>
    var gradient: ColorGradient
    var emitted: seq<AxisSignal>
    var replots: nat
    /** `rescaleDataRange` calls made by gradient changes. */
    var rescales: nat

    constructor (s: Option<ColorScale>, g: ColorGradient)
      ensures scale == s && gradient == g && emitted == [] && replots == 0 && rescales == 0
    {
      scale, gradient, emitted, replots, rescales := s, g, [], 0, 0;
    }

    /** `set_range`: the data range is set when either bound differs (compared with `!=`, so a
      * NaN bound always differs). */
    method SetRange(r: SciQLopPlotRange)
      modifies this
      ensures old(scale).Some? && (!Eq(old(scale).value.dataLower, r.first) || !Eq(old(scale).value.dataUpper, r.second)) ==>
                scale == Some(old(scale).value.(dataLower := r.first, dataUpper := r.second)) && replots == old(replots) + 1
      ensures !(old(scale).Some? && (!Eq(old(scale).value.dataLower, r.first) || !Eq(old(scale).value.dataUpper, r.second))) ==>
                scale == old(scale) && replots == old(replots)
      ensures gradient == old(gradient) && emitted == old(emitted) && rescales == old(rescales)
    {
      if scale.Some? && (!Eq(scale.value.dataLower, r.first) || !Eq(scale.value.dataUpper, r.second)) {
        scale := Some(scale.value.(dataLower := r.first, dataUpper := r.second));
        replots := replots + 1;
      }
    }

    /** `set_color_gradient`: nothing happens without a scale or when the gradient is the
      * current one; otherwise the gradient is stored, the data range rescaled, and the change
      * emitted. */
    method SetColorGradient(g: ColorGradient)
      modifies this
      ensures old(scale).Some? && old(gradient) != g ==>
                gradient == g && emitted == old(emitted) + [ColorGradientChanged(g)] &&
                replots == old(replots) + 1 && rescales == old(rescales) + 1
      ensures !(old(scale).Some? && old(gradient) != g) ==>
                gradient == old(gradient) && emitted == old(emitted) && replots == old(replots) && rescales == old(rescales)
      ensures scale == old(scale)
    {
      if scale.Some? && gradient != g {
        gradient := g;
        rescales := rescales + 1;
        replots := replots + 1;
        emitted := emitted + [ColorGradientChanged(g)];
      }
    }

    /** `set_visible`, `set_log` and `set_label` of the colour scale: as on a plain axis, with
      * the data scale type for `log`. */
    method SetVisible(v: bool)
      modifies this
      ensures old(scale).Some? && old(scale).value.visible != v ==>
                scale == Some(old(scale).value.(visible := v)) && emitted == old(emitted) + [VisibleChanged(v)] &&
                replots == old(replots) + 1
      ensures !(old(scale).Some? && old(scale).value.visible != v) ==>
                scale == old(scale) && emitted == old(emitted) && replots == old(replots)
      ensures gradient == old(gradient) && rescales == old(rescales)
    {
      if scale.Some? && scale.value.visible != v {
        scale := Some(scale.value.(visible := v));
        replots := replots + 1;
        emitted := emitted + [VisibleChanged(v)];
      }
    }

    method SetLog(log: bool)
      modifies this
      ensures old(scale).Some? && old(scale).value.log != log ==>
                scale == Some(old(scale).value.(log := log)) && emitted == old(emitted) + [LogChanged(log)] &&
                replots == old(replots) + 1
      ensures !(old(scale).Some? && old(scale).value.log != log) ==>
                scale == old(scale) && emitted == old(emitted) && replots == old(replots)
      ensures gradient == old(gradient) && rescales == old(rescales)
    {
      if scale.Some? && scale.value.log != log {
        scale := Some(scale.value.(log := log));
        replots := replots + 1;
        emitted := emitted + [LogChanged(log)];
      }
    }

    method SetLabel(text: string)
      modifies this
      ensures old(scale).Some? && old(scale).value.labelText != text ==>
                scale == Some(old(scale).value.(labelText := text)) && emitted == old(emitted) + [LabelChanged(text)] &&
                replots == old(replots) + 1
      ensures !(old(scale).Some? && old(scale).value.labelText != text) ==>
                scale == old(scale) && emitted == old(emitted) && replots == old(replots)
      ensures gradient == old(gradient) && rescales == old(rescales)
    {
      if scale.Some? && scale.value.labelText != text {
        scale := Some(scale.value.(labelText := text));
        replots := replots + 1;
        emitted := emitted + [LabelChanged(text)];
      }
    }

    /** `range()`: the null range without a scale; otherwise the data range, ordered, or null
      * when its lower bound is NaN. */
    function Range(): (r: SciQLopPlotRange)
      reads this
      ensures scale.None? ==> IsNull(r)
      ensures scale.Some? && !IsNaN(scale.value.dataLower) && !IsNaN(scale.value.dataUpper) ==>
                !IsNull(r) && Le(r.first, r.second) &&
                multiset{r.first, r.second} == multiset{scale.value.dataLower, scale.value.dataUpper}
      ensures scale.Some? && IsNaN(scale.value.dataLower) ==> IsNull(r)
    {
      if scale.None? then NullRange() else Make(scale.value.dataLower, scale.value.dataUpper)
    }

    /** `orientation()`, `axis()` and `anchor()` do not depend on the state. */
    function GetOrientation(): Orientation { Vertical }
    function GetAxis(): QtAxis { QtZAxis }
    function Anchor(): PI.AnchorPoint { PI.AnchorLeft }
  }
}
