/** The conversion tables between SciQLopPlots' enumerations and QCustomPlot's. The QCustomPlot
  * enumerations list every value QCustomPlot 2 defines, including those SciQLopPlots has no
  * counterpart for. */
module QcpEnums {

  datatype GraphMarkerShape =
    | NoMarker | Dot | Circle | Square | Triangle | Diamond | Star | Plus | Cross
    | FilledCircle | InvertedTriangle | CrossedSquare | PlusSquare | CrossedCircle | PlusCircle
    | Custom

  /** `QCPScatterStyle::ScatterShape`. */
  datatype ScatterShape =
    | SsNone | SsDot | SsCross | SsPlus | SsCircle | SsDisc | SsSquare | SsDiamond | SsStar
    | SsTriangle | SsTriangleInverted | SsCrossSquare | SsPlusSquare | SsCrossCircle
    | SsPlusCircle | SsPeace | SsPixmap | SsCustom

  /** `QCPAxis::ScaleType`. */
  datatype ScaleType = Linear | Logarithmic

  datatype GraphLineStyle = NoLine | Line | StepLeft | StepRight | StepCenter

  /** `QCPGraph::LineStyle`. */
  datatype QcpLineStyle = LsNone | LsLine | LsStepLeft | LsStepRight | LsStepCenter | LsImpulse

  datatype ColorGradient =
    | Grayscale | Hot | Cold | Night | Candy | Geography | Ion | Thermal | Polar | Spectrum | Jet
    | Hues

  /** `QCPColorGradient::GradientPreset`. */
  datatype GradientPreset =
    | GpGrayscale | GpHot | GpCold | GpNight | GpCandy | GpGeography | GpIon | GpThermal
    | GpPolar | GpSpectrum | GpJet | GpHues

  /** `LineTermination`; its `Circle`, `Diamond` and `Square` carry an `End` suffix here to keep
    * them apart from the marker shapes, and `SPikeArrow` is spelled `SpikeArrow`. */
  datatype LineTermination =
    | NoneTermination | Arrow | SpikeArrow | LineArrow | Bar | CircleEnd | DiamondEnd | SquareEnd
    | HalfBar | SkewedBar

  /** `QCPLineEnding::EndingStyle`. */
  datatype EndingStyle =
    | EsNone | EsFlatArrow | EsSpikeArrow | EsLineArrow | EsDisc | EsSquare | EsDiamond | EsBar
    | EsHalfBar | EsSkewedBar

  function MarkerToQcp(m: GraphMarkerShape): ScatterShape
  {
    match m
    case NoMarker => SsNone
    case Dot => SsDot
    case Circle => SsCircle
    case Square => SsSquare
    case Triangle => SsTriangle
    case Diamond => SsDiamond
    case Star => SsStar
    case Plus => SsPlus
    case Cross => SsCross
    case FilledCircle => SsDisc
    case InvertedTriangle => SsTriangleInverted
    case CrossedSquare => SsCrossSquare
    case PlusSquare => SsPlusSquare
    case CrossedCircle => SsCrossCircle
    case PlusCircle => SsPlusCircle
    case Custom => SsCustom
  }

  function MarkerFromQcp(s: ScatterShape): GraphMarkerShape
  {
    match s
    case SsNone => NoMarker
    case SsCircle => Circle
    case SsSquare => Square
    case SsTriangle => Triangle
    case SsDiamond => Diamond
    case SsStar => Star
    case SsPlus => Plus
    case SsCross => Cross
    case SsDisc => FilledCircle
    case SsTriangleInverted => InvertedTriangle
    case SsCrossSquare => CrossedSquare
    case SsPlusSquare => PlusSquare
    case SsCrossCircle => CrossedCircle
    case SsPlusCircle => PlusCircle
    case SsCustom => Custom
    case _ => NoMarker
  }

  function LineStyleToQcp(s: GraphLineStyle): QcpLineStyle
  {
    match s
    case Line => LsLine
    case StepLeft => LsStepLeft
    case StepRight => LsStepRight
    case StepCenter => LsStepCenter
    case _ => LsNone
  }

  function LineStyleFromQcp(s: QcpLineStyle): GraphLineStyle
  {
    match s
    case LsLine => Line
    case LsStepLeft => StepLeft
    case LsStepRight => StepRight
    case LsStepCenter => StepCenter
    case _ => NoLine
  }

  function GradientFromQcp(g: GradientPreset): ColorGradient
  {
    match g
    case GpGrayscale => Grayscale
    case GpHot => Hot
    case GpCold => Cold
    case GpNight => Night
    case GpCandy => Candy
    case GpGeography => Geography
    case GpIon => Ion
    case GpThermal => Thermal
    case GpPolar => Polar
    case GpSpectrum => Spectrum
    case GpJet => Jet
    case GpHues => Hues
  }

  function GradientToQcp(g: ColorGradient): GradientPreset
  {
    match g
    case Grayscale => GpGrayscale
    case Hot => GpHot
    case Cold => GpCold
    case Night => GpNight
    case Candy => GpCandy
    case Geography => GpGeography
    case Ion => GpIon
    case Thermal => GpThermal
    case Polar => GpPolar
    case Spectrum => GpSpectrum
    case Jet => GpJet
    case Hues => GpHues
  }

  function TerminationFromQcp(e: EndingStyle): LineTermination
  {
    match e
    case EsNone => NoneTermination
    case EsFlatArrow => Arrow
    case EsSpikeArrow => SpikeArrow
    case EsLineArrow => LineArrow
    case EsBar => Bar
    case EsDisc => CircleEnd
    case EsDiamond => DiamondEnd
    case EsSquare => SquareEnd
    case EsHalfBar => HalfBar
    case EsSkewedBar => SkewedBar
  }

  function TerminationToQcp(t: LineTermination): EndingStyle
  {
    match t
    case Arrow => EsFlatArrow
    case SpikeArrow => EsSpikeArrow
    case LineArrow => EsLineArrow
    case Bar => EsBar
    case CircleEnd => EsDisc
    case DiamondEnd => EsDiamond
    case SquareEnd => EsSquare
    case HalfBar => EsHalfBar
    case SkewedBar => EsSkewedBar
    case NoneTermination => EsNone
  }

  // ---- properties ----

  /** Every marker shape but `Dot` survives the round trip; `Dot` becomes `ssDot`, which
    * `from_qcp` does not list, and comes back as `NoMarker`. */
  lemma MarkerRoundTrip(m: GraphMarkerShape)
    ensures m != Dot ==> MarkerFromQcp(MarkerToQcp(m)) == m
    ensures MarkerFromQcp(MarkerToQcp(Dot)) == NoMarker
  {
  }

  /** The QCustomPlot shapes SciQLopPlots has no name for are read as `NoMarker`. */
  lemma UnknownScatterShapes(s: ScatterShape)
    ensures s in {SsDot, SsPeace, SsPixmap} ==> MarkerFromQcp(s) == NoMarker
    ensures MarkerFromQcp(s) == NoMarker <==> s in {SsNone, SsDot, SsPeace, SsPixmap}
  {
  }

  /** The line styles SciQLopPlots names round-trip; every other one goes to `lsNone` and comes
    * back as `NoLine`. */
  lemma LineStyleRoundTrip(s: GraphLineStyle, q: QcpLineStyle)
    ensures s != NoLine ==> LineStyleFromQcp(LineStyleToQcp(s)) == s
    ensures LineStyleFromQcp(LineStyleToQcp(NoLine)) == NoLine && LineStyleToQcp(NoLine) == LsNone
    ensures LineStyleFromQcp(LsImpulse) == NoLine
    ensures q != LsImpulse ==> LineStyleToQcp(LineStyleFromQcp(q)) == q
  {
  }

  /** The twelve gradient presets correspond one to one. */
  lemma GradientRoundTrip(g: ColorGradient, p: GradientPreset)
    ensures GradientFromQcp(GradientToQcp(g)) == g
    ensures GradientToQcp(GradientFromQcp(p)) == p
  {
  }

  /** The ten line terminations correspond one to one. */
  lemma TerminationRoundTrip(t: LineTermination, e: EndingStyle)
    ensures TerminationFromQcp(TerminationToQcp(t)) == t
    ensures TerminationToQcp(TerminationFromQcp(e)) == e
  {
  }

  /** `to_qcp` on marker shapes is injective: no two SciQLopPlots shapes share a QCustomPlot
    * shape. */
  lemma MarkerToQcpInjective(a: GraphMarkerShape, b: GraphMarkerShape)
    requires MarkerToQcp(a) == MarkerToQcp(b)
    ensures a == b
  {
  }
}
