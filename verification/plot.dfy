/**
 * The chart input derived from the session: one trace per stored spectrum with
 * its colour and legend name, the value-axis title with its linear/log scale
 * buttons, and the chart title.
 */
module Plot {
  import opened Wrappers
  import opened Types
  import Text

  /** The fixed trace colours, used in turn. */
  const Palette: seq<string> := [
    "#f50057", "#3f51b5", "#00bcd4", "#ffeb3b", "#ff9800", "#9c27b0", "#2196f3",
    "#009688", "#ff5722", "#795548", "#607d8b", "#e91e63", "#673ab7"]

  /** The quantity named on the value axis. */
  function ModeLabel(mode: string): (quantity: string)
    ensures quantity == "Absorbance" <==> mode == "absorbance"
    ensures quantity == "Transmittance" <==> "transmittance" <= mode
    ensures quantity == "Radiance" <==> "radiance" <= mode
    ensures quantity == "" <==> mode != "absorbance" && !("transmittance" <= mode) && !("radiance" <= mode)
  {
    PrefixesExclusive(mode);
    if mode == "absorbance" then "Absorbance"
    else if "transmittance" <= mode then "Transmittance"
    else if "radiance" <= mode then "Radiance"
    else ""
  }

  /** No mode starts with both "transmittance" and "radiance", and "absorbance" starts with neither. */
  lemma PrefixesExclusive(mode: string)
    ensures !("transmittance" <= mode && "radiance" <= mode)
    ensures mode == "absorbance" ==> !("transmittance" <= mode) && !("radiance" <= mode)
  {
    assert "transmittance" <= mode ==> |mode| > 0 && mode[0] == 't';
    assert "radiance" <= mode ==> |mode| > 0 && mode[0] == 'r';
  }

  /** The quantity label, followed by the units in parentheses only when there are units. */
  function AxisTitle(quantity: string, units: string): (title: string)
    ensures quantity <= title
    ensures title == quantity <==> units == []
  {
    quantity + (if |units| > 0 then " (" + units + ")" else "")
  }

  /** A title with units gives back its quantity label and its units. */
  lemma AxisTitleParts(quantity: string, units: string)
    requires units != []
    ensures var title := AxisTitle(quantity, units);
      && |title| == |quantity| + |units| + 3
      && title[..|quantity|] == quantity
      && title[|quantity|..|quantity| + 2] == " ("
      && title[|quantity| + 2..|title| - 1] == units
      && title[|title| - 1] == ')'
  {
    var title := AxisTitle(quantity, units);
    assert title == quantity + " (" + units + ")";
  }

  datatype Scale = Linear | Log

  /** The value-axis layout settings the chart uses. */
  datatype Axis = Axis(title: string, scale: Scale, autorange: bool, fixedrange: bool)

  /** The value axis for the current plot settings: linear, auto-ranged, not fixed. */
  function ValueAxis(settings: PlotSettings): (axis: Axis)
    ensures axis.title == AxisTitle(ModeLabel(settings.mode), settings.units)
    ensures ModeLabel(settings.mode) <= axis.title
    ensures axis.title == ModeLabel(settings.mode) <==> settings.units == []
    ensures axis.scale == Linear && axis.autorange && !axis.fixedrange
  {
    Axis(AxisTitle(ModeLabel(settings.mode), settings.units), Linear, true, false)
  }

  /** A relayout button: its caption and the axis it installs. */
  datatype ScaleButton = ScaleButton(caption: string, axis: Axis)

  /** The two buttons below the chart: the axis with a linear scale, then with a log scale. */
  function ScaleButtons(axis: Axis): (buttons: seq<ScaleButton>)
    ensures |buttons| == 2
    ensures buttons[0].caption == "Linear Scale" && buttons[1].caption == "Log Scale"
  {
    [ScaleButton("Linear Scale", axis.(scale := Linear)), ScaleButton("Log Scale", axis.(scale := Log))]
  }

  /** The two buttons install the same axis settings and differ only in the scale type. */
  lemma ScaleButtonsDifferOnlyInScale(axis: Axis)
    ensures var buttons := ScaleButtons(axis);
      && buttons[0].axis.(scale := axis.scale) == axis
      && buttons[1].axis.(scale := axis.scale) == axis
      && buttons[0].axis.scale == Linear && buttons[1].axis.scale == Log
  {
  }

  /** JavaScript truthiness of an optional number (NaN aside). */
  predicate Truthy(t: Option<real>)
  {
    t.Some? && t.value != 0.0
  }

  /** A template-string rendering of an optional number. */
  function ShowOptional(fmt: Formatting, t: Option<real>): string
  {
    if t.Some? then fmt.number(t.value) else "undefined"
  }

  /** One species as `molecule (χ=fraction)`, the molecule subscripted. */
  function SpeciesLabel(fmt: Formatting, s: Species): string
  {
    fmt.subscripts(s.molecule) + " (χ=" + fmt.number(s.moleFraction) + ")"
  }

  /** The species labels joined by ", ". */
  function SpeciesListLabel(fmt: Formatting, species: seq<Species>): string
  {
    Text.Join(seq(|species|, i requires 0 <= i < |species| => SpeciesLabel(fmt, species[i])), ", ")
  }

  /** The legend name without the non-equilibrium temperatures. */
  function BaseName(fmt: Formatting, s: Spectrum): string
  {
    SpeciesListLabel(fmt, s.species) + " " + fmt.upperCase(fmt.databaseName(s.database))
    + ", Pressure=" + fmt.number(s.pressure) + " bar, Tgas=" + fmt.number(s.tgas) + " K"
  }

  /** The legend name of a spectrum: the base name, then the temperatures exactly when `trot` is truthy. */
  function SpectrumName(fmt: Formatting, s: Spectrum): (name: string)
    ensures BaseName(fmt, s) <= name
    ensures name == BaseName(fmt, s) <==> !Truthy(s.trot)
    ensures Truthy(s.trot) ==>
      name[|BaseName(fmt, s)|..] == ", Trot=" + fmt.number(s.trot.value) + " K, Tvib=" + ShowOptional(fmt, s.tvib) + " K"
  {
    var base := BaseName(fmt, s);
    if Truthy(s.trot) then
      base + ", Trot=" + ShowOptional(fmt, s.trot) + " K, Tvib=" + ShowOptional(fmt, s.tvib) + " K"
    else
      base
  }

  /** A single species is named by itself, without any separator. */
  lemma SingleSpeciesLabel(fmt: Formatting, s: Species)
    ensures SpeciesListLabel(fmt, [s]) == fmt.subscripts(s.molecule) + " (χ=" + fmt.number(s.moleFraction) + ")"
  {
  }

  /** A chart trace: the samples passed through, a colour and a legend name. */
  datatype Trace = Trace(x: Option<seq<real>>, y: Option<seq<real>>, color: string, name: string)

  /** The trace for the spectrum at `index`. */
  function TraceAt(fmt: Formatting, s: Spectrum, index: nat): Trace
  {
    Trace(
      if s.data.Some? then Some(s.data.value.x) else None,
      if s.data.Some? then Some(s.data.value.y) else None,
      Palette[index % |Palette|],
      SpectrumName(fmt, s))
  }

  /** `spectra.map(...)`: one trace per spectrum, in the same order, built from it and its index. */
  function Traces(fmt: Formatting, spectra: seq<Spectrum>): (traces: seq<Trace>)
    ensures |traces| == |spectra|
    ensures forall i :: 0 <= i < |spectra| ==> traces[i] == TraceAt(fmt, spectra[i], i)
    decreases |spectra|
  {
    if spectra == [] then []
    else
      var n := |spectra| - 1;
      Traces(fmt, spectra[..n]) + [TraceAt(fmt, spectra[n], n)]
  }

  /**
   * The trace at index i passes the spectrum's samples through unchanged, takes
   * palette colour i mod 13 and the spectrum's legend name.
   */
  lemma TraceFields(fmt: Formatting, spectra: seq<Spectrum>, i: nat)
    requires i < |spectra|
    ensures var t := Traces(fmt, spectra)[i];
      && t.color == Palette[i % |Palette|]
      && t.name == SpectrumName(fmt, spectra[i])
      && (spectra[i].data.Some? ==> t.x == Some(spectra[i].data.value.x) && t.y == Some(spectra[i].data.value.y))
      && (spectra[i].data.None? ==> t.x.None? && t.y.None?)
  {
  }

  /** Appending a spectrum keeps every earlier trace, colour and name included, and adds one trace. */
  lemma TracesAppend(fmt: Formatting, spectra: seq<Spectrum>, s: Spectrum)
    ensures Traces(fmt, spectra + [s]) == Traces(fmt, spectra) + [TraceAt(fmt, s, |spectra|)]
  {
    assert (spectra + [s])[..|spectra|] == spectra;
  }

  /** No two palette entries are the same colour. */
  lemma PaletteDistinct(a: nat, b: nat)
    requires a < b < |Palette|
    ensures Palette[a] != Palette[b]
  {
  }

  /** Any thirteen consecutive spectra get thirteen different colours. */
  lemma ColorsDistinctInWindow(fmt: Formatting, spectra: seq<Spectrum>, i: nat, j: nat)
    requires i < j < |spectra| && j - i < |Palette|
    ensures Traces(fmt, spectra)[i].color != Traces(fmt, spectra)[j].color
  {
    var k := |Palette|;
    if i % k < j % k {
      PaletteDistinct(i % k, j % k);
    } else {
      PaletteDistinct(j % k, i % k);
    }
  }

  /** Colours repeat with the palette's period. */
  lemma ColorsRepeat(fmt: Formatting, spectra: seq<Spectrum>, i: nat)
    requires i + |Palette| < |spectra|
    ensures Traces(fmt, spectra)[i].color == Traces(fmt, spectra)[i + |Palette|].color
  {
    var k := |Palette|;
    assert (i + k) % k == i % k;
  }

  /** "Spectrum" for exactly one spectrum, "Spectra" otherwise. */
  function ChartTitle(count: nat): (title: string)
    ensures title == "Spectrum" <==> count == 1
    ensures title == "Spectrum" || title == "Spectra"
  {
    if count == 1 then "Spectrum" else "Spectra"
  }

  /** Everything the chart is given. */
  datatype Chart = Chart(traces: seq<Trace>, title: string, valueAxis: Axis, scaleButtons: seq<ScaleButton>)

  /** The chart for the session's spectra under the shared plot settings. */
  function ChartFor(fmt: Formatting, spectra: seq<Spectrum>, settings: PlotSettings): (chart: Chart)
    ensures chart.traces == Traces(fmt, spectra) && chart.valueAxis == ValueAxis(settings)
    ensures chart.scaleButtons == ScaleButtons(chart.valueAxis)
    ensures |chart.traces| == |spectra|
    ensures chart.title == "Spectrum" <==> |spectra| == 1
    ensures ModeLabel(settings.mode) <= chart.valueAxis.title && chart.valueAxis.scale == Linear
    ensures |chart.scaleButtons| == 2
    ensures forall k :: 0 <= k < 2 ==> chart.scaleButtons[k].axis.title == chart.valueAxis.title
  {
    var axis := ValueAxis(settings);
    Chart(Traces(fmt, spectra), ChartTitle(|spectra|), axis, ScaleButtons(axis))
  }
}
