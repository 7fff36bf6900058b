/**
 * Client runs of the form and the plot, stated only through their contracts:
 * the slit rewrite reaching the request, two stored spectra and their colours,
 * a malformed reply, and a mode switch to absorbance with the slit switch on.
 */
module Scenarios {
  import opened Wrappers
  import opened Types
  import opened Submission
  import opened FormSession
  import Plot

  /** The values `handleSubmit` passes on for the form's current state. */
  function ValuesOf(form: Form): (data: FormValues)
    reads form
    requires form.database.Some? && form.mode.Some?
    ensures form.Submits(data)
  {
    FormValues(form.database.value, form.mode.value, form.species, 2000.0, 2400.0, 300.0,
               form.trot, form.tvib, 1.0, "bar", 1.0, "cm", form.useSimulateSlit, form.simulateSlit)
  }

  /** HITEMP in radiance_noslit with the slit switch on is sent as radiance. */
  method SlitRewriteReachesRequest(reply: Response) returns (sentMode: string, slit: Option<real>)
    ensures sentMode == "radiance"
    ensures slit == Some(DefaultSlitWidth)
  {
    var form := new Form(None, None);
    form.ChangeDatabase(Hitemp);
    form.ChangeMode("radiance_noslit");
    form.ToggleSlit(true);
    var sent := form.Calculate(ValuesOf(form), false, Received(reply));
    sentMode, slit := sent.mode, sent.simulateSlit;
  }

  /** A calculation and then an "Add to plot": the session holds both spectra, in that order. */
  method CalculateThenAdd(first: SpectrumData, second: SpectrumData) returns (spectra: seq<Spectrum>)
    ensures |spectra| == 2 && spectra[0].data == Some(first) && spectra[1].data == Some(second)
  {
    var form := new Form(Some(Hitemp), Some("radiance_noslit"));
    var data := ValuesOf(form);
    var _ := form.Calculate(data, false, Received(Response(Some(first), None)));
    var _ := form.Calculate(data, true, Received(Response(Some(second), None)));
    spectra := form.spectra;
  }

  /** Those two spectra are drawn as two traces with the first two palette colours. */
  method TwoSpectraTwoColours(fmt: Formatting, first: SpectrumData, second: SpectrumData)
    returns (colours: seq<string>, xs: seq<Option<seq<real>>>)
    ensures colours == [Plot.Palette[0], Plot.Palette[1]] && colours[0] != colours[1]
    ensures xs == [Some(first.x), Some(second.x)]
  {
    var spectra := CalculateThenAdd(first, second);
    var traces := Plot.Traces(fmt, spectra);
    assert traces[0] == Plot.TraceAt(fmt, spectra[0], 0);
    assert traces[1] == Plot.TraceAt(fmt, spectra[1], 1);
    Plot.PaletteDistinct(0, 1);
    colours := [traces[0].color, traces[1].color];
    xs := [traces[0].x, traces[1].x];
  }

  /** A reply with neither data nor error leaves the session as it was and shows the fixed message. */
  method MalformedReplyKeepsSession(data: SpectrumData)
    returns (before: seq<Spectrum>, after: seq<Spectrum>, shown: Option<string>, downloadDisabled: bool)
    ensures |before| == 1 && after == before
    ensures shown == Some(BadResponseMessage) && downloadDisabled
  {
    var form := new Form(Some(Geisa), Some("absorbance"));
    var _ := form.Calculate(ValuesOf(form), false, Received(Response(Some(data), None)));
    before := form.spectra;
    var _ := form.Calculate(ValuesOf(form), false, Received(Response(None, None)));
    after, shown, downloadDisabled := form.spectra, form.error, form.disableDownloadButton;
  }

  /** Switching to absorbance clears the slit width but leaves the slit switch on. */
  method AbsorbanceKeepsSlitSwitch() returns (slitSwitch: bool, slitField: bool, width: Option<real>)
    ensures slitSwitch && slitField && width.None?
  {
    var form := new Form(Some(Hitemp), Some("transmittance_noslit"));
    form.ToggleSlit(true);
    form.ChangeMode("absorbance");
    slitSwitch, slitField, width := form.useSlit, form.useSimulateSlit, form.simulateSlit;
  }
}
