/**
 * The pure parts of a submission in Form.tsx: the slit mode rewrite, the
 * classification of a calculate-spectrum reply, the spectrum entry and plot
 * settings built from it, and the download file name.
 */
module Submission {
  import opened Wrappers
  import opened Types
  import Text

  const AbsorbanceUnits := "-ln(I/I0)"
  const BadResponseMessage := "Bad response from backend!"

  /**
   * The mode sent to the backend: with the slit switch on, the `_noslit` modes
   * are replaced by their slit-convolved counterparts; everything else is kept.
   */
  function RewriteMode(mode: string, useSlit: bool): (sent: string)
    ensures useSlit && mode == "radiance_noslit" ==> sent == "radiance"
    ensures useSlit && mode == "transmittance_noslit" ==> sent == "transmittance"
    ensures !useSlit || (mode != "radiance_noslit" && mode != "transmittance_noslit") ==> sent == mode
  {
    if useSlit then
      var afterRadiance := if mode == "radiance_noslit" then "radiance" else mode;
      if afterRadiance == "transmittance_noslit" then "transmittance" else afterRadiance
    else
      mode
  }

  /** Rewriting an already rewritten mode changes nothing. */
  lemma RewriteModeIdempotent(mode: string, useSlit: bool)
    ensures RewriteMode(RewriteMode(mode, useSlit), useSlit) == RewriteMode(mode, useSlit)
  {
  }

  /** With the slit switch on, no `_noslit` mode of the mode selector reaches the backend. */
  lemma RewriteModeLeavesNoNoSlit(mode: string)
    requires mode in {"absorbance", "transmittance", "transmittance_noslit", "radiance", "radiance_noslit"}
    ensures RewriteMode(mode, true) in {"absorbance", "transmittance", "radiance"}
  {
  }

  /** The submitted values after the in-place rewrite of `mode`: nothing else differs. */
  function RewriteValues(data: FormValues, useSlit: bool): (sent: FormValues)
    ensures sent.(mode := data.mode) == data
    ensures sent.mode == RewriteMode(data.mode, useSlit)
  {
    data.(mode := RewriteMode(data.mode, useSlit))
  }

  /** How the form reads a calculate-spectrum reply. */
  datatype Verdict =
    | Malformed                        // neither `data` nor `error` present
    | BackendError(message: string)    // a truthy `error`
    | Accepted(reply: Option<SpectrumData>)
  {
    /** The text shown for a rejected reply. */
    function Message(): string
      requires !Accepted?
    {
      if Malformed? then BadResponseMessage else message
    }
  }

  /**
   * First the "both fields undefined" test, then the truthiness test on `error`:
   * an empty error string is falsy, so such a reply is accepted.
   */
  function Classify(response: Response): (v: Verdict)
    ensures v.Malformed? <==> response.data.None? && response.error.None?
    ensures v.BackendError? <==> response.error.Some? && response.error.value != ""
    ensures v.BackendError? ==> v.message == response.error.value
    ensures v.Accepted? ==> v.reply == response.data
  {
    if response.data.None? && response.error.None? then Malformed
    else if response.error.Some? && response.error.value != "" then BackendError(response.error.value)
    else Accepted(response.data)
  }

  /** A reply with neither field is the fixed "bad response" failure. */
  lemma EmptyReplyIsBadResponse()
    ensures Classify(Response(None, None)).Message() == BadResponseMessage
  {
  }

  /** A reply whose error is the empty string and that carries no data is still accepted. */
  lemma EmptyErrorWithoutDataIsAccepted()
    ensures Classify(Response(None, Some(""))) == Accepted(None)
  {
  }

  /** The new session entry: the submitted conditions with the reply layered on top. */
  function NewSpectrum(data: FormValues, reply: Option<SpectrumData>): (s: Spectrum)
    ensures s.species == data.species && s.database == data.database
    ensures s.tgas == data.tgas && s.trot == data.trot && s.tvib == data.tvib
    ensures s.pressure == data.pressure && s.data == reply
  {
    Spectrum(data.species, data.database, data.tgas, data.trot, data.tvib, data.pressure, reply)
  }

  /**
   * The plot settings set after an accepted reply, or `None` when evaluating
   * `response.data.units` fails because the reply had no payload.
   */
  function SettingsFor(mode: string, reply: Option<SpectrumData>): (settings: Option<PlotSettings>)
    ensures settings.Some? <==> "absorbance" <= mode || reply.Some?
    ensures settings.Some? ==> settings.value.mode == mode
    ensures settings.Some? && "absorbance" <= mode ==> settings.value.units == AbsorbanceUnits
    ensures settings.Some? && !("absorbance" <= mode) ==> settings.value.units == reply.value.units
  {
    if "absorbance" <= mode then Some(PlotSettings(mode, AbsorbanceUnits))
    else if reply.Some? then Some(PlotSettings(mode, reply.value.units))
    else None
  }

  /** The molecule names of the species list, in order. */
  function Molecules(species: seq<Species>): (names: seq<string>)
    ensures |names| == |species|
    ensures forall i :: 0 <= i < |species| ==> names[i] == species[i].molecule
  {
    seq(|species|, i requires 0 <= i < |species| => species[i].molecule)
  }

  /**
   * `{database}_{molecules}_{min}_{max}cm-1_{tgas}K_{pressure}atm.spec`, the
   * molecules joined by underscores.
   */
  function DownloadFileName(fmt: Formatting, data: FormValues): (name: string)
    ensures var prefix := fmt.databaseName(data.database) + "_" + Text.Join(Molecules(data.species), "_") + "_";
      && prefix <= name
      && name[|prefix|..] == fmt.number(data.minWavenumberRange) + "_" + fmt.number(data.maxWavenumberRange)
                             + "cm-1_" + fmt.number(data.tgas) + "K_" + fmt.number(data.pressure) + "atm.spec"
    ensures |name| >= 8 && name[|name| - 8..] == "atm.spec"
  {
    var n := fmt.number;
    fmt.databaseName(data.database) + "_" + Text.Join(Molecules(data.species), "_") + "_"
    + n(data.minWavenumberRange) + "_" + n(data.maxWavenumberRange) + "cm-1_"
    + n(data.tgas) + "K_" + n(data.pressure) + "atm.spec"
  }

  /**
   * The file name depends only on the database, the molecules, the wavenumber
   * range, tgas and pressure: mode, slit, mole fractions, trot/tvib and path
   * length never change it.
   */
  lemma DownloadFileNameDependsOnlyOn(fmt: Formatting, d1: FormValues, d2: FormValues)
    requires d1.database == d2.database && Molecules(d1.species) == Molecules(d2.species)
    requires d1.minWavenumberRange == d2.minWavenumberRange && d1.maxWavenumberRange == d2.maxWavenumberRange
    requires d1.tgas == d2.tgas && d1.pressure == d2.pressure
    ensures DownloadFileName(fmt, d1) == DownloadFileName(fmt, d2)
  {
  }

  /** In particular the slit rewrite never changes the file name. */
  lemma DownloadFileNameIgnoresRewrite(fmt: Formatting, data: FormValues, useSlit: bool)
    ensures DownloadFileName(fmt, RewriteValues(data, useSlit)) == DownloadFileName(fmt, data)
  {
    DownloadFileNameDependsOnlyOn(fmt, RewriteValues(data, useSlit), data);
  }

  /** Adding a species adds its molecule, after one more underscore, to the name's molecule segment. */
  lemma {:induction false} MoleculeSegmentAppend(species: seq<Species>, s: Species)
    requires species != []
    ensures Text.Join(Molecules(species + [s]), "_") == Text.Join(Molecules(species), "_") + "_" + s.molecule
  {
    assert Molecules(species + [s]) == Molecules(species) + [s.molecule];
    Text.JoinAppend(Molecules(species), s.molecule, "_");
  }
}
