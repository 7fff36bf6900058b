/**
 * The form component's session state: its own flags, the form values the
 * effects rewrite, and the session store it updates through its parent's
 * setters. Every handler and effect is a method; an effect runs only when its
 * dependency changes, as React runs it.
 */
module FormSession {
  import opened Wrappers
  import opened Types
  import opened Submission

  const DefaultSlitWidth: real := 5.0
  const NonEquilibriumTemperature: real := 300.0
  const DefaultSpecies: seq<Species> := [Species("CO", 0.1)]

  /** What the network delivers to a submission: a reply body, or a rejected request. */
  datatype Outcome = Received(response: Response) | RequestFailed

  class Form {
    // The component's own state.
    var isNonEquilibrium: bool
    var showNonEquilibriumSwitch: bool
    var useSlit: bool
    var useSimulateSlitFunction: bool
    var disableDownloadButton: bool
    var disableAddToPlotButton: bool
    // The form values the component reads or sets.
    var database: Option<Database>
    var mode: Option<string>
    var simulateSlit: Option<real>
    var useSimulateSlit: bool
    var trot: Option<real>
    var tvib: Option<real>
    var species: seq<Species>
    // The session store, owned by the parent and updated through its setters.
    var spectra: seq<Spectrum>
    var plotSettings: Option<PlotSettings>
    var error: Option<string>
    var loading: bool
    var progress: int

    /**
     * The gating rules every reachable state obeys: GEISA hides the
     * non-equilibrium switch and keeps equilibrium; trot/tvib exist only in
     * non-equilibrium; absorbance hides the slit controls and has no slit width;
     * the slit switch and its form field agree; the add-to-plot and download
     * buttons are enabled only once there is something to add to or download.
     */
    predicate Valid()
      reads this
    {
      && showNonEquilibriumSwitch == (database != Some(Geisa))
      && (database == Some(Geisa) ==> !isNonEquilibrium)
      && (!isNonEquilibrium ==> trot.None? && tvib.None?)
      && useSimulateSlitFunction == (mode != Some("absorbance"))
      && (!useSimulateSlitFunction ==> simulateSlit.None?)
      && (useSimulateSlitFunction && useSlit ==> simulateSlit.Some?)
      && useSimulateSlit == useSlit
      && (!disableAddToPlotButton ==> spectra != [])
      && (plotSettings.Some? ==> spectra != [])
      && (!disableDownloadButton ==> plotSettings.Some?)
    }

    /**
     * `data` is what `handleSubmit` passes on: the form's current values (the
     * other fields are the ones this model does not track).
     */
    predicate Submits(data: FormValues)
      reads this
    {
      && mode == Some(data.mode) && database == Some(data.database)
      && data.species == species && data.trot == trot && data.tvib == tvib
      && data.simulateSlit == simulateSlit && data.useSimulateSlit == useSimulateSlit
    }

    /** The first render and the three effects React runs at mount, in declaration order. */
    constructor (initialDatabase: Option<Database>, initialMode: Option<string>)
      ensures Valid()
      ensures database == initialDatabase && mode == initialMode && species == DefaultSpecies
      ensures !isNonEquilibrium && trot.None? && tvib.None?
      ensures showNonEquilibriumSwitch == (initialDatabase != Some(Geisa))
      ensures !useSlit && !useSimulateSlit
      ensures useSimulateSlitFunction == (initialMode != Some("absorbance"))
      ensures simulateSlit == if initialMode == Some("absorbance") then None else Some(DefaultSlitWidth)
      ensures disableDownloadButton && disableAddToPlotButton
      ensures spectra == [] && plotSettings.None? && error.None? && !loading && progress == 0
    {
      isNonEquilibrium, showNonEquilibriumSwitch := false, false;
      useSlit, useSimulateSlitFunction := false, false;
      disableDownloadButton, disableAddToPlotButton := true, true;
      database, mode := initialDatabase, initialMode;
      simulateSlit, useSimulateSlit := None, false;
      trot, tvib := None, None;
      species := DefaultSpecies;
      spectra, plotSettings, error, loading, progress := [], None, None, false, 0;
      new;
      DatabaseEffect();
      ModeEffect();
      NonEquilibriumEffect();
    }

    /** `setIsNonEquilibrium(checked)`, followed by the temperature effect when the value changes. */
    method SetNonEquilibrium(checked: bool)
      modifies this`isNonEquilibrium, this`trot, this`tvib
      ensures isNonEquilibrium == checked
      ensures checked != old(isNonEquilibrium) ==>
        trot == tvib == (if checked then Some(NonEquilibriumTemperature) else None)
      ensures checked == old(isNonEquilibrium) ==> trot == old(trot) && tvib == old(tvib)
    {
      var changed := checked != isNonEquilibrium;
      isNonEquilibrium := checked;
      if changed {
        NonEquilibriumEffect();
      }
    }

    /** The effect on `isNonEquilibrium`: fixed 300 K defaults on, both cleared off. */
    method NonEquilibriumEffect()
      modifies this`trot, this`tvib
      ensures isNonEquilibrium ==> trot == tvib == Some(NonEquilibriumTemperature)
      ensures !isNonEquilibrium ==> trot.None? && tvib.None?
    {
      if isNonEquilibrium {
        tvib := Some(NonEquilibriumTemperature);
        trot := Some(NonEquilibriumTemperature);
      } else {
        tvib := None;
        trot := None;
      }
    }

    /** The effect on `database`: GEISA forces equilibrium and hides the switch; others show it. */
    method DatabaseEffect()
      modifies this`isNonEquilibrium, this`showNonEquilibriumSwitch, this`trot, this`tvib
      ensures database == Some(Geisa) ==> !isNonEquilibrium && !showNonEquilibriumSwitch
      ensures database == Some(Geisa) && old(isNonEquilibrium) ==> trot.None? && tvib.None?
      ensures database != Some(Geisa) || !old(isNonEquilibrium) ==> trot == old(trot) && tvib == old(tvib)
      ensures database != Some(Geisa) ==> showNonEquilibriumSwitch && isNonEquilibrium == old(isNonEquilibrium)
    {
      if database == Some(Geisa) {
        SetNonEquilibrium(false);
        showNonEquilibriumSwitch := false;
      } else {
        showNonEquilibriumSwitch := true;
      }
    }

    /**
     * The effect on `mode`: absorbance hides the slit controls and clears the slit
     * width, any other mode shows them and overwrites the width with 5; both
     * disable add-to-plot. The slit switch itself is never touched.
     */
    method ModeEffect()
      modifies this`useSimulateSlitFunction, this`simulateSlit, this`disableAddToPlotButton
      ensures useSimulateSlitFunction == (mode != Some("absorbance"))
      ensures simulateSlit == if mode == Some("absorbance") then None else Some(DefaultSlitWidth)
      ensures disableAddToPlotButton
    {
      if mode == Some("absorbance") {
        useSimulateSlitFunction := false;
        simulateSlit := None;
      } else {
        useSimulateSlitFunction := true;
        simulateSlit := Some(DefaultSlitWidth);
      }
      disableAddToPlotButton := true;
    }

    /** The user picks a database; the effect fires only if it differs from the current one. */
    method ChangeDatabase(db: Database)
      requires Valid()
      modifies this`database, this`isNonEquilibrium, this`showNonEquilibriumSwitch, this`trot, this`tvib
      ensures Valid()
      ensures database == Some(db)
      ensures db == Geisa ==> !isNonEquilibrium && !showNonEquilibriumSwitch
      ensures db == Geisa && old(isNonEquilibrium) ==> trot.None? && tvib.None?
      ensures db != Geisa ==> showNonEquilibriumSwitch && isNonEquilibrium == old(isNonEquilibrium)
      ensures db != Geisa || !old(isNonEquilibrium) ==> trot == old(trot) && tvib == old(tvib)
    {
      if database != Some(db) {
        database := Some(db);
        DatabaseEffect();
      }
    }

    /** The user picks a mode; the effect fires only if it differs from the current one. */
    method ChangeMode(m: string)
      requires Valid()
      modifies this`mode, this`useSimulateSlitFunction, this`simulateSlit, this`disableAddToPlotButton
      ensures Valid()
      ensures mode == Some(m)
      ensures old(mode) == Some(m) ==>
        useSimulateSlitFunction == old(useSimulateSlitFunction) && simulateSlit == old(simulateSlit)
        && disableAddToPlotButton == old(disableAddToPlotButton)
      ensures old(mode) != Some(m) ==>
        useSimulateSlitFunction == (m != "absorbance")
        && simulateSlit == (if m == "absorbance" then None else Some(DefaultSlitWidth))
        && disableAddToPlotButton
    {
      if mode != Some(m) {
        mode := Some(m);
        ModeEffect();
      }
    }

    /** The non-equilibrium switch, which is rendered only while it is shown. */
    method ToggleNonEquilibrium(checked: bool)
      requires Valid() && showNonEquilibriumSwitch
      modifies this`isNonEquilibrium, this`trot, this`tvib
      ensures Valid()
      ensures isNonEquilibrium == checked
      ensures checked != old(isNonEquilibrium) ==>
        trot == tvib == (if checked then Some(NonEquilibriumTemperature) else None)
      ensures checked == old(isNonEquilibrium) ==> trot == old(trot) && tvib == old(tvib)
    {
      SetNonEquilibrium(checked);
    }

    /** The slit switch, rendered only while the mode allows a slit. */
    method ToggleSlit(checked: bool)
      requires Valid() && useSimulateSlitFunction
      modifies this`useSlit, this`useSimulateSlit, this`simulateSlit
      ensures Valid()
      ensures useSlit == checked && useSimulateSlit == checked
      ensures simulateSlit == if checked then Some(DefaultSlitWidth) else None
    {
      useSlit := checked;
      useSimulateSlit := checked;
      if checked {
        simulateSlit := Some(DefaultSlitWidth);
      } else {
        simulateSlit := None;
      }
    }

    /** The slit width field, rendered only while the slit controls and the slit switch are on. */
    method EditSlitWidth(width: real)
      requires Valid() && useSimulateSlitFunction && useSlit
      modifies this`simulateSlit
      ensures Valid()
      ensures simulateSlit == Some(width)
    {
      simulateSlit := Some(width);
    }

    /** The rotational temperature field, rendered only in non-equilibrium. */
    method EditTrot(t: Option<real>)
      requires Valid() && isNonEquilibrium
      modifies this`trot
      ensures Valid()
      ensures trot == t
    {
      trot := t;
    }

    /** The vibrational temperature field, rendered only in non-equilibrium. */
    method EditTvib(t: Option<real>)
      requires Valid() && isNonEquilibrium
      modifies this`tvib
      ensures Valid()
      ensures tvib == t
    {
      tvib := t;
    }

    /**
     * A calculate-spectrum submission (`append` for "Add to plot"), carried out
     * as one step with the reply given. Returns the values sent, after the
     * slit rewrite. A rejected reply leaves spectra and plot settings alone and
     * shows its message; an accepted one stores the new spectrum (replacing or
     * appending) and enables add-to-plot; the plot settings and download button
     * follow unless reading the reply's units fails, which abandons the rest of
     * the handler with loading still on.
     */
    method Calculate(data: FormValues, append: bool, outcome: Outcome) returns (sent: FormValues)
      requires Valid() && Submits(data)
      requires append ==> !disableAddToPlotButton
      modifies this`spectra, this`plotSettings, this`error, this`loading, this`progress,
        this`disableDownloadButton, this`disableAddToPlotButton
      ensures Valid()
      ensures sent == RewriteValues(data, useSlit)
      ensures sent.mode != data.mode ==> sent.useSimulateSlit && sent.simulateSlit.Some?
      ensures !isNonEquilibrium ==> sent.trot.None? && sent.tvib.None?
      ensures outcome.RequestFailed? ==>
        && spectra == old(spectra) && plotSettings == old(plotSettings)
        && error.None? && loading && progress == 30
        && disableDownloadButton && disableAddToPlotButton == old(disableAddToPlotButton)
      ensures outcome.Received? && !Classify(outcome.response).Accepted? ==>
        && spectra == old(spectra) && plotSettings == old(plotSettings)
        && error == Some(Classify(outcome.response).Message())
        && disableDownloadButton && disableAddToPlotButton == old(disableAddToPlotButton)
        && !loading && progress == 100
      ensures outcome.Received? && Classify(outcome.response).Accepted? ==>
        var reply := Classify(outcome.response).reply;
        && spectra == (if append then old(spectra) else []) + [NewSpectrum(sent, reply)]
        && !disableAddToPlotButton && error.None?
        && (SettingsFor(sent.mode, reply).Some? ==>
              plotSettings == SettingsFor(sent.mode, reply)
              && !disableDownloadButton && !loading && progress == 100)
        && (SettingsFor(sent.mode, reply).None? ==>
              plotSettings == old(plotSettings)
              && disableDownloadButton && loading && progress == 30)
    {
      sent := RewriteValues(data, useSlit);
      RewrittenRequestCarriesSlitWidth(this, data);
      disableDownloadButton := true;
      loading := true;
      error := None;
      progress := 30;
      if outcome.Received? {
        var verdict := Classify(outcome.response);
        if verdict.Accepted? {
          Accept(sent, append, verdict.reply);
        } else {
          Reject(verdict.Message());
        }
      }
    }

    /** A rejected reply: its message is shown and the download button stays disabled. */
    method Reject(message: string)
      requires Valid() && disableDownloadButton
      modifies this`error, this`loading, this`progress
      ensures Valid()
      ensures error == Some(message) && !loading && progress == 100
    {
      error := Some(message);
      progress := 100;
      loading := false;
    }

    /** An accepted reply: the spectrum is stored, then the plot settings, unless they cannot be read. */
    method Accept(sent: FormValues, append: bool, reply: Option<SpectrumData>)
      requires Valid() && disableDownloadButton && loading && progress == 30
      requires append ==> !disableAddToPlotButton
      modifies this`spectra, this`plotSettings, this`loading, this`progress,
        this`disableDownloadButton, this`disableAddToPlotButton
      ensures Valid()
      ensures spectra == (if append then old(spectra) else []) + [NewSpectrum(sent, reply)]
      ensures !disableAddToPlotButton
      ensures SettingsFor(sent.mode, reply).Some? ==>
        plotSettings == SettingsFor(sent.mode, reply) && !disableDownloadButton && !loading && progress == 100
      ensures SettingsFor(sent.mode, reply).None? ==>
        plotSettings == old(plotSettings) && disableDownloadButton && loading && progress == 30
    {
      spectra := (if append then spectra else []) + [NewSpectrum(sent, reply)];
      disableAddToPlotButton := false;
      var settings := SettingsFor(sent.mode, reply);
      if settings.Some? {
        plotSettings := settings;
        disableDownloadButton := false;
        progress := 100;
        loading := false;
      }
    }

    /**
     * A download-spectrum submission: returns the values sent and, once the file
     * arrives, the name it is saved under; the download button is enabled again
     * only then.
     */
    method Download(fmt: Formatting, data: FormValues, delivered: bool) returns (sent: FormValues, fileName: Option<string>)
      requires Valid() && Submits(data) && !disableDownloadButton
      modifies this`error, this`loading, this`progress, this`disableDownloadButton
      ensures Valid()
      ensures sent == RewriteValues(data, useSlit)
      ensures sent.mode != data.mode ==> sent.useSimulateSlit && sent.simulateSlit.Some?
      ensures error.None? && !loading
      ensures delivered ==> fileName == Some(DownloadFileName(fmt, sent)) && !disableDownloadButton && progress == 100
      ensures !delivered ==> fileName.None? && disableDownloadButton && progress == 30
    {
      sent := RewriteValues(data, useSlit);
      RewrittenRequestCarriesSlitWidth(this, data);
      disableDownloadButton := true;
      loading := true;
      error := None;
      progress := 30;
      loading := false;
      if !delivered {
        fileName := None;
        return;
      }
      fileName := Some(DownloadFileName(fmt, sent));
      disableDownloadButton := false;
      progress := 100;
    }
  }

  /**
   * The reason for the rewrite holds in every reachable state: a request whose
   * mode was rewritten to a slit mode carries the slit switch and a slit width,
   * and an equilibrium request carries no rotational or vibrational temperature.
   */
  lemma RewrittenRequestCarriesSlitWidth(form: Form, data: FormValues)
    requires form.Valid() && form.Submits(data)
    ensures var sent := RewriteValues(data, form.useSlit);
      && (sent.mode != data.mode ==> sent.useSimulateSlit && sent.simulateSlit.Some?)
      && (!form.isNonEquilibrium ==> sent.trot.None? && sent.tvib.None?)
  {
    var sent := RewriteValues(data, form.useSlit);
    if sent.mode != data.mode {
      assert form.useSlit;
      assert data.mode == "radiance_noslit" || data.mode == "transmittance_noslit";
      assert form.useSimulateSlitFunction;
    }
  }
}
