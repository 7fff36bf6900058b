# radis-app frontend: session state, request shaping and plot input

A Dafny model of the logic in the web frontend of a spectroscopy simulation app. The user
configures a simulation: line database, display mode, gas conditions, species and the
instrument slit. They submit it to a calculation backend, collect the returned spectra and
plot them. The model covers three things:

- **The form's session state** (`FormSession.Form`, from `frontend/src/components/Form.tsx`).
  These are the component's flags: non-equilibrium, the non-equilibrium switch, the slit
  switch, the slit controls, the download button and the add-to-plot button. Beside them sit
  the form values the effects rewrite and the session store updated through the parent's
  setters: spectra, plot settings, error, loading and progress.
  - Each React effect and each handler is a method.
  - An effect fires only when its dependency changes.
  - `Valid()` holds the gating rules that every reachable state keeps, among them: the
    slit controls and the slit switch both on imply a slit width is set.
  - A submission sends the form's current values (`Form.Submits`).
  - A submission is one sequential step, with the network's answer given as an input.
  - The pure parts of a submission are in `Submission`: the slit mode rewrite, reading a
    reply, the new spectrum entry, the plot settings and the download file name.
- **The chart input** (`Plot`, from `frontend/src/components/Plot.tsx`): the mode label, the
  value-axis title, the linear/log scale buttons, one trace per spectrum with its legend name
  and its palette colour, and the chart title.
- **The molecule picker rule** (`MoleculeSelector`, from
  `frontend/src/components/fields/MoleculeSelector/MoleculeSelector.tsx`): which list of
  molecules is offered, and how values move between the form and the picker.

`Scenarios` runs the form and the plot as a client would. It proves what a caller can
conclude from the contracts alone.

Numbers are `real`s that are never computed with. JavaScript's number-to-string,
`toUpperCase`, the molecule subscript conversions and the database enum's string value are
the function fields of `Types.Formatting`. They are left uninterpreted. The molecule lists
are the parameter `MoleculeSelector.MoleculeLists`.

Behaviour as the code has it, which the model follows:
- Turning non-equilibrium on sets `trot` and `tvib` to the constant 300, not to the gas
  temperature.
- Every change to a mode other than absorbance overwrites `simulate_slit` with 5, even when
  the user had set another width.
- A change to absorbance hides the slit controls and clears `simulate_slit`. It does not turn
  off the slit switch or `use_simulate_slit` (`Scenarios.AbsorbanceKeepsSlitSwitch`).
- Every mode change disables "Add to plot".
- At mount the mode effect runs too. Unless the initial mode is absorbance, `simulate_slit`
  is 5 while the slit switch is off.
- The slit rewrite is keyed on the slit switch state, not on the submitted
  `use_simulate_slit`.
- A reply is malformed only when both `data` and `error` are absent. An `error` counts only
  when it is truthy. So a reply whose error is the empty string is accepted, even with no
  data (`Submission.EmptyErrorWithoutDataIsAccepted`). With no data and a mode that does not
  start with "absorbance", reading `response.data.units` throws. The spectrum entry has
  already been stored and add-to-plot enabled. The plot settings are not updated, download
  stays disabled, and loading stays on at progress 30. `Form.Calculate` states this path.
- The y-axis label is "Absorbance" only for the exact mode `absorbance`. The absorbance units
  `-ln(I/I0)`, however, apply to every mode that starts with "absorbance".

## Model

| member | source | states |
|---|---|---|
| `Text.JoinAppend` | frontend/src/components/Form.tsx:102 | joining one more part appends exactly one separator and that part |
| `Submission.RewriteMode` | frontend/src/components/Form.tsx:93-100 | with the slit switch on, `radiance_noslit` becomes `radiance` and `transmittance_noslit` becomes `transmittance`; every other mode, and every mode with the switch off, is sent unchanged |
| `Submission.RewriteModeIdempotent` | frontend/src/components/Form.tsx:93-100 | applying the rewrite twice is the same as applying it once |
| `Submission.RewriteModeLeavesNoNoSlit` | frontend/src/components/Form.tsx:93-100 | with the slit switch on, no `_noslit` mode of the five is sent |
| `Submission.RewriteValues` | frontend/src/components/Form.tsx:93-100 | the in-place rewrite changes the submitted `mode` and no other submitted value |
| `Submission.Classify` | frontend/src/components/Form.tsx:120-131 | a reply is malformed exactly when it has neither `data` nor `error`; it is a backend error exactly when `error` is a non-empty string, whose text is kept verbatim; otherwise it is accepted with its `data` |
| `Submission.EmptyReplyIsBadResponse` | frontend/src/components/Form.tsx:120-125 | the reply `{}` shows the fixed text "Bad response from backend!" |
| `Submission.EmptyErrorWithoutDataIsAccepted` | frontend/src/components/Form.tsx:120-131 | a reply with an empty error string and no data passes both tests and is accepted |
| `Submission.NewSpectrum` | frontend/src/components/Form.tsx:134-142 | the stored entry copies the submitted species, database, tgas, trot, tvib and pressure, and carries the reply's payload |
| `Submission.SettingsFor` | frontend/src/components/Form.tsx:145-150 | the plot settings keep the submitted mode; their units are `-ln(I/I0)` when the mode starts with "absorbance" and the reply's units otherwise; there are none when the units cannot be read from a reply without data |
| `Submission.Molecules` | frontend/src/components/Form.tsx:102 | the molecule names of the species list, one per species, in order |
| `Submission.DownloadFileName` | frontend/src/components/Form.tsx:176 | the file name is, in order: the database, `_`, the molecules joined by `_`, `_`, the minimum wavenumber, `_`, the maximum wavenumber, `cm-1_`, tgas, `K_`, the pressure and `atm.spec` |
| `Submission.DownloadFileNameDependsOnlyOn` | frontend/src/components/Form.tsx:176 | two submissions with the same database, molecules, wavenumber range, tgas and pressure get the same file name, whatever their other values |
| `Submission.DownloadFileNameIgnoresRewrite` | frontend/src/components/Form.tsx:93-102 | the slit rewrite never changes the download file name |
| `Submission.MoleculeSegmentAppend` | frontend/src/components/Form.tsx:102 | one more species adds an underscore and its molecule to the end of the file name's molecule segment |
| `FormSession.Form.constructor` | frontend/src/components/Form.tsx:50-83 | the initial state after mount: species `[CO, 0.1]`, equilibrium, no trot/tvib, slit switch off, the switch shown unless the database is GEISA, the slit controls and `simulate_slit = 5` unless the mode is absorbance, both buttons disabled, an empty session |
| `FormSession.Form.SetNonEquilibrium` | frontend/src/components/Form.tsx:193-201 | setting the flag runs the temperature effect only when the value changes: on gives trot = tvib = 300, off clears both |
| `FormSession.Form.NonEquilibriumEffect` | frontend/src/components/Form.tsx:193-201 | non-equilibrium gives trot = tvib = 300; equilibrium clears both |
| `FormSession.Form.DatabaseEffect` | frontend/src/components/Form.tsx:64-71 | GEISA forces equilibrium and hides the switch, and clears trot/tvib if non-equilibrium was on; any other database shows the switch and keeps the flag |
| `FormSession.Form.ModeEffect` | frontend/src/components/Form.tsx:74-83 | absorbance disables the slit controls and clears `simulate_slit`; any other mode enables them and sets `simulate_slit = 5`; add-to-plot is disabled either way; the slit switch is not touched |
| `FormSession.Form.ChangeDatabase` | frontend/src/components/Form.tsx:64-71 | a database pick keeps the gating invariant; GEISA gives equilibrium with the switch hidden, any other database shows the switch and keeps the flag; re-picking the same one changes nothing |
| `FormSession.Form.ChangeMode` | frontend/src/components/Form.tsx:73-83 | a new mode applies the mode effect and keeps the invariant; re-picking the current mode changes nothing else |
| `FormSession.Form.ToggleNonEquilibrium` | frontend/src/components/Form.tsx:203-213 | the switch, available only while shown, sets the flag; on gives trot = tvib = 300, off clears them |
| `FormSession.Form.ToggleSlit` | frontend/src/components/Form.tsx:216-241 | the switch, available only while the slit controls are shown, sets both the switch state and `use_simulate_slit` to the checked value; checked gives `simulate_slit = 5`, unchecked clears it |
| `FormSession.Form.EditSlitWidth` | frontend/src/components/Form.tsx:318-324 | the slit width can be edited only while the slit controls and the switch are on |
| `FormSession.Form.EditTrot` | frontend/src/components/Form.tsx:267-276 | trot can be edited only in non-equilibrium |
| `FormSession.Form.EditTvib` | frontend/src/components/Form.tsx:267-276 | tvib can be edited only in non-equilibrium |
| `FormSession.RewrittenRequestCarriesSlitWidth` | frontend/src/components/Form.tsx:74-100 | in every reachable state, a request whose mode the slit rewrite changed carries `use_simulate_slit` and a slit width, and an equilibrium request carries neither trot nor tvib |
| `FormSession.Form.Calculate` | frontend/src/components/Form.tsx:88-157 | sends the form's current values with the slit rewrite applied, so a rewritten request carries a slit width and an equilibrium request no trot/tvib; a failed request leaves loading on at progress 30; a rejected reply keeps spectra and plot settings, keeps download disabled and shows its message; an accepted reply makes spectra `old + [new]` when appending and `[new]` otherwise, clears the error and enables add-to-plot; with readable units it sets the plot settings, enables download and ends at progress 100 with loading off |
| `FormSession.Form.Reject` | frontend/src/components/Form.tsx:120-131 | a rejected reply shows its message and ends at progress 100 with loading off |
| `FormSession.Form.Accept` | frontend/src/components/Form.tsx:132-156 | an accepted reply stores the spectrum (appended or replacing) and enables add-to-plot, then sets the plot settings and enables download unless the units cannot be read |
| `FormSession.Form.Download` | frontend/src/components/Form.tsx:159-189 | available only while download is enabled; sends the form's current values with the slit rewrite applied (a rewritten request carries a slit width), turns loading off, and on delivery gives the file name and re-enables download at progress 100 |
| `Plot.ModeLabel` | frontend/src/components/Plot.tsx:33-40 | "Absorbance" exactly for the mode `absorbance`; "Transmittance" exactly for modes starting with "transmittance"; "Radiance" exactly for modes starting with "radiance"; empty otherwise |
| `Plot.PrefixesExclusive` | frontend/src/components/Plot.tsx:33-40 | no mode starts with both "transmittance" and "radiance", and `absorbance` starts with neither, so the label cases do not overlap |
| `Plot.AxisTitle` | frontend/src/components/Plot.tsx:44 | the title starts with the label and equals it exactly when there are no units |
| `Plot.AxisTitleParts` | frontend/src/components/Plot.tsx:44 | with units, the title is the label, " (", the units and ")" |
| `Plot.ValueAxis` | frontend/src/components/Plot.tsx:42-49 | the value axis title is the mode's label followed by ` (units)` when there are units; the axis is linear, auto-ranged and not fixed |
| `Plot.ScaleButtons` | frontend/src/components/Plot.tsx:62-87 | two buttons, "Linear Scale" then "Log Scale" |
| `Plot.ScaleButtonsDifferOnlyInScale` | frontend/src/components/Plot.tsx:62-87 | both buttons install the current axis settings and differ only in the scale type, linear and log |
| `Plot.SpectrumName` | frontend/src/components/Plot.tsx:92-118 | the legend name is the species, database and pressure/Tgas part, followed by the Trot/Tvib part exactly when trot is truthy |
| `Plot.SingleSpeciesLabel` | frontend/src/components/Plot.tsx:107-112 | a single species is named as its subscripted molecule with `(χ=fraction)`, without separators |
| `Plot.Traces` | frontend/src/components/Plot.tsx:123-138 | exactly one trace per spectrum, in list order, the trace at index i built from spectrum i and i |
| `Plot.TraceFields` | frontend/src/components/Plot.tsx:123-138 | trace i passes the spectrum's x and y through unchanged, has colour `plotColors[i mod 13]` and the spectrum's legend name |
| `Plot.TracesAppend` | frontend/src/components/Plot.tsx:123-138 | appending a spectrum leaves every earlier trace, and so every earlier colour, unchanged |
| `Plot.PaletteDistinct` | frontend/src/components/Plot.tsx:13-27 | the 13 palette colours are pairwise different |
| `Plot.ColorsDistinctInWindow` | frontend/src/components/Plot.tsx:13-27 | any 13 consecutive spectra get 13 different colours |
| `Plot.ColorsRepeat` | frontend/src/components/Plot.tsx:128 | colours repeat every 13 spectra |
| `Plot.ChartTitle` | frontend/src/components/Plot.tsx:142 | "Spectrum" exactly when there is one spectrum, "Spectra" otherwise |
| `Plot.ChartFor` | frontend/src/components/Plot.tsx:120-161 | the chart's traces are exactly the per-spectrum traces, its title is chosen by count, its value axis is the one for the plot settings, and its two scale buttons install that axis as linear and as log |
| `MoleculeSelector.DatabaseMoleculeMap` | frontend/src/components/fields/MoleculeSelector/MoleculeSelector.tsx:29-32 | GEISA maps to the GEISA list and HITEMP to the HITEMP list, and every database has an entry |
| `MoleculeSelector.MoleculeOptions` | frontend/src/components/fields/MoleculeSelector/MoleculeSelector.tsx:44-50 | non-equilibrium offers the non-equilibrium list whatever the database; in equilibrium GEISA offers the GEISA list, HITEMP the HITEMP list, and no database the equilibrium list |
| `MoleculeSelector.NonEquilibriumIgnoresDatabase` | frontend/src/components/fields/MoleculeSelector/MoleculeSelector.tsx:46-48 | in non-equilibrium the offered list is the same for every database |
| `MoleculeSelector.FormattedOptions` | frontend/src/components/fields/MoleculeSelector/MoleculeSelector.tsx:53-56 | the displayed options are the offered list subscripted entry by entry, with the same length and order |
| `MoleculeSelector.CurrentValue` | frontend/src/components/fields/MoleculeSelector/MoleculeSelector.tsx:58-61 | the shown value is the subscripted form value, and `""` subscripted when there is none |
| `MoleculeSelector.TypedInputIgnoresCase` | frontend/src/components/fields/MoleculeSelector/MoleculeSelector.tsx:63-68 | typed text that differs only in letter case is stored the same, as the subscripted upper-case text |
| `MoleculeSelector.HandleChange` | frontend/src/components/fields/MoleculeSelector/MoleculeSelector.tsx:70-75 | a cleared or empty selection reports `""`; any other selection reports its plain formula |
| `Scenarios.SlitRewriteReachesRequest` | frontend/src/components/Form.tsx:93-100 | HITEMP in `radiance_noslit` with the slit switched on is sent as `radiance` with slit width 5 |
| `Scenarios.CalculateThenAdd` | frontend/src/components/Form.tsx:132-144 | a calculation followed by "Add to plot" leaves both spectra in the session, in order |
| `Scenarios.TwoSpectraTwoColours` | frontend/src/components/Plot.tsx:123-128 | those two spectra are drawn with the first two palette colours, which differ, and with their own samples |
| `Scenarios.MalformedReplyKeepsSession` | frontend/src/components/Form.tsx:120-125 | after a stored spectrum, a reply `{}` leaves the session unchanged, shows the fixed message and keeps download disabled |
| `Scenarios.AbsorbanceKeepsSlitSwitch` | frontend/src/components/Form.tsx:74-83 | switching to absorbance clears the slit width but leaves the slit switch and `use_simulate_slit` on |

## Left out

- `frontend/src/components/CalcSpectrum.tsx` is not part of this model. It is a legacy component that only fetches and renders, with no decision logic.
- Network and configuration loading. Loading `./config.js` and the axios calls are not modelled. A submission takes the network's answer as an input: a reply body, or a request that fails. A failure of the configuration import itself is not modelled.
- Overlapping submissions. A submission is one sequential step. The source appends to the spectra captured when the submission started; nothing is said about requests that overlap.
- Form library and validation. react-hook-form's `handleSubmit` and the Yup schema are not part of this model. The submitted values are a parameter of `Calculate` and `Download` that must equal the form's current database, mode, species, trot, tvib, slit switch and slit width; the fields the model does not track (wavenumber range, temperatures, pressure, path length and units) are free. Yup's coercion and its rejection of invalid values are not modelled. The in-place rewrite of `data.mode` is taken to touch only the submitted copy.
- Field components. The database, mode, species and other field components are not part of this model. The initial database and mode are constructor parameters. Editing the species list is not modelled.
- Parent state. The parent component that owns spectra, plot settings, error, loading and progress is not part of this model. Its initial state is taken as empty, none, none, false and 0.
- JSON `null`. A reply field is either absent or present. A JSON `null` in `data` or `error` is not modelled.
- Floating point. Numbers are reals. NaN, rounding and JavaScript's number-to-string are not modelled; the truthiness of `trot` is "present and non-zero".
- Text formatting. Number-to-string, `toUpperCase`, the molecule subscript conversions and the enum's string values are uninterpreted functions. No round trip between the subscript conversions is claimed.
- Download I/O. Creating the Blob, the object URL and the link, and clicking it, are not modelled. The download handler's `response.error` test reads a property a Blob does not have, so it never sets an error; the model never sets one there.
- Picker state. The picker's `input` state and its `renderOption` display are UI only. `HandleInputChange` returns the text that would be stored there.
- Rendering. Plotly layout constants (sizes, fonts, legend, x-axis, trace type) and all MUI/Grid markup are not modelled.
