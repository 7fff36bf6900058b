/**
 * The records the form, the session store and the plot exchange: the submitted
 * form values, a calculate-spectrum reply, a stored spectrum and the plot settings.
 * Numbers are `real`s that the model never computes with; JavaScript's own
 * formatting of values is the `Formatting` record of functions.
 */
module Types {
  import opened Wrappers

  /** The line databases of the `Database` enum. */
  datatype Database = Geisa | Hitemp

  /** One entry of the species list. */
  datatype Species = Species(molecule: string, moleFraction: real)

  /** The `data` payload of a calculate-spectrum reply. */
  datatype SpectrumData = SpectrumData(x: seq<real>, y: seq<real>, units: string)

  /** A calculate-spectrum reply body `{data?, error?}`. */
  datatype Response = Response(data: Option<SpectrumData>, error: Option<string>)

  /**
   * A stored spectrum: the submitted conditions with the reply's payload spread over
   * them (`None` when the accepted reply had no payload to spread).
   */
  datatype Spectrum = Spectrum(
    species: seq<Species>,
    database: Database,
    tgas: real,
    trot: Option<real>,
    tvib: Option<real>,
    pressure: real,
    data: Option<SpectrumData>)

  /** The mode and units that label the value axis of the chart. */
  datatype PlotSettings = PlotSettings(mode: string, units: string)

  /** The validated form values handed to a submission. */
  datatype FormValues = FormValues(
    database: Database,
    mode: string,
    species: seq<Species>,
    minWavenumberRange: real,
    maxWavenumberRange: real,
    tgas: real,
    trot: Option<real>,
    tvib: Option<real>,
    pressure: real,
    pressureUnit: string,
    pathLength: real,
    pathLengthUnit: string,
    useSimulateSlit: bool,
    simulateSlit: Option<real>)

  /**
   * How JavaScript turns values into text: number-to-string, `toUpperCase`,
   * the two molecule subscript conversions and the enum's string value.
   */
  datatype Formatting = Formatting(
    number: real -> string,
    upperCase: string -> string,
    subscripts: string -> string,
    removeSubscripts: string -> string,
    databaseName: Database -> string)
}
