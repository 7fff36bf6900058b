/**
 * The molecule picker: which molecule list is offered for the current database
 * and equilibrium setting, and how values move between the form (plain
 * formulas) and the picker (subscripted display form). The subscript
 * conversions and upper-casing come from `Formatting`; the molecule lists
 * themselves are a parameter.
 */
module MoleculeSelector {
  import opened Wrappers
  import opened Types

  /** The four molecule lists of the molecules module. */
  datatype MoleculeLists = MoleculeLists(
    equilibrium: seq<string>,
    nonEquilibrium: seq<string>,
    geisa: seq<string>,
    hitemp: seq<string>)

  /** The per-database lists: every database has one. */
  function DatabaseMoleculeMap(lists: MoleculeLists): (m: map<Database, seq<string>>)
    ensures m.Keys == {Geisa, Hitemp}
    ensures m[Geisa] == lists.geisa && m[Hitemp] == lists.hitemp
  {
    map[Geisa := lists.geisa, Hitemp := lists.hitemp]
  }

  /**
   * The offered list: the non-equilibrium list whatever the database; otherwise
   * the database's own list, falling back to the equilibrium list when no
   * database is chosen. An empty list is still a list and is offered as is.
   */
  function MoleculeOptions(lists: MoleculeLists, isNonEquilibrium: bool, database: Option<Database>): (options: seq<string>)
    ensures isNonEquilibrium ==> options == lists.nonEquilibrium
    ensures !isNonEquilibrium && database == Some(Geisa) ==> options == lists.geisa
    ensures !isNonEquilibrium && database == Some(Hitemp) ==> options == lists.hitemp
    ensures !isNonEquilibrium && database.None? ==> options == lists.equilibrium
  {
    if isNonEquilibrium then
      lists.nonEquilibrium
    else
      var m := DatabaseMoleculeMap(lists);
      if database.Some? && database.value in m then m[database.value] else lists.equilibrium
  }

  /** In non-equilibrium the database has no say in the offered list. */
  lemma NonEquilibriumIgnoresDatabase(lists: MoleculeLists, d1: Option<Database>, d2: Option<Database>)
    ensures MoleculeOptions(lists, true, d1) == MoleculeOptions(lists, true, d2)
  {
  }

  /** The displayed options: the offered list, each entry subscripted, same length and order. */
  function FormattedOptions(fmt: Formatting, lists: MoleculeLists, isNonEquilibrium: bool, database: Option<Database>)
    : (shown: seq<string>)
    ensures var options := MoleculeOptions(lists, isNonEquilibrium, database);
      && |shown| == |options|
      && forall i :: 0 <= i < |options| ==> shown[i] == fmt.subscripts(options[i])
  {
    var options := MoleculeOptions(lists, isNonEquilibrium, database);
    seq(|options|, i requires 0 <= i < |options| => fmt.subscripts(options[i]))
  }

  /** The value shown in the picker: the form value subscripted, a missing value shown as "". */
  function CurrentValue(fmt: Formatting, value: Option<string>): (shown: string)
    ensures value.None? ==> shown == fmt.subscripts("")
    ensures value.Some? ==> shown == fmt.subscripts(value.value)
  {
    fmt.subscripts(if value.Some? && value.value != "" then value.value else "")
  }

  /** The text typed into the picker, upper-cased and then subscripted. */
  function HandleInputChange(fmt: Formatting, typed: string): string
  {
    fmt.subscripts(fmt.upperCase(typed))
  }

  /**
   * Typing is case-blind: two inputs that upper-case alike are stored alike,
   * and the stored text is the subscript form of an upper-cased text.
   */
  lemma TypedInputIgnoresCase(fmt: Formatting, a: string, b: string)
    requires fmt.upperCase(a) == fmt.upperCase(b)
    ensures HandleInputChange(fmt, a) == HandleInputChange(fmt, b)
    ensures HandleInputChange(fmt, a) == fmt.subscripts(fmt.upperCase(b))
  {
  }

  /**
   * The form value reported for a selection: a cleared or empty selection gives
   * "", any other is converted back to a plain formula.
   */
  function HandleChange(fmt: Formatting, selection: Option<string>): (value: string)
    ensures selection.None? || selection == Some("") ==> value == ""
    ensures selection.Some? && selection.value != "" ==> value == fmt.removeSubscripts(selection.value)
  {
    if selection.Some? && selection.value != "" then fmt.removeSubscripts(selection.value) else ""
  }
}
