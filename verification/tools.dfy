/** The closed alphabet of tools a player can take into the mission, and the
    display names the tool buttons pass to the selection logic. */
module Tools {
  import opened Wrappers

  /** The six tools that have a button on the preparation screen. */
  datatype Tool = EmfReader | SpiritBox | SaltPouch | ThermalCamera | UvLight | Crucifix

  /** The name each tool button passes when clicked. */
  function Name(t: Tool): string
  {
    match t
    case EmfReader => "EMF Reader"
    case SpiritBox => "Spirit Box"
    case SaltPouch => "Salt Pouch"
    case ThermalCamera => "Thermal Camera"
    case UvLight => "UV Light"
    case Crucifix => "Crucifix"
  }

  /** Reads a display name back as a tool; any other string is not a tool. */
  function ToolOf(s: string): (r: Option<Tool>)
    ensures r.Some? ==> Name(r.value) == s
    ensures r.None? ==> forall t: Tool :: Name(t) != s
  {
    if s == "EMF Reader" then Some(EmfReader)
    else if s == "Spirit Box" then Some(SpiritBox)
    else if s == "Salt Pouch" then Some(SaltPouch)
    else if s == "Thermal Camera" then Some(ThermalCamera)
    else if s == "UV Light" then Some(UvLight)
    else if s == "Crucifix" then Some(Crucifix)
    else None
  }

  /** Every tool's name reads back as that tool. */
  lemma NameRoundTrip(t: Tool)
    ensures ToolOf(Name(t)) == Some(t)
  {
  }

  /** Distinct tools have distinct names, so the source's string comparisons
      are comparisons of tools. */
  lemma NameInjective(a: Tool, b: Tool)
    ensures Name(a) == Name(b) <==> a == b
  {
    NameRoundTrip(a);
    NameRoundTrip(b);
  }

  /** The list of names the source keeps for a selection of tools. */
  function Names(sel: seq<Tool>): (r: seq<string>)
    ensures |r| == |sel|
    ensures forall i :: 0 <= i < |sel| ==> r[i] == Name(sel[i])
  {
    if sel == [] then [] else [Name(sel[0])] + Names(sel[1..])
  }

  /** Searching the list of names for a tool's name finds it exactly when the
      tool is in the selection. */
  lemma NamesContains(sel: seq<Tool>, t: Tool)
    ensures Name(t) in Names(sel) <==> t in sel
  {
    if Name(t) in Names(sel) {
      var i :| 0 <= i < |Names(sel)| && Names(sel)[i] == Name(t);
      NameInjective(sel[i], t);
    }
  }

  /** No tool occurs twice. */
  ghost predicate NoDup(sel: seq<Tool>)
  {
    forall i, j :: 0 <= i < j < |sel| ==> sel[i] != sel[j]
  }
}
