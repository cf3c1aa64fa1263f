/** The risk and payout forecast shown when the loadout locks. It is defined
    twice: once over tools, as the classification the forecast means, and once
    over the list of tool names, branch for branch as the lock-in routine
    computes it. The lemmas at the end show the two agree on every selection. */
module Forecasting {
  import opened Tools

  datatype Risk = Moderate | High | VeryHigh
  datatype Payout = Low | Medium | High

  datatype Forecast = Forecast(risk: Risk, payout: Payout)

  /** The text shown for each risk level. */
  function RiskLabel(r: Risk): string
  {
    match r
    case Moderate => "MODERATE"
    case High => "HIGH"
    case VeryHigh => "VERY HIGH"
  }

  /** The text shown for each payout level. */
  function PayoutLabel(p: Payout): string
  {
    match p
    case Low => "LOW"
    case Medium => "MEDIUM"
    case High => "HIGH"
  }

  /** Distinct levels are shown with distinct texts. */
  lemma LabelsInjective(a: Risk, b: Risk, c: Payout, d: Payout)
    ensures RiskLabel(a) == RiskLabel(b) <==> a == b
    ensures PayoutLabel(c) == PayoutLabel(d) <==> c == d
  {
  }

  predicate IsProtection(t: Tool)
  {
    t == SaltPouch || t == Crucifix
  }

  predicate IsEvidence(t: Tool)
  {
    t == EmfReader || t == ThermalCamera || t == UvLight
  }

  predicate HasProtection(sel: seq<Tool>)
  {
    exists t :: t in sel && IsProtection(t)
  }

  /** The evidence-gathering tools in a selection. */
  function EvidenceTools(sel: seq<Tool>): set<Tool>
  {
    set t | t in sel && IsEvidence(t)
  }

  /** Protection makes the risk moderate; without it the Spirit Box makes it
      very high, and otherwise it is high. */
  function RiskOf(sel: seq<Tool>): Risk
  {
    if HasProtection(sel) then Moderate
    else if SpiritBox in sel then VeryHigh
    else Risk.High
  }

  /** Two or more evidence tools promise a high payout, one a medium, none a low. */
  function PayoutOf(sel: seq<Tool>): Payout
  {
    var n := |EvidenceTools(sel)|;
    if n >= 2 then Payout.High else if n == 1 then Medium else Low
  }

  function ForecastOf(sel: seq<Tool>): Forecast
  {
    Forecast(RiskOf(sel), PayoutOf(sel))
  }

  /** The risk level as the truth table over the three tools that decide it. */
  lemma RiskTruthTable(sel: seq<Tool>)
    ensures RiskOf(sel) == Moderate <==> SaltPouch in sel || Crucifix in sel
    ensures RiskOf(sel) == VeryHigh <==> SpiritBox in sel && SaltPouch !in sel && Crucifix !in sel
    ensures RiskOf(sel) == Risk.High <==> SpiritBox !in sel && SaltPouch !in sel && Crucifix !in sel
  {
    if SaltPouch in sel {
      assert IsProtection(SaltPouch);
    }
    if Crucifix in sel {
      assert IsProtection(Crucifix);
    }
  }

  /** The payout level as the truth table over the three evidence tools:
      HIGH when at least two of them are selected, MEDIUM when exactly one is,
      LOW when none is; and there are never more than three of them. */
  lemma PayoutTruthTable(sel: seq<Tool>)
    ensures |EvidenceTools(sel)| <= 3
    ensures PayoutOf(sel) == Payout.High <==>
              || (EmfReader in sel && ThermalCamera in sel)
              || (EmfReader in sel && UvLight in sel)
              || (ThermalCamera in sel && UvLight in sel)
    ensures PayoutOf(sel) == Medium <==>
              || (EmfReader in sel && ThermalCamera !in sel && UvLight !in sel)
              || (EmfReader !in sel && ThermalCamera in sel && UvLight !in sel)
              || (EmfReader !in sel && ThermalCamera !in sel && UvLight in sel)
    ensures PayoutOf(sel) == Low <==> EmfReader !in sel && ThermalCamera !in sel && UvLight !in sel
  {
    EvidenceToolsCard(sel);
  }

  // The lock-in routine, as it computes the forecast over the list of names.

  /** The evidence counter: one for each of the three evidence tool names
      found in the list. */
  function EvidenceCount(names: seq<string>): (n: nat)
    ensures n <= 3
  {
    var emf := if "EMF Reader" in names then 1 else 0;
    var thermal := if "Thermal Camera" in names then 1 else 0;
    var uv := if "UV Light" in names then 1 else 0;
    emf + thermal + uv
  }

  /** The risk text: "MODERATE", overwritten by "HIGH" when no protection
      tool is listed, overwritten again by "VERY HIGH" when the Spirit Box is
      listed without protection. */
  function RiskText(names: seq<string>): string
  {
    var hasProtection := "Salt Pouch" in names || "Crucifix" in names;
    var hasSpiritBox := "Spirit Box" in names;
    var risk := "MODERATE";
    var risk := if !hasProtection then "HIGH" else risk;
    var risk := if hasSpiritBox && !hasProtection then "VERY HIGH" else risk;
    risk
  }

  /** The payout text chosen by the evidence counter. */
  function PayoutText(names: seq<string>): string
  {
    var evidenceTools := EvidenceCount(names);
    if evidenceTools >= 2 then "HIGH" else if evidenceTools == 1 then "MEDIUM" else "LOW"
  }

  /** One for a tool that is in the selection, zero otherwise. */
  function Indicator(sel: seq<Tool>, t: Tool): nat
  {
    if t in sel then 1 else 0
  }

  /** The number of distinct evidence tools is the sum of the three indicators. */
  lemma EvidenceToolsCard(sel: seq<Tool>)
    ensures |EvidenceTools(sel)| == Indicator(sel, EmfReader) + Indicator(sel, ThermalCamera) + Indicator(sel, UvLight)
  {
    var emf: set<Tool> := if EmfReader in sel then {EmfReader} else {};
    var thermal: set<Tool> := if ThermalCamera in sel then {ThermalCamera} else {};
    var uv: set<Tool> := if UvLight in sel then {UvLight} else {};
    assert EvidenceTools(sel) == emf + thermal + uv;
    assert |emf + thermal| == |emf| + |thermal|;
    assert |emf + thermal + uv| == |emf + thermal| + |uv|;
  }

  /** Counting evidence names in the list counts the distinct evidence tools
      selected. */
  lemma EvidenceCountMatches(sel: seq<Tool>)
    ensures EvidenceCount(Names(sel)) == |EvidenceTools(sel)|
  {
    NamesContains(sel, EmfReader);
    NamesContains(sel, ThermalCamera);
    NamesContains(sel, UvLight);
    EvidenceToolsCard(sel);
  }

  /** The risk text the lock-in routine writes is the label of the risk level. */
  lemma RiskTextMatches(sel: seq<Tool>)
    ensures RiskText(Names(sel)) == RiskLabel(RiskOf(sel))
  {
    NamesContains(sel, SaltPouch);
    NamesContains(sel, Crucifix);
    NamesContains(sel, SpiritBox);
    RiskTruthTable(sel);
  }

  /** The payout text the lock-in routine writes is the label of the payout level. */
  lemma PayoutTextMatches(sel: seq<Tool>)
    ensures PayoutText(Names(sel)) == PayoutLabel(PayoutOf(sel))
  {
    EvidenceCountMatches(sel);
  }

  /** Three worked selections: Spirit Box with the EMF reader; salt, EMF
      reader and thermal camera; and nothing at all. */
  lemma ForecastExamples()
    ensures ForecastOf([SpiritBox, EmfReader]) == Forecast(VeryHigh, Medium)
    ensures ForecastOf([SaltPouch, EmfReader, ThermalCamera]) == Forecast(Moderate, Payout.High)
    ensures ForecastOf([]) == Forecast(Risk.High, Low)
  {
    assert EvidenceTools([SpiritBox, EmfReader]) == {EmfReader};
    assert EvidenceTools([SaltPouch, EmfReader, ThermalCamera]) == {EmfReader, ThermalCamera};
    assert IsProtection([SaltPouch, EmfReader, ThermalCamera][0]);
  }
}
