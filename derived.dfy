/** The pure decisions inside the extractors: how an installed capacity is
    resolved from the configuration and the solve, and the derived ratios. */
module Derived {
  import opened Wrappers
  import opened Series
  import opened Inputs
  import opened Utilities

  // ---------------------------------------------------------------- capacity

  /** A PV or wind factor the source converts with: positive and not 1. For
      any other factor the investment is not read at all. */
  predicate Converts(generationMax: real)
  {
    generationMax > 0.0 && generationMax != 1.0
  }

  /** The PV and wind conversion of the solved investment into a capacity
      (G3_oemof_evaluate.py:76-81): a factor above 1 multiplies, a factor in
      (0, 1) divides; for any other factor (exactly 1, or not positive) only a
      warning is logged and no capacity is resolved. */
  function ConvertInvest(invest: real, generationMax: real): (capacity: Option<real>)
    ensures capacity.Some? <==> Converts(generationMax)
    ensures capacity.Some? && generationMax > 1.0 ==> capacity.value / generationMax == invest
    ensures capacity.Some? && generationMax < 1.0 ==> capacity.value * generationMax == invest
    ensures capacity.Some? && invest >= 0.0 ==> capacity.value >= invest
  {
    if generationMax > 1.0 then
      assert invest >= 0.0 ==> invest * generationMax >= invest * 1.0;
      Some(invest * generationMax)
    else if generationMax > 0.0 && generationMax < 1.0 then
      assert invest >= 0.0 ==> invest / generationMax >= invest by {
        if invest >= 0.0 {
          assert (invest / generationMax) * generationMax == invest;
          assert invest * generationMax <= invest * 1.0;
        }
      }
      Some(invest / generationMax)
    else
      None
  }

  /** The capacity a setting that is not read back from the solve gives
      itself: its float, or 0 for an absent subsystem. Any other value
      matches none of the source's branches and resolves nothing. */
  function GivenCapacity(c: CapSetting): (capacity: Option<real>)
    ensures capacity.Some? <==> c.FixedFloat? || c.Absent?
    ensures c.FixedFloat? ==> capacity == Some(c.value)
    ensures c.Absent? ==> capacity == Some(0.0)
  {
    match c
    case FixedFloat(v) => Some(v)
    case Absent => Some(0.0)
    case _ => None
  }

  /** Writes a resolved capacity under `name`; an unresolved one leaves the
      mapping as it was. */
  function Store(m: map<Metric, real>, name: Metric, capacity: Option<real>): (r: map<Metric, real>)
    ensures capacity.Some? ==> name in r && r[name] == capacity.value
    ensures capacity.None? ==> r == m
    ensures forall k :: k != name ==> (k in r <==> k in m) && (k in r ==> r[k] == m[k])
  {
    if capacity.Some? then m[name := capacity.value] else m
  }

  /** The capacity one grid leg contributes to `pcc_cap`
      (G3_oemof_evaluate.py:229-237): the peak of its utility-side flow when
      optimised, its float when fixed, nothing otherwise. */
  function LegCapacity(c: CapSetting, utilitySide: seq<real>): (capacity: Option<real>)
    requires IsOptimized(c) ==> |utilitySide| > 0
    ensures capacity.Some? <==> IsOptimized(c) || c.FixedFloat?
    ensures IsOptimized(c) ==> capacity.value in utilitySide
    ensures IsOptimized(c) ==> forall i :: 0 <= i < |utilitySide| ==> utilitySide[i] <= capacity.value
    ensures !IsOptimized(c) && c.FixedFloat? ==> capacity == Some(c.value)
  {
    if IsOptimized(c) then Some(Max(utilitySide))
    else if c.FixedFloat? then Some(c.value)
    else None
  }

  /** A resolved capacity as a list of zero or one entries. */
  function Listed(capacity: Option<real>): (s: seq<real>)
    ensures capacity.Some? ==> s == [capacity.value]
    ensures capacity.None? ==> s == []
  {
    if capacity.Some? then [capacity.value] else []
  }

  /** Some leg contributes an entry to `pcc_cap`, so `max(pcc_cap)` is defined. */
  predicate AnyLegResolves(consumption: CapSetting, feedin: CapSetting)
  {
    IsOptimized(consumption) || consumption.FixedFloat? || IsOptimized(feedin) || feedin.FixedFloat?
  }

  /** `capacity_pcoupling_kW`: 0 when both legs are absent, otherwise the
      largest capacity the present legs resolve to. */
  function PccCapacity(consumption: CapSetting, consumptionUtilitySide: seq<real>,
                       feedin: CapSetting, feedinUtilitySide: seq<real>): (capacity: real)
    requires IsOptimized(consumption) ==> |consumptionUtilitySide| > 0
    requires IsOptimized(feedin) ==> |feedinUtilitySide| > 0
    requires IsPresent(consumption) || IsPresent(feedin) ==> AnyLegResolves(consumption, feedin)
    ensures consumption.Absent? && feedin.Absent? ==> capacity == 0.0
    ensures LegCapacity(consumption, consumptionUtilitySide).Some? ==>
              LegCapacity(consumption, consumptionUtilitySide).value <= capacity
    ensures LegCapacity(feedin, feedinUtilitySide).Some? ==>
              LegCapacity(feedin, feedinUtilitySide).value <= capacity
    ensures IsPresent(consumption) || IsPresent(feedin) ==>
              Some(capacity) == LegCapacity(consumption, consumptionUtilitySide) ||
              Some(capacity) == LegCapacity(feedin, feedinUtilitySide)
  {
    if IsPresent(consumption) || IsPresent(feedin) then
      var legs := Listed(LegCapacity(consumption, consumptionUtilitySide)) +
                  Listed(LegCapacity(feedin, feedinUtilitySide));
      var m := Max(legs);
      assert m in legs;
      m
    else 0.0
  }

  // ------------------------------------------------------------------ ratios

  /** `autonomy_factor`: the fraction of the supplied demand that was not
      imported from the main grid. */
  function AutonomyFactorOf(supplied: real, imported: real): (a: real)
    requires supplied != 0.0
    ensures (1.0 - a) * supplied == imported
    ensures imported == 0.0 ==> a == 1.0
  {
    (supplied - imported) / supplied
  }

  /** With an import between nothing and all of the supplied demand, the
      autonomy factor is a fraction. */
  lemma AutonomyFactorBounds(supplied: real, imported: real)
    requires supplied > 0.0 && 0.0 <= imported <= supplied
    ensures 0.0 <= AutonomyFactorOf(supplied, imported) <= 1.0
  {
    var a := AutonomyFactorOf(supplied, imported);
    assert (1.0 - a) * supplied == imported;
  }

  function Abs(x: real): real
  {
    if x < 0.0 then -x else x
  }

  /** `res_share` (G3_oemof_evaluate.py:258-266): one minus the fossil part of
      all generation, taken as an absolute value. Grid import counts as fossil
      in the proportion the main grid is not renewable. */
  function ResShareOf(genset: real, gridImport: real, pv: real, wind: real,
                    maingridRenewableShare: real): (r: real)
    requires genset + gridImport + pv + wind != 0.0
    ensures r >= 0.0
  {
    var totalGeneration := genset + gridImport + pv + wind;
    var totalFossilGeneration := genset + gridImport * (1.0 - maingridRenewableShare);
    Abs(1.0 - totalFossilGeneration / totalGeneration)
  }

  /** `ResShareOf` in terms of the two totals a caller has already added up. */
  lemma ResShareFromTotals(genset: real, gridImport: real, pv: real, wind: real, maingridRenewableShare: real,
                         totalGeneration: real, totalFossilGeneration: real)
    requires totalGeneration == genset + gridImport + pv + wind && totalGeneration != 0.0
    requires totalFossilGeneration == genset + gridImport * (1.0 - maingridRenewableShare)
    ensures ResShareOf(genset, gridImport, pv, wind, maingridRenewableShare) ==
            Abs(1.0 - totalFossilGeneration / totalGeneration)
  {
  }

  /** For non-negative generation and a grid renewable share that is a
      fraction, the absolute value is harmless: `res_share` is exactly the
      renewable part of all generation (PV, wind and the renewable share of
      the grid import), a fraction itself. */
  lemma ResShareIsRenewableFraction(genset: real, gridImport: real, pv: real, wind: real,
                                    maingridRenewableShare: real)
    requires genset >= 0.0 && gridImport >= 0.0 && pv >= 0.0 && wind >= 0.0
    requires genset + gridImport + pv + wind != 0.0
    requires 0.0 <= maingridRenewableShare <= 1.0
    ensures ResShareOf(genset, gridImport, pv, wind, maingridRenewableShare) ==
            (pv + wind + gridImport * maingridRenewableShare) / (genset + gridImport + pv + wind)
    ensures 0.0 <= ResShareOf(genset, gridImport, pv, wind, maingridRenewableShare) <= 1.0
  {
    var total := genset + gridImport + pv + wind;
    var fossil := genset + gridImport * (1.0 - maingridRenewableShare);
    var renewable := pv + wind + gridImport * maingridRenewableShare;
    assert fossil + renewable == total;
    assert 0.0 <= gridImport * (1.0 - maingridRenewableShare);
    assert 0.0 <= gridImport * maingridRenewableShare;
    assert 0.0 <= fossil <= total;
    SplitFraction(fossil, renewable, total);
    FractionBounds(renewable, total);
  }

  lemma SplitFraction(part: real, rest: real, total: real)
    requires total != 0.0 && part + rest == total
    ensures 1.0 - part / total == rest / total
  {
    assert rest == total - part;
    assert (total - part) / total == total / total - part / total;
    assert total / total == 1.0;
  }

  lemma FractionBounds(part: real, total: real)
    requires total > 0.0 && 0.0 <= part <= total
    ensures 0.0 <= part / total <= 1.0
  {
    var p := part / total;
    assert p * total == part;
  }
}
