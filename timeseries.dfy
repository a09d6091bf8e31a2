/** The per-subsystem extractors of class `timeseries`. Each reads flows and
    scalars from the solver's result views, widens the flow table and writes
    its metrics into the shared `Metrics` mapping. A caller runs them in the
    order demand, shortage, excess, PV, wind, genset, fuel, storage, national
    grid, renewable share: later extractors read entries earlier ones wrote. */
module Timeseries {
  import opened Wrappers
  import opened Series
  import opened Inputs
  import opened Utilities
  import opened Derived

  // ------------------------------------------------------------------ demand

  const DemandKey := Flow(BusElectricityMg, SinkDemand)

  /** `get_demand`: starts the flow table with the demand column and records
      the annual demand and its peak. */
  method GetDemand(caseDict: CaseConfig, results: Metrics, electricityBus: View)
    returns (flows: FlowTable)
    requires DemandKey in electricityBus.sequences
    requires |electricityBus.sequences[DemandKey]| > 0
    requires caseDict.evaluatedDays != 0
    modifies results
    ensures var demand := electricityBus.sequences[DemandKey];
      && flows == SingleColumn(Demand, demand)
      && results.values == old(results.values)
           [TotalDemandAnnual := Annual(demand, caseDict.evaluatedDays)]
           [DemandPeak := Max(demand)]
  {
    var demand := electricityBus.sequences[DemandKey];
    flows := SingleColumn(Demand, demand);
    AnnualValue(TotalDemandAnnual, demand, results, caseDict);
    results.Update(DemandPeak, Max(demand));
  }

  // ---------------------------------------------------------------- shortage

  const ShortageKey := Flow(SourceShortage, BusElectricityMg)

  /** `get_shortage`: with shortage allowed, the supplied demand is the demand
      minus the shortage at every step; otherwise all demand is supplied. */
  method GetShortage(caseDict: CaseConfig, results: Metrics, electricityBus: View, flows: FlowTable)
    returns (r: FlowTable)
    requires flows.Valid()
    requires caseDict.allowShortage ==>
      && flows.Has(Demand)
      && ShortageKey in electricityBus.sequences
      && |electricityBus.sequences[ShortageKey]| == flows.length
      && !flows.Has(DemandShortage) && !flows.Has(DemandSupplied)
      && caseDict.evaluatedDays != 0
    requires !caseDict.allowShortage ==> TotalDemandAnnual in results.values
    modifies results
    ensures r.Valid() && r.length == flows.length
    ensures caseDict.allowShortage ==>
      var shortage := electricityBus.sequences[ShortageKey];
      var supplied := Sub(flows.Get(Demand), shortage);
      && r == JoinEFlows(supplied, DemandSupplied, JoinEFlows(shortage, DemandShortage, flows))
      && results.values == old(results.values)
           [TotalDemandSuppliedAnnual := Annual(supplied, caseDict.evaluatedDays)]
           [TotalDemandShortageAnnual := Annual(shortage, caseDict.evaluatedDays)]
      && results.values[TotalDemandSuppliedAnnual] ==
           Annual(flows.Get(Demand), caseDict.evaluatedDays) - results.values[TotalDemandShortageAnnual]
    ensures !caseDict.allowShortage ==>
      && r == flows
      && results.values == old(results.values)
           [TotalDemandSuppliedAnnual := old(results.values)[TotalDemandAnnual]]
           [TotalDemandShortageAnnual := 0.0]
  {
    r := flows;
    if caseDict.allowShortage {
      var shortage := electricityBus.sequences[ShortageKey];
      var demandSupplied := Sub(flows.Get(Demand), shortage);
      AnnualValue(TotalDemandSuppliedAnnual, demandSupplied, results, caseDict);
      AnnualValue(TotalDemandShortageAnnual, shortage, results, caseDict);
      r := JoinEFlows(shortage, DemandShortage, r);
      r := JoinEFlows(demandSupplied, DemandSupplied, r);
      AnnualOfSub(flows.Get(Demand), shortage, caseDict.evaluatedDays);
    } else {
      results.Update(TotalDemandSuppliedAnnual, results.values[TotalDemandAnnual]);
      results.Update(TotalDemandShortageAnnual, 0.0);
    }
  }

  // ------------------------------------------------------------------ excess

  const ExcessKey := Flow(BusElectricityMg, SinkExcess)

  /** `get_excess`: the curtailed generation, as a column and an annual total. */
  method GetExcess(caseDict: CaseConfig, results: Metrics, electricityBus: View, flows: FlowTable)
    returns (r: FlowTable)
    requires flows.Valid() && !flows.Has(ExcessGeneration)
    requires ExcessKey in electricityBus.sequences
    requires |electricityBus.sequences[ExcessKey]| == flows.length
    requires caseDict.evaluatedDays != 0
    modifies results
    ensures var excess := electricityBus.sequences[ExcessKey];
      && r == JoinEFlows(excess, ExcessGeneration, flows)
      && results.values == old(results.values)
           [TotalDemandExcessAnnual := Annual(excess, caseDict.evaluatedDays)]
  {
    var excess := electricityBus.sequences[ExcessKey];
    r := JoinEFlows(excess, ExcessGeneration, flows);
    AnnualValue(TotalDemandExcessAnnual, excess, results, caseDict);
  }

  // -------------------------------------------------------------- PV and wind

  /** The installed capacity of a PV or wind source: converted from the solved
      investment when optimised, otherwise what the setting gives. */
  function SourceCapacity(setting: CapSetting, electricityBus: View, source: Node,
                          generationMax: real): (capacity: Option<real>)
    requires IsOptimized(setting) && Converts(generationMax) ==>
      Invest(source, BusElectricityMg) in electricityBus.scalars
    ensures IsOptimized(setting) ==> (capacity.Some? <==> Converts(generationMax))
    ensures IsOptimized(setting) && generationMax > 1.0 ==>
      capacity == Some(electricityBus.scalars[Invest(source, BusElectricityMg)] * generationMax)
    ensures IsOptimized(setting) && 0.0 < generationMax < 1.0 ==>
      capacity.value * generationMax == electricityBus.scalars[Invest(source, BusElectricityMg)]
    ensures !IsOptimized(setting) ==> capacity == GivenCapacity(setting)
  {
    if IsOptimized(setting) then
      if Converts(generationMax)
      then ConvertInvest(electricityBus.scalars[Invest(source, BusElectricityMg)], generationMax)
      else None
    else GivenCapacity(setting)
  }

  /** The body shared by `get_pv` and `get_wind`, for the source node
      `source`, the metric names `generationName` and `capacityName` and the
      column `columnName`. */
  method GetVariableSource(caseDict: CaseConfig, results: Metrics, electricityBus: View,
                           flows: FlowTable, setting: CapSetting, generationMax: real,
                           source: Node, generationName: Metric, columnName: Column,
                           capacityName: Metric)
    returns (r: FlowTable)
    requires flows.Valid()
    requires IsPresent(setting) ==>
      && Flow(source, BusElectricityMg) in electricityBus.sequences
      && |electricityBus.sequences[Flow(source, BusElectricityMg)]| == flows.length
      && !flows.Has(columnName)
      && caseDict.evaluatedDays != 0
    requires IsOptimized(setting) && Converts(generationMax) ==>
      Invest(source, BusElectricityMg) in electricityBus.scalars
    modifies results
    ensures r.Valid() && r.length == flows.length
    ensures IsPresent(setting) ==>
      r == JoinEFlows(electricityBus.sequences[Flow(source, BusElectricityMg)], columnName, flows)
    ensures !IsPresent(setting) ==> r == flows
    ensures results.values == Store(
      old(results.values)[generationName :=
        if IsPresent(setting)
        then Annual(electricityBus.sequences[Flow(source, BusElectricityMg)], caseDict.evaluatedDays)
        else 0.0],
      capacityName,
      SourceCapacity(setting, electricityBus, source, generationMax))
  {
    r := flows;
    if IsPresent(setting) {
      var generation := electricityBus.sequences[Flow(source, BusElectricityMg)];
      AnnualValue(generationName, generation, results, caseDict);
      r := JoinEFlows(generation, columnName, r);
    } else {
      results.Update(generationName, 0.0);
    }

    GetSourceCapacity(results, electricityBus, setting, generationMax, source, capacityName);
  }

  /** The capacity part shared by `get_pv` (lines 74-85) and `get_wind`
      (lines 98-109): the capacity `SourceCapacity` resolves, or no write
      when it resolves none. */
  method GetSourceCapacity(results: Metrics, electricityBus: View, setting: CapSetting, generationMax: real,
                           source: Node, capacityName: Metric)
    requires IsOptimized(setting) && Converts(generationMax) ==>
      Invest(source, BusElectricityMg) in electricityBus.scalars
    modifies results
    ensures results.values ==
      Store(old(results.values), capacityName, SourceCapacity(setting, electricityBus, source, generationMax))
  {
    if IsOptimized(setting) {
      if generationMax > 1.0 {
        var invest := electricityBus.scalars[Invest(source, BusElectricityMg)];
        assert ConvertInvest(invest, generationMax).value == invest * generationMax;
        results.Update(capacityName, invest * generationMax);
      } else if generationMax > 0.0 && generationMax < 1.0 {
        var invest := electricityBus.scalars[Invest(source, BusElectricityMg)];
        results.Update(capacityName, invest / generationMax);
      } else {
        // only a warning is logged: the capacity stays unresolved
      }
    } else if setting.FixedFloat? {
      results.Update(capacityName, setting.value);
    } else if setting.Absent? {
      results.Update(capacityName, 0.0);
    }
  }

  /** `get_pv`: PV generation and the PV capacity in kWp. */
  method GetPv(caseDict: CaseConfig, results: Metrics, electricityBus: View, flows: FlowTable,
               pvGenerationMax: real)
    returns (r: FlowTable)
    requires flows.Valid()
    requires IsPresent(caseDict.pvFixedCapacity) ==>
      && Flow(SourcePv, BusElectricityMg) in electricityBus.sequences
      && |electricityBus.sequences[Flow(SourcePv, BusElectricityMg)]| == flows.length
      && !flows.Has(PvGeneration)
      && caseDict.evaluatedDays != 0
    requires IsOptimized(caseDict.pvFixedCapacity) && Converts(pvGenerationMax) ==>
      Invest(SourcePv, BusElectricityMg) in electricityBus.scalars
    modifies results
    ensures r.Valid() && r.length == flows.length
    ensures IsPresent(caseDict.pvFixedCapacity) ==>
      r == JoinEFlows(electricityBus.sequences[Flow(SourcePv, BusElectricityMg)], PvGeneration, flows)
    ensures results.values == Store(
      old(results.values)[TotalPvGeneration :=
        if IsPresent(caseDict.pvFixedCapacity)
        then Annual(electricityBus.sequences[Flow(SourcePv, BusElectricityMg)], caseDict.evaluatedDays)
        else 0.0],
      CapacityPv,
      SourceCapacity(caseDict.pvFixedCapacity, electricityBus, SourcePv, pvGenerationMax))
    ensures caseDict.pvFixedCapacity.Absent? ==>
      && r == flows
      && results.values == old(results.values)[TotalPvGeneration := 0.0][CapacityPv := 0.0]
  {
    r := GetVariableSource(caseDict, results, electricityBus, flows, caseDict.pvFixedCapacity,
                           pvGenerationMax, SourcePv, TotalPvGeneration,
                           PvGeneration, CapacityPv);
  }

  /** `get_wind`: wind generation and the wind capacity in kW. */
  method GetWind(caseDict: CaseConfig, results: Metrics, electricityBus: View, flows: FlowTable,
                 windGenerationMax: real)
    returns (r: FlowTable)
    requires flows.Valid()
    requires IsPresent(caseDict.windFixedCapacity) ==>
      && Flow(SourceWind, BusElectricityMg) in electricityBus.sequences
      && |electricityBus.sequences[Flow(SourceWind, BusElectricityMg)]| == flows.length
      && !flows.Has(WindGeneration)
      && caseDict.evaluatedDays != 0
    requires IsOptimized(caseDict.windFixedCapacity) && Converts(windGenerationMax) ==>
      Invest(SourceWind, BusElectricityMg) in electricityBus.scalars
    modifies results
    ensures r.Valid() && r.length == flows.length
    ensures IsPresent(caseDict.windFixedCapacity) ==>
      r == JoinEFlows(electricityBus.sequences[Flow(SourceWind, BusElectricityMg)], WindGeneration, flows)
    ensures results.values == Store(
      old(results.values)[TotalWindGeneration :=
        if IsPresent(caseDict.windFixedCapacity)
        then Annual(electricityBus.sequences[Flow(SourceWind, BusElectricityMg)], caseDict.evaluatedDays)
        else 0.0],
      CapacityWind,
      SourceCapacity(caseDict.windFixedCapacity, electricityBus, SourceWind, windGenerationMax))
    ensures caseDict.windFixedCapacity.Absent? ==>
      && r == flows
      && results.values == old(results.values)[TotalWindGeneration := 0.0][CapacityWind := 0.0]
  {
    r := GetVariableSource(caseDict, results, electricityBus, flows, caseDict.windFixedCapacity,
                           windGenerationMax, SourceWind, TotalWindGeneration,
                           WindGeneration, CapacityWind);
  }

  // ------------------------------------------------------------------ genset

  /** The units whose flows `get_genset` reads: unit 1 always, then units 2
      to `number_of_equal_generators`. */
  function FlowUnitCount(numberOfEqualGenerators: int): nat
  {
    if numberOfEqualGenerators < 1 then 1 else numberOfEqualGenerators
  }

  /** Unit 1's flow is read whatever the number of units, and every unit up
      to `number_of_equal_generators` is read. */
  lemma FlowUnitCountCovers(numberOfEqualGenerators: int)
    ensures FlowUnitCount(numberOfEqualGenerators) >= 1
    ensures FlowUnitCount(numberOfEqualGenerators) >= numberOfEqualGenerators
    ensures numberOfEqualGenerators >= 1 ==> FlowUnitCount(numberOfEqualGenerators) == numberOfEqualGenerators
  {
  }

  /** The units whose investments `get_genset` adds up: 1 to
      `number_of_equal_generators`, none when that is below 1. */
  function InvestUnitCount(numberOfEqualGenerators: int): (count: nat)
    ensures numberOfEqualGenerators >= 0 ==> count == numberOfEqualGenerators
    ensures numberOfEqualGenerators <= 0 ==> count == 0
  {
    if numberOfEqualGenerators < 0 then 0 else numberOfEqualGenerators
  }

  /** Units 1 to `count` have a flow spanning the table's index and no
      column yet. */
  predicate GensetFlowsAvailable(electricityBus: View, count: nat, flows: FlowTable)
  {
    forall number :: 1 <= number <= count ==>
      && GensetFlowKey(number) in electricityBus.sequences
      && |electricityBus.sequences[GensetFlowKey(number)]| == flows.length
      && !flows.Has(GensetUnit(number))
  }

  /** The flows of units 1 to `count`, in unit order. */
  function GensetUnits(electricityBus: View, count: nat): (units: seq<seq<real>>)
    requires forall number :: 1 <= number <= count ==> GensetFlowKey(number) in electricityBus.sequences
    ensures |units| == count
    ensures forall j :: 0 <= j < count ==> units[j] == electricityBus.sequences[GensetFlowKey(j + 1)]
  {
    seq(count, j requires 0 <= j < count => electricityBus.sequences[GensetFlowKey(j + 1)])
  }

  /** The series of `units` span the table's index and none of their unit
      columns is in the table yet. */
  predicate UnitsReady(flows: FlowTable, units: seq<seq<real>>)
  {
    && flows.Valid() && AllOfLength(units, flows.length)
    && forall k :: 1 <= k <= |units| ==> !flows.Has(GensetUnit(k))
  }

  lemma UnitsReadyPrefix(flows: FlowTable, units: seq<seq<real>>, n: nat)
    requires UnitsReady(flows, units) && n <= |units|
    ensures UnitsReady(flows, units[..n])
  {
  }

  /** The units `get_genset` reads are ready to be joined. */
  lemma GensetUnitsReady(electricityBus: View, count: nat, flows: FlowTable)
    requires flows.Valid() && GensetFlowsAvailable(electricityBus, count, flows)
    ensures UnitsReady(flows, GensetUnits(electricityBus, count))
  {
  }

  /** The column names of units 1 to `count`, in unit order; none of them is
      the name of the total column. */
  function UnitNames(count: nat): (names: seq<Column>)
    ensures |names| == count
    ensures forall j :: 0 <= j < count ==> names[j] == GensetUnit(j + 1)
    ensures GensetGeneration !in names
  {
    if count == 0 then []
    else UnitNames(count - 1) + [GensetUnit(count)]
  }

  /** The flow table after the columns of `units` are joined in unit order,
      after the table's own columns. */
  function JoinUnits(flows: FlowTable, units: seq<seq<real>>): (r: FlowTable)
    requires UnitsReady(flows, units)
    ensures r.Valid() && r.length == flows.length
    ensures r.names == flows.names + UnitNames(|units|)
    ensures forall n :: r.Has(n) ==> flows.Has(n) || (n.GensetUnit? && 1 <= n.number <= |units|)
    decreases |units|
  {
    if |units| == 0 then flows
    else
      var m := |units|;
      UnitsReadyPrefix(flows, units, m - 1);
      var before := JoinUnits(flows, units[..m - 1]);
      JoinEFlows(units[m - 1], GensetUnit(m), before)
  }

  /** In the joined table, unit `k`'s column holds unit `k`'s series and the
      table's own columns keep their values. */
  lemma {:induction false} JoinUnitsColumns(flows: FlowTable, units: seq<seq<real>>)
    requires UnitsReady(flows, units)
    ensures forall k :: 1 <= k <= |units| ==>
      JoinUnits(flows, units).Has(GensetUnit(k)) && JoinUnits(flows, units).Get(GensetUnit(k)) == units[k - 1]
    ensures forall n :: flows.Has(n) ==> JoinUnits(flows, units).Has(n) && JoinUnits(flows, units).Get(n) == flows.Get(n)
    decreases |units|
  {
    if |units| > 0 {
      var m := |units|;
      UnitsReadyPrefix(flows, units, m - 1);
      var before := JoinUnits(flows, units[..m - 1]);
      JoinUnitsColumns(flows, units[..m - 1]);
      assert JoinUnits(flows, units) == JoinEFlows(units[m - 1], GensetUnit(m), before);
      forall k | 1 <= k <= m
        ensures JoinUnits(flows, units).Has(GensetUnit(k))
        ensures JoinUnits(flows, units).Get(GensetUnit(k)) == units[k - 1]
      {
        if k < m {
          assert units[..m - 1][k - 1] == units[k - 1];
          assert before.Has(GensetUnit(k));
        }
      }
    }
  }

  /** The flow loop of `get_genset` (G3_oemof_evaluate.py:116-122): a column
      per unit, and `total_genset`, whose every step is the sum of all units'
      values at that step. */
  method GensetFlows(electricityBus: View, numberOfEqualGenerators: int, flows: FlowTable)
    returns (r: FlowTable, totalGenset: seq<real>)
    requires flows.Valid()
    requires GensetFlowsAvailable(electricityBus, FlowUnitCount(numberOfEqualGenerators), flows)
    ensures var units := GensetUnits(electricityBus, FlowUnitCount(numberOfEqualGenerators));
      && UnitsReady(flows, units)
      && r == JoinUnits(flows, units)
      && totalGenset == ColumnTotals(units, flows.length)
  {
    var count := FlowUnitCount(numberOfEqualGenerators);
    ghost var units := GensetUnits(electricityBus, count);
    GensetUnitsReady(electricityBus, count, flows);
    var genset := electricityBus.sequences[GensetFlowKey(1)];
    JoinedFirstUnit(flows, units);
    r := JoinEFlows(genset, GensetUnit(1), flows);
    totalGenset := genset;
    var number := 2;
    while number <= numberOfEqualGenerators
      invariant 2 <= number <= count + 1
      invariant JoinedUnits(flows, units, number - 1, r, totalGenset)
    {
      genset := electricityBus.sequences[GensetFlowKey(number)];
      JoinedNextUnit(flows, units, number - 1, r, totalGenset);
      r := JoinEFlows(genset, GensetUnit(number), r);
      totalGenset := Add(totalGenset, genset);
      number := number + 1;
    }
    assert units[..number - 1] == units;
  }

  /** The state of the flow loop after units 1 to `n`: their columns joined
      to the table, and their step-wise sum. */
  predicate JoinedUnits(flows: FlowTable, units: seq<seq<real>>, n: nat, r: FlowTable, total: seq<real>)
  {
    && n <= |units|
    && UnitsReady(flows, units[..n])
    && r == JoinUnits(flows, units[..n])
    && total == ColumnTotals(units[..n], flows.length)
  }

  /** Unit 1 starts the loop: its column, and its series as the total. */
  lemma JoinedFirstUnit(flows: FlowTable, units: seq<seq<real>>)
    requires UnitsReady(flows, units) && |units| >= 1
    ensures |units[0]| == flows.length && !flows.Has(GensetUnit(1))
    ensures JoinedUnits(flows, units, 1, JoinEFlows(units[0], GensetUnit(1), flows), units[0])
  {
    var n := flows.length;
    UnitsReadyPrefix(flows, units, 0);
    UnitsReadyPrefix(flows, units, 1);
    assert units[..1] == units[..0] + [units[0]];
    assert units[..1][..0] == units[..0];
    forall i | 0 <= i < n ensures ColumnTotals(units[..1], n)[i] == units[0][i] {
      var column := At(units[..1], i);
      assert column == [units[0][i]];
      assert column[..0] == [];
      assert Sum(column) == Sum(column[..0]) + column[0];
    }
  }

  /** Unit `n + 1` adds its column after those of units 1 to `n`, and its
      values to their running total. */
  lemma JoinedNextUnit(flows: FlowTable, units: seq<seq<real>>, n: nat, r: FlowTable, total: seq<real>)
    requires UnitsReady(flows, units) && 1 <= n < |units|
    requires JoinedUnits(flows, units, n, r, total)
    ensures r.Valid() && |units[n]| == r.length && !r.Has(GensetUnit(n + 1)) && |total| == r.length
    ensures JoinedUnits(flows, units, n + 1, JoinEFlows(units[n], GensetUnit(n + 1), r), Add(total, units[n]))
  {
    UnitsReadyPrefix(flows, units, n + 1);
    assert units[..n + 1][..n] == units[..n];
    assert units[..n + 1] == units[..n] + [units[n]];
    ColumnTotalsSnoc(units[..n], units[n], flows.length);
  }

  /** The investments of units 1 to `count`, in unit order. */
  function GensetInvests(electricityBus: View, count: nat): (invests: seq<real>)
    requires forall number :: 1 <= number <= count ==> GensetInvestKey(number) in electricityBus.scalars
    ensures |invests| == count
    ensures forall j :: 0 <= j < count ==> invests[j] == electricityBus.scalars[GensetInvestKey(j + 1)]
  {
    seq(count, j requires 0 <= j < count => electricityBus.scalars[GensetInvestKey(j + 1)])
  }

  /** The capacity loop of `get_genset` (G3_oemof_evaluate.py:131-133): the
      optimised genset capacity is the sum of the units' investments. */
  method GensetCapacity(electricityBus: View, numberOfEqualGenerators: int)
    returns (gensetCapacity: real)
    requires forall number :: 1 <= number <= numberOfEqualGenerators ==>
      GensetInvestKey(number) in electricityBus.scalars
    ensures gensetCapacity == Sum(GensetInvests(electricityBus, InvestUnitCount(numberOfEqualGenerators)))
  {
    ghost var invests := GensetInvests(electricityBus, InvestUnitCount(numberOfEqualGenerators));
    gensetCapacity := 0.0;
    var number := 1;
    while number <= numberOfEqualGenerators
      invariant 1 <= number <= InvestUnitCount(numberOfEqualGenerators) + 1
      invariant gensetCapacity == Sum(invests[..number - 1])
    {
      assert invests[..number][..number - 1] == invests[..number - 1];
      gensetCapacity := gensetCapacity + electricityBus.scalars[GensetInvestKey(number)];
      number := number + 1;
    }
    assert invests[..number - 1] == invests;
  }

  /** `get_genset`: the per-unit and total genset columns, the annual genset
      generation and the genset capacity. */
  method GetGenset(caseDict: CaseConfig, results: Metrics, electricityBus: View, flows: FlowTable)
    returns (r: FlowTable)
    requires flows.Valid()
    requires IsPresent(caseDict.gensetFixedCapacity) ==>
      && GensetFlowsAvailable(electricityBus, FlowUnitCount(caseDict.numberOfEqualGenerators), flows)
      && !flows.Has(GensetGeneration)
      && caseDict.evaluatedDays != 0
    requires IsOptimized(caseDict.gensetFixedCapacity) ==>
      forall number :: 1 <= number <= caseDict.numberOfEqualGenerators ==>
        GensetInvestKey(number) in electricityBus.scalars
    modifies results
    ensures r.Valid() && r.length == flows.length
    ensures IsPresent(caseDict.gensetFixedCapacity) ==>
      var units := GensetUnits(electricityBus, FlowUnitCount(caseDict.numberOfEqualGenerators));
      && AllOfLength(units, flows.length)
      && r == JoinEFlows(ColumnTotals(units, flows.length), GensetGeneration, JoinUnits(flows, units))
    ensures !IsPresent(caseDict.gensetFixedCapacity) ==> r == flows
    ensures results.values == Store(
      old(results.values)[TotalGensetGeneration :=
        if IsPresent(caseDict.gensetFixedCapacity)
        then Annual(RowTotals(GensetUnits(electricityBus, FlowUnitCount(caseDict.numberOfEqualGenerators))),
                    caseDict.evaluatedDays)
        else 0.0],
      CapacityGenset,
      if IsOptimized(caseDict.gensetFixedCapacity)
      then Some(Sum(GensetInvests(electricityBus, InvestUnitCount(caseDict.numberOfEqualGenerators))))
      else GivenCapacity(caseDict.gensetFixedCapacity))
  {
    r := flows;
    if IsPresent(caseDict.gensetFixedCapacity) {
      var totalGenset;
      r, totalGenset := GensetFlows(electricityBus, caseDict.numberOfEqualGenerators, r);
      ghost var units := GensetUnits(electricityBus, FlowUnitCount(caseDict.numberOfEqualGenerators));
      AnnualOfColumnTotals(units, flows.length, caseDict.evaluatedDays);
      AnnualValue(TotalGensetGeneration, totalGenset, results, caseDict);
      r := JoinEFlows(totalGenset, GensetGeneration, r);
    } else {
      results.Update(TotalGensetGeneration, 0.0);
    }

    if IsOptimized(caseDict.gensetFixedCapacity) {
      var gensetCapacity := GensetCapacity(electricityBus, caseDict.numberOfEqualGenerators);
      results.Update(CapacityGenset, gensetCapacity);
    } else if caseDict.gensetFixedCapacity.FixedFloat? {
      results.Update(CapacityGenset, caseDict.gensetFixedCapacity.value);
    } else if caseDict.gensetFixedCapacity.Absent? {
      results.Update(CapacityGenset, 0.0);
    }
  }

  // -------------------------------------------------------------------- fuel

  const FuelKey := Flow(SourceFuel, BusFuel)

  /** `get_fuel`: the annual fuel consumption in litres, 0 without a genset. */
  method GetFuel(caseDict: CaseConfig, results: Metrics, res: Results)
    requires IsPresent(caseDict.gensetFixedCapacity) ==>
      && BusFuel in res && FuelKey in res[BusFuel].sequences
      && caseDict.evaluatedDays != 0
    modifies results
    ensures results.values == old(results.values)[ConsumptionFuelAnnual :=
      if IsPresent(caseDict.gensetFixedCapacity)
      then Annual(res[BusFuel].sequences[FuelKey], caseDict.evaluatedDays)
      else 0.0]
  {
    if IsPresent(caseDict.gensetFixedCapacity) {
      var fuelBus := res[BusFuel];
      var fuel := fuelBus.sequences[FuelKey];
      AnnualValue(ConsumptionFuelAnnual, fuel, results, caseDict);
    } else {
      results.Update(ConsumptionFuelAnnual, 0.0);
    }
  }

  // ----------------------------------------------------------------- storage

  const StorageDischargeKey := Flow(GenericStorage, BusElectricityMg)
  const StorageChargeKey := Flow(BusElectricityMg, GenericStorage)
  const StoredCapacityKey := FlowKey(GenericStorage, NoneNode, CapacityField)
  const StorageInvestKey := Invest(BusElectricityMg, GenericStorage)

  /** The storage view holds charge, discharge and stored capacity, each
      spanning `length` steps. */
  predicate StorageFlowsAvailable(res: Results, length: nat)
  {
    && GenericStorage in res
    && StorageChargeKey in res[GenericStorage].sequences
    && StorageDischargeKey in res[GenericStorage].sequences
    && StoredCapacityKey in res[GenericStorage].sequences
    && |res[GenericStorage].sequences[StorageChargeKey]| == length
    && |res[GenericStorage].sequences[StorageDischargeKey]| == length
    && |res[GenericStorage].sequences[StoredCapacityKey]| == length
  }

  /** The storage capacity in kWh: the solved charging-inverter investment
      divided by the charge C-rate when optimised, otherwise what the setting
      gives. */
  function StorageCapacity(setting: CapSetting, res: Results, experiment: Experiment): (capacity: Option<real>)
    requires IsOptimized(setting) ==>
      && BusElectricityMg in res && StorageInvestKey in res[BusElectricityMg].scalars
      && experiment.storageCrateCharge != 0.0
    ensures IsOptimized(setting) ==>
      capacity.Some? && capacity.value * experiment.storageCrateCharge == res[BusElectricityMg].scalars[StorageInvestKey]
    ensures !IsOptimized(setting) ==> capacity == GivenCapacity(setting)
  {
    if IsOptimized(setting)
    then Some(res[BusElectricityMg].scalars[StorageInvestKey] / experiment.storageCrateCharge)
    else GivenCapacity(setting)
  }

  /** The flow table after the charge, discharge and stored-capacity columns. */
  function StorageColumns(res: Results, flows: FlowTable): (r: FlowTable)
    requires flows.Valid() && StorageFlowsAvailable(res, flows.length)
    requires !flows.Has(StorageCharge) && !flows.Has(StorageDischarge) && !flows.Has(StoredCapacity)
    ensures r.Valid() && r.length == flows.length
    ensures r.names == flows.names + [StorageCharge, StorageDischarge, StoredCapacity]
    ensures forall n :: r.Has(n) <==>
      flows.Has(n) || n == StorageCharge || n == StorageDischarge || n == StoredCapacity
    ensures r.Get(StorageCharge) == res[GenericStorage].sequences[StorageChargeKey]
    ensures r.Get(StorageDischarge) == res[GenericStorage].sequences[StorageDischargeKey]
    ensures r.Get(StoredCapacity) == res[GenericStorage].sequences[StoredCapacityKey]
  {
    var storage := res[GenericStorage];
    var r1 := JoinEFlows(storage.sequences[StorageChargeKey], StorageCharge, flows);
    var r2 := JoinEFlows(storage.sequences[StorageDischargeKey], StorageDischarge, r1);
    JoinEFlows(storage.sequences[StoredCapacityKey], StoredCapacity, r2)
  }

  /** The capacity part of `get_storage` (lines 166-175): the storage
      capacity as `StorageCapacity` resolves it; a setting that resolves none
      leaves the entry as it was. */
  method GetStorageCapacity(caseDict: CaseConfig, results: Metrics, experiment: Experiment, res: Results)
    requires IsOptimized(caseDict.storageFixedCapacity) ==>
      && BusElectricityMg in res && StorageInvestKey in res[BusElectricityMg].scalars
      && experiment.storageCrateCharge != 0.0
    modifies results
    ensures results.values ==
      Store(old(results.values), CapacityStorage, StorageCapacity(caseDict.storageFixedCapacity, res, experiment))
  {
    if IsOptimized(caseDict.storageFixedCapacity) {
      var electricityBus := res[BusElectricityMg];
      var capacityBattery := electricityBus.scalars[StorageInvestKey] / experiment.storageCrateCharge;
      results.Update(CapacityStorage, capacityBattery);
    } else if caseDict.storageFixedCapacity.FixedFloat? {
      results.Update(CapacityStorage, caseDict.storageFixedCapacity.value);
    } else if caseDict.storageFixedCapacity.Absent? {
      results.Update(CapacityStorage, 0.0);
    }
  }

  /** `get_storage`: the storage columns and throughput, the storage
      capacity, and a state-of-charge column exactly when that capacity is
      positive. */
  method GetStorage(caseDict: CaseConfig, results: Metrics, experiment: Experiment, res: Results,
                    flows: FlowTable)
    returns (r: FlowTable)
    requires flows.Valid()
    requires IsPresent(caseDict.storageFixedCapacity) ==>
      && StorageFlowsAvailable(res, flows.length)
      && !flows.Has(StorageCharge) && !flows.Has(StorageDischarge)
      && !flows.Has(StoredCapacity) && !flows.Has(StorageSoc)
      && caseDict.evaluatedDays != 0
    requires IsOptimized(caseDict.storageFixedCapacity) ==>
      && BusElectricityMg in res && StorageInvestKey in res[BusElectricityMg].scalars
      && experiment.storageCrateCharge != 0.0
    // a setting that matches no branch writes no capacity, and line 179 reads it
    requires caseDict.storageFixedCapacity.FixedOther? ==> CapacityStorage in results.values
    modifies results
    ensures results.values == Store(
      old(results.values)[TotalBatteryThroughput :=
        if IsPresent(caseDict.storageFixedCapacity)
        then Annual(res[GenericStorage].sequences[StorageChargeKey], caseDict.evaluatedDays)
        else 0.0],
      CapacityStorage,
      StorageCapacity(caseDict.storageFixedCapacity, res, experiment))
    ensures CapacityStorage in results.values
    ensures r.Valid() && r.length == flows.length
    ensures !IsPresent(caseDict.storageFixedCapacity) ==> r == flows
    ensures IsPresent(caseDict.storageFixedCapacity) ==>
      var capacity := results.values[CapacityStorage];
      var stored := res[GenericStorage].sequences[StoredCapacityKey];
      var withFlows := StorageColumns(res, flows);
      && r == (if capacity > 0.0 then JoinEFlows(DivBy(stored, capacity), StorageSoc, withFlows) else withFlows)
      && (r.Has(StorageSoc) <==> capacity > 0.0)
      && (capacity > 0.0 ==> r.Get(StorageSoc) == DivBy(stored, capacity))
  {
    r := flows;
    var storedCapacity: seq<real> := [];
    if IsPresent(caseDict.storageFixedCapacity) {
      var storage := res[GenericStorage];
      var storageDischarge := storage.sequences[StorageDischargeKey];
      var storageCharge := storage.sequences[StorageChargeKey];
      storedCapacity := storage.sequences[StoredCapacityKey];
      AnnualValue(TotalBatteryThroughput, storageCharge, results, caseDict);
      r := JoinEFlows(storageCharge, StorageCharge, r);
      r := JoinEFlows(storageDischarge, StorageDischarge, r);
      r := JoinEFlows(storedCapacity, StoredCapacity, r);
      assert r == StorageColumns(res, flows);
    } else {
      results.Update(TotalBatteryThroughput, 0.0);
    }

    GetStorageCapacity(caseDict, results, experiment, res);

    // state of charge of the battery
    if results.values[CapacityStorage] > 0.0 {
      var capacity := results.values[CapacityStorage];
      var stateOfCharge := DivBy(storedCapacity, capacity);
      r := JoinEFlows(stateOfCharge, StorageSoc, r);
    }
  }

  // ------------------------------------------------------------ national grid

  /** One leg of the grid interconnection: its flow at the microgrid bus, the
      node and flow on the utility side of its transformer, and the names of
      its columns and metrics. */
  datatype GridLeg = GridLeg(
    mgSide: FlowKey,
    utilityNode: Node,
    utilitySide: FlowKey,
    mgColumn: Column,
    utilityColumn: Column,
    mgMetric: Metric,
    utilityMetric: Metric)

  const ConsumptionLeg := GridLeg(
    Flow(TransformerPccConsumption, BusElectricityMg),
    BusElectricityNgConsumption,
    Flow(BusElectricityNgConsumption, TransformerPccConsumption),
    ConsumptionMgSide,
    ConsumptionUtilitySide,
    ConsumptionMainGridMgSideAnnual,
    ConsumptionMainGridUtilitySideAnnual)

  const FeedinLeg := GridLeg(
    Flow(BusElectricityMg, TransformerPccFeedin),
    BusElectricityNgFeedin,
    Flow(TransformerPccFeedin, BusElectricityNgFeedin),
    FeedinMgSide,
    FeedinUtilitySide,
    FeedinMainGridMgSideAnnual,
    FeedinMainGridUtilitySideAnnual)

  /** Both flows of the leg exist and span `length` steps. */
  predicate LegFlowsAvailable(leg: GridLeg, res: Results, length: nat)
  {
    && BusElectricityMg in res
    && leg.mgSide in res[BusElectricityMg].sequences
    && |res[BusElectricityMg].sequences[leg.mgSide]| == length
    && leg.utilityNode in res
    && leg.utilitySide in res[leg.utilityNode].sequences
    && |res[leg.utilityNode].sequences[leg.utilitySide]| == length
  }

  /** The columns a leg adds: its microgrid side, then its utility side;
      none without the leg. */
  function LegColumnNames(setting: CapSetting, leg: GridLeg): seq<Column>
  {
    if IsPresent(setting) then [leg.mgColumn, leg.utilityColumn] else []
  }

  /** The flow table after a leg's two columns, when the leg is present. */
  function LegColumns(setting: CapSetting, leg: GridLeg, res: Results, flows: FlowTable): (r: FlowTable)
    requires flows.Valid() && leg.mgColumn != leg.utilityColumn
    requires IsPresent(setting) ==>
      LegFlowsAvailable(leg, res, flows.length) && !flows.Has(leg.mgColumn) && !flows.Has(leg.utilityColumn)
    ensures r.Valid() && r.length == flows.length
    ensures r.names == flows.names + LegColumnNames(setting, leg)
    ensures IsPresent(setting) ==>
      && r.Has(leg.mgColumn) && r.Get(leg.mgColumn) == res[BusElectricityMg].sequences[leg.mgSide]
      && r.Has(leg.utilityColumn) && r.Get(leg.utilityColumn) == res[leg.utilityNode].sequences[leg.utilitySide]
    ensures !IsPresent(setting) ==> r == flows
  {
    if IsPresent(setting) then
      var mgSide := res[BusElectricityMg].sequences[leg.mgSide];
      var utilitySide := res[leg.utilityNode].sequences[leg.utilitySide];
      JoinEFlows(utilitySide, leg.utilityColumn, JoinEFlows(mgSide, leg.mgColumn, flows))
    else flows
  }

  /** A leg's columns leave every earlier column as it was. */
  lemma LegColumnsKeep(setting: CapSetting, leg: GridLeg, res: Results, flows: FlowTable, name: Column)
    requires flows.Valid() && leg.mgColumn != leg.utilityColumn
    requires IsPresent(setting) ==>
      LegFlowsAvailable(leg, res, flows.length) && !flows.Has(leg.mgColumn) && !flows.Has(leg.utilityColumn)
    requires flows.Has(name)
    ensures LegColumns(setting, leg, res, flows).Has(name)
    ensures LegColumns(setting, leg, res, flows).Get(name) == flows.Get(name)
  {
  }

  /** The annual energy of a leg's microgrid-side flow, 0 without the leg. */
  function LegMgAnnual(setting: CapSetting, leg: GridLeg, res: Results, evaluatedDays: int): real
    requires IsPresent(setting) ==> BusElectricityMg in res && leg.mgSide in res[BusElectricityMg].sequences
    requires IsPresent(setting) ==> evaluatedDays != 0
  {
    if IsPresent(setting) then Annual(res[BusElectricityMg].sequences[leg.mgSide], evaluatedDays) else 0.0
  }

  /** The annual energy of a leg's utility-side flow, 0 without the leg. */
  function LegUtilityAnnual(setting: CapSetting, leg: GridLeg, res: Results, evaluatedDays: int): real
    requires IsPresent(setting) ==> leg.utilityNode in res && leg.utilitySide in res[leg.utilityNode].sequences
    requires IsPresent(setting) ==> evaluatedDays != 0
  {
    if IsPresent(setting) then Annual(res[leg.utilityNode].sequences[leg.utilitySide], evaluatedDays) else 0.0
  }

  /** A leg's utility-side flow, empty without the leg. */
  function LegUtilitySide(setting: CapSetting, leg: GridLeg, res: Results): seq<real>
    requires IsPresent(setting) ==> leg.utilityNode in res && leg.utilitySide in res[leg.utilityNode].sequences
  {
    if IsPresent(setting) then res[leg.utilityNode].sequences[leg.utilitySide] else []
  }

  /** The metrics after one leg: its two annual energies, 0 without the leg. */
  function LegMetrics(before: map<Metric, real>, setting: CapSetting, leg: GridLeg, res: Results,
                      evaluatedDays: int): map<Metric, real>
    requires IsPresent(setting) ==>
      && BusElectricityMg in res && leg.mgSide in res[BusElectricityMg].sequences
      && leg.utilityNode in res && leg.utilitySide in res[leg.utilityNode].sequences
      && evaluatedDays != 0
  {
    before
      [leg.mgMetric := LegMgAnnual(setting, leg, res, evaluatedDays)]
      [leg.utilityMetric := LegUtilityAnnual(setting, leg, res, evaluatedDays)]
  }

  /** A leg writes its two metrics and keeps every other entry. */
  lemma LegMetricsKeep(before: map<Metric, real>, setting: CapSetting, leg: GridLeg, res: Results,
                       evaluatedDays: int, other: Metric)
    requires IsPresent(setting) ==>
      && BusElectricityMg in res && leg.mgSide in res[BusElectricityMg].sequences
      && leg.utilityNode in res && leg.utilitySide in res[leg.utilityNode].sequences
      && evaluatedDays != 0
    requires other != leg.mgMetric && other != leg.utilityMetric
    ensures var after := LegMetrics(before, setting, leg, res, evaluatedDays);
      && leg.mgMetric in after && leg.utilityMetric in after
      && (other in after <==> other in before)
      && (other in before ==> after[other] == before[other])
  {
  }

  /** One leg of `get_national_grid` (lines 194-207 for consumption, 213-224
      for feed-in): both flows as columns and as annual values, or two zero
      annual values without the leg. */
  method GetGridLeg(caseDict: CaseConfig, results: Metrics, res: Results, flows: FlowTable,
                    setting: CapSetting, leg: GridLeg)
    returns (r: FlowTable, utilitySide: seq<real>)
    requires flows.Valid() && leg.mgColumn != leg.utilityColumn && leg.mgMetric != leg.utilityMetric
    requires LegReady(setting, leg, res, flows)
    requires IsPresent(setting) ==> caseDict.evaluatedDays != 0
    modifies results
    ensures r == LegColumns(setting, leg, res, flows)
    ensures utilitySide == LegUtilitySide(setting, leg, res)
    ensures IsPresent(setting) ==> |utilitySide| == flows.length
    ensures results.values == LegMetrics(old(results.values), setting, leg, res, caseDict.evaluatedDays)
  {
    r := flows;
    utilitySide := [];
    if IsPresent(setting) {
      var mgSide := res[BusElectricityMg].sequences[leg.mgSide];
      r := JoinEFlows(mgSide, leg.mgColumn, r);
      AnnualValue(leg.mgMetric, mgSide, results, caseDict);
      utilitySide := res[leg.utilityNode].sequences[leg.utilitySide];
      r := JoinEFlows(utilitySide, leg.utilityColumn, r);
      AnnualValue(leg.utilityMetric, utilitySide, results, caseDict);
    } else {
      results.Update(leg.mgMetric, 0.0);
      results.Update(leg.utilityMetric, 0.0);
    }
  }

  /** The capacity part of `get_national_grid` (lines 226-243): the largest
      of the capacities the present legs resolve to, 0 when both legs are
      absent. */
  method GetPccCapacity(results: Metrics, consumption: CapSetting, consumptionUtilitySide: seq<real>,
                        feedin: CapSetting, feedinUtilitySide: seq<real>)
    requires IsOptimized(consumption) ==> |consumptionUtilitySide| > 0
    requires IsOptimized(feedin) ==> |feedinUtilitySide| > 0
    requires IsPresent(consumption) || IsPresent(feedin) ==> AnyLegResolves(consumption, feedin)
    modifies results
    ensures results.values == old(results.values)[CapacityPcoupling :=
      PccCapacity(consumption, consumptionUtilitySide, feedin, feedinUtilitySide)]
  {
    if IsPresent(consumption) || IsPresent(feedin) {
      var pccCap: seq<real> := [];
      if IsOptimized(consumption) {
        pccCap := pccCap + [Max(consumptionUtilitySide)];
      } else if consumption.FixedFloat? {
        pccCap := pccCap + [consumption.value];
      }
      assert pccCap == Listed(LegCapacity(consumption, consumptionUtilitySide));
      if IsOptimized(feedin) {
        pccCap := pccCap + [Max(feedinUtilitySide)];
      } else if feedin.FixedFloat? {
        pccCap := pccCap + [feedin.value];
      }
      assert pccCap == Listed(LegCapacity(consumption, consumptionUtilitySide)) +
                       Listed(LegCapacity(feedin, feedinUtilitySide));
      results.Update(CapacityPcoupling, Max(pccCap));
    } else if consumption.Absent? && feedin.Absent? {
      results.Update(CapacityPcoupling, 0.0);
    } else {
      // the warning of line 243: this branch negates both conditions above
      assert false;
    }
  }

  /** A present leg has both flows on the table's index and neither of its
      column names is taken yet. */
  predicate LegReady(setting: CapSetting, leg: GridLeg, res: Results, flows: FlowTable)
  {
    IsPresent(setting) ==>
      LegFlowsAvailable(leg, res, flows.length) && !flows.Has(leg.mgColumn) && !flows.Has(leg.utilityColumn)
  }

  /** The series of the GridAvailability column: the given availability
      with a grid connection, otherwise zeros. */
  function GridAvailabilityColumn(consumption: CapSetting, feedin: CapSetting, gridAvailability: seq<real>,
                                  length: nat): seq<real>
  {
    if IsPresent(consumption) || IsPresent(feedin) then gridAvailability else Zeros(length)
  }

  /** The flow table after `get_national_grid`: the availability column, then
      the columns of each present leg. */
  function GridColumns(consumption: CapSetting, feedin: CapSetting, res: Results, flows: FlowTable,
                       gridAvailability: seq<real>): (r: FlowTable)
    requires flows.Valid() && !flows.Has(GridAvailability)
    requires IsPresent(consumption) || IsPresent(feedin) ==> |gridAvailability| == flows.length
    requires LegReady(consumption, ConsumptionLeg, res, flows) && LegReady(feedin, FeedinLeg, res, flows)
    ensures r.Valid() && r.length == flows.length
  {
    GridLegsStayReady(consumption, feedin, res, flows, gridAvailability);
    var withAvailability := JoinEFlows(GridAvailabilityColumn(consumption, feedin, gridAvailability, flows.length),
                                       GridAvailability, flows);
    var withConsumption := LegColumns(consumption, ConsumptionLeg, res, withAvailability);
    LegColumns(feedin, FeedinLeg, res, withConsumption)
  }

  /** `get_national_grid` adds the availability column, then the columns of
      each present leg, in that order; the availability column is the given
      availability with a grid connection and zeros without one. */
  lemma GridColumnsContents(consumption: CapSetting, feedin: CapSetting, res: Results, flows: FlowTable,
                            gridAvailability: seq<real>)
    requires flows.Valid() && !flows.Has(GridAvailability)
    requires IsPresent(consumption) || IsPresent(feedin) ==> |gridAvailability| == flows.length
    requires LegReady(consumption, ConsumptionLeg, res, flows) && LegReady(feedin, FeedinLeg, res, flows)
    ensures var r := GridColumns(consumption, feedin, res, flows, gridAvailability);
      && r.names == flows.names + [GridAvailability] + LegColumnNames(consumption, ConsumptionLeg)
                    + LegColumnNames(feedin, FeedinLeg)
      && r.Has(GridAvailability)
      && r.Get(GridAvailability) == GridAvailabilityColumn(consumption, feedin, gridAvailability, flows.length)
  {
    GridLegsStayReady(consumption, feedin, res, flows, gridAvailability);
    var withAvailability := JoinEFlows(GridAvailabilityColumn(consumption, feedin, gridAvailability, flows.length),
                                       GridAvailability, flows);
    var withConsumption := LegColumns(consumption, ConsumptionLeg, res, withAvailability);
    LegColumnsKeep(consumption, ConsumptionLeg, res, withAvailability, GridAvailability);
    LegColumnsKeep(feedin, FeedinLeg, res, withConsumption, GridAvailability);
  }

  /** Joining the availability column, then the consumption leg, leaves each
      leg's column names free when its turn comes. */
  lemma GridLegsStayReady(consumption: CapSetting, feedin: CapSetting, res: Results, flows: FlowTable,
                          gridAvailability: seq<real>)
    requires flows.Valid() && !flows.Has(GridAvailability)
    requires IsPresent(consumption) || IsPresent(feedin) ==> |gridAvailability| == flows.length
    requires LegReady(consumption, ConsumptionLeg, res, flows) && LegReady(feedin, FeedinLeg, res, flows)
    ensures
      var withAvailability := JoinEFlows(GridAvailabilityColumn(consumption, feedin, gridAvailability, flows.length),
                                         GridAvailability, flows);
      && LegReady(consumption, ConsumptionLeg, res, withAvailability)
      && LegReady(feedin, FeedinLeg, res, LegColumns(consumption, ConsumptionLeg, res, withAvailability))
  {
  }

  /** What reading the grid metrics needs: the microgrid bus, the flows of
      each present leg, the days to annualise over, an entry for `max(pcc_cap)`
      and a step for `Series.max()` of an optimised leg. */
  predicate GridReady(consumption: CapSetting, feedin: CapSetting, res: Results, length: nat, evaluatedDays: int)
  {
    && BusElectricityMg in res
    && (IsPresent(consumption) || IsPresent(feedin) ==> evaluatedDays != 0 && AnyLegResolves(consumption, feedin))
    && (IsPresent(consumption) ==> LegFlowsAvailable(ConsumptionLeg, res, length))
    && (IsPresent(feedin) ==> LegFlowsAvailable(FeedinLeg, res, length))
    && (IsOptimized(consumption) || IsOptimized(feedin) ==> length > 0)
  }

  /** Under `GridReady`, an optimised leg's utility-side flow has a step,
      so `Series.max()` is defined on it. */
  lemma GridReadyUtilitySides(consumption: CapSetting, feedin: CapSetting, res: Results, length: nat,
                              evaluatedDays: int)
    requires GridReady(consumption, feedin, res, length, evaluatedDays)
    ensures IsOptimized(consumption) ==> |LegUtilitySide(consumption, ConsumptionLeg, res)| > 0
    ensures IsOptimized(feedin) ==> |LegUtilitySide(feedin, FeedinLeg, res)| > 0
  {
  }

  /** `autonomy_factor` (lines 209-211), written after the consumption leg:
      the supplied demand against the consumption from the grid. */
  function WithAutonomyFactor(values: map<Metric, real>): map<Metric, real>
    requires TotalDemandSuppliedAnnual in values && values[TotalDemandSuppliedAnnual] != 0.0
    requires ConsumptionMainGridMgSideAnnual in values
  {
    values[AutonomyFactor := AutonomyFactorOf(values[TotalDemandSuppliedAnnual],
                                              values[ConsumptionMainGridMgSideAnnual])]
  }

  /** `capacity_pcoupling_kW` (lines 226-243), from the utility-side flows. */
  function WithPccCapacity(values: map<Metric, real>, consumption: CapSetting, feedin: CapSetting,
                           res: Results, length: nat, evaluatedDays: int): map<Metric, real>
    requires GridReady(consumption, feedin, res, length, evaluatedDays)
  {
    values[CapacityPcoupling := PccCapacity(consumption, LegUtilitySide(consumption, ConsumptionLeg, res),
                                            feedin, LegUtilitySide(feedin, FeedinLeg, res))]
  }

  /** `total_pcoupling_throughput_kWh` (lines 245-252): the microgrid-side
      annual energy of each present leg, added up. */
  function PccThroughput(consumption: CapSetting, feedin: CapSetting, values: map<Metric, real>): real
    requires IsPresent(consumption) ==> ConsumptionMainGridMgSideAnnual in values
    requires IsPresent(feedin) ==> FeedinMainGridMgSideAnnual in values
  {
    (if IsPresent(consumption) then values[ConsumptionMainGridMgSideAnnual] else 0.0) +
    (if IsPresent(feedin) then values[FeedinMainGridMgSideAnnual] else 0.0)
  }

  /** Lines 209-211 of `get_national_grid`. */
  method GetAutonomyFactor(results: Metrics)
    requires TotalDemandSuppliedAnnual in results.values && results.values[TotalDemandSuppliedAnnual] != 0.0
    requires ConsumptionMainGridMgSideAnnual in results.values
    modifies results
    ensures results.values == WithAutonomyFactor(old(results.values))
  {
    results.Update(AutonomyFactor,
      (results.values[TotalDemandSuppliedAnnual] - results.values[ConsumptionMainGridMgSideAnnual])
      / results.values[TotalDemandSuppliedAnnual]);
  }

  /** Lines 245-252 of `get_national_grid`. */
  method GetPccThroughput(results: Metrics, consumption: CapSetting, feedin: CapSetting)
    requires IsPresent(consumption) ==> ConsumptionMainGridMgSideAnnual in results.values
    requires IsPresent(feedin) ==> FeedinMainGridMgSideAnnual in results.values
    modifies results
    ensures results.values ==
      old(results.values)[TotalPcouplingThroughput := PccThroughput(consumption, feedin, old(results.values))]
  {
    var totalPcouplingThroughput := 0.0;
    if IsPresent(consumption) || IsPresent(feedin) {
      if IsPresent(consumption) {
        totalPcouplingThroughput := totalPcouplingThroughput + results.values[ConsumptionMainGridMgSideAnnual];
      }
      if IsPresent(feedin) {
        totalPcouplingThroughput := totalPcouplingThroughput + results.values[FeedinMainGridMgSideAnnual];
      }
    }
    results.Update(TotalPcouplingThroughput, totalPcouplingThroughput);
  }

  /** The metrics after `get_national_grid`, stage by stage: the consumption
      leg, the autonomy factor, the feed-in leg, the interconnection capacity
      and the throughput. `GridMetricsLegs`, `GridMetricsAutonomy`,
      `GridMetricsCoupling` and `GridMetricsFrame` say what each entry holds. */
  function GridMetrics(before: map<Metric, real>, consumption: CapSetting, feedin: CapSetting,
                       res: Results, length: nat, evaluatedDays: int): map<Metric, real>
    requires GridReady(consumption, feedin, res, length, evaluatedDays)
    requires TotalDemandSuppliedAnnual in before && before[TotalDemandSuppliedAnnual] != 0.0
  {
    var withAutonomy := WithAutonomyFactor(LegMetrics(before, consumption, ConsumptionLeg, res, evaluatedDays));
    var withCapacity := WithPccCapacity(LegMetrics(withAutonomy, feedin, FeedinLeg, res, evaluatedDays),
                                        consumption, feedin, res, length, evaluatedDays);
    withCapacity[TotalPcouplingThroughput := PccThroughput(consumption, feedin, withCapacity)]
  }

  /** The entries `get_national_grid` writes. */
  predicate IsGridMetric(m: Metric)
  {
    || m == ConsumptionMainGridMgSideAnnual || m == ConsumptionMainGridUtilitySideAnnual
    || m == FeedinMainGridMgSideAnnual || m == FeedinMainGridUtilitySideAnnual
    || m == AutonomyFactor || m == CapacityPcoupling || m == TotalPcouplingThroughput
  }

  /** Each leg leaves its two annual energies in the metrics, 0 without the
      leg. */
  lemma GridMetricsLegs(before: map<Metric, real>, consumption: CapSetting, feedin: CapSetting,
                        res: Results, length: nat, evaluatedDays: int)
    requires GridReady(consumption, feedin, res, length, evaluatedDays)
    requires TotalDemandSuppliedAnnual in before && before[TotalDemandSuppliedAnnual] != 0.0
    ensures var after := GridMetrics(before, consumption, feedin, res, length, evaluatedDays);
      && ConsumptionMainGridMgSideAnnual in after && ConsumptionMainGridUtilitySideAnnual in after
      && FeedinMainGridMgSideAnnual in after && FeedinMainGridUtilitySideAnnual in after
      && after[ConsumptionMainGridMgSideAnnual] == LegMgAnnual(consumption, ConsumptionLeg, res, evaluatedDays)
      && after[ConsumptionMainGridUtilitySideAnnual] == LegUtilityAnnual(consumption, ConsumptionLeg, res, evaluatedDays)
      && after[FeedinMainGridMgSideAnnual] == LegMgAnnual(feedin, FeedinLeg, res, evaluatedDays)
      && after[FeedinMainGridUtilitySideAnnual] == LegUtilityAnnual(feedin, FeedinLeg, res, evaluatedDays)
  {
  }

  /** The autonomy factor compares the supplied demand with the consumption
      from the grid on the microgrid side. */
  lemma GridMetricsAutonomy(before: map<Metric, real>, consumption: CapSetting, feedin: CapSetting,
                            res: Results, length: nat, evaluatedDays: int)
    requires GridReady(consumption, feedin, res, length, evaluatedDays)
    requires TotalDemandSuppliedAnnual in before && before[TotalDemandSuppliedAnnual] != 0.0
    ensures var after := GridMetrics(before, consumption, feedin, res, length, evaluatedDays);
      && AutonomyFactor in after
      && after[AutonomyFactor] == AutonomyFactorOf(before[TotalDemandSuppliedAnnual],
                                                   LegMgAnnual(consumption, ConsumptionLeg, res, evaluatedDays))
      && (consumption.Absent? ==> after[AutonomyFactor] == 1.0)
  {
  }

  /** The interconnection capacity is the larger of the legs' capacities,
      and its throughput the two legs' microgrid-side energies together. */
  lemma GridMetricsCoupling(before: map<Metric, real>, consumption: CapSetting, feedin: CapSetting,
                            res: Results, length: nat, evaluatedDays: int)
    requires GridReady(consumption, feedin, res, length, evaluatedDays)
    requires TotalDemandSuppliedAnnual in before && before[TotalDemandSuppliedAnnual] != 0.0
    ensures var after := GridMetrics(before, consumption, feedin, res, length, evaluatedDays);
      && CapacityPcoupling in after && TotalPcouplingThroughput in after
      && after[CapacityPcoupling] == PccCapacity(consumption, LegUtilitySide(consumption, ConsumptionLeg, res),
                                                 feedin, LegUtilitySide(feedin, FeedinLeg, res))
      && after[TotalPcouplingThroughput] == LegMgAnnual(consumption, ConsumptionLeg, res, evaluatedDays)
                                            + LegMgAnnual(feedin, FeedinLeg, res, evaluatedDays)
  {
  }

  /** `get_national_grid` changes no entry but its own. */
  lemma GridMetricsFrame(before: map<Metric, real>, consumption: CapSetting, feedin: CapSetting,
                         res: Results, length: nat, evaluatedDays: int)
    requires GridReady(consumption, feedin, res, length, evaluatedDays)
    requires TotalDemandSuppliedAnnual in before && before[TotalDemandSuppliedAnnual] != 0.0
    ensures var after := GridMetrics(before, consumption, feedin, res, length, evaluatedDays);
      forall m :: !IsGridMetric(m) ==> (m in after <==> m in before) && (m in before ==> after[m] == before[m])
  {
  }

  /** `get_national_grid`: the grid-availability column, both legs, the
      autonomy factor, the interconnection capacity and the throughput. */
  method GetNationalGrid(caseDict: CaseConfig, results: Metrics, res: Results, flows: FlowTable,
                         gridAvailability: seq<real>)
    returns (r: FlowTable)
    requires flows.Valid() && !flows.Has(GridAvailability)
    requires GridReady(caseDict.pccConsumptionFixedCapacity, caseDict.pccFeedinFixedCapacity, res, flows.length,
                       caseDict.evaluatedDays)
    requires IsPresent(caseDict.pccConsumptionFixedCapacity) || IsPresent(caseDict.pccFeedinFixedCapacity) ==>
      |gridAvailability| == flows.length
    requires LegReady(caseDict.pccConsumptionFixedCapacity, ConsumptionLeg, res, flows)
    requires LegReady(caseDict.pccFeedinFixedCapacity, FeedinLeg, res, flows)
    requires TotalDemandSuppliedAnnual in results.values
    requires results.values[TotalDemandSuppliedAnnual] != 0.0
    modifies results
    ensures r == GridColumns(caseDict.pccConsumptionFixedCapacity, caseDict.pccFeedinFixedCapacity, res, flows,
                             gridAvailability)
    ensures results.values == GridMetrics(old(results.values), caseDict.pccConsumptionFixedCapacity,
                                          caseDict.pccFeedinFixedCapacity, res, flows.length, caseDict.evaluatedDays)
  {
    var consumption, feedin := caseDict.pccConsumptionFixedCapacity, caseDict.pccFeedinFixedCapacity;
    GridLegsStayReady(consumption, feedin, res, flows, gridAvailability);
    // define grid availability
    if IsPresent(consumption) || IsPresent(feedin) {
      r := JoinEFlows(gridAvailability, GridAvailability, flows);
    } else {
      var gridAvailabilitySymbolic := Zeros(flows.length);
      r := JoinEFlows(gridAvailabilitySymbolic, GridAvailability, flows);
    }
    assert r == JoinEFlows(GridAvailabilityColumn(consumption, feedin, gridAvailability, flows.length),
                           GridAvailability, flows);

    ghost var d := caseDict.evaluatedDays;
    ghost var before := results.values;
    var consumptionUtilitySide;
    r, consumptionUtilitySide := GetGridLeg(caseDict, results, res, r, consumption, ConsumptionLeg);

    LegMetricsKeep(before, consumption, ConsumptionLeg, res, d, TotalDemandSuppliedAnnual);
    GetAutonomyFactor(results);
    ghost var withAutonomy := results.values;

    var feedinUtilitySide;
    r, feedinUtilitySide := GetGridLeg(caseDict, results, res, r, feedin, FeedinLeg);

    // get capacities
    GridReadyUtilitySides(consumption, feedin, res, flows.length, d);
    GetPccCapacity(results, consumption, consumptionUtilitySide, feedin, feedinUtilitySide);
    ghost var withCapacity := results.values;
    assert withCapacity == WithPccCapacity(LegMetrics(withAutonomy, feedin, FeedinLeg, res, d),
                                           consumption, feedin, res, flows.length, d);

    LegMetricsKeep(withAutonomy, feedin, FeedinLeg, res, d, ConsumptionMainGridMgSideAnnual);
    GetPccThroughput(results, consumption, feedin);
  }

  // --------------------------------------------------------- renewable share

  /** `get_res_share`: the renewable share of all generation, from the
      annual values the earlier extractors wrote. */
  method GetResShare(caseDict: CaseConfig, results: Metrics, experiment: Experiment)
    requires TotalGensetGeneration in results.values
    requires ConsumptionMainGridMgSideAnnual in results.values
    requires TotalPvGeneration in results.values
    requires TotalWindGeneration in results.values
    requires results.values[TotalGensetGeneration] + results.values[ConsumptionMainGridMgSideAnnual]
             + results.values[TotalPvGeneration] + results.values[TotalWindGeneration] != 0.0
    modifies results
    ensures results.values == old(results.values)[ResShare := ResShareOf(
      old(results.values)[TotalGensetGeneration],
      old(results.values)[ConsumptionMainGridMgSideAnnual],
      old(results.values)[TotalPvGeneration],
      old(results.values)[TotalWindGeneration],
      experiment.maingridRenewableShare)]
  {
    var genset := results.values[TotalGensetGeneration];
    var gridImport := results.values[ConsumptionMainGridMgSideAnnual];
    var pv := results.values[TotalPvGeneration];
    var wind := results.values[TotalWindGeneration];

    var totalGeneration := genset;
    totalGeneration := totalGeneration + gridImport;
    totalGeneration := totalGeneration + pv;
    totalGeneration := totalGeneration + wind;

    var totalFossilGeneration := genset;
    // only the electricity effectively used from the grid counts
    totalFossilGeneration := totalFossilGeneration + gridImport * (1.0 - experiment.maingridRenewableShare);
    var resShare := Abs(1.0 - totalFossilGeneration / totalGeneration);
    ResShareFromTotals(genset, gridImport, pv, wind, experiment.maingridRenewableShare,
                     totalGeneration, totalFossilGeneration);

    results.Update(ResShare, resShare);
  }
}
