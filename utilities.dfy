module Utilities {
  import opened Series
  import opened Inputs
  import opened Naming

  /** The entries of `oemof_results` the extractors write and read; each
      stands for the key `MetricName` gives. */
  datatype Metric =
    | TotalDemandAnnual | DemandPeak | TotalDemandSuppliedAnnual | TotalDemandShortageAnnual
    | TotalDemandExcessAnnual | TotalPvGeneration | CapacityPv | TotalWindGeneration | CapacityWind
    | TotalGensetGeneration | CapacityGenset | ConsumptionFuelAnnual | TotalBatteryThroughput
    | CapacityStorage | ConsumptionMainGridMgSideAnnual | ConsumptionMainGridUtilitySideAnnual
    | FeedinMainGridMgSideAnnual | FeedinMainGridUtilitySideAnnual | AutonomyFactor
    | CapacityPcoupling | TotalPcouplingThroughput | ResShare

  /** The key of a metric in `oemof_results`. */
  function MetricName(m: Metric): string
  {
    match m
    case TotalDemandAnnual => "total_demand_annual_kWh"
    case DemandPeak => "demand_peak_kW"
    case TotalDemandSuppliedAnnual => "total_demand_supplied_annual_kWh"
    case TotalDemandShortageAnnual => "total_demand_shortage_annual_kWh"
    case TotalDemandExcessAnnual => "total_demand_excess_annual_kWh"
    case TotalPvGeneration => "total_pv_generation_kWh"
    case CapacityPv => "capacity_pv_kWp"
    case TotalWindGeneration => "total_wind_generation_kWh"
    case CapacityWind => "capacity_wind_kW"
    case TotalGensetGeneration => "total_genset_generation_kWh"
    case CapacityGenset => "capacity_genset_kW"
    case ConsumptionFuelAnnual => "consumption_fuel_annual_l"
    case TotalBatteryThroughput => "total_battery_throughput_kWh"
    case CapacityStorage => "capacity_storage_kWh"
    case ConsumptionMainGridMgSideAnnual => "consumption_main_grid_mg_side_annual_kWh"
    case ConsumptionMainGridUtilitySideAnnual => "consumption_main_grid_utility_side_annual_kWh"
    case FeedinMainGridMgSideAnnual => "feedin_main_grid_mg_side_annual_kWh"
    case FeedinMainGridUtilitySideAnnual => "feedin_main_grid_utility_side_annual_kWh"
    case AutonomyFactor => "autonomy_factor"
    case CapacityPcoupling => "capacity_pcoupling_kW"
    case TotalPcouplingThroughput => "total_pcoupling_throughput_kWh"
    case ResShare => "res_share"
  }

  /** The columns the extractors join into the flow table; each stands for
      the column name `ColumnName` gives. */
  datatype Column =
    | Demand | DemandShortage | DemandSupplied | ExcessGeneration | PvGeneration | WindGeneration
    | GensetUnit(number: nat) | GensetGeneration | StorageCharge | StorageDischarge | StoredCapacity
    | StorageSoc | GridAvailability | ConsumptionMgSide | ConsumptionUtilitySide | FeedinMgSide
    | FeedinUtilitySide

  /** `'Genset ' + str(number) + ' generation'`. */
  function GensetColumnName(number: nat): (name: string)
    ensures |name| >= 19 && name[0] == 'G'
  {
    NatToStringDigits(number);
    "Genset " + NatToString(number) + " generation"
  }

  /** The name of a column of the flow table. */
  function ColumnName(c: Column): string
  {
    match c
    case Demand => "Demand"
    case DemandShortage => "Demand shortage"
    case DemandSupplied => "Demand supplied"
    case ExcessGeneration => "Excess generation"
    case PvGeneration => "PV generation"
    case WindGeneration => "Wind generation"
    case GensetUnit(number) => GensetColumnName(number)
    case GensetGeneration => "Genset generation"
    case StorageCharge => "Storage charge"
    case StorageDischarge => "Storage discharge"
    case StoredCapacity => "Stored capacity"
    case StorageSoc => "Storage SOC"
    case GridAvailability => "Grid availability"
    case ConsumptionMgSide => "Consumption from main grid (MG side)"
    case ConsumptionUtilitySide => "Consumption from main grid (utility side)"
    case FeedinMgSide => "Feed into main grid (MG side)"
    case FeedinUtilitySide => "Feed into main grid (utility side)"
  }

  /** No fixed column name has the shape of a unit column's name. */
  lemma FixedColumnName(c: Column)
    requires !c.GensetUnit?
    ensures |ColumnName(c)| < 19 || ColumnName(c)[0] != 'G'
  {
    match c
    case Demand =>
    case DemandShortage =>
    case DemandSupplied =>
    case ExcessGeneration =>
    case PvGeneration =>
    case WindGeneration =>
    case GensetGeneration =>
    case StorageCharge =>
    case StorageDischarge =>
    case StoredCapacity =>
    case StorageSoc =>
    case GridAvailability =>
    case ConsumptionMgSide =>
    case ConsumptionUtilitySide =>
    case FeedinMgSide =>
    case FeedinUtilitySide =>
  }

  /** The fixed column names are pairwise different. */
  lemma FixedColumnNamesDistinct(a: Column, b: Column)
    requires !a.GensetUnit? && !b.GensetUnit? && ColumnName(a) == ColumnName(b)
    ensures a == b
  {
    match a
    case Demand =>
    case DemandShortage =>
    case DemandSupplied =>
    case ExcessGeneration =>
    case PvGeneration =>
    case WindGeneration =>
    case GensetGeneration =>
    case StorageCharge =>
    case StorageDischarge =>
    case StoredCapacity =>
    case StorageSoc =>
    case GridAvailability =>
    case ConsumptionMgSide =>
    case ConsumptionUtilitySide =>
    case FeedinMgSide =>
    case FeedinUtilitySide =>
  }

  /** Different columns have different names, the numbered genset columns
      included: a column is already in the table exactly when a column of
      that name is. */
  lemma ColumnNameInjective(a: Column, b: Column)
    requires ColumnName(a) == ColumnName(b)
    ensures a == b
  {
    if a.GensetUnit? && b.GensetUnit? {
      var sa, sb := NatToString(a.number), NatToString(b.number);
      NatToStringDigits(a.number);
      NatToStringDigits(b.number);
      assert |sa| == |sb|;
      assert sa == ColumnName(a)[7..7 + |sa|];
      assert sb == ColumnName(b)[7..7 + |sb|];
      NatToStringInjective(a.number, b.number);
    } else if a.GensetUnit? {
      FixedColumnName(b);
    } else if b.GensetUnit? {
      FixedColumnName(a);
    } else {
      FixedColumnNamesDistinct(a, b);
    }
  }

  /** The wide flow table: `length` time steps (the shared index), the column
      names in the order the columns were joined, and each column's values by
      name. */
  datatype FlowTable = FlowTable(length: nat, names: seq<Column>, data: map<Column, seq<real>>) {

    /** Every column spans the index, and `names` lists the columns: each
        entry names a column, no column is listed twice, and there are as
        many entries as columns, so every column is listed. */
    predicate Valid()
    {
      && (forall name :: name in data ==> |data[name]| == length)
      && (forall i :: 0 <= i < |names| ==> names[i] in data)
      && (forall i, j :: 0 <= i < j < |names| ==> names[i] != names[j])
      && |names| == |data|
    }

    /** The table has a column called `name`. */
    predicate Has(name: Column)
    {
      name in data
    }

    /** `e_flows_df[name]`: the values of the column called `name`. */
    function Get(name: Column): (s: seq<real>)
      requires Has(name)
      ensures Valid() ==> |s| == length
    {
      data[name]
    }
  }

  /** A table of one column, spanning that column's index. */
  function SingleColumn(name: Column, timeseries: seq<real>): (r: FlowTable)
    ensures r.Valid() && r.length == |timeseries|
    ensures r.names == [name]
    ensures r.Has(name) && r.Get(name) == timeseries
    ensures forall n :: r.Has(n) ==> n == name
  {
    FlowTable(|timeseries|, [name], map[name := timeseries])
  }

  /** `utilities.join_e_flows_df`: a new table with one more column, `name`,
      last in the column order and holding the series on the table's index;
      every other column is unchanged. pandas refuses to join a column whose
      name the table already has, and the index is shared. */
  function JoinEFlows(timeseries: seq<real>, name: Column, flows: FlowTable): (r: FlowTable)
    requires flows.Valid() && |timeseries| == flows.length && !flows.Has(name)
    ensures r.Valid() && r.length == flows.length
    ensures r.names == flows.names + [name]
    ensures r.Has(name) && r.Get(name) == timeseries
    ensures r.data == flows.data[name := timeseries]
  {
    var r := FlowTable(flows.length, flows.names + [name], flows.data[name := timeseries]);
    assert |r.data| == |flows.data| + 1;
    r
  }

  /** The dictionary `oemof_results`, which every extractor updates in place. */
  class Metrics {
    var values: map<Metric, real>

    constructor (initial: map<Metric, real>)
      ensures values == initial
    {
      values := initial;
    }

    /** `oemof_results.update({name: value})`. */
    method Update(name: Metric, value: real)
      modifies this
      ensures values == old(values)[name := value]
    {
      values := values[name := value];
    }
  }

  /** The annualised total of a series simulated over `evaluatedDays` days. */
  function Annual(timeseries: seq<real>, evaluatedDays: int): (r: real)
    requires evaluatedDays != 0
    ensures r * evaluatedDays as real == Sum(timeseries) * 365.0
  {
    Sum(timeseries) * 365.0 / evaluatedDays as real
  }

  /** `utilities.annual_value`: writes the annualised total of the series
      under `name`, replacing any earlier value; no other entry changes. */
  method AnnualValue(name: Metric, timeseries: seq<real>, results: Metrics, caseDict: CaseConfig)
    requires caseDict.evaluatedDays != 0
    modifies results
    ensures results.values == old(results.values)[name := Annual(timeseries, caseDict.evaluatedDays)]
    ensures results.values[name] * caseDict.evaluatedDays as real == Sum(timeseries) * 365.0
  {
    var value := Sum(timeseries);
    value := value * 365.0 / caseDict.evaluatedDays as real;
    results.Update(name, value);
  }

  /** Annualising is linear: scaling a series by `c` scales its annual
      value by `c`. */
  lemma AnnualOfScale(c: real, s: seq<real>, evaluatedDays: int)
    requires evaluatedDays != 0
    ensures Annual(Scale(c, s), evaluatedDays) == c * Annual(s, evaluatedDays)
  {
    SumOfScale(c, s);
    assert Sum(Scale(c, s)) * 365.0 == c * (Sum(s) * 365.0);
  }

  /** The annual value of a difference of series is the difference of their
      annual values. */
  lemma AnnualOfSub(a: seq<real>, b: seq<real>, evaluatedDays: int)
    requires |a| == |b| && evaluatedDays != 0
    ensures Annual(Sub(a, b), evaluatedDays) == Annual(a, evaluatedDays) - Annual(b, evaluatedDays)
  {
    SumOfSub(a, b);
  }

  /** The annual value of an element-wise total of several series is the
      annualised sum of the series' own totals. */
  lemma AnnualOfColumnTotals(rows: seq<seq<real>>, n: nat, evaluatedDays: int)
    requires AllOfLength(rows, n) && evaluatedDays != 0
    ensures Annual(ColumnTotals(rows, n), evaluatedDays) == Annual(RowTotals(rows), evaluatedDays)
  {
    SumOfColumnTotals(rows, n);
  }
}
