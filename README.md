# Evaluation of a solved microgrid optimisation

This project models, in Dafny, the evaluation step of an offgrid/ongrid
microgrid optimisation built on oemof (`G3_oemof_evaluate.py`). After the
solve, the evaluation reads the flows and invested capacities out of the
solver's result views and produces two things:

- the **flow table** `e_flows_df`, a wide table with one column per named
  energy flow, built one column at a time by `utilities.join_e_flows_df`;
- the **metrics** `oemof_results`, a flat dictionary of scalars (annual
  energies, peaks, capacities, ratios) that every extractor updates in place,
  annual values through `utilities.annual_value`.

The extractors of class `timeseries` run in a fixed order: demand, shortage,
excess, PV, wind, genset, fuel, storage, national grid and renewable share.
Later extractors read entries that earlier ones wrote. Each extractor
resolves an installed capacity from the case configuration with the same
three-way policy:

- `None` means the subsystem is absent;
- `False` means the capacity was optimised;
- a `float` means the capacity was fixed.

The model is arranged as follows.

- `Series` (series.dfy): time series as `seq<real>`. It defines `sum`, `max`,
  the element-wise operations and the element-wise total of several series.
  It also proves that summing commutes with them, including the exchange of
  the two orders of a double sum.
- `Naming` (naming.dfy): Python's `str` on unit numbers, and its injectivity.
- `Inputs` (inputs.dfy) holds what a run reads:
  - the configuration, where a capacity setting `CapSetting` is `Absent`,
    `Optimize`, `FixedFloat(v)` or `FixedOther`;
  - the experiment parameters;
  - the result views, with nodes and result keys as datatypes; the node
    labels are proved pairwise distinct.
- `Utilities` (utilities.dfy) holds the two shared outputs and the two
  utilities:
  - the flow table `FlowTable`, a value with its column order (each column
    listed once) and its columns by name, and `JoinEFlows`; the column
    names are proved pairwise distinct;
  - the metrics as a class `Metrics` whose `values` map the methods update
    in place, and `AnnualValue`.
- `Derived` (derived.dfy): the pure decisions inside the extractors. These
  are the capacity conversions, `capacity_pcoupling_kW`, the autonomy factor
  and the renewable share, each with its properties.
- `Timeseries` (timeseries.dfy): one method per extractor. Each method is
  proved against specification functions:
  - its new flow table is a function of the old one (a chain of
    `JoinEFlows`);
  - its new metrics are a function of the old ones.
  The two genset loops are methods with loop invariants, proved against the
  element-wise total and the sum of the unit investments.

Python's `0.0 == False` is kept: a fixed capacity of exactly `0.0` takes the
optimised branch (`IsOptimized`). A capacity setting that matches no branch
(`FixedOther`, for example an int other than 0, or `True`) writes no capacity, as in the source.

## Model

| member | source | states |
|---|---|---|
| Utilities.JoinEFlows | G3_oemof_evaluate.py:20-23 | the new table has the old columns in their order plus one column `name`, last, holding the series on the same index; every other column keeps its values; the name must be new and the series must span the index |
| Utilities.SingleColumn | G3_oemof_evaluate.py:36 | the table made from the demand series has exactly one column, `Demand`, holding that series on its index |
| Utilities.Metrics.Update | G3_oemof_evaluate.py:28 | `dict.update` of one key: that key gets the value and every other entry is unchanged |
| Utilities.Annual | G3_oemof_evaluate.py:26-27 | the annual value times `evaluated_days` is `sum(series) * 365` |
| Utilities.AnnualValue | G3_oemof_evaluate.py:25-29 | writes `sum(series) * 365 / evaluated_days` under `name`, overwriting any earlier value, and changes no other key |
| Utilities.AnnualOfScale | G3_oemof_evaluate.py:25-29 | annualising is linear: the annual value of `c * series` is `c` times the annual value of the series |
| Utilities.AnnualOfSub | G3_oemof_evaluate.py:46-48 | the annual value of `demand - shortage` is the annual demand minus the annual shortage |
| Utilities.AnnualOfColumnTotals | G3_oemof_evaluate.py:118-123 | the annual value of the element-wise genset total is the annualised sum of the units' own totals |
| Utilities.ColumnNameInjective | G3_oemof_evaluate.py:117-124 | different columns have different names, including the numbered `Genset N generation` columns, so "the table already has this column" is decided by name |
| Inputs.NodeNameInjective | G3_oemof_evaluate.py:116-120 | different nodes have different labels, including `transformer_genset_N`, so the per-unit keys read different entries |
| Naming.NatToStringDigits | G3_oemof_evaluate.py:120-121 | `str(n)` is a non-empty string of decimal digits with no leading zero, and has one digit exactly when n < 10 |
| Naming.NatToStringInjective | G3_oemof_evaluate.py:120-121 | different unit numbers give different strings |
| Series.Sum | G3_oemof_evaluate.py:26 | `sum`: the left fold from 0; it has no contract of its own, and its properties are stated by Series.SumNonNegative, Series.SumOfAdd, Series.SumOfSub, Series.SumOfScale and Series.SumOfColumnTotals |
| Series.SumNonNegative | G3_oemof_evaluate.py:26 | a series of non-negative values has a non-negative sum |
| Series.Max | G3_oemof_evaluate.py:38 | `max` of a non-empty series is one of its values and no value exceeds it |
| Series.Sub | G3_oemof_evaluate.py:46 | `a - b` holds `a[i] - b[i]` at every step |
| Series.Add | G3_oemof_evaluate.py:122 | `a + b` holds `a[i] + b[i]` at every step |
| Series.DivBy | G3_oemof_evaluate.py:180 | `s / c` holds, at every step, the value that multiplied by `c` gives `s[i]` |
| Series.Scale | G3_oemof_evaluate.py:25-29 | `c * s` holds `c * s[i]` at every step |
| Series.SumOfScale | G3_oemof_evaluate.py:26 | the sum of a scaled series is the scaled sum |
| Series.DivByIsScale | G3_oemof_evaluate.py:180 | dividing a series by `c` is scaling it by `1 / c`, so the state-of-charge column is a scaled stored-capacity series |
| Series.Zeros | G3_oemof_evaluate.py:191 | the symbolic availability is `n` zeros |
| Series.ColumnTotals | G3_oemof_evaluate.py:118-122 | the element-wise total of the unit series holds, at each step, the sum of the units' values at that step |
| Series.SumOfSub | G3_oemof_evaluate.py:46-48 | the sum of an element-wise difference is the difference of the sums |
| Series.SumOfAdd | G3_oemof_evaluate.py:122-123 | the sum of an element-wise sum is the sum of the sums |
| Series.ColumnTotalsSnoc | G3_oemof_evaluate.py:119-122 | adding one more unit adds its series to the element-wise total |
| Series.SumOfColumnTotals | G3_oemof_evaluate.py:122-123 | summing the element-wise total over time equals adding up the total of each unit |
| Inputs.IsPresent | G3_oemof_evaluate.py:67 | `setting != None` holds for every setting other than `None`, a non-float fixed value included |
| Inputs.IsOptimized | G3_oemof_evaluate.py:75 | `setting == False` (also at lines 99, 129, 167, 229 and 234) implies the setting is present, and holds for a fixed capacity of `0.0`, since `0.0 == False` |
| Derived.Converts | G3_oemof_evaluate.py:76-81 | the factors for which the investment is read and converted: positive and not 1 |
| Derived.ConvertInvest | G3_oemof_evaluate.py:76-81 | a capacity is resolved exactly when the factor is positive and not 1: `invest * max` above 1, `invest / max` in (0, 1); for a non-negative investment the capacity is at least the investment |
| Derived.GivenCapacity | G3_oemof_evaluate.py:82-85 | a float setting gives its value, an absent subsystem gives 0, and any other value resolves nothing |
| Derived.Store | G3_oemof_evaluate.py:75-85 | a resolved capacity is written under its key; an unresolved one leaves every entry as it was |
| Derived.LegCapacity | G3_oemof_evaluate.py:229-237 | an optimised leg contributes the peak of its utility-side flow, a fixed leg its float, any other setting nothing |
| Derived.Listed | G3_oemof_evaluate.py:228-237 | a leg appends one entry to `pcc_cap` when it resolves a capacity and none otherwise |
| Derived.PccCapacity | G3_oemof_evaluate.py:227-241 | 0 when both legs are absent; otherwise one of the legs' resolved capacities, and at least each of them |
| Derived.AutonomyFactorOf | G3_oemof_evaluate.py:209-211 | `(1 - autonomy) * supplied` is the import; with no import the factor is exactly 1 |
| Derived.AutonomyFactorBounds | G3_oemof_evaluate.py:209-211 | with an import between 0 and the supplied demand, the factor is in [0, 1] |
| Derived.ResShareOf | G3_oemof_evaluate.py:258-266 | `res_share` is never negative |
| Derived.ResShareFromTotals | G3_oemof_evaluate.py:258-266 | the share computed from the running totals `total_generation` and `total_fossil_generation` is `ResShareOf` of the four annual values |
| Derived.ResShareIsRenewableFraction | G3_oemof_evaluate.py:263-266 | for non-negative generation and a grid renewable share in [0, 1], `res_share` is exactly (pv + wind + import * share) / total and lies in [0, 1] |
| Timeseries.GetDemand | G3_oemof_evaluate.py:32-39 | the new table is the single `Demand` column; the annual demand and the demand peak are written and nothing else changes |
| Timeseries.GetShortage | G3_oemof_evaluate.py:41-54 | with shortage allowed it joins `Demand shortage` and then `Demand supplied` (demand minus shortage at every step) and writes both annual values, and the annual supplied demand is the annual demand minus the annual shortage; otherwise the table is unchanged, supplied equals the annual demand and shortage is 0 |
| Timeseries.GetExcess | G3_oemof_evaluate.py:56-62 | joins `Excess generation` and writes its annual value; nothing else changes |
| Timeseries.SourceCapacity | G3_oemof_evaluate.py:75-85 | the PV or wind capacity (also lines 99-109): when optimised, resolved exactly when the factor converts, as `invest * max` above 1 and the value that times `max` gives `invest` in (0, 1); otherwise what the setting gives; the investment is needed only when it is converted |
| Timeseries.GetVariableSource | G3_oemof_evaluate.py:64-110 | the body shared by PV and wind: a present source joins its generation column and writes its annual value, an absent one writes 0 and adds no column; the capacity is stored as the conversion of the investment (optimised), the float, or 0 (absent), and is left unwritten when the conversion resolves nothing |
| Timeseries.GetSourceCapacity | G3_oemof_evaluate.py:74-85 | the capacity part shared by PV and wind (lines 74-85 and 98-109): `invest * max` above 1 and `invest / max` in (0, 1) when optimised, the float, or 0 when absent; no write when nothing resolves, and no other entry changes |
| Timeseries.GetPv | G3_oemof_evaluate.py:64-86 | the PV instance of the above; absent PV gives generation 0, capacity 0 and an unchanged table |
| Timeseries.GetWind | G3_oemof_evaluate.py:88-110 | the wind instance of the above; absent wind gives generation 0, capacity 0 and an unchanged table |
| Timeseries.FlowUnitCount | G3_oemof_evaluate.py:116-119 | the number of units whose flows are read: unit 1 always, then `range(2, N+1)`; it has no contract of its own, and Timeseries.FlowUnitCountCovers states its range |
| Timeseries.FlowUnitCountCovers | G3_oemof_evaluate.py:116-119 | at least one unit is read, every unit up to N is read, and exactly N units for N ≥ 1 |
| Timeseries.InvestUnitCount | G3_oemof_evaluate.py:132 | `range(1, N+1)` covers N units, none for N ≤ 0 |
| Timeseries.GensetUnits | G3_oemof_evaluate.py:116-120 | the series of units 1 to N, in order, read under `transformer_genset_k` |
| Timeseries.UnitsReadyPrefix | G3_oemof_evaluate.py:119-121 | the first units of a list ready to be joined are ready too |
| Timeseries.GensetUnitsReady | G3_oemof_evaluate.py:116-121 | the unit series read from the results span the index and their columns are new |
| Timeseries.UnitNames | G3_oemof_evaluate.py:117-121 | the unit columns are `Genset 1 generation` to `Genset N generation`, in order, and none is the total column |
| Timeseries.JoinUnits | G3_oemof_evaluate.py:117-121 | joining the units adds their columns after the old ones in unit order, and adds no other column |
| Timeseries.JoinUnitsColumns | G3_oemof_evaluate.py:117-121 | unit k's column holds unit k's series, and every old column keeps its values |
| Timeseries.JoinedFirstUnit | G3_oemof_evaluate.py:116-118 | before the loop, unit 1 is joined and the running total is its series |
| Timeseries.JoinedNextUnit | G3_oemof_evaluate.py:119-122 | one loop step joins the next unit's column and adds its values to the running total, keeping the loop invariant |
| Timeseries.GensetFlows | G3_oemof_evaluate.py:115-122 | the flow loop: the table gains the unit columns 1 to N in order, and `total_genset` is their element-wise total |
| Timeseries.GensetInvests | G3_oemof_evaluate.py:132-133 | the investments of units 1 to N, in order |
| Timeseries.GensetCapacity | G3_oemof_evaluate.py:129-134 | the capacity loop: the optimised genset capacity is the sum of the units' investments (0 for no unit) |
| Timeseries.GetGenset | G3_oemof_evaluate.py:112-139 | a present genset joins the unit columns and then `Genset generation`, their element-wise total, and the annual generation is the annualised sum of the unit totals; an absent one writes 0 and adds no column; the capacity is the sum of the investments (optimised), the float, or 0 (absent), and is left unwritten otherwise |
| Timeseries.GetFuel | G3_oemof_evaluate.py:141-149 | the annual fuel consumption with a genset, 0 without one; nothing else changes |
| Timeseries.StorageCapacity | G3_oemof_evaluate.py:167-176 | optimised: the value that times the charge C-rate gives the invested charge power; otherwise what the setting gives |
| Timeseries.StorageColumns | G3_oemof_evaluate.py:155-162 | the storage flows add the charge, discharge and stored-capacity columns, in that order and no others, holding the three series read from the storage view |
| Timeseries.GetStorageCapacity | G3_oemof_evaluate.py:166-176 | the storage capacity is the invested charge power divided by the charge C-rate (optimised), the float, or 0 (absent), and is left unwritten otherwise |
| Timeseries.GetStorage | G3_oemof_evaluate.py:151-182 | present storage joins charge, discharge and stored capacity and writes the throughput; absent storage writes throughput 0 and adds no column; a `Storage SOC` column is added exactly when the resolved capacity is positive, and holds stored capacity divided by that capacity |
| Timeseries.LegColumns | G3_oemof_evaluate.py:194-220 | a present leg adds its microgrid-side and then its utility-side column after the old columns, holding the leg's microgrid-side and utility-side flows; an absent leg leaves the table unchanged |
| Timeseries.LegColumnsKeep | G3_oemof_evaluate.py:194-220 | a leg's columns leave every earlier column as it was |
| Timeseries.LegMetricsKeep | G3_oemof_evaluate.py:194-224 | a leg writes its two annual energies and keeps every other entry |
| Timeseries.GetGridLeg | G3_oemof_evaluate.py:194-224 | a present leg joins both its flows and writes both annual values; an absent leg writes two zeros and adds no column |
| Timeseries.GetPccCapacity | G3_oemof_evaluate.py:226-243 | builds `pcc_cap` from the present legs and writes its maximum, or 0 when both legs are absent; the warning branch is unreachable |
| Timeseries.GetAutonomyFactor | G3_oemof_evaluate.py:209-211 | writes `(supplied - import) / supplied` from the current entries |
| Timeseries.GetPccThroughput | G3_oemof_evaluate.py:245-252 | writes the sum of the microgrid-side annual energies of the present legs |
| Timeseries.GridColumns | G3_oemof_evaluate.py:188-220 | the table after the grid extractor is well formed and keeps the index |
| Timeseries.GridColumnsContents | G3_oemof_evaluate.py:188-220 | the grid extractor adds `Grid availability` and then each present leg's two columns, in that order; availability is the given series with a grid connection and zeros without one |
| Timeseries.GridLegsStayReady | G3_oemof_evaluate.py:188-220 | after the availability column and the consumption leg, each leg's column names are still free when its turn comes |
| Timeseries.GridReadyUtilitySides | G3_oemof_evaluate.py:230-235 | an optimised leg's utility-side flow has a step, so its `max()` is defined |
| Timeseries.GridMetricsLegs | G3_oemof_evaluate.py:194-224 | after the grid extractor, each leg's two annual energies are in the metrics, 0 for an absent leg |
| Timeseries.GridMetricsAutonomy | G3_oemof_evaluate.py:206-211 | `autonomy_factor` compares the supplied demand with the microgrid-side import, and is exactly 1 without the consumption leg |
| Timeseries.GridMetricsCoupling | G3_oemof_evaluate.py:226-252 | `capacity_pcoupling_kW` is `PccCapacity` of the legs, and `total_pcoupling_throughput_kWh` is the microgrid-side import plus the microgrid-side feed-in |
| Timeseries.GridMetricsFrame | G3_oemof_evaluate.py:184-254 | the grid extractor changes no entry except its own seven |
| Timeseries.GetNationalGrid | G3_oemof_evaluate.py:184-254 | the new table is `GridColumns` and the new metrics are `GridMetrics` of the old ones; the four lemmas above state what these hold |
| Timeseries.GetResShare | G3_oemof_evaluate.py:256-269 | writes `ResShareOf` of the annual genset, import, PV and wind values and the grid's renewable share; nothing else changes |

## Left out

- Logging (debug messages and warnings) is not modelled. The PV and wind warning branch, and the warning branch at G3_oemof_evaluate.py:242-243, are modelled as writing nothing.
- The optional matplotlib import is not modelled; nothing in the core uses it.
- `outputlib.views.node` and the solver's result objects become the input `Results`, a map from nodes to views of series and scalars. A `KeyError` on a missing node or key becomes a precondition, required only on the paths where the source reads that key (a PV or wind investment, for example, only when the factor converts).
- pandas index alignment in `join` and DataFrame construction are not modelled. The series-length preconditions require every series to span the table's index. A column name already in the table becomes a precondition, because pandas refuses that join.
- Floating point is modelled as `real`. IEEE-754 rounding in the sums and divisions is not captured.
- Python's distinction between the int `0` and the float `0.0` as a written value is not captured. Both are the real 0.
- Timeseries.GensetFlows: the in-place `total_genset += genset`, which also mutates the solver's unit-1 series through aliasing, is modelled on values. The unit columns hold the values as read.
- Division by zero becomes a precondition: `evaluated_days`, the charge C-rate, the supplied demand in the autonomy factor and the total generation in `res_share`.
- Builtin `max` raises on an empty sequence: on the demand series (G3_oemof_evaluate.py:38) and on an empty `pcc_cap` (line 239, a present leg set to something other than `False` or a float). Both become preconditions: the demand series is non-empty and `AnyLegResolves` holds.
- pandas `Series.max()` on an empty utility-side flow (G3_oemof_evaluate.py:230, 235) returns NaN instead of raising. The model has no NaN, so it requires an optimised grid leg to have a step and does not capture the NaN capacity that an empty flow would give.
- Timeseries.GetStorage: a storage setting that resolves no capacity (`FixedOther`) requires an earlier `capacity_storage_kWh` entry, because G3_oemof_evaluate.py:179 reads it. Without one the source raises `KeyError`.
- Labels are modelled as enumerations (`Node`, `Column`, `Metric`) instead of strings. Their string renderings are given, and the node and column renderings are proved injective. Keys outside the core are not modelled.
- Timeseries.GridColumns: its own contract states only well-formedness. Its column order and availability column are stated by Timeseries.GridColumnsContents, the leg columns' values by Timeseries.LegColumns, and the preservation of earlier columns by Timeseries.LegColumnsKeep.
