/** What an evaluation run reads: the case configuration, the experiment
    parameters and the solver's result views, all fixed for the run. */
module Inputs {
  import opened Naming

  /** The value of a `*_fixed_capacity` entry of the case configuration.
      The source tells the forms apart with `!= None`, `== False` and
      `isinstance(..., float)`. */
  datatype CapSetting =
    | Absent                    // None: the subsystem is not part of the case
    | Optimize                  // False (or an int 0): the capacity is a decision of the solve
    | FixedFloat(value: real)   // a float: the capacity is given by the caller
    | FixedOther                // any other value, e.g. an int other than 0 or True

  /** `setting != None`: the subsystem's flows exist in the results. */
  predicate IsPresent(c: CapSetting)
    ensures c.Optimize? || c.FixedFloat? || c.FixedOther? ==> IsPresent(c)
  {
    !c.Absent?
  }

  /** `setting == False`. In Python `0.0 == False`, so a fixed capacity of
      0.0 is read back from the solve like an optimised one. */
  predicate IsOptimized(c: CapSetting)
    ensures IsOptimized(c) ==> IsPresent(c)
    ensures c == FixedFloat(0.0) ==> IsOptimized(c)
  {
    c.Optimize? || (c.FixedFloat? && c.value == 0.0)
  }

  /** The entries of `case_dict` the evaluation reads. */
  datatype CaseConfig = CaseConfig(
    evaluatedDays: int,
    allowShortage: bool,
    numberOfEqualGenerators: int,
    pvFixedCapacity: CapSetting,
    windFixedCapacity: CapSetting,
    gensetFixedCapacity: CapSetting,
    storageFixedCapacity: CapSetting,
    pccConsumptionFixedCapacity: CapSetting,
    pccFeedinFixedCapacity: CapSetting)

  /** The entries of `experiment` the evaluation reads. */
  datatype Experiment = Experiment(
    storageCrateCharge: real,
    maingridRenewableShare: real)

  /** The nodes of the energy system whose results the extractors read; each
      stands for the label `NodeName` gives. */
  datatype Node =
    | BusElectricityMg | SinkDemand | SourceShortage | SinkExcess | SourcePv | SourceWind
    | TransformerGenset(number: nat) | SourceFuel | BusFuel | GenericStorage | NoneNode
    | TransformerPccConsumption | BusElectricityNgConsumption | TransformerPccFeedin
    | BusElectricityNgFeedin

  /** The label of a node; `NoneNode` is the string `'None'` that stands as
      the target of the stored-capacity key. */
  function NodeName(n: Node): string
  {
    match n
    case BusElectricityMg => "bus_electricity_mg"
    case SinkDemand => "sink_demand"
    case SourceShortage => "source_shortage"
    case SinkExcess => "sink_excess"
    case SourcePv => "source_pv"
    case SourceWind => "source_wind"
    case TransformerGenset(number) => GensetNodeName(number)
    case SourceFuel => "source_fuel"
    case BusFuel => "bus_fuel"
    case GenericStorage => "generic_storage"
    case NoneNode => "None"
    case TransformerPccConsumption => "transformer_pcc_consumption"
    case BusElectricityNgConsumption => "bus_electricity_ng_consumption"
    case TransformerPccFeedin => "transformer_pcc_feedin"
    case BusElectricityNgFeedin => "bus_electricity_ng_feedin"
  }

  /** `'transformer_genset_' + str(number)`. */
  function GensetNodeName(number: nat): (name: string)
    ensures |name| >= 20 && name[0] == 't' && name[12] == 'g'
    ensures name[19..] == NatToString(number)
  {
    NatToStringDigits(number);
    "transformer_genset_" + NatToString(number)
  }

  /** No fixed node label has the shape of a genset transformer's label. */
  lemma FixedNodeName(n: Node)
    requires !n.TransformerGenset?
    ensures |NodeName(n)| < 20 || NodeName(n)[0] != 't' || NodeName(n)[12] != 'g'
  {
    match n
    case BusElectricityMg =>
    case SinkDemand =>
    case SourceShortage =>
    case SinkExcess =>
    case SourcePv =>
    case SourceWind =>
    case SourceFuel =>
    case BusFuel =>
    case GenericStorage =>
    case NoneNode =>
    case TransformerPccConsumption =>
    case BusElectricityNgConsumption =>
    case TransformerPccFeedin =>
    case BusElectricityNgFeedin =>
  }

  /** The fixed node labels are pairwise different. */
  lemma FixedNodeNamesDistinct(a: Node, b: Node)
    requires !a.TransformerGenset? && !b.TransformerGenset? && NodeName(a) == NodeName(b)
    ensures a == b
  {
    match a
    case BusElectricityMg =>
    case SinkDemand =>
    case SourceShortage =>
    case SinkExcess =>
    case SourcePv =>
    case SourceWind =>
    case SourceFuel =>
    case BusFuel =>
    case GenericStorage =>
    case NoneNode =>
    case TransformerPccConsumption =>
    case BusElectricityNgConsumption =>
    case TransformerPccFeedin =>
    case BusElectricityNgFeedin =>
  }

  /** Different nodes have different labels, the numbered genset
      transformers included. */
  lemma NodeNameInjective(a: Node, b: Node)
    requires NodeName(a) == NodeName(b)
    ensures a == b
  {
    if a.TransformerGenset? && b.TransformerGenset? {
      NatToStringInjective(a.number, b.number);
    } else if a.TransformerGenset? {
      FixedNodeName(b);
    } else if b.TransformerGenset? {
      FixedNodeName(a);
    } else {
      FixedNodeNamesDistinct(a, b);
    }
  }

  /** The field part of a result key: `'flow'`, `'invest'` or `'capacity'`. */
  datatype Field = FlowField | InvestField | CapacityField

  /** A `((source, target), field)` key of a result view. */
  datatype FlowKey = FlowKey(source: Node, target: Node, field: Field)

  /** The result view of one node: its time series and its scalars. */
  datatype View = View(
    sequences: map<FlowKey, seq<real>>,
    scalars: map<FlowKey, real>)

  /** The solved results, by node (what `views.node(results, name)` returns). */
  type Results = map<Node, View>

  /** `((source, target), 'flow')`. */
  function Flow(source: Node, target: Node): FlowKey
  {
    FlowKey(source, target, FlowField)
  }

  /** `((source, target), 'invest')`. */
  function Invest(source: Node, target: Node): FlowKey
  {
    FlowKey(source, target, InvestField)
  }

  /** The key of genset unit `number`'s flow into the electricity bus. */
  function GensetFlowKey(number: nat): FlowKey
  {
    Flow(TransformerGenset(number), BusElectricityMg)
  }

  /** The key of genset unit `number`'s invested capacity. */
  function GensetInvestKey(number: nat): FlowKey
  {
    Invest(TransformerGenset(number), BusElectricityMg)
  }
}
