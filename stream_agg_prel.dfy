/**
 * The streaming-aggregation physical plan node: a grouping-plus-aggregation
 * step that consumes input already sorted on its grouping columns. The node
 * is an immutable value; rebuilding it with other fields is `Copy`.
 */
module StreamAgg {
  import opened Wrappers
  import opened Collations
  import opened Costs
  import opened BatchSchema
  import opened Operators

  /** Stand-ins for the planner's own objects, which are opaque to this node. */
  datatype Cluster = Cluster(id: nat)
  datatype TraitSet = TraitSet(id: nat)
  datatype RelNode = RelNode(id: nat)

  /** Whether the node aggregates completely (Single) or is the partial or final half of a two-phase aggregation. */
  datatype OperatorPhase = Single | Partial | Final

  /** An aggregate-function call: the function, its argument columns, DISTINCT, and its result type. */
  datatype AggCall = AggCall(name: string, args: seq<nat>, distinct: bool, resultType: string)

  /** The checked exception of the aggregate base constructor. */
  datatype InvalidRelException = InvalidRelException(message: string)

  /** Everything the node's constructor receives. */
  datatype AggShape = AggShape(
    cluster: Cluster, traits: TraitSet, input: RelNode, indicator: bool,
    groupSet: set<nat>, groupSets: seq<set<nat>>, aggCalls: seq<AggCall>, phase: OperatorPhase)

  /** What the aggregate base constructor derives from a shape it accepts: key and aggregate expressions. */
  datatype Derived = Derived(keys: seq<NamedExpression>, aggExprs: seq<NamedExpression>)

  /**
   * The aggregate base constructor's validation and derivation: it either
   * rejects the shape or yields its key and aggregate expressions.
   */
  type BaseConstructor = AggShape -> Result<Derived, InvalidRelException>

  /** A streaming aggregate node. */
  datatype StreamAggPrel = StreamAggPrel(
    cluster: Cluster, traits: TraitSet, input: RelNode, indicator: bool,
    groupSet: set<nat>, groupSets: seq<set<nat>>, aggCalls: seq<AggCall>, phase: OperatorPhase,
    keys: seq<NamedExpression>, aggExprs: seq<NamedExpression>)
  {
    /** The shape this node was constructed from. */
    function Shape(): AggShape
    {
      AggShape(cluster, traits, input, indicator, groupSet, groupSets, aggCalls, phase)
    }

    /** The number of grouping columns. */
    function GroupCount(): nat
    {
      |groupSet|
    }
  }

  /** The node was produced by `New` with this base constructor. */
  predicate BuiltBy(node: StreamAggPrel, build: BaseConstructor)
  {
    build(node.Shape()) == Success(Derived(node.keys, node.aggExprs))
  }

  // ---------------------------------------------------------------------
  // Construction and copy
  // ---------------------------------------------------------------------

  /**
   * The constructor: fails with the base constructor's InvalidRelException,
   * or holds exactly the arguments and the derived expressions.
   */
  function New(cluster: Cluster, traits: TraitSet, input: RelNode, indicator: bool,
               groupSet: set<nat>, groupSets: seq<set<nat>>, aggCalls: seq<AggCall>,
               phase: OperatorPhase, build: BaseConstructor): (r: Result<StreamAggPrel, InvalidRelException>)
    ensures var shape := AggShape(cluster, traits, input, indicator, groupSet, groupSets, aggCalls, phase);
      && (r.Success? <==> build(shape).Success?)
      && (r.Failure? ==> r.error == build(shape).error)
      && (r.Success? ==> r.value.Shape() == shape && BuiltBy(r.value, build))
  {
    var shape := AggShape(cluster, traits, input, indicator, groupSet, groupSets, aggCalls, phase);
    match build(shape)
    case Failure(e) => Failure(e)
    case Success(d) => Success(StreamAggPrel(cluster, traits, input, indicator, groupSet, groupSets,
                                             aggCalls, phase, d.keys, d.aggExprs))
  }

  /** What `Copy` yields: a node, or the fatal assertion failure wrapping the constructor's exception. */
  datatype CopyOutcome = Copied(node: StreamAggPrel) | AssertionError(cause: InvalidRelException)

  /**
   * Rebuilds the node with the caller's trait set, input, indicator, group
   * set(s) and aggregate calls, keeping this node's cluster and phase. A
   * constructor failure is turned into an assertion failure, never into a
   * recoverable error.
   */
  function Copy(node: StreamAggPrel, traits: TraitSet, input: RelNode, indicator: bool,
                groupSet: set<nat>, groupSets: seq<set<nat>>, aggCalls: seq<AggCall>,
                build: BaseConstructor): (r: CopyOutcome)
    ensures var shape := AggShape(node.cluster, traits, input, indicator, groupSet, groupSets, aggCalls, node.phase);
      && (r.Copied? <==> build(shape).Success?)
      && (r.AssertionError? ==> r.cause == build(shape).error)
      && (r.Copied? ==> r.node.Shape() == shape && BuiltBy(r.node, build))
  {
    match New(node.cluster, traits, input, indicator, groupSet, groupSets, aggCalls, node.phase, build)
    case Success(n) => Copied(n)
    case Failure(e) => AssertionError(e)
  }

  /** Copying a node with its own fields, under the constructor that built it, gives the node back. */
  lemma CopyIdentity(node: StreamAggPrel, build: BaseConstructor)
    requires BuiltBy(node, build)
    ensures Copy(node, node.traits, node.input, node.indicator, node.groupSet, node.groupSets,
                 node.aggCalls, build) == Copied(node)
  {
  }

  /**
   * Substituting an equivalent input: the copy keeps the grouping columns,
   * grouping sets, aggregate calls, phase, indicator, cluster and traits,
   * and its only child is the new input.
   */
  lemma CopyWithNewInput(node: StreamAggPrel, input: RelNode, build: BaseConstructor)
    requires build(node.Shape().(input := input)).Success?
    ensures var r := Copy(node, node.traits, input, node.indicator, node.groupSet, node.groupSets,
                          node.aggCalls, build);
      && r.Copied?
      && r.node.groupSet == node.groupSet && r.node.groupSets == node.groupSets
      && r.node.aggCalls == node.aggCalls && r.node.phase == node.phase
      && r.node.indicator == node.indicator && r.node.cluster == node.cluster
      && r.node.traits == node.traits
      && Inputs(r.node) == [input]
  {
  }

  // ---------------------------------------------------------------------
  // Collation
  // ---------------------------------------------------------------------

  /**
   * The collation a streaming aggregate provides: one ascending field per
   * grouping column, on output columns 0 .. |groupSet| - 1 in that order.
   */
  function Collation(groupSet: set<nat>): (c: Collations.Collation)
    ensures |c| == |groupSet|
    ensures forall i :: 0 <= i < |c| ==> c[i].fieldIndex == i && c[i].direction == Ascending
  {
    AscendingFields(|groupSet|)
  }

  /** The collation depends on how many grouping columns there are, not on which. */
  lemma CollationOnlyCardinality(g1: set<nat>, g2: set<nat>)
    requires |g1| == |g2|
    ensures Collation(g1) == Collation(g2)
  {
  }

  /** The collation's columns are strictly increasing, hence distinct. */
  lemma CollationStrictlyIncreasing(groupSet: set<nat>, i: nat, j: nat)
    requires i < j < |groupSet|
    ensures Collation(groupSet)[i].fieldIndex < Collation(groupSet)[j].fieldIndex
  {
  }

  /** The collation sorts on exactly the grouping columns of the output, 0 .. |groupSet| - 1. */
  lemma CollationColumns(groupSet: set<nat>)
    ensures forall k: nat :: k in Columns(Collation(groupSet)) <==> k < |groupSet|
  {
    var c := Collation(groupSet);
    forall k: nat | k < |groupSet| ensures k in Columns(c) {
      assert c[k].fieldIndex == k;
    }
  }

  /**
   * One streaming aggregate's collation satisfies another's requirement
   * exactly when it groups on at least as many columns.
   */
  lemma CollationSatisfies(provider: set<nat>, requirer: set<nat>)
    ensures Satisfies(Collation(provider), Collation(requirer)) <==> |requirer| <= |provider|
  {
  }

  // ---------------------------------------------------------------------
  // Cost
  // ---------------------------------------------------------------------

  /** The favourable multiplier applied to the base aggregate cost under default costing. */
  const DefaultCostFactor: real := 0.1

  /** CPU cost of streaming aggregation: one comparison per grouping column and one function evaluation per aggregate call, per input row. */
  function DetailedCpu(units: CostUnits, groups: nat, aggs: nat, inputRows: real): real
  {
    units.compareCpu * (groups as real) * inputRows + units.funcCpu * (aggs as real) * inputRows
  }

  /**
   * The node's own cost. Under default costing it is the base aggregate
   * cost scaled by 0.1; otherwise the row count is the input's, the CPU
   * cost is the comparison cost per grouping column plus the function
   * cost per aggregate call, for every input row, and no disk or network
   * cost is charged.
   */
  function ComputeSelfCost(node: StreamAggPrel, useDefaultCosting: bool, baseCost: Cost,
                           inputRows: real, units: CostUnits): (r: Cost)
    ensures useDefaultCosting ==> r == MultiplyBy(baseCost, DefaultCostFactor)
    ensures !useDefaultCosting ==>
      && r.rows == inputRows
      && r.cpu == units.compareCpu * (node.GroupCount() as real) * inputRows
                  + units.funcCpu * (|node.aggCalls| as real) * inputRows
      && r.io == 0.0 && r.network == 0.0
  {
    if useDefaultCosting then
      MultiplyBy(baseCost, DefaultCostFactor)
    else
      Cost(inputRows, DetailedCpu(units, node.GroupCount(), |node.aggCalls|, inputRows), 0.0, 0.0)
  }

  /** Detailed CPU cost does not decrease as the input row estimate grows. */
  lemma CpuMonotoneInRows(units: CostUnits, groups: nat, aggs: nat, rows1: real, rows2: real)
    requires ValidUnits(units) && rows1 <= rows2
    ensures DetailedCpu(units, groups, aggs, rows1) <= DetailedCpu(units, groups, aggs, rows2)
  {
  }

  /** Detailed CPU cost does not decrease with more grouping columns. */
  lemma CpuMonotoneInGroups(units: CostUnits, groups1: nat, groups2: nat, aggs: nat, rows: real)
    requires ValidUnits(units) && rows >= 0.0 && groups1 <= groups2
    ensures DetailedCpu(units, groups1, aggs, rows) <= DetailedCpu(units, groups2, aggs, rows)
  {
  }

  /** Detailed CPU cost does not decrease with more aggregate calls. */
  lemma CpuMonotoneInAggs(units: CostUnits, groups: nat, aggs1: nat, aggs2: nat, rows: real)
    requires ValidUnits(units) && rows >= 0.0 && aggs1 <= aggs2
    ensures DetailedCpu(units, groups, aggs1, rows) <= DetailedCpu(units, groups, aggs2, rows)
  {
  }

  /**
   * In detailed mode a node with no more grouping columns, no more aggregate
   * calls and no more input rows than another is no more expensive in any
   * cost dimension, and every component is non-negative.
   */
  lemma SelfCostMonotone(a: StreamAggPrel, b: StreamAggPrel, baseA: Cost, baseB: Cost,
                         rowsA: real, rowsB: real, units: CostUnits)
    requires ValidUnits(units) && 0.0 <= rowsA <= rowsB
    requires a.GroupCount() <= b.GroupCount() && |a.aggCalls| <= |b.aggCalls|
    ensures AtMost(ComputeSelfCost(a, false, baseA, rowsA, units), ComputeSelfCost(b, false, baseB, rowsB, units))
    ensures NonNegative(ComputeSelfCost(a, false, baseA, rowsA, units))
  {
    var g1, g2, a1, a2 := a.GroupCount(), b.GroupCount(), |a.aggCalls|, |b.aggCalls|;
    CpuMonotoneInGroups(units, g1, g2, a1, rowsA);
    CpuMonotoneInAggs(units, g2, a1, a2, rowsA);
    CpuMonotoneInRows(units, g2, a2, rowsA, rowsB);
    CpuMonotoneInRows(units, 0, 0, 0.0, rowsA);
    CpuMonotoneInGroups(units, 0, g1, 0, rowsA);
    CpuMonotoneInAggs(units, g1, 0, a1, rowsA);
  }

  /** Under default costing the cost is a non-negative discount of a non-negative base cost, whatever the row estimate and unit costs. */
  lemma DefaultCostIgnoresDetail(node: StreamAggPrel, baseCost: Cost, rows1: real, rows2: real,
                                 units1: CostUnits, units2: CostUnits)
    requires NonNegative(baseCost)
    ensures ComputeSelfCost(node, true, baseCost, rows1, units1) == ComputeSelfCost(node, true, baseCost, rows2, units2)
    ensures AtMost(ComputeSelfCost(node, true, baseCost, rows1, units1), baseCost)
    ensures NonNegative(ComputeSelfCost(node, true, baseCost, rows1, units1))
  {
  }

  /** Detailed cost never reads the base cost, and depends on the node only through its group and aggregate-call counts. */
  lemma DetailedCostOnlyShape(a: StreamAggPrel, b: StreamAggPrel, baseA: Cost, baseB: Cost,
                              rows: real, units: CostUnits)
    requires a.GroupCount() == b.GroupCount() && |a.aggCalls| == |b.aggCalls|
    ensures ComputeSelfCost(a, false, baseA, rows, units) == ComputeSelfCost(b, false, baseB, rows, units)
  {
  }

  /** Detailed CPU cost is linear in the row estimate. */
  lemma DetailedCpuLinear(node: StreamAggPrel, baseCost: Cost, rows: real, k: real, units: CostUnits)
    ensures ComputeSelfCost(node, false, baseCost, k * rows, units).cpu
         == k * ComputeSelfCost(node, false, baseCost, rows, units).cpu
  {
  }

  /** One grouping column, one aggregate call, 1000 rows, unit costs 1 and 5: CPU cost 6000. */
  lemma DetailedCostExample(node: StreamAggPrel, baseCost: Cost)
    requires node.groupSet == {0} && |node.aggCalls| == 1
    ensures ComputeSelfCost(node, false, baseCost, 1000.0, CostUnits(1.0, 5.0)) == Cost(1000.0, 6000.0, 0.0, 0.0)
  {
  }

  // ---------------------------------------------------------------------
  // Conversion to an executable operator
  // ---------------------------------------------------------------------

  /** The cardinality hint every streaming aggregate operator is given. */
  const StreamingCardinality: real := 1.0

  /**
   * The executable operator for this node, given the operator its input was
   * converted to: a streaming aggregate over that child carrying the node's
   * key and aggregate expressions unchanged and the fixed hint 1.0.
   */
  function GetPhysicalOperator(node: StreamAggPrel, childOp: PhysicalOperator): (op: PhysicalOperator)
    ensures op.StreamingAggregate?
    ensures op.child == childOp && op.cardinality == 1.0
    ensures op.keys == node.keys && op.exprs == node.aggExprs
  {
    AddMetadata(node, StreamingAggregate(childOp, node.keys, node.aggExprs, StreamingCardinality))
  }

  /** Registering plan metadata for an operator returns that same operator. */
  function AddMetadata(node: StreamAggPrel, op: PhysicalOperator): PhysicalOperator
  {
    op
  }

  /**
   * Converting a copied node that replaced only its input yields an operator
   * with the same keys and aggregate expressions as converting the original,
   * when the base constructor derives them from the same group set and calls.
   */
  lemma ConvertedCopyKeepsExpressions(node: StreamAggPrel, input: RelNode, build: BaseConstructor,
                                      childOp: PhysicalOperator, newChildOp: PhysicalOperator)
    requires BuiltBy(node, build)
    requires build(node.Shape().(input := input)) == build(node.Shape())
    ensures var r := Copy(node, node.traits, input, node.indicator, node.groupSet, node.groupSets,
                          node.aggCalls, build);
      && r.Copied?
      && GetPhysicalOperator(r.node, newChildOp).keys == GetPhysicalOperator(node, childOp).keys
      && GetPhysicalOperator(r.node, newChildOp).exprs == GetPhysicalOperator(node, childOp).exprs
  {
  }

  // ---------------------------------------------------------------------
  // Traversal, visiting and encodings
  // ---------------------------------------------------------------------

  /** The node's children, in order: exactly its one input. */
  function Inputs(node: StreamAggPrel): (children: seq<RelNode>)
    ensures |children| == 1 && children[0] == node.input
  {
    [node.input]
  }

  /** A plan visitor: what it does when it reaches a physical node, given a context value. */
  datatype PrelVisitor<T, !X> = PrelVisitor(visitPrel: (StreamAggPrel, X) -> T)

  /** Double dispatch: the node hands itself and the context to the visitor's generic visit. */
  function Accept<T, X>(node: StreamAggPrel, visitor: PrelVisitor<T, X>, value: X): (r: T)
    ensures r == visitor.visitPrel(node, value)
  {
    visitor.visitPrel(node, value)
  }

  /** The input encodings the node accepts: the default set, dense batches only. */
  function GetSupportedEncodings(node: StreamAggPrel): (modes: seq<SelectionVectorMode>)
    ensures modes == [NoVector]
    ensures forall m :: m in modes ==> !HasSelectionVector(m)
  {
    DefaultModes
  }

  /** The node's output encoding: always dense, never a selection vector. */
  function GetEncoding(node: StreamAggPrel): (mode: SelectionVectorMode)
    ensures !HasSelectionVector(mode)
  {
    NoVector
  }

  /** One streaming aggregate's output can feed another directly: its encoding is one the other accepts. */
  lemma EncodingChains(producer: StreamAggPrel, consumer: StreamAggPrel)
    ensures GetEncoding(producer) in GetSupportedEncodings(consumer)
  {
  }
}
