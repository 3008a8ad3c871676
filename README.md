# Streaming aggregation plan node

A Dafny model of `StreamAggPrel`, the physical plan node of Dremio's query planner that aggregates input already sorted on its grouping columns. The node is an immutable value (`StreamAgg.StreamAggPrel`), and every operation of it is a pure function:

- the collation the node provides (`Collation`);
- construction and structural copy (`New`, `Copy`);
- the self-cost formula in default and detailed modes (`ComputeSelfCost`);
- conversion to a `StreamingAggregate` operator description (`GetPhysicalOperator`);
- child traversal (`Inputs`) and visitor dispatch (`Accept`);
- the supported and output row-batch encodings.

Files and modules:

- `wrappers.dfy` holds `Wrappers.Result`, the value returned by the constructor and its checked exception.
- `collations.dfy` (`Collations`) holds field collations, the ascending field list for columns `0..n-1`, and the prefix rule by which a provided collation satisfies a required one.
- `costs.dfy` (`Costs`) holds cost values, the per-row unit costs, component-wise comparison and scaling.
- `batch_schema.dfy` (`BatchSchema`) holds the selection-vector modes.
- `operators.dfy` (`Operators`) holds the executable operator descriptions.
- `stream_agg_prel.dfy` (`StreamAgg`) holds the node itself, its operations and the properties proved about them.

The framework objects the node only passes along (cluster, trait set, input) are opaque stand-ins identified by a number. The aggregate base constructor is not part of this model. It validates the shape and derives the key and aggregate expressions, and it appears as a parameter `build: AggShape -> Result<Derived, InvalidRelException>`. The planner's row-count estimate, the default-costing setting, the base aggregate cost and the two unit costs (comparison, function evaluation) are also parameters. Costs are `real`.

Two points where the node's code is narrower than a reader might expect:

- The provided collation is not "one ascending field per grouping column, on that column". The code builds fields for output columns `0..|groupSet|-1`, whatever columns the group set holds. Grouping columns come first in the node's output. `CollationOnlyCardinality` states this.
- The node itself does not check that its input is sorted on the grouping columns. Any such check belongs to the base constructor, which is the `build` parameter here.

## Model

| member | source | states |
|---|---|---|
| `Collations.AscendingFields` | sabot/kernel/src/main/java/com/dremio/exec/planner/physical/StreamAggPrel.java:70-72 | the list built from `range(0, n)` has exactly n fields, and field i is column i with the default (ascending) direction |
| `StreamAgg.Collation` | sabot/kernel/src/main/java/com/dremio/exec/planner/physical/StreamAggPrel.java:68-74 | the collation of a group set has exactly cardinality-many fields; the i-th sorts output column i ascending |
| `StreamAgg.CollationOnlyCardinality` | sabot/kernel/src/main/java/com/dremio/exec/planner/physical/StreamAggPrel.java:69-72 | two group sets of equal cardinality give the same collation, so which columns a group set holds does not matter |
| `StreamAgg.CollationStrictlyIncreasing` | sabot/kernel/src/main/java/com/dremio/exec/planner/physical/StreamAggPrel.java:70-72 | field column indices strictly increase along the collation, so no column repeats |
| `StreamAgg.CollationColumns` | sabot/kernel/src/main/java/com/dremio/exec/planner/physical/StreamAggPrel.java:70-72 | the collation sorts on exactly the output columns below the group count, no others |
| `StreamAgg.CollationSatisfies` | sabot/kernel/src/main/java/com/dremio/exec/planner/physical/StreamAggPrel.java:68-74 | one node's collation meets another node's requirement under the prefix rule if and only if it groups on at least as many columns |
| `StreamAgg.New` | sabot/kernel/src/main/java/com/dremio/exec/planner/physical/StreamAggPrel.java:51-60 | construction fails exactly when the base constructor rejects the shape, and then with that exception; otherwise the node holds exactly the arguments |
| `StreamAgg.Copy` | sabot/kernel/src/main/java/com/dremio/exec/planner/physical/StreamAggPrel.java:77-83 | the copy keeps this node's cluster and phase and holds the supplied traits, input, indicator, group set(s) and calls; a constructor failure becomes an assertion error carrying the original exception, exactly when the constructor would fail |
| `StreamAgg.CopyIdentity` | sabot/kernel/src/main/java/com/dremio/exec/planner/physical/StreamAggPrel.java:77-83 | copying a node with its own fields, under the constructor that built it, gives back the same node |
| `StreamAgg.CopyWithNewInput` | sabot/kernel/src/main/java/com/dremio/exec/planner/physical/StreamAggPrel.java:77-83 | replacing only the input keeps group set, group sets, calls, phase, indicator, cluster and traits, and the copy's one child is the new input |
| `StreamAgg.ComputeSelfCost` | sabot/kernel/src/main/java/com/dremio/exec/planner/physical/StreamAggPrel.java:86-100 | default costing gives the base cost scaled by 0.1; detailed costing gives rows = input rows, cpu = compare cost x groups x rows + function cost x calls x rows, disk and network 0 |
| `StreamAgg.CpuMonotoneInRows` | sabot/kernel/src/main/java/com/dremio/exec/planner/physical/StreamAggPrel.java:95-97 | with non-negative unit costs, detailed cpu cost does not decrease as the row estimate grows |
| `StreamAgg.CpuMonotoneInGroups` | sabot/kernel/src/main/java/com/dremio/exec/planner/physical/StreamAggPrel.java:95 | with non-negative unit costs and rows, detailed cpu cost does not decrease with more grouping columns |
| `StreamAgg.CpuMonotoneInAggs` | sabot/kernel/src/main/java/com/dremio/exec/planner/physical/StreamAggPrel.java:97 | with non-negative unit costs and rows, detailed cpu cost does not decrease with more aggregate calls |
| `StreamAgg.SelfCostMonotone` | sabot/kernel/src/main/java/com/dremio/exec/planner/physical/StreamAggPrel.java:90-99 | in detailed mode a node with no more groups, calls and rows than another costs no more in every dimension, and its cost is non-negative |
| `StreamAgg.DefaultCostIgnoresDetail` | sabot/kernel/src/main/java/com/dremio/exec/planner/physical/StreamAggPrel.java:87-88 | under default costing the result ignores the row estimate and unit costs; for a non-negative base cost it is non-negative and no larger than the base cost in any dimension |
| `StreamAgg.DetailedCostOnlyShape` | sabot/kernel/src/main/java/com/dremio/exec/planner/physical/StreamAggPrel.java:90-99 | detailed cost ignores the base cost and depends on the node only through its group count and call count |
| `StreamAgg.DetailedCpuLinear` | sabot/kernel/src/main/java/com/dremio/exec/planner/physical/StreamAggPrel.java:95-97 | scaling the row estimate by k scales the detailed cpu cost by k |
| `StreamAgg.DetailedCostExample` | sabot/kernel/src/main/java/com/dremio/exec/planner/physical/StreamAggPrel.java:91-99 | one grouping column, one call, 1000 rows, unit costs 1 and 5 give cost (1000, 6000, 0, 0) |
| `StreamAgg.GetPhysicalOperator` | sabot/kernel/src/main/java/com/dremio/exec/planner/physical/StreamAggPrel.java:103-110 | the operator is a streaming aggregate over the converted child, carrying the node's keys and aggregate expressions unchanged and the hint 1.0 |
| `StreamAgg.ConvertedCopyKeepsExpressions` | sabot/kernel/src/main/java/com/dremio/exec/planner/physical/StreamAggPrel.java:77-110 | when only the input is replaced and the constructor derives the same expressions, the copy converts to an operator with the same keys and aggregate expressions as the original |
| `StreamAgg.Inputs` | sabot/kernel/src/main/java/com/dremio/exec/planner/physical/StreamAggPrel.java:112-115 | the node's children are exactly its one input |
| `StreamAgg.Accept` | sabot/kernel/src/main/java/com/dremio/exec/planner/physical/StreamAggPrel.java:117-120 | accepting a visitor returns what the visitor's generic visit returns for this node and context |
| `StreamAgg.GetSupportedEncodings` | sabot/kernel/src/main/java/com/dremio/exec/planner/physical/StreamAggPrel.java:122-125 | the accepted input encodings are the default set: dense batches only |
| `StreamAgg.GetEncoding` | sabot/kernel/src/main/java/com/dremio/exec/planner/physical/StreamAggPrel.java:127-130 | the output encoding never carries a selection vector |
| `StreamAgg.EncodingChains` | sabot/kernel/src/main/java/com/dremio/exec/planner/physical/StreamAggPrel.java:122-130 | one streaming aggregate's output encoding is accepted by any other streaming aggregate |

## Left out

- The aggregate base constructor (`AggPrelBase`) is not part of this model. Its validity checks and its derivation of `keys` and `aggExprs` are the `build` parameter.
- Calcite and Dremio framework objects are opaque stand-ins: the cluster, the trait set, the input node, the metadata query, the planner settings and the cost factory. The row estimate, the default-costing flag and the base cost (`super.computeSelfCost`) are parameters.
- The values of `COMPARE_CPU_COST` and `FUNC_CPU_COST` are not part of this model. They are the fields of the `CostUnits` parameter, assumed non-negative where a lemma needs it.
- IEEE double rounding in the cost arithmetic and the single-precision `1.0f` hint: costs are exact reals.
- `Costs.MultiplyBy` assumes that scaling a cost scales each of its four components. The cost class is not part of this model, nor is its memory component.
- Collations.DefaultField: the null direction a field collation receives by default depends on the Calcite version and is not modelled. Only the column index and the ascending direction are.
- BatchSchema.DefaultModes is taken to be the one-element set of dense batches. The enum that defines it is not part of this model.
- StreamAgg.GetPhysicalOperator: the child's own conversion is a parameter (the already converted child). Its `IOException` path and the plan creator's metadata bookkeeping are not modelled; registering returns the operator unchanged.
- StreamAgg.Accept: visitor double dispatch is reduced to one visit function. Exceptions the visitor throws are whatever its result type carries.
- The operator phase enum is not part of this model. Its three values are named Single, Partial and Final here.
- Logging (the class logger) and the search engine's concurrency: the node is immutable and does neither.
