/**
 * Cost values the planner compares between alternative physical plans, and
 * the unit costs shared by all operators' cost formulas.
 */
module Costs {

  /** An estimated cost: output row count, CPU, disk I/O and network components. */
  datatype Cost = Cost(rows: real, cpu: real, io: real, network: real)

  /** The per-row unit costs of a key comparison and of one aggregate-function evaluation. */
  datatype CostUnits = CostUnits(compareCpu: real, funcCpu: real)

  /** Unit costs are never negative. */
  predicate ValidUnits(units: CostUnits)
  {
    units.compareCpu >= 0.0 && units.funcCpu >= 0.0
  }

  /** Every component is non-negative. */
  predicate NonNegative(c: Cost)
  {
    c.rows >= 0.0 && c.cpu >= 0.0 && c.io >= 0.0 && c.network >= 0.0
  }

  /** Component-wise comparison: `a` is no more expensive than `b` in any dimension. */
  predicate AtMost(a: Cost, b: Cost)
  {
    a.rows <= b.rows && a.cpu <= b.cpu && a.io <= b.io && a.network <= b.network
  }

  /** A cost with every component multiplied by `factor`. */
  function MultiplyBy(c: Cost, factor: real): Cost
  {
    Cost(factor * c.rows, factor * c.cpu, factor * c.io, factor * c.network)
  }
}
