/** Executable operator descriptions produced from chosen physical plan nodes. */
module Operators {

  /** An expression with the name its value is exposed under. */
  datatype NamedExpression = NamedExpression(expr: string, ref: string)

  /**
   * An operator description: a streaming aggregate over a converted child,
   * or an operator of another kind, identified only by a number here.
   */
  datatype PhysicalOperator =
    | StreamingAggregate(child: PhysicalOperator, keys: seq<NamedExpression>,
                         exprs: seq<NamedExpression>, cardinality: real)
    | OtherOperator(id: nat)
}
