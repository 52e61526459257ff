/**
 * Row expressions and aggregate accumulators. Their evaluation is outside the physical-node
 * model, so each is an opaque value told apart by an identity.
 */
module Expressions {

  /** An `Expression` (a projection, or a join condition). */
  datatype Expression = Expression(id: nat)

  /** An `AggregateExpression` (one accumulator of an aggregation). */
  datatype AggregateExpression = AggregateExpression(id: nat)
}
