/** The parsed form of a SELECT statement that the binder consumes. */
module ParseDefs {

  /** The aggregation tag of a projected attribute. `NotAgg` is a plain
      attribute, `CountAll` is `count(*)`; `Composite` and `MulAttrs` mark a
      nested aggregation and an aggregation over several attributes. */
  datatype AggregationType =
    | NotAgg
    | CountAll
    | Count
    | Sum
    | Avg
    | Max
    | Min
    | Composite
    | MulAttrs

  /** One projected attribute: an optional (possibly blank) relation
      qualifier, an attribute name or "*", the aggregation tag and whether the
      parser found the aggregation well-shaped. */
  datatype RelAttrSqlNode = RelAttrSqlNode(
    relationName: string,
    attributeName: string,
    aggrType: AggregationType,
    validAgg: bool)

  /** A parsed SELECT: the projection list, the FROM list and the WHERE
      conditions, which the binder passes on without looking at them. */
  datatype SelectSqlNode<C> = SelectSqlNode(
    attributes: seq<RelAttrSqlNode>,
    relations: seq<string>,
    conditions: seq<C>)
}
