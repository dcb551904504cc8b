/**
 * Table and column metadata, selectable fields and selectors, as records of what the
 * query builders read from them.
 */
module Metadata {

  datatype ConsistencyLevel = ANY | ONE | TWO | THREE | QUORUM | ALL | LOCAL_ONE | LOCAL_QUORUM | EACH_QUORUM

  datatype ClusteringOrder = ASC | DESC

  /** A column: its CQL name and the Java class of its values. */
  datatype ColumnMetadata = ColumnMetadata(columnName: string, fieldClass: string)

  /**
   * A table: keyspace, name, default consistencies, and its column metadata in the
   * iteration order of `getColumnsMetadata().values()`.
   */
  datatype TableMetadata = TableMetadata(
    keyspaceName: string,
    tableName: string,
    defaultWriteConsistency: ConsistencyLevel,
    defaultReadConsistency: ConsistencyLevel,
    columnsMetadata: seq<ColumnMetadata>)

  /** A field that can be selected: a plain column, or the `min` aggregation of another field. */
  datatype SelectableField = Column(column: ColumnMetadata) | Min(aggregatedField: SelectableField)

  /** A driver selector. */
  datatype Selector =
    | AllSelector                                        // `*`
    | ColumnSelector(columnName: string)                 // `Selector.column(name)`
    | ColumnFieldSelector(column: ColumnMetadata, useAlias: bool)  // a column's own `toSelector(useAlias)`
    | DeletableSelector(column: ColumnMetadata)          // a column's `toDeletableSelector()`
    | FieldSelector(field: SelectableField)              // the selector SelectQuery derives from a selectable field
    | FunctionSelector(functionName: string, argument: Selector)  // `Selector.function(name, argument)`
    | AliasedSelector(selector: Selector, alias: string) // `selector.as(alias)`

  /** An ordering request: a column and its direction. */
  datatype OrderExpression = OrderExpression(columnName: string, clusteringOrder: ClusteringOrder)
}
