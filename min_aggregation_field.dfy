/**
 * The `min` aggregation of a selectable field: its name, alias, class, selector and the
 * row read its deserialization performs.
 */
module MinAggregationField {
  import opened Metadata

  /** `StringUtils.quoteString`: the name wrapped in double quotes. */
  function QuoteString(s: string): (r: string)
    ensures |r| == |s| + 2 && r[0] == '"' && r[|r| - 1] == '"' && r[1..|r| - 1] == s
  {
    "\"" + s + "\""
  }

  /** `getName()`: a column's own name; a `min` field prefixes its inner field's with `min_`. */
  function Name(f: SelectableField): (r: string)
    ensures f.Min? ==> r == "min_" + Name(f.aggregatedField)
    ensures f.Min? ==> |r| == |Name(f.aggregatedField)| + 4 && r != Name(f.aggregatedField)
    ensures f.Column? ==> r == f.column.columnName
  {
    match f
    case Column(c) => c.columnName
    case Min(inner) => "min_" + Name(inner)
  }

  /** `getFieldClass()`: a `min` field has the class of the field it aggregates. */
  function FieldClass(f: SelectableField): (r: string)
    ensures f.Min? ==> r == FieldClass(f.aggregatedField)
  {
    match f
    case Column(c) => c.fieldClass
    case Min(inner) => FieldClass(inner)
  }

  /** `resolveAlias()` of the `min` field over `aggregatedField`. */
  function ResolveAlias(aggregatedField: SelectableField): (r: string)
    ensures r == QuoteString(Name(Min(aggregatedField)))
    ensures r == "\"min_" + Name(aggregatedField) + "\""
  {
    QuoteString(Name(Min(aggregatedField)))
  }

  /**
   * `toSelector(useAlias)`: the `min` function applied to the inner field's selector, which is
   * always requested without an alias; with `useAlias` it is aliased to the quoted name, so
   * the aliased selector is the unaliased one with the alias around it.
   */
  function ToSelector(f: SelectableField, useAlias: bool): (r: Selector)
    ensures f.Column? ==> r == ColumnFieldSelector(f.column, useAlias)
    ensures f.Min? && useAlias ==>
      r == AliasedSelector(FunctionSelector("min", ToSelector(f.aggregatedField, false)), ResolveAlias(f.aggregatedField))
    ensures f.Min? && !useAlias ==> r == FunctionSelector("min", ToSelector(f.aggregatedField, false))
    ensures f.Min? && useAlias ==> r == AliasedSelector(ToSelector(f, false), ResolveAlias(f.aggregatedField))
    decreases f, useAlias
  {
    match f
    case Column(c) => ColumnFieldSelector(c, useAlias)
    case Min(inner) =>
      var minSelector := FunctionSelector("min", ToSelector(inner, false));
      if useAlias then AliasedSelector(minSelector, ResolveAlias(inner)) else minSelector
  }

  /** The read `row.get(name, class)` that deserialization performs on a row. */
  datatype RowRead = RowRead(columnName: string, fieldClass: string)

  /** `deserialize(row)` of the `min` field over `aggregatedField`: it reads the quoted alias, with the inner class. */
  function Deserialize(aggregatedField: SelectableField): (r: RowRead)
    ensures r.columnName == QuoteString("min_" + Name(aggregatedField))
    ensures r.fieldClass == FieldClass(aggregatedField)
  {
    RowRead(ResolveAlias(aggregatedField), FieldClass(Min(aggregatedField)))
  }

  /** The selector's alias is the very name deserialization reads back. */
  lemma AliasIsDeserializedColumn(inner: SelectableField)
    ensures ToSelector(Min(inner), true).alias == Deserialize(inner).columnName
  {
  }

  /** The case the unit test checks: `min` over a `Double` column called `column`. */
  lemma MinOfColumnExample()
    ensures Name(Min(Column(ColumnMetadata("column", "java.lang.Double")))) == "min_" + "column"
    ensures FieldClass(Min(Column(ColumnMetadata("column", "java.lang.Double")))) == "java.lang.Double"
    ensures Deserialize(Column(ColumnMetadata("column", "java.lang.Double")))
         == RowRead("\"" + "min_" + "column" + "\"", "java.lang.Double")
  {
  }

}
