/**
 * The criteria and assignments a set-typed column builds: CONTAINS, and APPEND / PREPEND /
 * REMOVE of a set of elements.
 */
module SetColumnMetadata {
  import opened Lang
  import opened Criteria

  datatype AssignmentOperation = APPEND | PREPEND | REMOVE

  /**
   * A set column: its name and its `serialize` of a whole set of elements (the column's
   * conversion to wire values, which is not part of this model).
   */
  datatype SetColumn = SetColumn(name: string, serialize: set<Value> -> set<Value>)

  /** An assignment on a set column: the column, the operation, and the set it carries. */
  datatype AssignmentSetValue = AssignmentSetValue(column: string, operation: AssignmentOperation, values: set<Value>)

  /** `contains(value)`: a CONTAINS criteria on this column with the one value. */
  function Contains(col: SetColumn, value: Value): (r: CriteriaExpression)
    ensures r.field == col.name && r.criteriaOperator == CONTAINS && r.values == [value]
  {
    CriteriaExpression(col.name, CONTAINS, [value])
  }

  /** `Arrays.stream(values).collect(Collectors.toSet())`. */
  function CollectToSet(values: seq<Value>): (r: set<Value>)
    ensures forall v :: v in r <==> v in values
  {
    set v | v in values
  }

  /** `append(Set)`: an APPEND carrying the serialized set. */
  function Append(col: SetColumn, values: set<Value>): (r: AssignmentSetValue)
    ensures r.column == col.name && r.operation == APPEND && r.values == col.serialize(values)
  {
    AssignmentSetValue(col.name, APPEND, col.serialize(values))
  }

  /** `prepend(Set)`: a PREPEND carrying the serialized set. */
  function Prepend(col: SetColumn, values: set<Value>): (r: AssignmentSetValue)
    ensures r.column == col.name && r.operation == PREPEND && r.values == col.serialize(values)
  {
    AssignmentSetValue(col.name, PREPEND, col.serialize(values))
  }

  /** `remove(Set)`: a REMOVE carrying the set as given, not serialized. */
  function Remove(col: SetColumn, values: set<Value>): (r: AssignmentSetValue)
    ensures r.column == col.name && r.operation == REMOVE && r.values == values
  {
    AssignmentSetValue(col.name, REMOVE, values)
  }

  /** `append(T...)`. */
  function AppendValues(col: SetColumn, values: seq<Value>): (r: AssignmentSetValue)
    ensures r.column == col.name && r.operation == APPEND && r.values == col.serialize(set v | v in values)
  {
    Append(col, CollectToSet(values))
  }

  /** `prepend(T...)`. */
  function PrependValues(col: SetColumn, values: seq<Value>): (r: AssignmentSetValue)
    ensures r.column == col.name && r.operation == PREPEND && r.values == col.serialize(set v | v in values)
  {
    Prepend(col, CollectToSet(values))
  }

  /** `remove(T...)`. */
  function RemoveValues(col: SetColumn, values: seq<Value>): (r: AssignmentSetValue)
    ensures r.column == col.name && r.operation == REMOVE
    ensures forall v :: v in r.values <==> v in values
  {
    Remove(col, CollectToSet(values))
  }

  /**
   * The varargs forms depend only on which values were passed: order and repetitions do
   * not change the assignment built.
   */
  lemma VarargsIgnoreOrderAndDuplicates(col: SetColumn, a: seq<Value>, b: seq<Value>)
    requires forall v :: v in a <==> v in b
    ensures AppendValues(col, a) == AppendValues(col, b)
    ensures PrependValues(col, a) == PrependValues(col, b)
    ensures RemoveValues(col, a) == RemoveValues(col, b)
  {
    assert CollectToSet(a) == CollectToSet(b);
  }

  /** No two positions of `values` hold the same value. */
  predicate Distinct(values: seq<Value>) {
    forall i, j :: 0 <= i < j < |values| ==> values[i] != values[j]
  }

  /**
   * Collecting into a set drops repetitions: the set is never larger than the values passed,
   * and exactly as large when they are pairwise distinct.
   */
  lemma {:induction false} CollectDropsDuplicates(values: seq<Value>)
    ensures |CollectToSet(values)| <= |values|
    ensures |CollectToSet(values)| == |values| <==> Distinct(values)
    decreases |values|
  {
    if |values| == 0 {
      assert CollectToSet(values) == {};
    } else {
      var prefix, x := values[..|values| - 1], values[|values| - 1];
      assert values == prefix + [x];
      CollectDropsDuplicates(prefix);
      assert CollectToSet(values) == CollectToSet(prefix) + {x};
      if x in prefix {
        assert CollectToSet(values) == CollectToSet(prefix);
        var k :| 0 <= k < |prefix| && prefix[k] == x;
        assert values[k] == values[|values| - 1];
      } else {
        assert x !in CollectToSet(prefix);
        assert Distinct(values) <==> Distinct(prefix) by {
          if Distinct(prefix) {
            forall i, j | 0 <= i < j < |values|
              ensures values[i] != values[j]
            {
              if j < |values| - 1 {
                assert values[i] == prefix[i] && values[j] == prefix[j];
              } else {
                assert values[i] == prefix[i];
              }
            }
          }
        }
      }
    }
  }

  /**
   * REMOVE alone skips serialization: with a column whose serialization changes a set,
   * APPEND and REMOVE of that set carry different values.
   */
  lemma RemoveIsNotSerialized(col: SetColumn, values: set<Value>)
    requires col.serialize(values) != values
    ensures Append(col, values).values != Remove(col, values).values
    ensures Prepend(col, values).values != Remove(col, values).values
  {
  }
}
