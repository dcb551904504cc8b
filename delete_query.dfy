/**
 * The DELETE query accumulator: a table, optional column selectors, ordered where and
 * condition clause lists and an optional timestamp, compiled into one statement and a bind
 * vector of where values followed by condition values.
 */
module DeleteQuery {
  import opened Wrappers
  import opened Lang
  import opened Criteria
  import opened Clauses
  import opened ConditionClause
  import opened QueryHelper
  import opened Metadata

  /** The driver's DELETE statement, recorded as the pieces it was built from. */
  datatype DeleteStatement = DeleteStatement(
    keyspace: Option<string>,
    table: Option<string>,
    selectors: Option<seq<Selector>>,
    timestamp: Option<int64>,
    relations: seq<Relation>,
    conditions: seq<Condition>)

  datatype StatementTuple = StatementTuple(statement: DeleteStatement, bindValues: seq<Value>)

  /**
   * Every field of a DeleteQuery as one value; `defaultConsistencyLevel` is the part of the
   * execution context that the query sets.
   */
  datatype DeleteState = DeleteState(
    keyspace: Option<string>,
    table: Option<string>,
    selectors: seq<Selector>,
    whereClauses: seq<WhereClause>,
    conditionClauses: seq<ConditionClause>,
    timestamp: Option<int64>,
    defaultConsistencyLevel: Option<ConsistencyLevel>)

  /** The bind vector of a delete: where values, then condition values. */
  function DeleteBindValues(s: DeleteState): (r: seq<Value>)
    ensures |r| == |ExtractWhereBindValues(s.whereClauses)| + |ExtractConditionBindValues(s.conditionClauses)|
    ensures r[..|ExtractWhereBindValues(s.whereClauses)|] == ExtractWhereBindValues(s.whereClauses)
    ensures r[|ExtractWhereBindValues(s.whereClauses)|..] == ExtractConditionBindValues(s.conditionClauses)
  {
    ExtractWhereBindValues(s.whereClauses) + ExtractConditionBindValues(s.conditionClauses)
  }

  /** One deletable selector per column, in argument order. */
  function DeletableSelectors(fields: seq<ColumnMetadata>): (r: seq<Selector>)
    ensures |r| == |fields| && forall i :: 0 <= i < |fields| ==> r[i] == DeletableSelector(fields[i])
  {
    seq(|fields|, i requires 0 <= i < |fields| => DeletableSelector(fields[i]))
  }

  class DeleteQuery {
    var keyspace: Option<string>
    var table: Option<string>
    var selectors: seq<Selector>
    var whereClauses: seq<WhereClause>
    var conditionClauses: seq<ConditionClause>
    var timestamp: Option<int64>
    var defaultConsistencyLevel: Option<ConsistencyLevel>

    function State(): DeleteState
      reads this
    {
      DeleteState(keyspace, table, selectors, whereClauses, conditionClauses, timestamp, defaultConsistencyLevel)
    }

    /** A fresh query over a fresh execution context. */
    constructor ()
      ensures State() == DeleteState(None, None, [], [], [], None, None)
    {
      keyspace, table := None, None;
      selectors, whereClauses, conditionClauses := [], [], [];
      timestamp, defaultConsistencyLevel := None, None;
    }

    /** `setTable`: the keyspace and table, and the table's write consistency as the default. */
    method SetTable(tableMetadata: TableMetadata)
      modifies this
      ensures State() == old(State()).(keyspace := Some(tableMetadata.keyspaceName), table := Some(tableMetadata.tableName),
                                       defaultConsistencyLevel := Some(tableMetadata.defaultWriteConsistency))
    {
      keyspace := Some(tableMetadata.keyspaceName);
      table := Some(tableMetadata.tableName);
      defaultConsistencyLevel := Some(tableMetadata.defaultWriteConsistency);
    }

    /** `setSelectors(fields...)`: appends one deletable selector per field, in order. */
    method SetSelectors(fields: seq<ColumnMetadata>)
      modifies this
      ensures State() == old(State()).(selectors := old(selectors) + DeletableSelectors(fields))
    {
      var k := 0;
      while k < |fields|
        invariant 0 <= k <= |fields|
        invariant old(State()).(selectors := selectors) == State()
        invariant selectors == old(selectors) + DeletableSelectors(fields[..k])
      {
        assert DeletableSelectors(fields[..k + 1]) == DeletableSelectors(fields[..k]) + [DeletableSelector(fields[k])];
        selectors := selectors + [DeletableSelector(fields[k])];
        k := k + 1;
      }
      assert fields[..k] == fields;
    }

    /** `setTimestamp(Instant)`: stores the epoch milliseconds, or throws when they overflow a `long`. */
    method SetTimestampInstant(timestamp: Instant) returns (r: Outcome<JavaException>)
      modifies this
      ensures r.Pass? <==> ToEpochMilli(timestamp).Success?
      ensures r.Pass? ==> State() == old(State()).(timestamp := Some(ToEpochMilli(timestamp).value))
      ensures r.Fail? ==> State() == old(State()) && r.error == ToEpochMilli(timestamp).error
    {
      var millis := ToEpochMilli(timestamp);
      if millis.Failure? {
        return Fail(millis.error);
      }
      this.timestamp := Some(millis.value);
      r := Pass;
    }

    /** `setTimestamp(long)`: stores the value as given. */
    method SetTimestamp(timestamp: int64)
      modifies this
      ensures State() == old(State()).(timestamp := Some(timestamp))
    {
      this.timestamp := Some(timestamp);
    }

    /** `setWhere(criteria)`: appends the clause `WhereClause.from(criteria)` builds. */
    method SetWhere(clause: WhereClause)
      modifies this
      ensures State() == old(State()).(whereClauses := old(whereClauses) + [clause])
      ensures DeleteBindValues(State()) ==
        ExtractWhereBindValues(old(whereClauses)) + clause.bindValues + ExtractConditionBindValues(conditionClauses)
    {
      whereClauses := whereClauses + [clause];
      WhereBindValuesAppend(old(whereClauses), clause);
    }

    /** `setIf(criteria)`: appends the compiled condition, or throws what `ConditionClause.from` throws. */
    method SetIf(criteriaExpression: CriteriaExpression) returns (r: Outcome<JavaException>)
      modifies this
      ensures r.Pass? <==> From(criteriaExpression).Success?
      ensures r.Fail? ==> r.error == From(criteriaExpression).error && State() == old(State())
      ensures r.Pass? ==>
        State() == old(State()).(conditionClauses := old(conditionClauses) + [From(criteriaExpression).value])
      ensures r.Pass? ==> DeleteBindValues(State()) == DeleteBindValues(old(State())) + ConditionBindList(From(criteriaExpression).value)
    {
      var clause := From(criteriaExpression);
      if clause.Failure? {
        return Fail(clause.error);
      }
      conditionClauses := conditionClauses + [clause.value];
      ConditionBindValuesAppend(old(conditionClauses), clause.value);
      r := Pass;
    }

    /**
     * `buildStatement`: column selectors only when there are some, USING TIMESTAMP only when
     * a timestamp is set, and the where values followed by the condition values.
     */
    method BuildStatement() returns (t: StatementTuple)
      ensures t.statement.keyspace == keyspace && t.statement.table == table
      ensures t.statement.selectors.Some? <==> |selectors| > 0
      ensures t.statement.selectors.Some? ==> t.statement.selectors.value == selectors
      ensures t.statement.timestamp.Some? <==> timestamp.Some?
      ensures timestamp.Some? ==> t.statement.timestamp == timestamp
      ensures t.statement.relations == ExtractRelations(whereClauses)
      ensures t.statement.conditions == ExtractConditions(conditionClauses)
      ensures t.bindValues == DeleteBindValues(State())
    {
      var deleteSelection := DeleteStatement(keyspace, table, None, None, [], []);
      if |selectors| != 0 {
        deleteSelection := deleteSelection.(selectors := Some(selectors));
      }
      if timestamp.Some? {
        deleteSelection := deleteSelection.(timestamp := timestamp);
      }
      var delete := deleteSelection.(relations := ExtractRelations(whereClauses));
      delete := delete.(conditions := ExtractConditions(conditionClauses));
      t := StatementTuple(delete, ExtractWhereBindValues(whereClauses) + ExtractConditionBindValues(conditionClauses));
    }
  }

  /** Value `j` of the `i`-th condition clause comes after every where value and after the earlier conditions' values. */
  lemma ConditionValuePosition(s: DeleteState, i: nat, j: nat)
    requires i < |s.conditionClauses| && j < |ConditionBindList(s.conditionClauses[i])|
    ensures |ExtractConditionBindValues(s.conditionClauses[..i])| + j < |ExtractConditionBindValues(s.conditionClauses)|
    ensures DeleteBindValues(s)[|ExtractWhereBindValues(s.whereClauses)| + |ExtractConditionBindValues(s.conditionClauses[..i])| + j]
            == ConditionBindList(s.conditionClauses[i])[j]
  {
    var lists := ConditionBindLists(s.conditionClauses);
    assert ConditionBindLists(s.conditionClauses[..i]) == lists[..i];
    FlattenAt(lists, i, j);
  }

  /** Value `j` of the `i`-th where clause sits after the values of the earlier where clauses. */
  lemma WhereValuePosition(s: DeleteState, i: nat, j: nat)
    requires i < |s.whereClauses| && j < |s.whereClauses[i].bindValues|
    ensures |ExtractWhereBindValues(s.whereClauses[..i])| + j < |ExtractWhereBindValues(s.whereClauses)|
    ensures DeleteBindValues(s)[|ExtractWhereBindValues(s.whereClauses[..i])| + j] == s.whereClauses[i].bindValues[j]
  {
    var lists := WhereBindLists(s.whereClauses);
    assert WhereBindLists(s.whereClauses[..i]) == lists[..i];
    FlattenAt(lists, i, j);
  }
}
