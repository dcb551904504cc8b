/**
 * The UPDATE query accumulator: a table, ordered assignment, where and condition clause
 * lists, and optional TTL, timestamp and IF EXISTS, compiled into one statement and a bind
 * vector. `ArrayUtils.addAll(assignments, where, conditions)` resolves to the variable-arity
 * `addAll(T[] array1, T... array2)` with `T = Object`, so the vector handed to the session
 * holds the assignment values one by one, then the whole where array and the whole condition
 * array as two single elements; `UpdateBindValues` is the flat vector evidently intended.
 */
module UpdateQuery {
  import opened Wrappers
  import opened Lang
  import opened Criteria
  import opened Clauses
  import opened ConditionClause
  import opened QueryHelper
  import opened Metadata

  /** One element of the statement's IF part, in the order it was added. */
  datatype IfPart = IfExists | IfCondition(condition: Condition)

  /** The driver's UPDATE statement, recorded as the pieces it was built from. */
  datatype UpdateStatement = UpdateStatement(
    keyspace: Option<string>,
    table: Option<string>,
    ttl: Option<int32>,
    timestamp: Option<int64>,
    assignments: seq<Assignment>,
    relations: seq<Relation>,
    ifParts: seq<IfPart>)

  /** The statement and the bind values handed to the session together. */
  datatype StatementTuple = StatementTuple(statement: UpdateStatement, bindValues: seq<Value>)

  /** Every field of an UpdateQuery, as one value. */
  datatype UpdateState = UpdateState(
    keyspace: Option<string>,
    table: Option<string>,
    assignmentClauses: seq<AssignmentClause>,
    whereClauses: seq<WhereClause>,
    conditionClauses: seq<ConditionClause>,
    ttl: Option<int32>,
    timestamp: Option<int64>,
    ifExists: bool)

  /** The bind vector `execute` builds: the assignment values, then the where and condition arrays as two elements. */
  function UpdateBindValuesAsWritten(s: UpdateState): (r: seq<Value>)
    ensures |r| == |ExtractAssignmentBindValues(s.assignmentClauses)| + 2
    ensures r[|r| - 2] == ArrayValue(ExtractWhereBindValues(s.whereClauses))
    ensures r[|r| - 1] == ArrayValue(ExtractConditionBindValues(s.conditionClauses))
  {
    ExtractAssignmentBindValues(s.assignmentClauses)
      + [ArrayValue(ExtractWhereBindValues(s.whereClauses)), ArrayValue(ExtractConditionBindValues(s.conditionClauses))]
  }

  /** The intended bind vector of an update: assignment values, then where values, then condition values. */
  function UpdateBindValues(s: UpdateState): (r: seq<Value>)
    ensures |r| == |ExtractAssignmentBindValues(s.assignmentClauses)| + |ExtractWhereBindValues(s.whereClauses)|
                   + |ExtractConditionBindValues(s.conditionClauses)|
    ensures r[..|ExtractAssignmentBindValues(s.assignmentClauses)|] == ExtractAssignmentBindValues(s.assignmentClauses)
  {
    ExtractAssignmentBindValues(s.assignmentClauses)
      + ExtractWhereBindValues(s.whereClauses)
      + ExtractConditionBindValues(s.conditionClauses)
  }

  /** The IF part: IF EXISTS first when enabled, then the explicit conditions in call order. */
  function IfParts(ifExists: bool, conditions: seq<ConditionClause>): (r: seq<IfPart>)
    ensures |r| == (if ifExists then 1 else 0) + |conditions|
    ensures ifExists ==> r[0] == IfExists
    ensures forall i :: 0 <= i < |conditions| ==> r[i + (if ifExists then 1 else 0)] == IfCondition(conditions[i].condition)
  {
    (if ifExists then [IfExists] else []) + ConditionParts(conditions)
  }

  function ConditionParts(conditions: seq<ConditionClause>): (r: seq<IfPart>)
    ensures |r| == |conditions|
    ensures forall i :: 0 <= i < |conditions| ==> r[i] == IfCondition(conditions[i].condition)
  {
    seq(|conditions|, i requires 0 <= i < |conditions| => IfCondition(conditions[i].condition))
  }

  /** The clauses `from` builds for the entries of `m` visited in `order`. */
  function EntryClauses(order: seq<string>, m: map<string, Value>, from: (string, Value) -> AssignmentClause): (r: seq<AssignmentClause>)
    requires forall k :: k in order ==> k in m
    ensures |r| == |order|
    ensures forall i :: 0 <= i < |order| ==> r[i] == from(order[i], m[order[i]])
  {
    seq(|order|, i requires 0 <= i < |order| => from(order[i], m[order[i]]))
  }

  class UpdateQuery {
    var keyspace: Option<string>
    var table: Option<string>
    var assignmentClauses: seq<AssignmentClause>
    var whereClauses: seq<WhereClause>
    var conditionClauses: seq<ConditionClause>
    var ttl: Option<int32>
    var timestamp: Option<int64>
    var ifExists: bool

    function State(): UpdateState
      reads this
    {
      UpdateState(keyspace, table, assignmentClauses, whereClauses, conditionClauses, ttl, timestamp, ifExists)
    }

    constructor ()
      ensures State() == UpdateState(None, None, [], [], [], None, None, false)
    {
      keyspace, table := None, None;
      assignmentClauses, whereClauses, conditionClauses := [], [], [];
      ttl, timestamp, ifExists := None, None, false;
    }

    method SetTable(tableMetadata: TableMetadata)
      modifies this
      ensures State() == old(State()).(keyspace := Some(tableMetadata.keyspaceName), table := Some(tableMetadata.tableName))
    {
      keyspace := Some(tableMetadata.keyspaceName);
      table := Some(tableMetadata.tableName);
    }

    /** `setAssignment(column, value)`: appends the clause `AssignmentClause.from(column, value)` builds. */
    method SetAssignment(clause: AssignmentClause)
      modifies this
      ensures State() == old(State()).(assignmentClauses := old(assignmentClauses) + [clause])
      ensures UpdateBindValues(State()) ==
        ExtractAssignmentBindValues(old(assignmentClauses)) + clause.bindValues
        + ExtractWhereBindValues(whereClauses) + ExtractConditionBindValues(conditionClauses)
    {
      assignmentClauses := assignmentClauses + [clause];
      AssignmentBindValuesAppend(old(assignmentClauses), clause);
    }

    /**
     * `setAssignments(map)`: one clause per entry, built by `from` (the source's
     * `AssignmentClause.from(name, value)`), in the map's iteration order, which Java leaves
     * unspecified; `order` is the order that was taken.
     */
    method SetAssignments(columnNameValues: map<string, Value>, from: (string, Value) -> AssignmentClause)
      returns (ghost order: seq<string>)
      modifies this
      ensures |order| == |columnNameValues| && (forall k :: k in order <==> k in columnNameValues)
      ensures forall i, j :: 0 <= i < j < |order| ==> order[i] != order[j]
      ensures State() == old(State()).(assignmentClauses := old(assignmentClauses) + EntryClauses(order, columnNameValues, from))
    {
      var remaining := columnNameValues.Keys;
      order := [];
      while remaining != {}
        invariant remaining <= columnNameValues.Keys
        invariant forall k :: k in order <==> k in columnNameValues.Keys - remaining
        invariant forall i, j :: 0 <= i < j < |order| ==> order[i] != order[j]
        invariant |order| + |remaining| == |columnNameValues.Keys|
        invariant old(State()).(assignmentClauses := State().assignmentClauses) == State()
        invariant assignmentClauses == old(assignmentClauses) + EntryClauses(order, columnNameValues, from)
        decreases |remaining|
      {
        var key :| key in remaining;
        assert key !in order;
        assert EntryClauses(order + [key], columnNameValues, from)
            == EntryClauses(order, columnNameValues, from) + [from(key, columnNameValues[key])];
        assignmentClauses := assignmentClauses + [from(key, columnNameValues[key])];
        order := order + [key];
        remaining := remaining - {key};
      }
      assert |columnNameValues| == |columnNameValues.Keys|;
    }

    /** `setWhere(criteria)`: appends the clause `WhereClause.from(criteria)` builds. */
    method SetWhere(clause: WhereClause)
      modifies this
      ensures State() == old(State()).(whereClauses := old(whereClauses) + [clause])
      ensures UpdateBindValues(State()) ==
        ExtractAssignmentBindValues(assignmentClauses) + ExtractWhereBindValues(old(whereClauses))
        + clause.bindValues + ExtractConditionBindValues(conditionClauses)
    {
      whereClauses := whereClauses + [clause];
      WhereBindValuesAppend(old(whereClauses), clause);
    }

    /** `setIf(criteria)`: appends the compiled condition, or throws what `ConditionClause.from` throws. */
    method SetIf(criteriaExpression: CriteriaExpression) returns (r: Outcome<JavaException>)
      modifies this
      ensures r.Pass? <==> From(criteriaExpression).Success?
      ensures r.Fail? ==> r.error == From(criteriaExpression).error && State() == old(State())
      ensures r.Pass? ==>
        State() == old(State()).(conditionClauses := old(conditionClauses) + [From(criteriaExpression).value])
      ensures r.Pass? ==> UpdateBindValues(State()) == UpdateBindValues(old(State())) + ConditionBindList(From(criteriaExpression).value)
    {
      var clause := From(criteriaExpression);
      if clause.Failure? {
        return Fail(clause.error);
      }
      conditionClauses := conditionClauses + [clause.value];
      ConditionBindValuesAppend(old(conditionClauses), clause.value);
      r := Pass;
    }

    method SetTtl(ttl: int32)
      modifies this
      ensures State() == old(State()).(ttl := Some(ttl))
    {
      this.ttl := Some(ttl);
    }

    /** `setTimestamp(Instant)`: stores the epoch milliseconds, or throws when they overflow a `long`. */
    method SetTimestampInstant(timestamp: Instant) returns (r: Outcome<JavaException>)
      modifies this
      ensures r.Pass? <==> ToEpochMilli(timestamp).Success?
      ensures r.Pass? ==> State() == old(State()).(timestamp := Some(ToEpochMilli(timestamp).value))
      ensures r.Fail? ==> State() == old(State()) && r.error == ToEpochMilli(timestamp).error
    {
      var millis := ToEpochMilli(timestamp);
      if millis.Failure? {
        return Fail(millis.error);
      }
      this.timestamp := Some(millis.value);
      r := Pass;
    }

    /** `setTimestamp(long)`: stores the value as given. */
    method SetTimestamp(timestamp: int64)
      modifies this
      ensures State() == old(State()).(timestamp := Some(timestamp))
    {
      this.timestamp := Some(timestamp);
    }

    method EnableIfExists()
      modifies this
      ensures State() == old(State()).(ifExists := true)
    {
      ifExists := true;
    }

    /**
     * `execute`: the statement and bind values handed to the session. TTL and timestamp are
     * included only when set; IF EXISTS precedes the explicit conditions.
     */
    method Execute() returns (t: StatementTuple)
      ensures t.statement.keyspace == keyspace && t.statement.table == table
      ensures t.statement.ttl.Some? <==> ttl.Some?
      ensures ttl.Some? ==> t.statement.ttl == ttl
      ensures t.statement.timestamp.Some? <==> timestamp.Some?
      ensures timestamp.Some? ==> t.statement.timestamp == timestamp
      ensures t.statement.assignments == ExtractAssignments(assignmentClauses)
      ensures t.statement.relations == ExtractRelations(whereClauses)
      ensures t.statement.ifParts == IfParts(ifExists, conditionClauses)
      ensures t.bindValues == UpdateBindValuesAsWritten(State())
    {
      var updateStart := UpdateStatement(keyspace, table, None, None, [], [], []);
      if ttl.Some? {
        updateStart := updateStart.(ttl := ttl);
      }
      if timestamp.Some? {
        updateStart := updateStart.(timestamp := timestamp);
      }
      var updateWithAssignments := updateStart.(assignments := ExtractAssignments(assignmentClauses));
      var update := updateWithAssignments.(relations := ExtractRelations(whereClauses));
      var ifClause: seq<IfPart> := [];
      if ifExists {
        ifClause := [IfExists];
      }
      ifClause := ifClause + ConditionParts(conditionClauses);
      update := update.(ifParts := ifClause);
      // the assignment array, then the variable-arity part {whereValues, conditionValues}
      var varargs := [ArrayValue(ExtractWhereBindValues(whereClauses)), ArrayValue(ExtractConditionBindValues(conditionClauses))];
      t := StatementTuple(update, ExtractAssignmentBindValues(assignmentClauses) + varargs);
    }
  }

  /**
   * Where each clause's values land in the update's bind vector: value `j` of the `i`-th
   * where clause comes after every assignment value and after the values of the earlier
   * where clauses.
   */
  lemma WhereValuePosition(s: UpdateState, i: nat, j: nat)
    requires i < |s.whereClauses| && j < |s.whereClauses[i].bindValues|
    ensures |ExtractAssignmentBindValues(s.assignmentClauses)| + |ExtractWhereBindValues(s.whereClauses[..i])| + j
            < |UpdateBindValues(s)|
    ensures UpdateBindValues(s)[|ExtractAssignmentBindValues(s.assignmentClauses)| + |ExtractWhereBindValues(s.whereClauses[..i])| + j]
            == s.whereClauses[i].bindValues[j]
  {
    var lists := WhereBindLists(s.whereClauses);
    assert WhereBindLists(s.whereClauses[..i]) == lists[..i];
    FlattenAt(lists, i, j);
  }

  /** Value `j` of the `i`-th assignment clause sits after the values of the earlier assignments. */
  lemma AssignmentValuePosition(s: UpdateState, i: nat, j: nat)
    requires i < |s.assignmentClauses| && j < |s.assignmentClauses[i].bindValues|
    ensures |ExtractAssignmentBindValues(s.assignmentClauses[..i])| + j < |ExtractAssignmentBindValues(s.assignmentClauses)|
    ensures UpdateBindValues(s)[|ExtractAssignmentBindValues(s.assignmentClauses[..i])| + j]
            == s.assignmentClauses[i].bindValues[j]
  {
    var lists := AssignmentBindLists(s.assignmentClauses);
    assert AssignmentBindLists(s.assignmentClauses[..i]) == lists[..i];
    FlattenAt(lists, i, j);
  }

  /** Value `j` of the `i`-th condition clause comes after every assignment and where value. */
  lemma ConditionValuePosition(s: UpdateState, i: nat, j: nat)
    requires i < |s.conditionClauses| && j < |ConditionBindList(s.conditionClauses[i])|
    ensures |ExtractConditionBindValues(s.conditionClauses[..i])| + j < |ExtractConditionBindValues(s.conditionClauses)|
    ensures UpdateBindValues(s)[|ExtractAssignmentBindValues(s.assignmentClauses)| + |ExtractWhereBindValues(s.whereClauses)|
                                + |ExtractConditionBindValues(s.conditionClauses[..i])| + j]
            == ConditionBindList(s.conditionClauses[i])[j]
  {
    var lists := ConditionBindLists(s.conditionClauses);
    assert ConditionBindLists(s.conditionClauses[..i]) == lists[..i];
    FlattenAt(lists, i, j);
  }

  /** Assignments `A = 1`, `B = 2`, then `where C = 3`, then `if D = 4`. */
  function ExampleState(a: Assignment, b: Assignment, c: Relation): UpdateState {
    UpdateState(None, None,
      [AssignmentClause(a, [IntValue(1)]), AssignmentClause(b, [IntValue(2)])],
      [WhereClause(c, [IntValue(3)])],
      [From(CriteriaExpression("d", EQ, [IntValue(4)])).value],
      None, None, false)
  }

  /** The example's intended bind vector is `[1, 2, 3, 4]`. */
  lemma BindOrderExample(a: Assignment, b: Assignment, c: Relation)
    ensures UpdateBindValues(ExampleState(a, b, c)) == [IntValue(1), IntValue(2), IntValue(3), IntValue(4)]
  {
    var s := ExampleState(a, b, c);
    assert AssignmentBindLists(s.assignmentClauses) == [[IntValue(1)], [IntValue(2)]];
    assert Flatten([[IntValue(1)], [IntValue(2)]]) == [IntValue(1)] + Flatten([[IntValue(2)]]);
    assert Flatten([[IntValue(2)]]) == [IntValue(2)] + Flatten([]);
    assert WhereBindLists(s.whereClauses) == [[IntValue(3)]];
    assert Flatten([[IntValue(3)]]) == [IntValue(3)] + Flatten([]);
    assert ConditionBindLists(s.conditionClauses) == [[IntValue(4)]];
    assert Flatten([[IntValue(4)]]) == [IntValue(4)] + Flatten([]);
  }

  /** On the same example, `execute` hands the session `[1, 2, [3], [4]]`. */
  lemma AsWrittenBindOrderExample(a: Assignment, b: Assignment, c: Relation)
    ensures UpdateBindValuesAsWritten(ExampleState(a, b, c))
            == [IntValue(1), IntValue(2), ArrayValue([IntValue(3)]), ArrayValue([IntValue(4)])]
    ensures UpdateBindValuesAsWritten(ExampleState(a, b, c)) != UpdateBindValues(ExampleState(a, b, c))
  {
    var s := ExampleState(a, b, c);
    assert AssignmentBindLists(s.assignmentClauses) == [[IntValue(1)], [IntValue(2)]];
    assert Flatten([[IntValue(1)], [IntValue(2)]]) == [IntValue(1)] + Flatten([[IntValue(2)]]);
    assert Flatten([[IntValue(2)]]) == [IntValue(2)] + Flatten([]);
    assert WhereBindLists(s.whereClauses) == [[IntValue(3)]];
    assert Flatten([[IntValue(3)]]) == [IntValue(3)] + Flatten([]);
    assert ExtractWhereBindValues(s.whereClauses) == [IntValue(3)];
    assert ConditionBindLists(s.conditionClauses) == [[IntValue(4)]];
    assert Flatten([[IntValue(4)]]) == [IntValue(4)] + Flatten([]);
    assert ExtractConditionBindValues(s.conditionClauses) == [IntValue(4)];
    AsWrittenIsNeverIntended(s);
  }

  /**
   * Whatever the clauses, the vector `execute` builds is two longer than its assignment part
   * and is never the intended flat vector: equal lengths would need one of the two arrays to
   * be its own element.
   */
  lemma AsWrittenIsNeverIntended(s: UpdateState)
    ensures |UpdateBindValuesAsWritten(s)| == |ExtractAssignmentBindValues(s.assignmentClauses)| + 2
    ensures UpdateBindValuesAsWritten(s)[..|ExtractAssignmentBindValues(s.assignmentClauses)|]
            == UpdateBindValues(s)[..|ExtractAssignmentBindValues(s.assignmentClauses)|]
    ensures UpdateBindValuesAsWritten(s) != UpdateBindValues(s)
  {
    var a := ExtractAssignmentBindValues(s.assignmentClauses);
    var w := ExtractWhereBindValues(s.whereClauses);
    var c := ExtractConditionBindValues(s.conditionClauses);
    var asWritten := UpdateBindValuesAsWritten(s)[|a|..];
    var intended := UpdateBindValues(s)[|a|..];
    assert asWritten == [ArrayValue(w), ArrayValue(c)];
    assert intended == w + c;
    if |w| + |c| == 2 {
      if |w| == 0 {
        assert intended[1] == c[1];
        assert asWritten[1] != intended[1];
      } else {
        assert intended[0] == w[0];
        assert asWritten[0] != intended[0];
      }
    }
    assert asWritten != intended;
  }
}
