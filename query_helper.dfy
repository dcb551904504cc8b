/**
 * Extraction of statement fragments and bind values from clause lists. Each list's bind
 * values are the concatenation, in clause order, of the bind lists of its clauses.
 */
module QueryHelper {
  import opened Wrappers
  import opened Lang
  import opened Clauses
  import opened ConditionClause

  function Flatten(lists: seq<seq<Value>>): (r: seq<Value>)
    decreases |lists|
  {
    if |lists| == 0 then [] else lists[0] + Flatten(lists[1..])
  }

  lemma {:induction false} FlattenAppend(a: seq<seq<Value>>, b: seq<seq<Value>>)
    ensures Flatten(a + b) == Flatten(a) + Flatten(b)
    decreases |a|
  {
    if |a| == 0 {
      assert a + b == b;
    } else {
      assert (a + b)[1..] == a[1..] + b;
      FlattenAppend(a[1..], b);
    }
  }

  /** The `j`-th value of the `i`-th list sits right after the values of the lists before it. */
  lemma {:induction false} FlattenAt(lists: seq<seq<Value>>, i: nat, j: nat)
    requires i < |lists| && j < |lists[i]|
    ensures |Flatten(lists[..i])| + j < |Flatten(lists)|
    ensures Flatten(lists)[|Flatten(lists[..i])| + j] == lists[i][j]
  {
    assert lists == lists[..i] + lists[i..];
    FlattenAppend(lists[..i], lists[i..]);
    assert Flatten(lists[i..]) == lists[i] + Flatten(lists[i..][1..]);
  }

  /** The bind list of a condition clause; a `null` list contributes nothing. */
  function ConditionBindList(c: ConditionClause): seq<Value> {
    match c.bindValues
    case None => []
    case Some(vs) => vs
  }

  function WhereBindLists(ws: seq<WhereClause>): (r: seq<seq<Value>>)
    ensures |r| == |ws| && forall i :: 0 <= i < |ws| ==> r[i] == ws[i].bindValues
  {
    seq(|ws|, i requires 0 <= i < |ws| => ws[i].bindValues)
  }

  function AssignmentBindLists(cs: seq<AssignmentClause>): (r: seq<seq<Value>>)
    ensures |r| == |cs| && forall i :: 0 <= i < |cs| ==> r[i] == cs[i].bindValues
  {
    seq(|cs|, i requires 0 <= i < |cs| => cs[i].bindValues)
  }

  function ConditionBindLists(cs: seq<ConditionClause>): (r: seq<seq<Value>>)
    ensures |r| == |cs| && forall i :: 0 <= i < |cs| ==> r[i] == ConditionBindList(cs[i])
  {
    seq(|cs|, i requires 0 <= i < |cs| => ConditionBindList(cs[i]))
  }

  /** The where values, in clause order: none without clauses, and the first clause's values open them. */
  function ExtractWhereBindValues(ws: seq<WhereClause>): (r: seq<Value>)
    ensures |ws| == 0 ==> r == []
    ensures |ws| > 0 ==> ws[0].bindValues <= r
  {
    Flatten(WhereBindLists(ws))
  }

  /** The assignment values, in clause order: none without clauses, and the first clause's values open them. */
  function ExtractAssignmentBindValues(cs: seq<AssignmentClause>): (r: seq<Value>)
    ensures |cs| == 0 ==> r == []
    ensures |cs| > 0 ==> cs[0].bindValues <= r
  {
    Flatten(AssignmentBindLists(cs))
  }

  /** The condition values, in clause order: none without clauses, and the first clause's list (none when `null`) opens them. */
  function ExtractConditionBindValues(cs: seq<ConditionClause>): (r: seq<Value>)
    ensures |cs| == 0 ==> r == []
    ensures |cs| > 0 ==> ConditionBindList(cs[0]) <= r
  {
    Flatten(ConditionBindLists(cs))
  }

  function ExtractRelations(ws: seq<WhereClause>): (r: seq<Relation>)
    ensures |r| == |ws| && forall i :: 0 <= i < |ws| ==> r[i] == ws[i].relation
  {
    seq(|ws|, i requires 0 <= i < |ws| => ws[i].relation)
  }

  function ExtractAssignments(cs: seq<AssignmentClause>): (r: seq<Assignment>)
    ensures |r| == |cs| && forall i :: 0 <= i < |cs| ==> r[i] == cs[i].assignment
  {
    seq(|cs|, i requires 0 <= i < |cs| => cs[i].assignment)
  }

  function ExtractConditions(cs: seq<ConditionClause>): (r: seq<Condition>)
    ensures |r| == |cs| && forall i :: 0 <= i < |cs| ==> r[i] == cs[i].condition
  {
    seq(|cs|, i requires 0 <= i < |cs| => cs[i].condition)
  }

  /** Appending a where clause appends exactly its bind values to the extracted vector. */
  lemma WhereBindValuesAppend(ws: seq<WhereClause>, w: WhereClause)
    ensures ExtractWhereBindValues(ws + [w]) == ExtractWhereBindValues(ws) + w.bindValues
  {
    assert WhereBindLists(ws + [w]) == WhereBindLists(ws) + [w.bindValues];
    FlattenAppend(WhereBindLists(ws), [w.bindValues]);
    assert Flatten([w.bindValues]) == w.bindValues + Flatten([]);
  }

  /** Appending an assignment clause appends exactly its bind values to the extracted vector. */
  lemma AssignmentBindValuesAppend(cs: seq<AssignmentClause>, c: AssignmentClause)
    ensures ExtractAssignmentBindValues(cs + [c]) == ExtractAssignmentBindValues(cs) + c.bindValues
  {
    assert AssignmentBindLists(cs + [c]) == AssignmentBindLists(cs) + [c.bindValues];
    FlattenAppend(AssignmentBindLists(cs), [c.bindValues]);
    assert Flatten([c.bindValues]) == c.bindValues + Flatten([]);
  }

  /** Appending a condition clause appends exactly its bind values (none for a `null` list). */
  lemma ConditionBindValuesAppend(cs: seq<ConditionClause>, c: ConditionClause)
    ensures ExtractConditionBindValues(cs + [c]) == ExtractConditionBindValues(cs) + ConditionBindList(c)
  {
    assert ConditionBindLists(cs + [c]) == ConditionBindLists(cs) + [ConditionBindList(c)];
    FlattenAppend(ConditionBindLists(cs), [ConditionBindList(c)]);
    assert Flatten([ConditionBindList(c)]) == ConditionBindList(c) + Flatten([]);
  }

  /** The total number of `?` markers the conditions of a clause list emit. */
  function ConditionMarkers(cs: seq<ConditionClause>): nat
    decreases |cs|
  {
    if |cs| == 0 then 0 else MarkerCount(cs[0].condition.term) + ConditionMarkers(cs[1..])
  }

  /**
   * For clauses built by `ConditionClause.from`, the extracted condition bind values are
   * exactly as many as the markers the conditions emit.
   */
  lemma {:induction false} ConditionBindsMatchMarkers(cs: seq<ConditionClause>)
    requires forall i :: 0 <= i < |cs| ==> BindCount(cs[i]) == MarkerCount(cs[i].condition.term)
    ensures |ExtractConditionBindValues(cs)| == ConditionMarkers(cs)
    decreases |cs|
  {
    if |cs| > 0 {
      assert cs == [cs[0]] + cs[1..];
      assert ConditionBindLists(cs) == [ConditionBindList(cs[0])] + ConditionBindLists(cs[1..]);
      FlattenAppend([ConditionBindList(cs[0])], ConditionBindLists(cs[1..]));
      assert Flatten([ConditionBindList(cs[0])]) == ConditionBindList(cs[0]) + Flatten([]);
      ConditionBindsMatchMarkers(cs[1..]);
    }
  }
}
