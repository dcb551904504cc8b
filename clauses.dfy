/** Criteria expressions: a field, an operator and the values the caller gave. */
module Criteria {
  import opened Lang

  datatype CriteriaOperator = EQ | NOT_EQ | GT | GTE | LT | LTE | IN | CONTAINS | CONTAINS_KEY

  /** A criteria on a field, identified by its column name, with the caller's values in order. */
  datatype CriteriaExpression = CriteriaExpression(field: string, criteriaOperator: CriteriaOperator, values: seq<Value>)

  /** The enum constant's name, as `String.format("%s", op)` prints it. */
  function OperatorName(op: CriteriaOperator): string {
    match op
    case EQ => "EQ"
    case NOT_EQ => "NOT_EQ"
    case GT => "GT"
    case GTE => "GTE"
    case LT => "LT"
    case LTE => "LTE"
    case IN => "IN"
    case CONTAINS => "CONTAINS"
    case CONTAINS_KEY => "CONTAINS_KEY"
  }
}

/**
 * The driver's statement fragments, as abstract records of what each holds: terms, relations,
 * conditions and assignments, and the where and assignment clauses that pair a fragment with
 * its bind values.
 */
module Clauses {
  import opened Lang

  /** A right-hand side: a `?` marker, a tuple of terms, or raw CQL text. */
  datatype Term = BindMarker | Tuple(elements: seq<Term>) | Raw(text: string)

  /** The number of `?` markers a term emits. */
  function MarkerCount(t: Term): nat
    decreases t
  {
    match t
    case BindMarker => 1
    case Raw(_) => 0
    case Tuple(elements) => MarkersIn(elements)
  }

  function MarkersIn(ts: seq<Term>): nat
    decreases ts
  {
    if |ts| == 0 then 0 else MarkerCount(ts[0]) + MarkersIn(ts[1..])
  }

  /** `n` copies of the same bind marker, as `Arrays.fill` leaves them. */
  function Markers(n: nat): (r: seq<Term>)
    ensures |r| == n
    ensures forall i :: 0 <= i < n ==> r[i] == BindMarker
  {
    seq(n, _ => BindMarker)
  }

  lemma {:induction false} MarkersCount(n: nat)
    ensures MarkersIn(Markers(n)) == n
  {
    if n > 0 {
      assert Markers(n)[1..] == Markers(n - 1);
      MarkersCount(n - 1);
    }
  }

  /** `field.toCondition(operator, term)`: a condition of an IF clause. */
  datatype Condition = Condition(column: string, operator: string, term: Term)

  /** A relation of a WHERE clause. */
  datatype Relation = Relation(column: string, operator: string, term: Term)

  /** An assignment of an UPDATE's SET clause. */
  datatype Assignment = Assignment(column: string, operation: string, term: Term)

  /** What `WhereClause.from` builds: a relation and its bind values. */
  datatype WhereClause = WhereClause(relation: Relation, bindValues: seq<Value>)

  /** What `AssignmentClause.from` builds: an assignment and its bind values. */
  datatype AssignmentClause = AssignmentClause(assignment: Assignment, bindValues: seq<Value>)
}
