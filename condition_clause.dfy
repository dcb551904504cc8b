/** Compilation of a criteria expression into an IF-clause condition and its bind values. */
module ConditionClause {
  import opened Wrappers
  import opened Lang
  import opened Criteria
  import opened Clauses

  /**
   * A compiled IF-clause fragment. `bindValues` is None where the source stores `null`
   * (an IN over no values), which is distinct from an empty list.
   */
  datatype ConditionClause = ConditionClause(condition: Condition, bindValues: Option<seq<Value>>)

  predicate IsComparison(op: CriteriaOperator) {
    op in {EQ, NOT_EQ, GT, GTE, LT, LTE}
  }

  /**
   * The CQL symbol of a comparison operator: one character for the strict and equality
   * comparisons, two ending in `=` for inequality and the inclusive ones.
   */
  function ComparisonSymbol(op: CriteriaOperator): (s: string)
    requires IsComparison(op)
    ensures |s| == 1 <==> op in {EQ, GT, LT}
    ensures |s| == 2 <==> op in {NOT_EQ, GTE, LTE}
    ensures |s| == 2 ==> s[1] == '='
  {
    match op
    case EQ => "="
    case NOT_EQ => "!="
    case GT => ">"
    case GTE => ">="
    case LT => "<"
    case LTE => "<="
  }

  /** Distinct comparison operators compile to distinct CQL symbols. */
  lemma ComparisonSymbolInjective(a: CriteriaOperator, b: CriteriaOperator)
    requires IsComparison(a) && IsComparison(b) && a != b
    ensures ComparisonSymbol(a) != ComparisonSymbol(b)
  {
  }

  function UnsupportedMessage(op: CriteriaOperator): string {
    "Operation '" + OperatorName(op) + "' is not supported in [IF] clause"
  }

  /** The number of values a clause binds; a `null` list binds none. */
  function BindCount(c: ConditionClause): nat {
    match c.bindValues
    case None => 0
    case Some(vs) => |vs|
  }

  /**
   * `ConditionClause.from`. A comparison binds its first value (reading `values[0]` of an
   * empty array throws); IN binds all of its values behind one marker each, or, with none,
   * emits a raw empty term and a `null` list; every other operator is refused.
   */
  function From(criteria: CriteriaExpression): (r: Result<ConditionClause, JavaException>)
    ensures r.Success? <==> (IsComparison(criteria.criteriaOperator) && |criteria.values| > 0) || criteria.criteriaOperator == IN
    ensures r.Success? ==> r.value.condition.column == criteria.field
    ensures r.Success? ==> BindCount(r.value) == MarkerCount(r.value.condition.term)
    ensures IsComparison(criteria.criteriaOperator) && r.Success? ==>
      && r.value.condition.operator == ComparisonSymbol(criteria.criteriaOperator)
      && r.value.condition.term == BindMarker
      && r.value.bindValues == Some([criteria.values[0]])
    ensures IsComparison(criteria.criteriaOperator) && |criteria.values| == 0 ==>
      r == Failure(ArrayIndexOutOfBoundsException(0))
    ensures criteria.criteriaOperator == IN && |criteria.values| > 0 ==>
      && r.value.condition.operator == " IN "
      && r.value.condition.term == Tuple(Markers(|criteria.values|))
      && r.value.bindValues == Some(criteria.values)
    ensures criteria.criteriaOperator == IN && |criteria.values| == 0 ==>
      && r.value.condition.operator == " IN "
      && r.value.condition.term == Raw("")
      && r.value.bindValues == None
    ensures !IsComparison(criteria.criteriaOperator) && criteria.criteriaOperator != IN ==>
      r == Failure(CharybdisUnsupportedOperation(UnsupportedMessage(criteria.criteriaOperator)))
  {
    var field := criteria.field;
    var values := criteria.values;
    var op := criteria.criteriaOperator;
    if IsComparison(op) then
      if |values| == 0 then Failure(ArrayIndexOutOfBoundsException(0))
      else Success(ConditionClause(Condition(field, ComparisonSymbol(op), BindMarker), Some([values[0]])))
    else if op == IN then
      if |values| > 0 then
        MarkersCount(|values|);
        Success(ConditionClause(Condition(field, " IN ", Tuple(Markers(|values|))), Some(values)))
      else
        Success(ConditionClause(Condition(field, " IN ", Raw("")), None))
    else
      Failure(CharybdisUnsupportedOperation(UnsupportedMessage(op)))
  }

  /** An empty IN is told apart from a one-value IN by its term and by its `null` bind list. */
  lemma EmptyInDistinct(field: string, v: Value)
    ensures From(CriteriaExpression(field, IN, [])).value.bindValues == None
    ensures From(CriteriaExpression(field, IN, [v])).value.bindValues == Some([v])
    ensures From(CriteriaExpression(field, IN, [])).value.condition != From(CriteriaExpression(field, IN, [v])).value.condition
  {
  }

  /** CONTAINS is refused with a message naming the operator and the IF clause. */
  lemma ContainsRefused(field: string, values: seq<Value>)
    ensures From(CriteriaExpression(field, CONTAINS, values))
         == Failure(CharybdisUnsupportedOperation("Operation '" + "CONTAINS" + "' is not supported in [IF] clause"))
  {
  }
}
