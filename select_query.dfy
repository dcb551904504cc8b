/**
 * The SELECT query accumulator: a table, a selector list that is either the shared
 * select-all sentinel or the query's own list, ordered where clauses, orderings keyed by
 * column, and an optional limit, filtering flag and page request. Execution hands the
 * statement, the where values and the paging request to a session.
 */
module SelectQuery {
  import opened Wrappers
  import opened Lang
  import opened Clauses
  import opened QueryHelper
  import opened Metadata

  /**
   * The `selectors` field: either the shared, immutable one-element SELECT_ALL list, or the
   * query's own growable list.
   */
  datatype SelectorList = SharedSelectAll | Own(items: seq<Selector>)

  /** The elements of a selector list. */
  function Items(l: SelectorList): (r: seq<Selector>)
    ensures l.SharedSelectAll? ==> r == [AllSelector]
    ensures l.Own? ==> r == l.items
  {
    match l
    case SharedSelectAll => [AllSelector]
    case Own(items) => items
  }

  /** The opaque paging state the driver hands back and accepts. */
  type PagingState = seq<bv8>

  /** A page request: the fetch size and the paging state to resume from, if any. */
  datatype PageRequest = PageRequest(fetchSize: int32, pagingState: Option<PagingState>)

  /** The driver's SELECT statement, recorded as the pieces it was built from. */
  datatype SelectStatement = SelectStatement(
    keyspace: Option<string>,
    table: Option<string>,
    selectAll: bool,
    selectors: seq<Selector>,
    relations: seq<Relation>,
    orderings: map<string, ClusteringOrder>,
    limit: Option<int32>,
    allowFiltering: bool)

  /** What is handed to the session: the statement, its bind values, and the paging request if any. */
  datatype Execution = Execution(statement: SelectStatement, bindValues: seq<Value>, page: Option<PageRequest>)

  /** A row, by column name. */
  datatype Row = Row(columns: map<string, Value>)

  /** A result set: the rows it yields, and the paging state of the next page. */
  datatype ResultSet = ResultSet(rows: seq<Row>, nextPagingState: Option<PagingState>)

  /** A session runs an execution and gives a result set or `null`. */
  type Session = Execution -> Option<ResultSet>

  /** Every field of a SelectQuery, as one value. */
  datatype SelectState = SelectState(
    keyspace: Option<string>,
    table: Option<string>,
    selectors: SelectorList,
    whereClauses: seq<WhereClause>,
    orderings: map<string, ClusteringOrder>,
    limit: Option<int32>,
    allowFiltering: bool,
    pageRequest: Option<PageRequest>)

  /** The state of a freshly constructed query. */
  const Initial := SelectState(None, None, Own([]), [], map[], None, false, None)

  /** `Selector.column(name)` for each column, in argument order. */
  function ColumnSelectors(columns: seq<ColumnMetadata>): (r: seq<Selector>)
    ensures |r| == |columns| && forall i :: 0 <= i < |columns| ==> r[i] == ColumnSelector(columns[i].columnName)
  {
    seq(|columns|, i requires 0 <= i < |columns| => ColumnSelector(columns[i].columnName))
  }

  /** The selector of each selectable field, in argument order. */
  function FieldSelectors(fields: seq<SelectableField>): (r: seq<Selector>)
    ensures |r| == |fields| && forall i :: 0 <= i < |fields| ==> r[i] == FieldSelector(fields[i])
  {
    seq(|fields|, i requires 0 <= i < |fields| => FieldSelector(fields[i]))
  }

  /**
   * Adding `added` to a selector list: the query's own list grows; the shared sentinel
   * refuses any addition (an empty addition never touches it).
   */
  function AddSelectors(l: SelectorList, added: seq<Selector>): (r: Result<SelectorList, JavaException>)
    ensures r.Failure? <==> l.SharedSelectAll? && |added| > 0
    ensures r.Failure? ==> r.error == UnsupportedOperationException
    ensures r.Success? ==> Items(r.value) == Items(l) + added
    ensures r.Success? && l.Own? ==> r.value.Own?
  {
    if |added| == 0 then Success(l)
    else if l.SharedSelectAll? then Failure(UnsupportedOperationException)
    else Success(Own(l.items + added))
  }

  /**
   * The execution a query in state `s` hands to the session: SELECT * exactly when the
   * selectors are the SELECT_ALL list, otherwise the selectors themselves; the relations in
   * clause order; the orderings; LIMIT and ALLOW FILTERING as set; the where values as bind
   * values; and the page request when there is one.
   */
  function SelectExecution(s: SelectState): (e: Execution)
    ensures e.statement.keyspace == s.keyspace && e.statement.table == s.table
    ensures e.statement.selectAll <==> Items(s.selectors) == [AllSelector]
    ensures !e.statement.selectAll ==> e.statement.selectors == Items(s.selectors)
    ensures e.statement.relations == ExtractRelations(s.whereClauses)
    ensures e.statement.orderings == s.orderings
    ensures e.statement.limit == s.limit
    ensures e.statement.allowFiltering == s.allowFiltering
    ensures e.bindValues == ExtractWhereBindValues(s.whereClauses)
    ensures e.page == s.pageRequest
  {
    var selectAll := Items(s.selectors) == [AllSelector];
    Execution(
      SelectStatement(s.keyspace, s.table, selectAll, if selectAll then [] else Items(s.selectors),
                      ExtractRelations(s.whereClauses), s.orderings, s.limit, s.allowFiltering),
      ExtractWhereBindValues(s.whereClauses),
      s.pageRequest)
  }

  class SelectQuery {
    var keyspace: Option<string>
    var table: Option<string>
    var selectors: SelectorList
    var whereClauses: seq<WhereClause>
    var orderings: map<string, ClusteringOrder>
    var limit: Option<int32>
    var allowFiltering: bool
    var pageRequest: Option<PageRequest>

    function State(): SelectState
      reads this
    {
      SelectState(keyspace, table, selectors, whereClauses, orderings, limit, allowFiltering, pageRequest)
    }

    constructor ()
      ensures State() == Initial
    {
      keyspace, table := None, None;
      selectors, whereClauses, orderings := Own([]), [], map[];
      limit, allowFiltering, pageRequest := None, false, None;
    }

    /** `setTable`: the keyspace and table. */
    method SetTable(tableMetadata: TableMetadata)
      modifies this
      ensures State() == old(State()).(keyspace := Some(tableMetadata.keyspaceName), table := Some(tableMetadata.tableName))
    {
      keyspace := Some(tableMetadata.keyspaceName);
      table := Some(tableMetadata.tableName);
    }

    /** `setTableAndSelectors`: the keyspace and table, and the selectors replaced by the shared SELECT_ALL list. */
    method SetTableAndSelectors(tableMetadata: TableMetadata)
      modifies this
      ensures State() == old(State()).(keyspace := Some(tableMetadata.keyspaceName), table := Some(tableMetadata.tableName),
                                       selectors := SharedSelectAll)
    {
      SetTable(tableMetadata);
      selectors := SharedSelectAll;
    }

    /**
     * `setSelectors(columns...)`: appends `Selector.column(name)` per column, in order. On the
     * shared SELECT_ALL list the first add throws, so nothing changes.
     */
    method SetSelectors(columns: seq<ColumnMetadata>) returns (r: Outcome<JavaException>)
      modifies this
      ensures r.Fail? <==> AddSelectors(old(selectors), ColumnSelectors(columns)).Failure?
      ensures r.Fail? ==> r.error == UnsupportedOperationException && State() == old(State())
      ensures r.Pass? ==> State() == old(State()).(selectors := AddSelectors(old(selectors), ColumnSelectors(columns)).value)
    {
      var k := 0;
      while k < |columns|
        invariant 0 <= k <= |columns|
        invariant old(State()).(selectors := selectors) == State()
        invariant k > 0 ==> old(selectors).Own?
        invariant AddSelectors(old(selectors), ColumnSelectors(columns[..k])) == Success(selectors)
      {
        if selectors.SharedSelectAll? {
          return Fail(UnsupportedOperationException);
        }
        assert ColumnSelectors(columns[..k + 1]) == ColumnSelectors(columns[..k]) + [ColumnSelector(columns[k].columnName)];
        assert old(selectors).items + ColumnSelectors(columns[..k + 1])
            == selectors.items + [ColumnSelector(columns[k].columnName)];
        selectors := Own(selectors.items + [ColumnSelector(columns[k].columnName)]);
        k := k + 1;
      }
      assert columns[..k] == columns;
      r := Pass;
    }

    /**
     * The `setSelectors(SelectableField...)` overload the select builder calls: one selector
     * per field, added like the column overload adds them.
     */
    method SetFieldSelectors(fields: seq<SelectableField>) returns (r: Outcome<JavaException>)
      modifies this
      ensures r.Fail? <==> AddSelectors(old(selectors), FieldSelectors(fields)).Failure?
      ensures r.Fail? ==> r.error == UnsupportedOperationException && State() == old(State())
      ensures r.Pass? ==> State() == old(State()).(selectors := AddSelectors(old(selectors), FieldSelectors(fields)).value)
    {
      var k := 0;
      while k < |fields|
        invariant 0 <= k <= |fields|
        invariant old(State()).(selectors := selectors) == State()
        invariant k > 0 ==> old(selectors).Own?
        invariant AddSelectors(old(selectors), FieldSelectors(fields[..k])) == Success(selectors)
      {
        if selectors.SharedSelectAll? {
          return Fail(UnsupportedOperationException);
        }
        assert FieldSelectors(fields[..k + 1]) == FieldSelectors(fields[..k]) + [FieldSelector(fields[k])];
        assert old(selectors).items + FieldSelectors(fields[..k + 1]) == selectors.items + [FieldSelector(fields[k])];
        selectors := Own(selectors.items + [FieldSelector(fields[k])]);
        k := k + 1;
      }
      assert fields[..k] == fields;
      r := Pass;
    }

    /** `setWhereClause(criteria)`: appends the clause `WhereClause.from(criteria)` builds. */
    method SetWhereClause(clause: WhereClause)
      modifies this
      ensures State() == old(State()).(whereClauses := old(whereClauses) + [clause])
      ensures ExtractWhereBindValues(whereClauses) == ExtractWhereBindValues(old(whereClauses)) + clause.bindValues
    {
      whereClauses := whereClauses + [clause];
      WhereBindValuesAppend(old(whereClauses), clause);
    }

    /** `setOrdering`: `orderings.put(column, order)`. */
    method SetOrdering(orderExpression: OrderExpression)
      modifies this
      ensures State() == old(State()).(orderings := old(orderings)[orderExpression.columnName := orderExpression.clusteringOrder])
    {
      orderings := orderings[orderExpression.columnName := orderExpression.clusteringOrder];
    }

    method SetLimit(limit: int32)
      modifies this
      ensures State() == old(State()).(limit := Some(limit))
    {
      this.limit := Some(limit);
    }

    method EnableFiltering()
      modifies this
      ensures State() == old(State()).(allowFiltering := true)
    {
      allowFiltering := true;
    }

    method SetPageRequest(pageRequest: PageRequest)
      modifies this
      ensures State() == old(State()).(pageRequest := Some(pageRequest))
    {
      this.pageRequest := Some(pageRequest);
    }

    /**
     * `execute(session)`: select all exactly when the selectors equal SELECT_ALL, else the
     * explicit selectors; LIMIT only when set; ALLOW FILTERING only when enabled; the where
     * values alone as bind values; the page request's fetch size and paging state when one
     * is set, all as `SelectExecution` describes. The result set is whatever the session
     * gives for that execution.
     */
    method Execute(session: Session) returns (execution: Execution, rs: Option<ResultSet>)
      ensures execution == SelectExecution(State())
      ensures rs == session(execution)
    {
      var select: SelectStatement;
      var selectFrom := SelectStatement(keyspace, table, false, [], [], map[], None, false);
      if Items(selectors) == [AllSelector] {
        select := selectFrom.(selectAll := true);
      } else {
        select := selectFrom.(selectors := Items(selectors));
      }
      select := select.(relations := ExtractRelations(whereClauses), orderings := orderings);
      if limit.Some? {
        select := select.(limit := limit);
      }
      if allowFiltering {
        select := select.(allowFiltering := true);
      }
      var bindValues := ExtractWhereBindValues(whereClauses);
      if pageRequest.Some? {
        execution := Execution(select, bindValues, Some(pageRequest.value));
        rs := session(execution);
        return;
      }
      execution := Execution(select, bindValues, None);
      rs := session(execution);
    }
  }

  /** Column and field selectors are never the select-all selector, so an own list never reads as SELECT_ALL once it has one. */
  lemma {:induction false} OwnListNeverSelectAll(columns: seq<ColumnMetadata>, fields: seq<SelectableField>)
    ensures ColumnSelectors(columns) != [AllSelector]
    ensures FieldSelectors(fields) != [AllSelector]
  {
    if |columns| == 1 {
      assert ColumnSelectors(columns)[0].ColumnSelector?;
    }
    if |fields| == 1 {
      assert FieldSelectors(fields)[0].FieldSelector?;
    }
  }

  /**
   * After `setTableAndSelectors`, adding even one column fails, while adding none leaves the
   * query selecting all.
   */
  lemma SelectAllIsFrozen(columns: seq<ColumnMetadata>)
    ensures AddSelectors(SharedSelectAll, ColumnSelectors(columns)).Failure? <==> |columns| > 0
    ensures |columns| == 0 ==> Items(AddSelectors(SharedSelectAll, ColumnSelectors(columns)).value) == [AllSelector]
  {
  }

  /**
   * `orderBy` twice on the same column executes as if only the later call had been made,
   * and the statement orders that column by the later direction.
   */
  lemma LaterOrderingWins(s: SelectState, a: OrderExpression, b: OrderExpression)
    requires a.columnName == b.columnName
    ensures SelectExecution(s.(orderings := s.orderings[a.columnName := a.clusteringOrder][b.columnName := b.clusteringOrder]))
            == SelectExecution(s.(orderings := s.orderings[b.columnName := b.clusteringOrder]))
    ensures SelectExecution(s.(orderings := s.orderings[a.columnName := a.clusteringOrder][b.columnName := b.clusteringOrder]))
              .statement.orderings[b.columnName] == b.clusteringOrder
  {
  }
}
