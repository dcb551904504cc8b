/**
 * The select builder: it owns one SelectQuery, remembers the fields the caller selected,
 * and turns the session's result set into records, with `null` result sets mapped to
 * `null` or to an empty list.
 */
module SelectImpl {
  import opened Wrappers
  import opened Lang
  import opened Clauses
  import opened QueryHelper
  import opened Metadata
  import opened SelectQuery

  /** A record: the row it was read from (`null` when there was none) and the selected fields it is read with. */
  datatype Record = Record(row: Option<Row>, fields: Option<seq<SelectableField>>)

  /** One page of records and the paging state of the next page. */
  datatype PageResult = PageResult(records: seq<Record>, nextPagingState: Option<PagingState>)

  /** `resultSet.one()`: the first row, or `null` when there is none. */
  function FirstRow(rows: seq<Row>): (r: Option<Row>)
    ensures r.None? <==> |rows| == 0
    ensures r.Some? ==> r.value == rows[0]
  {
    if |rows| == 0 then None else Some(rows[0])
  }

  /** `RecordUtils.resultSetToRecords`: one record per row, in row order, each with the selected fields. */
  function ResultSetToRecords(rs: ResultSet, fields: Option<seq<SelectableField>>): (r: seq<Record>)
    ensures |r| == |rs.rows|
    ensures forall i :: 0 <= i < |rs.rows| ==> r[i] == Record(Some(rs.rows[i]), fields)
  {
    seq(|rs.rows|, i requires 0 <= i < |rs.rows| => Record(Some(rs.rows[i]), fields))
  }

  /** A table's columns as selectable fields, in the order of its column metadata. */
  function ColumnFields(columns: seq<ColumnMetadata>): (r: seq<SelectableField>)
    ensures |r| == |columns| && forall i :: 0 <= i < |columns| ==> r[i] == Column(columns[i])
  {
    seq(|columns|, i requires 0 <= i < |columns| => Column(columns[i]))
  }

  /** Every field of a SelectImpl that changes, with the owned query's state. */
  datatype ImplState = ImplState(selectedFields: Option<seq<SelectableField>>, query: SelectState)

  class SelectImpl {
    const session: Session
    const selectQuery: SelectQuery
    var selectedFields: Option<seq<SelectableField>>

    function State(): ImplState
      reads this, selectQuery
    {
      ImplState(selectedFields, selectQuery.State())
    }

    /** A builder over `session` with a fresh query and no selected fields. */
    constructor (session: Session)
      ensures this.session == session && fresh(selectQuery)
      ensures State() == ImplState(None, Initial)
    {
      this.session := session;
      this.selectQuery := new SelectQuery();
      selectedFields := None;
    }

    /**
     * `select(fields...)`: the selected fields become exactly `fields`, then the fields are
     * forwarded to the query as selectors; what the query throws is passed on.
     */
    method Select(fields: seq<SelectableField>) returns (r: Outcome<JavaException>)
      modifies this, selectQuery
      ensures selectedFields == Some(fields)
      ensures r.Fail? <==> AddSelectors(old(selectQuery.selectors), FieldSelectors(fields)).Failure?
      ensures r.Fail? ==> r.error == UnsupportedOperationException && selectQuery.State() == old(selectQuery.State())
      ensures r.Pass? ==>
        selectQuery.State() == old(selectQuery.State()).(selectors := AddSelectors(old(selectQuery.selectors), FieldSelectors(fields)).value)
    {
      selectedFields := Some(fields);
      r := selectQuery.SetFieldSelectors(fields);
    }

    /**
     * `selectFrom(table)`: the selected fields become all of the table's columns, and the query
     * selects all from that table.
     */
    method SelectFrom(tableMetadata: TableMetadata)
      modifies this, selectQuery
      ensures State() == ImplState(Some(ColumnFields(tableMetadata.columnsMetadata)),
        old(selectQuery.State()).(keyspace := Some(tableMetadata.keyspaceName), table := Some(tableMetadata.tableName),
                                  selectors := SharedSelectAll))
    {
      selectedFields := Some(ColumnFields(tableMetadata.columnsMetadata));
      selectQuery.SetTableAndSelectors(tableMetadata);
    }

    /** `from(table)`: only the keyspace and table. */
    method From(tableMetadata: TableMetadata)
      modifies selectQuery
      ensures State() == old(State()).(query := old(selectQuery.State()).(keyspace := Some(tableMetadata.keyspaceName),
                                                                          table := Some(tableMetadata.tableName)))
    {
      selectQuery.SetTable(tableMetadata);
    }

    /** `where(criteria)`: appends the where clause built from the criteria. */
    method Where(clause: WhereClause)
      modifies selectQuery
      ensures State() == old(State()).(query := old(selectQuery.State()).(whereClauses := old(selectQuery.whereClauses) + [clause]))
    {
      selectQuery.SetWhereClause(clause);
    }

    /** `and(criteria)`: the same as `where`. */
    method And(clause: WhereClause)
      modifies selectQuery
      ensures State() == old(State()).(query := old(selectQuery.State()).(whereClauses := old(selectQuery.whereClauses) + [clause]))
    {
      selectQuery.SetWhereClause(clause);
    }

    method OrderBy(orderExpression: OrderExpression)
      modifies selectQuery
      ensures State() == old(State()).(query := old(selectQuery.State()).(
        orderings := old(selectQuery.orderings)[orderExpression.columnName := orderExpression.clusteringOrder]))
    {
      selectQuery.SetOrdering(orderExpression);
    }

    method Limit(limit: int32)
      modifies selectQuery
      ensures State() == old(State()).(query := old(selectQuery.State()).(limit := Some(limit)))
    {
      selectQuery.SetLimit(limit);
    }

    method AllowFiltering()
      modifies selectQuery
      ensures State() == old(State()).(query := old(selectQuery.State()).(allowFiltering := true))
    {
      selectQuery.EnableFiltering();
    }

    /**
     * `fetchOne()`: the limit is forced to 1, overriding any earlier limit, before executing;
     * a `null` result set gives `null`, otherwise the record of the first row.
     */
    method FetchOne() returns (ghost execution: Execution, record: Option<Record>)
      modifies selectQuery
      ensures State() == old(State()).(query := old(selectQuery.State()).(limit := Some(1)))
      ensures execution == SelectExecution(old(selectQuery.State()).(limit := Some(1)))
      ensures record.None? <==> session(execution).None?
      ensures record.Some? ==> record.value == Record(FirstRow(session(execution).value.rows), selectedFields)
    {
      selectQuery.SetLimit(1);
      var e, resultSet := selectQuery.Execute(session);
      execution := e;
      if resultSet.None? {
        return e, None;
      }
      record := Some(Record(FirstRow(resultSet.value.rows), selectedFields));
    }

    /** `fetch()`: every row as a record, or the empty list for a `null` result set. */
    method Fetch() returns (ghost execution: Execution, records: seq<Record>)
      ensures execution == SelectExecution(selectQuery.State())
      ensures session(execution).None? ==> records == []
      ensures session(execution).Some? ==> records == ResultSetToRecords(session(execution).value, selectedFields)
    {
      var e, resultSet := selectQuery.Execute(session);
      execution := e;
      if resultSet.None? {
        return e, [];
      }
      records := ResultSetToRecords(resultSet.value, selectedFields);
    }

    /**
     * `fetchPage(pageRequest)`: the page request is recorded on the query before executing; a
     * `null` result set gives `null`, otherwise its records and its next paging state.
     */
    method FetchPage(pageRequest: PageRequest) returns (ghost execution: Execution, page: Option<PageResult>)
      modifies selectQuery
      ensures State() == old(State()).(query := old(selectQuery.State()).(pageRequest := Some(pageRequest)))
      ensures execution == SelectExecution(old(selectQuery.State()).(pageRequest := Some(pageRequest)))
      ensures page.None? <==> session(execution).None?
      ensures page.Some? ==> page.value == PageResult(ResultSetToRecords(session(execution).value, selectedFields),
                                                      session(execution).value.nextPagingState)
    {
      selectQuery.SetPageRequest(pageRequest);
      var e, resultSet := selectQuery.Execute(session);
      execution := e;
      if resultSet.None? {
        return e, None;
      }
      var nextPagingState := resultSet.value.nextPagingState;
      var records := ResultSetToRecords(resultSet.value, selectedFields);
      page := Some(PageResult(records, nextPagingState));
    }
  }

  /** A record read by `fetchOne` is the first of the records `fetch` would give for the same result set. */
  lemma FetchOneIsFirstOfFetch(rs: ResultSet, fields: Option<seq<SelectableField>>)
    requires |rs.rows| > 0
    ensures Record(FirstRow(rs.rows), fields) == ResultSetToRecords(rs, fields)[0]
  {
  }
}
