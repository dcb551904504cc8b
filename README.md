# Charybdis query core, modelled in Dafny

Charybdis is a Java object mapper for Apache Cassandra. This project models four parts of it:

- **Field classification.** An annotation processor classifies each entity field's Java type as NORMAL, UDT, LIST, SET, MAP or ENUM. It rejects container implementations it does not support and containers with the wrong number of type arguments.
- **IF clauses.** A criteria (field, operator, values) is compiled into a CQL condition plus the values to bind to the condition's `?` markers.
- **Query accumulators.** `UpdateQuery`, `DeleteQuery` and `SelectQuery` are mutable objects that collect clauses, then assemble one statement and a bind-value vector:
  - update: as written, the assignment values one by one, then the whole where array and the whole condition array as two single elements (see "## Findings"); evidently intended, assignment values, then where values, then condition values;
  - delete: where values, then condition values;
  - select: where values only.

  `SelectImpl` is the fluent select builder. It owns a `SelectQuery`, remembers the selected fields, forces `LIMIT 1` for a single fetch, and maps a missing result set to `null` or to an empty list.
- **Small value types.** These are the criteria and assignments a set column builds, the two forms of a map-column assignment, and the `min` aggregation of a field.

How Java maps onto the model:

- **Mutable objects are classes.** Each query class and the select builder is a Dafny `class` whose fields match the Java fields. `State()` takes a snapshot of all fields. Each setter states its whole new state as an update of the old one.
- **Loops stay loops.** The `setSelectors` and `setAssignments` loops are `while` loops with invariants.
- **Exceptions are values.** A thrown exception is returned as a `Failure`/`Fail` value of `Lang.JavaException`.
- **Statements are records.** The DataStax driver's statements are modelled as records of the pieces a query includes.
- **Sessions are functions.** A session is a function from an execution request to an optional result set.

Files, by module:

- `lang.dfy`: `Wrappers` (Option, Result, Outcome) and `Lang` (fixed-width integers, `Instant.toEpochMilli`, bind values, exceptions).
- `clauses.dfy`: `Criteria` and `Clauses` (terms, conditions, relations, assignments, and the where and assignment clauses).
- `query_helper.dfy`: `QueryHelper`, the bind-value and clause extraction the queries share.
- `metadata.dfy`: `Metadata` (tables, columns, selectable fields, selectors).
- The remaining files hold one core class each: `field_type_parser.dfy`, `condition_clause.dfy`, `update_query.dfy`, `delete_query.dfy`, `select_query.dfy`, `select_impl.dfy`, `set_column_metadata.dfy`, `assignment_map_value.dfy` and `min_aggregation_field.dfy`.

## Model

| member | source | states |
|---|---|---|
| Lang.ToEpochMilli | core/src/main/java/ma/markware/charybdis/query/UpdateQuery.java:61-63 | `Instant.toEpochMilli` succeeds exactly when the signed millisecond count fits in a `long`, and then returns that count. Otherwise it throws ArithmeticException. |
| Lang.MultiplyExact | core/src/main/java/ma/markware/charybdis/query/DeleteQuery.java:97-99 | `Math.multiplyExact` (used by `toEpochMilli`): succeeds exactly when the product fits in a `long`, and is then the product. |
| Lang.NatToString | apt/src/main/java/ma/markware/charybdis/apt/parser/FieldTypeParser.java:81 | `%d` renders a non-empty string of decimal digits, with no leading zero, that denotes exactly the number. |
| Lang.AddExact | core/src/main/java/ma/markware/charybdis/query/DeleteQuery.java:97-99 | `Math.addExact` (used by `toEpochMilli`): succeeds exactly when the sum fits in a `long`, and is then the sum. |
| FieldTypeParser.ParseFieldType | apt/src/main/java/ma/markware/charybdis/apt/parser/FieldTypeParser.java:33-70 | A registered UDT is UDT whatever its interfaces. Each container kind is given exactly when it is the first of List, Set, Map to match and its name and arity are accepted. ENUM is given exactly when no container matched and the superclass is `java.lang.Enum`. NORMAL covers the rest. The only failures are rejected containers, and each carries that container's error. |
| FieldTypeParser.MatchedContainer | apt/src/main/java/ma/markware/charybdis/apt/parser/FieldTypeParser.java:47-58 | Which container check fires, one if-and-only-if per container: List first, Set only if List does not match, Map only if neither does. |
| FieldTypeParser.GenericType | apt/src/main/java/ma/markware/charybdis/apt/parser/FieldTypeParser.java:97-100 | The result is the prefix before the first `<`. It contains no `<`, and it is the whole string when there is none. |
| FieldTypeParser.IndexOf | apt/src/main/java/ma/markware/charybdis/apt/parser/FieldTypeParser.java:98 | `indexOf` is -1 exactly when the character is absent; otherwise it is a position holding the character with no earlier occurrence. |
| FieldTypeParser.IsTypeMatch | apt/src/main/java/ma/markware/charybdis/apt/parser/FieldTypeParser.java:85-87 | A type named after the container always matches. A match that is not by name comes from an interface that starts with the container name, which has no `<`. Without interfaces only the name can match. |
| FieldTypeParser.Join | apt/src/main/java/ma/markware/charybdis/apt/parser/FieldTypeParser.java:75 | `StringUtils.join` gives the empty string for no names and the one name for a single name; otherwise it starts with the first name and ends with the last. |
| FieldTypeParser.ValidateSupportedTypes | apt/src/main/java/ma/markware/charybdis/apt/parser/FieldTypeParser.java:72-77 | Passes exactly when the name is supported. Otherwise it fails with the "is not supported, try using" message. |
| FieldTypeParser.ValidateParameterTypes | apt/src/main/java/ma/markware/charybdis/apt/parser/FieldTypeParser.java:79-83 | Passes exactly when the number of type arguments is the expected one. Otherwise it fails with the "should have 'n' parameter type(s)" message. |
| FieldTypeParser.UnsupportedNameBeforeArity | apt/src/main/java/ma/markware/charybdis/apt/parser/FieldTypeParser.java:47-57 | When a matched container has both a wrong name and a wrong arity, the name error is the one reported. |
| FieldTypeParser.GenericTypeOfParameterized | apt/src/main/java/ma/markware/charybdis/apt/parser/FieldTypeParser.java:93-100 | The `toString` of a parameterised interface, `raw<args>`, maps back to `raw`. |
| FieldTypeParser.IndexOfAfterPrefix | apt/src/main/java/ma/markware/charybdis/apt/parser/FieldTypeParser.java:98 | `indexOf` finds the first occurrence right after a prefix that does not contain the character. |
| FieldTypeParser.RawListRejected | apt/src/main/java/ma/markware/charybdis/apt/parser/FieldTypeParser.java:47-83 | A raw `java.util.List` with no type argument is rejected with the message "should have '1' parameter type(s)". |
| FieldTypeParser.ListImplementationRefused | apt/src/main/java/ma/markware/charybdis/apt/parser/FieldTypeParser.java:47-87 | Any class other than `java.util.List` that directly implements `java.util.List<...>` is matched as a list. It is then refused with the message pointing at `java.util.List`. |
| FieldTypeParser.ArrayListMatchesList | apt/src/main/java/ma/markware/charybdis/apt/parser/FieldTypeParser.java:47-87 | `java.util.ArrayList` matches List through its `java.util.List<E>` interface, and is then refused by name. |
| ConditionClause.From | core/src/main/java/ma/markware/charybdis/query/clause/ConditionClause.java:26-53 | Succeeds exactly for a comparison with at least one value, or for IN. A comparison binds its first value to one marker. An empty comparison throws index 0 out of bounds. IN with values binds them all behind one marker each. IN with none emits a raw empty term and a `null` list. The condition's column is the criteria's field, and the bind count equals the marker count. Every other operator is refused with the "is not supported in [IF] clause" message. |
| ConditionClause.EmptyInDistinct | core/src/main/java/ma/markware/charybdis/query/clause/ConditionClause.java:42-49 | An empty IN differs from a one-value IN in both its condition and its `null` bind list. |
| ConditionClause.ContainsRefused | core/src/main/java/ma/markware/charybdis/query/clause/ConditionClause.java:50-51 | CONTAINS is refused, and the message names the operator. |
| ConditionClause.ComparisonSymbol | core/src/main/java/ma/markware/charybdis/query/clause/ConditionClause.java:30-41 | `=`, `>` and `<` are the one-character symbols; `!=`, `>=` and `<=` are the two-character ones, each ending in `=`. |
| ConditionClause.ComparisonSymbolInjective | core/src/main/java/ma/markware/charybdis/query/clause/ConditionClause.java:30-41 | Distinct comparison operators compile to distinct CQL symbols. |
| Clauses.MarkersCount | core/src/main/java/ma/markware/charybdis/query/clause/ConditionClause.java:44-46 | A tuple of `n` filled markers holds `n` markers. |
| QueryHelper.FlattenAppend | core/src/main/java/ma/markware/charybdis/query/DeleteQuery.java:133-136 | Concatenating per-clause bind lists distributes over appending clause lists. |
| QueryHelper.FlattenAt | core/src/main/java/ma/markware/charybdis/query/DeleteQuery.java:133-136 | Value `j` of clause `i` sits at the total length of the earlier clauses' lists plus `j`. |
| QueryHelper.WhereBindValuesAppend | core/src/main/java/ma/markware/charybdis/query/SelectQuery.java:53-96 | Appending a where clause appends exactly its values to the where bind values. |
| QueryHelper.AssignmentBindValuesAppend | core/src/main/java/ma/markware/charybdis/query/UpdateQuery.java:39-98 | Appending an assignment clause appends exactly its values to the assignment bind values. |
| QueryHelper.ConditionBindValuesAppend | core/src/main/java/ma/markware/charybdis/query/DeleteQuery.java:109-136 | Appending a condition clause appends exactly its values (none for a `null` list). |
| QueryHelper.ConditionBindsMatchMarkers | core/src/main/java/ma/markware/charybdis/query/DeleteQuery.java:130-134 | When every condition binds as many values as it has markers, the condition bind vector is as long as the markers in the IF part. |
| QueryHelper.ExtractRelations | core/src/main/java/ma/markware/charybdis/query/DeleteQuery.java:128 | One relation per where clause, in clause order. |
| QueryHelper.ExtractConditions | core/src/main/java/ma/markware/charybdis/query/DeleteQuery.java:130 | One condition per condition clause, in clause order. |
| QueryHelper.ExtractAssignments | core/src/main/java/ma/markware/charybdis/query/UpdateQuery.java:85 | One assignment per assignment clause, in clause order. |
| QueryHelper.ExtractWhereBindValues | core/src/main/java/ma/markware/charybdis/query/SelectQuery.java:96 | The where values in clause order: none without clauses, and the first clause's values open the vector. |
| QueryHelper.ExtractAssignmentBindValues | core/src/main/java/ma/markware/charybdis/query/UpdateQuery.java:96 | The assignment values in clause order: none without clauses, and the first clause's values open the vector. |
| QueryHelper.ExtractConditionBindValues | core/src/main/java/ma/markware/charybdis/query/UpdateQuery.java:98 | The condition values in clause order: none without clauses, and the first clause's list opens the vector (a `null` list adds nothing). |
| UpdateQuery.IfParts | core/src/main/java/ma/markware/charybdis/query/UpdateQuery.java:89-93 | IF EXISTS comes first when enabled, then one condition per condition clause in call order. |
| UpdateQuery.UpdateQuery.constructor | core/src/main/java/ma/markware/charybdis/query/UpdateQuery.java:25-32 | A fresh query has empty clause lists, no ttl or timestamp, and IF EXISTS off. |
| UpdateQuery.UpdateQuery.SetTable | core/src/main/java/ma/markware/charybdis/query/UpdateQuery.java:34-37 | Records the keyspace and table. Nothing else changes. |
| UpdateQuery.UpdateQuery.SetAssignment | core/src/main/java/ma/markware/charybdis/query/UpdateQuery.java:39-41 | Appends one assignment clause, whose values land at the end of the assignment part of the bind vector. |
| UpdateQuery.UpdateQuery.SetAssignments | core/src/main/java/ma/markware/charybdis/query/UpdateQuery.java:43-47 | Appends one clause per map entry, each key exactly once, in some iteration order. |
| UpdateQuery.EntryClauses | core/src/main/java/ma/markware/charybdis/query/UpdateQuery.java:43-47 | One clause per visited key, at the key's position, built from the key and its map value. |
| UpdateQuery.UpdateQuery.SetWhere | core/src/main/java/ma/markware/charybdis/query/UpdateQuery.java:49-51 | Appends one where clause, in call order. |
| UpdateQuery.UpdateQuery.SetIf | core/src/main/java/ma/markware/charybdis/query/UpdateQuery.java:53-55 | Appends the compiled condition, or passes on what `ConditionClause.from` throws and changes nothing. |
| UpdateQuery.UpdateQuery.SetTtl | core/src/main/java/ma/markware/charybdis/query/UpdateQuery.java:57-59 | Stores the ttl. |
| UpdateQuery.UpdateQuery.SetTimestampInstant | core/src/main/java/ma/markware/charybdis/query/UpdateQuery.java:61-63 | Stores the epoch milliseconds, or fails on overflow and changes nothing. |
| UpdateQuery.UpdateQuery.SetTimestamp | core/src/main/java/ma/markware/charybdis/query/UpdateQuery.java:65-67 | Stores the value exactly as given. |
| UpdateQuery.UpdateQuery.EnableIfExists | core/src/main/java/ma/markware/charybdis/query/UpdateQuery.java:69-71 | Turns IF EXISTS on. |
| UpdateQuery.UpdateQuery.Execute | core/src/main/java/ma/markware/charybdis/query/UpdateQuery.java:73-98 | USING TTL appears only when a ttl is set, and USING TIMESTAMP only when a timestamp is set. Assignments, relations and IF parts follow clause order. The bind vector is the one `ArrayUtils.addAll` builds as written: the assignment values one by one, then the where array and the condition array as two single elements. |
| UpdateQuery.UpdateBindValuesAsWritten | core/src/main/java/ma/markware/charybdis/query/UpdateQuery.java:96-98 | The vector `execute` builds is two longer than the assignment values; its last two elements are the where array and the condition array. |
| UpdateQuery.UpdateBindValues | core/src/main/java/ma/markware/charybdis/query/UpdateQuery.java:96-98 | The intended flat vector: as long as all assignment, where and condition values together, opened by the assignment values. |
| UpdateQuery.WhereValuePosition | core/src/main/java/ma/markware/charybdis/query/UpdateQuery.java:96-98 | In the intended flat vector, a where value comes after all assignment values and after the earlier where values. |
| UpdateQuery.AssignmentValuePosition | core/src/main/java/ma/markware/charybdis/query/UpdateQuery.java:96 | An assignment value comes after the earlier assignments' values; as written and as intended the assignment values open the vector one by one. |
| UpdateQuery.ConditionValuePosition | core/src/main/java/ma/markware/charybdis/query/UpdateQuery.java:96-98 | In the intended flat vector, a condition value comes after every assignment and where value. |
| UpdateQuery.BindOrderExample | core/src/main/java/ma/markware/charybdis/query/UpdateQuery.java:96-98 | Two assignments, one where clause and one EQ condition give the intended bind vector `[1, 2, 3, 4]`. |
| UpdateQuery.AsWrittenBindOrderExample | core/src/main/java/ma/markware/charybdis/query/UpdateQuery.java:96-98 | On the same clauses, the vector `execute` builds is `[1, 2, [3], [4]]`, which is not the intended one. |
| UpdateQuery.AsWrittenIsNeverIntended | core/src/main/java/ma/markware/charybdis/query/UpdateQuery.java:96-98 | For every query, the vector `execute` builds is exactly two longer than its assignment part, agrees with the intended vector on that part, and is never the intended vector. |
| DeleteQuery.DeleteQuery.constructor | core/src/main/java/ma/markware/charybdis/query/DeleteQuery.java:48-59 | A fresh query has empty selector, where and condition lists, and no timestamp. |
| DeleteQuery.DeleteQuery.SetTable | core/src/main/java/ma/markware/charybdis/query/DeleteQuery.java:85-89 | Records the keyspace and table, and makes the table's write consistency the default. |
| DeleteQuery.DeleteQuery.SetSelectors | core/src/main/java/ma/markware/charybdis/query/DeleteQuery.java:91-95 | Appends one deletable selector per field, in argument order. |
| DeleteQuery.DeleteQuery.SetTimestampInstant | core/src/main/java/ma/markware/charybdis/query/DeleteQuery.java:97-99 | Stores the epoch milliseconds, or fails on overflow and changes nothing. |
| DeleteQuery.DeleteQuery.SetTimestamp | core/src/main/java/ma/markware/charybdis/query/DeleteQuery.java:101-103 | Stores the value exactly as given. |
| DeleteQuery.DeleteQuery.SetWhere | core/src/main/java/ma/markware/charybdis/query/DeleteQuery.java:105-107 | Appends one where clause, and its values land right after the earlier where values. |
| DeleteQuery.DeleteQuery.SetIf | core/src/main/java/ma/markware/charybdis/query/DeleteQuery.java:109-111 | Appends the compiled condition, so its values extend the bind vector. Otherwise passes on what `ConditionClause.from` throws and changes nothing. |
| DeleteQuery.DeleteQuery.BuildStatement | core/src/main/java/ma/markware/charybdis/query/DeleteQuery.java:117-137 | Column selectors appear exactly when the list is non-empty, and USING TIMESTAMP exactly when a timestamp is set. Relations and conditions follow clause order. The bind vector is where values followed by condition values. |
| DeleteQuery.DeletableSelectors | core/src/main/java/ma/markware/charybdis/query/DeleteQuery.java:91-95 | One deletable selector per field, at the same index. |
| DeleteQuery.DeleteBindValues | core/src/main/java/ma/markware/charybdis/query/DeleteQuery.java:133-136 | The delete vector is the where values, followed by exactly the condition values. |
| DeleteQuery.WhereValuePosition | core/src/main/java/ma/markware/charybdis/query/DeleteQuery.java:133-136 | A where value's position depends only on the earlier where clauses. |
| DeleteQuery.ConditionValuePosition | core/src/main/java/ma/markware/charybdis/query/DeleteQuery.java:133-136 | A condition value comes after every where value and after the earlier conditions' values. |
| SelectQuery.Items | core/src/main/java/ma/markware/charybdis/query/SelectQuery.java:26-30 | The shared SELECT_ALL list holds just the `*` selector. An own list holds its items. |
| SelectQuery.AddSelectors | core/src/main/java/ma/markware/charybdis/query/SelectQuery.java:26-51 | Adding to the shared immutable list fails with UnsupportedOperationException exactly when something is added. Otherwise the items grow by exactly the added selectors. |
| SelectQuery.ColumnSelectors | core/src/main/java/ma/markware/charybdis/query/SelectQuery.java:47-51 | One `Selector.column(name)` per column, at the same index. |
| SelectQuery.FieldSelectors | core/src/main/java/ma/markware/charybdis/dsl/select/SelectImpl.java:64-68 | One selector per selected field, at the field's position. |
| SelectQuery.SelectQuery.constructor | core/src/main/java/ma/markware/charybdis/query/SelectQuery.java:28-35 | A fresh query has an own empty selector list, no where clauses, no orderings, no limit, no filtering and no page request. |
| SelectQuery.SelectQuery.SetTable | core/src/main/java/ma/markware/charybdis/query/SelectQuery.java:37-40 | Records the keyspace and table. |
| SelectQuery.SelectQuery.SetTableAndSelectors | core/src/main/java/ma/markware/charybdis/query/SelectQuery.java:42-45 | Records the keyspace and table, and replaces the selectors with the shared SELECT_ALL list. |
| SelectQuery.SelectQuery.SetSelectors | core/src/main/java/ma/markware/charybdis/query/SelectQuery.java:47-51 | Appends one column selector per column, in argument order. On the shared SELECT_ALL list, the first add throws and nothing changes. |
| SelectQuery.SelectQuery.SetFieldSelectors | core/src/main/java/ma/markware/charybdis/dsl/select/SelectImpl.java:66 | The selectable-field overload the builder calls: one selector per field, added the same way. |
| SelectQuery.SelectQuery.SetWhereClause | core/src/main/java/ma/markware/charybdis/query/SelectQuery.java:53-55 | Appends exactly one where clause, in call order, and its values extend the where values. |
| SelectQuery.SelectQuery.SetOrdering | core/src/main/java/ma/markware/charybdis/query/SelectQuery.java:57-59 | Puts the column's order into the orderings map. Nothing else changes. |
| SelectQuery.SelectQuery.SetLimit | core/src/main/java/ma/markware/charybdis/query/SelectQuery.java:61-63 | Stores the limit. |
| SelectQuery.SelectQuery.EnableFiltering | core/src/main/java/ma/markware/charybdis/query/SelectQuery.java:65-67 | Turns ALLOW FILTERING on. |
| SelectQuery.SelectQuery.SetPageRequest | core/src/main/java/ma/markware/charybdis/query/SelectQuery.java:69-71 | Stores the page request. |
| SelectQuery.SelectExecution | core/src/main/java/ma/markware/charybdis/query/SelectQuery.java:73-101 | Selects all exactly when the selectors equal SELECT_ALL, and otherwise uses the explicit selectors. Relations follow clause order, the orderings are the query's. LIMIT and ALLOW FILTERING are as set. The bind values are exactly the where values. The page request is passed exactly when one is set. |
| SelectQuery.SelectQuery.Execute | core/src/main/java/ma/markware/charybdis/query/SelectQuery.java:73-101 | The execution is the one `SelectExecution` gives for the query's current state, and the result is the session's answer to it. |
| SelectQuery.OwnListNeverSelectAll | core/src/main/java/ma/markware/charybdis/query/SelectQuery.java:47-82 | Column and field selectors never form the SELECT_ALL list, so explicit selection is never mistaken for select-all. |
| SelectQuery.SelectAllIsFrozen | core/src/main/java/ma/markware/charybdis/query/SelectQuery.java:42-51 | After `setTableAndSelectors`, adding any column fails. Adding none keeps select-all. |
| SelectQuery.LaterOrderingWins | core/src/main/java/ma/markware/charybdis/query/SelectQuery.java:57-59 | Two orderings on the same column execute as if only the later had been given, and the statement orders that column by the later direction. |
| SelectImpl.SelectImpl.constructor | core/src/main/java/ma/markware/charybdis/dsl/select/SelectImpl.java:52-55 | Keeps the session, and owns a fresh query with no selected fields. |
| SelectImpl.SelectImpl.Select | core/src/main/java/ma/markware/charybdis/dsl/select/SelectImpl.java:64-68 | The selected fields become exactly the given fields, and they are forwarded to the query as selectors. |
| SelectImpl.SelectImpl.SelectFrom | core/src/main/java/ma/markware/charybdis/dsl/select/SelectImpl.java:82-86 | The selected fields become all of the table's columns, and the query selects all from that table. |
| SelectImpl.SelectImpl.From | core/src/main/java/ma/markware/charybdis/dsl/select/SelectImpl.java:92-95 | Sets only the query's keyspace and table. |
| SelectImpl.SelectImpl.Where | core/src/main/java/ma/markware/charybdis/dsl/select/SelectImpl.java:101-104 | Appends one where clause. |
| SelectImpl.SelectImpl.And | core/src/main/java/ma/markware/charybdis/dsl/select/SelectImpl.java:110-113 | Has the same effect as `where`. |
| SelectImpl.SelectImpl.OrderBy | core/src/main/java/ma/markware/charybdis/dsl/select/SelectImpl.java:119-122 | Puts the ordering into the query. |
| SelectImpl.SelectImpl.Limit | core/src/main/java/ma/markware/charybdis/dsl/select/SelectImpl.java:128-131 | Sets the query's limit. |
| SelectImpl.SelectImpl.AllowFiltering | core/src/main/java/ma/markware/charybdis/dsl/select/SelectImpl.java:137-140 | Enables filtering on the query. |
| SelectImpl.SelectImpl.FetchOne | core/src/main/java/ma/markware/charybdis/dsl/select/SelectImpl.java:146-153 | Forces the limit to 1 before executing, overriding any earlier limit, and executes exactly the query so built. A `null` result set gives `null`. Otherwise the result is the record of the first row. |
| SelectImpl.SelectImpl.Fetch | core/src/main/java/ma/markware/charybdis/dsl/select/SelectImpl.java:167-173 | Executes exactly the query built so far. A `null` result set gives the empty list. Otherwise the result is one record per row, in order. |
| SelectImpl.SelectImpl.FetchPage | core/src/main/java/ma/markware/charybdis/dsl/select/SelectImpl.java:179-188 | Records the page request before executing, and executes exactly the query so built. A `null` result set gives `null`. Otherwise the result is the records and the next paging state. |
| SelectImpl.FirstRow | core/src/main/java/ma/markware/charybdis/dsl/select/SelectImpl.java:152 | `resultSet.one()` is `null` exactly when there are no rows, and is otherwise the first row. |
| SelectImpl.ResultSetToRecords | core/src/main/java/ma/markware/charybdis/dsl/select/SelectImpl.java:167-188 | One record per row in row order, each carrying the selected fields. |
| SelectImpl.ColumnFields | core/src/main/java/ma/markware/charybdis/dsl/select/SelectImpl.java:83 | One selected field per column of the table, in order. |
| SelectImpl.FetchOneIsFirstOfFetch | core/src/main/java/ma/markware/charybdis/dsl/select/SelectImpl.java:146-173 | For the same result set, the record `fetchOne` builds is the first record `fetch` builds. |
| SetColumnMetadata.Contains | model/src/main/java/ma/markware/charybdis/model/field/metadata/SetColumnMetadata.java:13-15 | A CONTAINS criteria on this column with the one value. |
| SetColumnMetadata.CollectToSet | model/src/main/java/ma/markware/charybdis/model/field/metadata/SetColumnMetadata.java:17-35 | The collected set holds exactly the values passed. |
| SetColumnMetadata.Append | model/src/main/java/ma/markware/charybdis/model/field/metadata/SetColumnMetadata.java:21-23 | An APPEND on this column, carrying the serialized set. |
| SetColumnMetadata.Prepend | model/src/main/java/ma/markware/charybdis/model/field/metadata/SetColumnMetadata.java:29-31 | A PREPEND on this column, carrying the serialized set. |
| SetColumnMetadata.Remove | model/src/main/java/ma/markware/charybdis/model/field/metadata/SetColumnMetadata.java:37-39 | A REMOVE on this column, carrying the set as given, not serialized. |
| SetColumnMetadata.AppendValues | model/src/main/java/ma/markware/charybdis/model/field/metadata/SetColumnMetadata.java:17-19 | `append(T...)`: an APPEND on the column carrying the serialized set of the values passed. |
| SetColumnMetadata.PrependValues | model/src/main/java/ma/markware/charybdis/model/field/metadata/SetColumnMetadata.java:25-27 | `prepend(T...)`: a PREPEND on the column carrying the serialized set of the values passed. |
| SetColumnMetadata.RemoveValues | model/src/main/java/ma/markware/charybdis/model/field/metadata/SetColumnMetadata.java:33-35 | `remove(T...)`: a REMOVE on the column whose set holds exactly the values passed, unserialized. |
| SetColumnMetadata.VarargsIgnoreOrderAndDuplicates | model/src/main/java/ma/markware/charybdis/model/field/metadata/SetColumnMetadata.java:17-35 | The varargs forms depend only on which values are passed, not on their order or repetition. |
| SetColumnMetadata.CollectDropsDuplicates | model/src/main/java/ma/markware/charybdis/model/field/metadata/SetColumnMetadata.java:17-35 | The set the varargs forms collect is never larger than the values passed, and exactly as large when the values are pairwise distinct. |
| SetColumnMetadata.RemoveIsNotSerialized | model/src/main/java/ma/markware/charybdis/model/field/metadata/SetColumnMetadata.java:21-39 | With a serialization that changes the set, the value carried by REMOVE differs from the one carried by APPEND and PREPEND. |
| AssignmentMapValue.FromMap | model/src/main/java/ma/markware/charybdis/model/assignment/AssignmentMapValue.java:32-37 | The map constructor: the getters return the column, the operation and the map, and the removed-keys getter returns `null`. |
| AssignmentMapValue.FromSet | model/src/main/java/ma/markware/charybdis/model/assignment/AssignmentMapValue.java:39-44 | The key-set constructor: the getters return the column, the operation and the keys, and the appended-map getter returns `null`. |
| AssignmentMapValue.GetMapColumn | model/src/main/java/ma/markware/charybdis/model/assignment/AssignmentMapValue.java:46-48 | The column the value was built for, whichever payload it carries. |
| AssignmentMapValue.GetOperation | model/src/main/java/ma/markware/charybdis/model/assignment/AssignmentMapValue.java:50-52 | The operation the value was built with, whichever payload it carries. |
| AssignmentMapValue.GetAppendSerializedValues | model/src/main/java/ma/markware/charybdis/model/assignment/AssignmentMapValue.java:54-56 | The entry map exactly when the value was built from a map, and `null` otherwise; so exactly one payload getter is non-null. |
| AssignmentMapValue.GetRemoveSerializedValues | model/src/main/java/ma/markware/charybdis/model/assignment/AssignmentMapValue.java:58-60 | The key set exactly when the value was built from a set, and `null` otherwise. |
| MinAggregationField.QuoteString | model/src/main/java/ma/markware/charybdis/model/field/aggregation/MinAggregationField.java:75 | Wraps the name in double quotes and keeps it intact between them. |
| MinAggregationField.Name | model/src/main/java/ma/markware/charybdis/model/field/aggregation/MinAggregationField.java:60-63 | The name of a `min` field is `min_` followed by its inner field's name, so each level adds four characters and the name is never the inner field's name. |
| MinAggregationField.FieldClass | model/src/main/java/ma/markware/charybdis/model/field/aggregation/MinAggregationField.java:52-55 | A `min` field has the class of the field it aggregates. |
| MinAggregationField.ResolveAlias | model/src/main/java/ma/markware/charybdis/model/field/aggregation/MinAggregationField.java:74-76 | The alias is the quoted `min_` name. |
| MinAggregationField.ToSelector | model/src/main/java/ma/markware/charybdis/model/field/aggregation/MinAggregationField.java:68-72 | `min` over the inner selector, which is requested without an alias. With `useAlias` it is the unaliased selector with the quoted name as alias around it; without it there is no alias. |
| MinAggregationField.Deserialize | model/src/main/java/ma/markware/charybdis/model/field/aggregation/MinAggregationField.java:44-47 | Reads the column with the quoted `min_` name and the inner field's class. |
| MinAggregationField.AliasIsDeserializedColumn | model/src/main/java/ma/markware/charybdis/model/field/aggregation/MinAggregationField.java:45-76 | The selector's alias is exactly the column name that deserialization reads. |
| MinAggregationField.MinOfColumnExample | model/src/test/java/ma/markware/charybdis/model/field/aggregation/MinAggregationFieldTest.java:72-82 | `min` over a `Double` column named `column` is named `min_column`, has class `Double`, and reads `"min_column"`. |

## Left out

- **Driver query text.** The DataStax query builder, `SimpleStatement`, `Selector`, `Condition`, `BindMarker` and CQL rendering are not modelled. Statements are records of the pieces a query includes.
- **Unseen builders.** `WhereClause.from` and `AssignmentClause.from` are not part of this model. The setters take the clause those builders would produce, and `setAssignments` takes the builder as a parameter.
- **Bind extraction.** The source of `QueryHelper.extract*` is not part of this model. Extraction is modelled as concatenating each clause's bind list in clause order.
- **Null IN lists.** How extraction treats the `null` bind list of an empty IN is not visible. The model assumes such a list contributes no values.
- **IF EXISTS with conditions.** `UpdateQuery.UpdateQuery.Execute` lists IF EXISTS before the explicit conditions. How the driver combines `ifExists()` with a later `if_(...)` is not modelled.
- **Sessions, result sets and records.** Running a statement, `ResultSet` paging, paging-state buffers and `RecordUtils` are I/O and are left out. A session is a function from the execution request to an optional result set. A record is the row it is read from plus the selected fields. `RecordUtils.rowToRecord` is assumed never to return `null`: `fetchOne` on a result set with no rows gives a record over a `null` row, not `null`. `UpdateQuery.UpdateQuery.Execute` returns the statement and bind vector it would hand to the session.
- **SetFieldSelectors.** The `SelectQuery.setSelectors(SelectableField...)` overload that `SelectImpl.select` calls is not in `SelectQuery.java`. `SelectQuery.SelectQuery.SetFieldSelectors` assumes it appends one selector per field, the way the column overload does. Each selector is recorded as the field it was built from.
- **selectDistinct and fetchOptional.** `selectDistinct` calls `setSelectDistinct`, which does not exist in the query class, so it is left out. `fetchOptional` only wraps `fetchOne` and is left out.
- **Return type of `QueryHelper.extract*`.** The visible sources disagree on whether these return `Object[]` or a `Stream`. `DeleteQuery.DeleteQuery.BuildStatement` takes the flat reading of `DeleteQuery.java:133-136`: the where values, then the condition values.
- **Execution context.** The delete query's execution context is reduced to the default consistency level that `setTable` sets. Its other settings, and the constructor taking an existing context, are left out.
- **HashMap order.** The order in which `setAssignments` visits the map, and in which orderings are rendered, is left unspecified. `SetAssignments` proves that every key is visited exactly once in some order.
- **Compiler types.** The javac types (`TypeMirror`, `ClassSymbol`, `Types.erasure`) are reduced to what the classifier reads: the erased name, the interfaces' `toString`, the superclass's erased name, the number of type arguments, and whether the type is declared. The UDT registry is a set of names.
- MinAggregationField.QuoteString: only wraps the name in double quotes. Any escaping of embedded quotes that `StringUtils.quoteString` might perform is not modelled, because its source is not part of this model.
- **Column serialization.** Serializing values for a column is a parameter of the set column and is not modelled. Value conversion for the other collection types is also left out.

## Findings

| source | as written | input that shows it | evidently intended | confidence | as-written member | corrected member |
|---|---|---|---|---|---|---|
| core/src/main/java/ma/markware/charybdis/query/UpdateQuery.java:96-98 | `ArrayUtils.addAll(assignmentValues, whereValues, conditionValues)` matches only `addAll(T[] array1, T... array2)` with `T = Object`, so the where and condition arrays become two single elements of the bind vector | assignments `A = 1`, `B = 2`, `where C = 3`, `if D = 4`: the session receives `[1, 2, [3], [4]]` | the flat vector `[1, 2, 3, 4]`, as `DeleteQuery` builds with `flatMap` | not executed; follows from Java's overload and variable-arity rules, taking `QueryHelper.extract*` to return `Object[]` as `SelectQuery.java:96` and the first argument of `addAll` require; `DeleteQuery.java:133-135` streams their results with `flatMap`, which fits a `Stream` return type instead, so the visible sources disagree about that type | UpdateQuery.UpdateBindValuesAsWritten | UpdateQuery.UpdateBindValues |

`UpdateQuery.UpdateQuery.Execute` returns the vector as written; `UpdateQuery.AsWrittenBindOrderExample` and `UpdateQuery.AsWrittenIsNeverIntended` exhibit the discrepancy. The setters' bind-vector clauses and the position lemmas are stated about the intended `UpdateQuery.UpdateBindValues`.
