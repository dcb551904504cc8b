/**
 * An assignment on a map column: either an append of serialized entries or a removal of
 * serialized keys. Each constructor fills one of the two and leaves the other `null`.
 */
module AssignmentMapValue {
  import opened Wrappers
  import opened Lang
  import opened SetColumnMetadata

  datatype AssignmentMapValue =
    | AppendEntries(mapColumn: string, operation: AssignmentOperation, appendSerializedValues: map<Value, Value>)
    | RemoveKeys(mapColumn: string, operation: AssignmentOperation, removeSerializedValues: set<Value>)

  /** The constructor taking a map. */
  function FromMap(mapColumn: string, operation: AssignmentOperation, entries: map<Value, Value>): (r: AssignmentMapValue)
    ensures GetMapColumn(r) == mapColumn && GetOperation(r) == operation
    ensures GetAppendSerializedValues(r) == Some(entries) && GetRemoveSerializedValues(r) == None
  {
    AppendEntries(mapColumn, operation, entries)
  }

  /** The constructor taking a set of keys. */
  function FromSet(mapColumn: string, operation: AssignmentOperation, keys: set<Value>): (r: AssignmentMapValue)
    ensures GetMapColumn(r) == mapColumn && GetOperation(r) == operation
    ensures GetAppendSerializedValues(r) == None && GetRemoveSerializedValues(r) == Some(keys)
  {
    RemoveKeys(mapColumn, operation, keys)
  }

  /** `getMapColumn()`: the column, whichever payload the value carries. */
  function GetMapColumn(a: AssignmentMapValue): (r: string)
    ensures r == a.mapColumn
  {
    a.mapColumn
  }

  /** `getOperation()`: the operation, whichever payload the value carries. */
  function GetOperation(a: AssignmentMapValue): (r: AssignmentOperation)
    ensures r == a.operation
  {
    a.operation
  }

  /** `getAppendSerializedValues()`: the map, or `null` for a key-set assignment. */
  function GetAppendSerializedValues(a: AssignmentMapValue): (r: Option<map<Value, Value>>)
    ensures r.Some? <==> a.AppendEntries?
    ensures r.Some? ==> r.value == a.appendSerializedValues
  {
    if a.AppendEntries? then Some(a.appendSerializedValues) else None
  }

  /** `getRemoveSerializedValues()`: the key set, or `null` for a map assignment. */
  function GetRemoveSerializedValues(a: AssignmentMapValue): (r: Option<set<Value>>)
    ensures r.Some? <==> a.RemoveKeys?
    ensures r.Some? ==> r.value == a.removeSerializedValues
  {
    if a.RemoveKeys? then Some(a.removeSerializedValues) else None
  }
}
