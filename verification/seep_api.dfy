/**
 * Value types shared by the master and the worker: data references, end
 * points, logical operators and queries, schedules. Only the parts the
 * control layer reads are kept; payloads the runtime never inspects are
 * opaque tags.
 */
module SeepApi {
  import opened Wrappers
  import opened DataStoreTypes

  datatype Schema = Schema(fields: seq<string>)

  /** A concrete data store: its kind, the schema of its tuples and its configuration. */
  datatype DataStore = DataStore(storeType: DataStoreType, schema: Schema, config: map<string, string>)

  datatype DataReference = DataReference(id: int, dataStore: DataStore)

  /** Network identity of an execution unit. */
  datatype EndPoint = EndPoint(id: int, ip: string, port: int)

  /** A leasable worker slot of the master's pool. */
  datatype ExecutionUnit = ExecutionUnit(endPoint: EndPoint)

  /** A buffer of data received for one upstream connection. */
  datatype InputBuffer = InputBuffer(id: int)

  /**
   * Fan-in topology of an upstream stream. The two constants the adapter
   * factory tests for are named; any other constant is `OtherConnectionType`.
   */
  datatype ConnectionType = ONE_AT_A_TIME | UPSTREAM_SYNC_BARRIER | OtherConnectionType(code: int)

  /** A connection to a downstream operator on one stream, with the data origin that operator expects. */
  datatype DownstreamConnection = DownstreamConnection(
    streamId: int,
    downstreamOpId: int,
    expectedType: DataStoreType,
    expectedOrigin: DataStore)

  /**
   * User task logic and state are opaque to the runtime; `acceptsState`
   * records whether the task implements `StatefulSeepTask`.
   */
  datatype SeepTask = SeepTask(name: string, acceptsState: bool)
  datatype SeepState = SeepState(content: seq<int>)

  datatype LogicalOperator = LogicalOperator(
    id: int,
    name: string,
    stateful: bool,
    state: Option<SeepState>,
    task: SeepTask,
    downstream: seq<DownstreamConnection>)

  datatype SeepLogicalQuery = SeepLogicalQuery(operators: seq<LogicalOperator>)

  /** The ids of a sequence of operators. */
  function OperatorIds(ops: seq<LogicalOperator>): set<int> {
    set op | op in ops :: op.id
  }

  /** The first operator of the query with the given id (`getOperatorWithId`), or None. */
  function GetOperatorWithId(q: SeepLogicalQuery, opId: int): (r: Option<LogicalOperator>)
    ensures r.Some? ==> r.value in q.operators && r.value.id == opId
    ensures r.None? <==> opId !in OperatorIds(q.operators)
    decreases |q.operators|
  {
    if q.operators == [] then None
    else if q.operators[0].id == opId then Some(q.operators[0])
    else
      var rest := SeepLogicalQuery(q.operators[1..]);
      assert OperatorIds(q.operators) == {q.operators[0].id} + OperatorIds(rest.operators) by {
        assert q.operators == [q.operators[0]] + rest.operators;
      }
      GetOperatorWithId(rest, opId)
  }

  /** A selector drives the I/O of a set of adapters; some also serve as the output side's event hook. */
  datatype DataStoreSelector = DataStoreSelector(id: int, isEventApi: bool)

  datatype Stage = Stage(stageId: int)
  datatype ScheduleDescription = ScheduleDescription(stages: seq<Stage>)
}
