# SEEPng control layer in Dafny

This project models the control layer of SEEPng, a distributed stream-processing system with one master and many workers.

- The **master** loads a logical query and leases one execution unit per operator. It deploys the query to the units by broadcasting the query code and then a materialise-task command, and it later broadcasts start and stop. Each step is gated by the application lifecycle.
- Its **control listener** accepts one worker connection at a time, decodes one command envelope, dispatches bootstrap, stage-status and dead-worker commands to the master's handler, and closes the connection.
- On a worker, the **conductor** finds the operator mapped to its own execution unit and builds that operator's input and output adapters and its data-store selectors. It then configures the processing engine and starts and stops it.
- The **adapter factories** decide, from the data-store kind and the connection type, which input adapters to build per upstream stream. On the output side they build one output adapter per downstream stream id.
- The **single-threaded engine** visits the input adapters round-robin. From each it pulls at most one data item, with a bounded blocking time, and hands every tuple of the item to the task. An engine with no input adapters is a source: it calls the task with no data.

Modules:

- `DataStoreTypes`: the closed enumeration of store kinds and their codes.
- `SeepApi`, `Protocol`, `Wrappers`: the shared value types, the control commands and `Option` (Java's nullable references).
- `QueryManager`: the master's query manager, its lifecycle, the execution-unit pool and the command transport.
- `MasterWorkerComm`: the master's control listener.
- `InputAdapters` and `CoreOutputs`: the adapter factories.
- `ProcessingEngines`: the single-threaded engine.
- `Conductors`: the worker's conductor.

State that the system updates in place is a class with fields: the query manager, the lifecycle, the unit pool, the transport, the listener, the engine and the conductor. Calls into collaborators are recorded as traces of events on those classes: messages sent, handler calls, task calls, selector calls and stage reports.

## Model

| member | source | states |
|---|---|---|
| DataStoreTypes.OfType | seep-common/src/main/java/uk/ac/imperial/lsds/seep/api/DataStoreType.java:6-22 | each constant's code lies in 0..6 and indexes that constant in the declaration order |
| DataStoreTypes.FromCode | seep-common/src/main/java/uk/ac/imperial/lsds/seep/api/DataStoreType.java:6-22 | a code denotes a constant exactly when it is in 0..6, and it then denotes the constant declared at that position |
| DataStoreTypes.AllDataStoreTypesDistinct | seep-common/src/main/java/uk/ac/imperial/lsds/seep/api/DataStoreType.java:6-12 | there are exactly seven constants, they are pairwise distinct, and every kind is one of them |
| DataStoreTypes.OfTypeInjective | seep-common/src/main/java/uk/ac/imperial/lsds/seep/api/DataStoreType.java:14-22 | two constants have the same code exactly when they are the same constant |
| DataStoreTypes.CodeRoundTrip | seep-common/src/main/java/uk/ac/imperial/lsds/seep/api/DataStoreType.java:14-22 | decoding a constant's code gives back the constant, and every code in 0..6 encodes back to itself |
| SeepApi.GetOperatorWithId | seep-worker/src/main/java/uk/ac/imperial/lsds/seepworker/core/Conductor.java:71 | the operator found is in the query and has the requested id; nothing is found exactly when no operator has that id |
| QueryManager.IsSuccessor | seep-master/src/main/java/uk/ac/imperial/lsds/seepmaster/query/MaterializedQueryManager.java:91-104 | the lifecycle order: a move is allowed exactly when the target's rank is one more than the current status's rank |
| QueryManager.LifecycleManager.TryTransitTo | seep-master/src/main/java/uk/ac/imperial/lsds/seepmaster/query/MaterializedQueryManager.java:104 | the status becomes the target when the transition relation allows the move; otherwise it is unchanged |
| QueryManager.InfrastructureManager.GetExecutionUnit | seep-master/src/main/java/uk/ac/imperial/lsds/seepmaster/query/MaterializedQueryManager.java:202 | leases the first available unit and removes it from the pool |
| QueryManager.GetConnectionsTo | seep-master/src/main/java/uk/ac/imperial/lsds/seepmaster/query/MaterializedQueryManager.java:148 | exactly one connection per requested unit id |
| QueryManager.Comm.SendObjectSync | seep-master/src/main/java/uk/ac/imperial/lsds/seepmaster/query/MaterializedQueryManager.java:175 | appends exactly one broadcast, of that command to those connections |
| QueryManager.MaterializedQueryManager.constructor | seep-master/src/main/java/uk/ac/imperial/lsds/seepmaster/query/MaterializedQueryManager.java:64-72 | keeps the given pool, transport, lifecycle and optional mapping; no query is loaded; the required unit count is consistent |
| QueryManager.MaterializedQueryManager.CanStartExecution | seep-master/src/main/java/uk/ac/imperial/lsds/seepmaster/query/MaterializedQueryManager.java:84-86 | with a query loaded, execution can start exactly when the pool holds at least one unit per operator; with none loaded, it always can |
| QueryManager.MaterializedQueryManager.LoadQueryFromParameter | seep-master/src/main/java/uk/ac/imperial/lsds/seepmaster/query/MaterializedQueryManager.java:88-106 | succeeds exactly when the lifecycle allows SUBMITTED; failure changes nothing; success stores the query and its parameters, requires one unit per operator, moves to SUBMITTED and keeps the sends in step with the status |
| QueryManager.MaterializedQueryManager.LoadQueryFromFile | seep-master/src/main/java/uk/ac/imperial/lsds/seepmaster/query/MaterializedQueryManager.java:108-123 | as above, with the query composed from the jar using the method name "compose"; the stored class name, arguments and method name are left untouched |
| QueryManager.MaterializedQueryManager.CreateMappingOfOperatorWithEndPoint | seep-master/src/main/java/uk/ac/imperial/lsds/seepmaster/query/MaterializedQueryManager.java:198-208 | the mapping binds the operators, in order, to successively leased units, and exactly that many units leave the pool |
| QueryManager.MappingOfKeys | seep-master/src/main/java/uk/ac/imperial/lsds/seepmaster/query/MaterializedQueryManager.java:198-208 | the mapping's keys are exactly the operator ids |
| QueryManager.MappingOfAt | seep-master/src/main/java/uk/ac/imperial/lsds/seepmaster/query/MaterializedQueryManager.java:198-208 | an operator whose id no later operator repeats is bound to the end point of the unit at its own position |
| QueryManager.MappingOfValues | seep-master/src/main/java/uk/ac/imperial/lsds/seepmaster/query/MaterializedQueryManager.java:198-208 | every bound end point is that of one of the leased units |
| QueryManager.GetInvolvedEuIdIn | seep-master/src/main/java/uk/ac/imperial/lsds/seepmaster/query/MaterializedQueryManager.java:155-161 | the result is exactly the set of ids of the given end points |
| QueryManager.MaterializedQueryManager.DeployQueryToNodes | seep-master/src/main/java/uk/ac/imperial/lsds/seepmaster/query/MaterializedQueryManager.java:125-153 | succeeds exactly when the lifecycle allows DEPLOYED and the pool holds at least the required units; failure changes nothing; a provided mapping is kept and the pool is untouched, otherwise the mapping is built from the pool; success broadcasts Code, carrying the stored jar path, class name, arguments and method name, which stay unchanged, and then MaterializeTask to the units of the mapping, moves to DEPLOYED and keeps the sends in step with the status |
| QueryManager.MaterializedQueryManager.StartQuery | seep-master/src/main/java/uk/ac/imperial/lsds/seepmaster/query/MaterializedQueryManager.java:163-178 | succeeds exactly when the lifecycle allows RUNNING; failure changes nothing; success broadcasts StartQuery to the involved units and moves to RUNNING |
| QueryManager.MaterializedQueryManager.StopQuery | seep-master/src/main/java/uk/ac/imperial/lsds/seepmaster/query/MaterializedQueryManager.java:180-196 | succeeds exactly when the lifecycle allows STOPPED; failure changes nothing; success broadcasts StopQuery to the involved units and moves to STOPPED |
| QueryManager.MaterializedQueryManager.SendQueryToNodes | seep-master/src/main/java/uk/ac/imperial/lsds/seepmaster/query/MaterializedQueryManager.java:214-221 | sends one Code command carrying the jar's bytes and the stored class, arguments and method name |
| QueryManager.MaterializedQueryManager.SendMaterializeTaskToNodes | seep-master/src/main/java/uk/ac/imperial/lsds/seepmaster/query/MaterializedQueryManager.java:223-228 | sends one MaterializeTask command carrying the current mapping |
| QueryManager.InstanceHolder.constructor | seep-master/src/main/java/uk/ac/imperial/lsds/seepmaster/query/MaterializedQueryManager.java:74-82 | the class-level instance field starts out empty |
| QueryManager.InstanceHolder.GetInstanceAsWritten | seep-master/src/main/java/uk/ac/imperial/lsds/seepmaster/query/MaterializedQueryManager.java:74-82 | as written: returns the stored manager if there is one, otherwise a fresh manager that is not stored |
| QueryManager.InstanceHolder.GetInstance | seep-master/src/main/java/uk/ac/imperial/lsds/seepmaster/query/MaterializedQueryManager.java:74-82 | corrected: the first manager built is stored, and every later call returns it |
| QueryManager.TwoInstancesAsWritten | seep-master/src/main/java/uk/ac/imperial/lsds/seepmaster/query/MaterializedQueryManager.java:74-82 | as written, two successive calls hand out two different managers |
| QueryManager.OneInstance | seep-master/src/main/java/uk/ac/imperial/lsds/seepmaster/query/MaterializedQueryManager.java:74-82 | with the corrected accessor, two successive calls hand out the same manager |
| QueryManager.TwoOperatorMapping | seep-master/src/main/java/uk/ac/imperial/lsds/seepmaster/query/MaterializedQueryManager.java:147-148 | two operators on two units map to those two end points, and the deployment targets exactly those two units |
| QueryManager.SubmittedManager | seep-master/src/main/java/uk/ac/imperial/lsds/seepmaster/query/MaterializedQueryManager.java:88-106 | under the successor order SUBMITTED → DEPLOYED → RUNNING → STOPPED, a fresh manager that accepts a query reaches SUBMITTED with the query stored, no mapping, the given pool and nothing sent |
| QueryManager.DeployWithTooFewUnits | seep-master/src/main/java/uk/ac/imperial/lsds/seepmaster/query/MaterializedQueryManager.java:132-137 | a two-operator query with one unit available: deployment fails, nothing is sent, and the status stays SUBMITTED |
| QueryManager.DeploymentScenario | seep-master/src/main/java/uk/ac/imperial/lsds/seepmaster/query/MaterializedQueryManager.java:125-153 | with two units for a two-operator query, deployment sends Code and then MaterializeTask to both units and reaches DEPLOYED |
| MasterWorkerComm.Dispatch | seep-master/src/main/java/uk/ac/imperial/lsds/seepmaster/comm/MasterWorkerCommManager.java:80-101 | bootstrap, stage-status and dead-worker commands reach the handler with their payload; every other command, crash included, leads to no handler call |
| MasterWorkerComm.FamilyCheck | seep-master/src/main/java/uk/ac/imperial/lsds/seepmaster/comm/MasterWorkerCommManager.java:75-77 | a command outside the master family is logged once and still dispatched; a master command is not logged |
| MasterWorkerComm.IterationAsWritten | seep-master/src/main/java/uk/ac/imperial/lsds/seepmaster/comm/MasterWorkerCommManager.java:64-117 | one pass as written: it starts with the accept when there is one; it survives only a failed accept or a decoded command; its last event is the socket close exactly unless the input stream failed to open |
| MasterWorkerComm.Iteration | seep-master/src/main/java/uk/ac/imperial/lsds/seepmaster/comm/MasterWorkerCommManager.java:64-117 | one corrected pass: it survives everything except an undecodable command, and a pass that accepted a socket starts with the accept and ends with the socket close |
| MasterWorkerComm.IterationBalanced | seep-master/src/main/java/uk/ac/imperial/lsds/seepmaster/comm/MasterWorkerCommManager.java:106-116 | corrected pass: every accepted socket is closed, and the input is closed exactly when the pass opened it |
| MasterWorkerComm.IterationAsWrittenCounts | seep-master/src/main/java/uk/ac/imperial/lsds/seepmaster/comm/MasterWorkerCommManager.java:106-116 | as written, one pass closes the input exactly when it opened it, and leaves its accepted socket open exactly on a stream failure |
| MasterWorkerComm.EverySocketClosed | seep-master/src/main/java/uk/ac/imperial/lsds/seepmaster/comm/MasterWorkerCommManager.java:63-118 | corrected listener: over its whole run there are as many socket closes as accepts, and as many input closes as attempts that opened an input |
| MasterWorkerComm.SocketLeftOpenAsWritten | seep-master/src/main/java/uk/ac/imperial/lsds/seepmaster/comm/MasterWorkerCommManager.java:63-118 | as written: every opened input is closed, but the accepts exceed the socket closes by the stream failures served, which number at most one |
| MasterWorkerComm.ListenerSurvives | seep-master/src/main/java/uk/ac/imperial/lsds/seepmaster/comm/MasterWorkerCommManager.java:63-118 | corrected listener: it serves every attempt exactly when no attempt before the last carries an undecodable command |
| MasterWorkerComm.ListenerSurvivesAsWritten | seep-master/src/main/java/uk/ac/imperial/lsds/seepmaster/comm/MasterWorkerCommManager.java:63-118 | as written: the listener serves every attempt exactly when no attempt before the last is undecodable or fails to open its input stream |
| MasterWorkerComm.ReceivedCommandsHandled | seep-master/src/main/java/uk/ac/imperial/lsds/seepmaster/comm/MasterWorkerCommManager.java:69-101 | corrected listener: every decoded command that reaches the live listener produces its handler call in the run |
| MasterWorkerComm.StreamFailureEndsListenerAsWritten | seep-master/src/main/java/uk/ac/imperial/lsds/seepmaster/comm/MasterWorkerCommManager.java:69-116 | as written, a failure to open an input stream ends the listener with the socket open and the next command lost; the corrected pass closes the socket and handles the next command |
| MasterWorkerComm.MasterWorkerCommManager.constructor | seep-master/src/main/java/uk/ac/imperial/lsds/seepmaster/comm/MasterWorkerCommManager.java:49-58 | the listener starts out not working, with an empty trace |
| MasterWorkerComm.MasterWorkerCommManager.Start | seep-master/src/main/java/uk/ac/imperial/lsds/seepmaster/comm/MasterWorkerCommManager.java:49-53 | raises the working flag |
| MasterWorkerComm.MasterWorkerCommManager.Stop | seep-master/src/main/java/uk/ac/imperial/lsds/seepmaster/comm/MasterWorkerCommManager.java:55-58 | lowers the working flag |
| MasterWorkerComm.MasterWorkerCommManager.ServeOneAsWritten | seep-master/src/main/java/uk/ac/imperial/lsds/seepmaster/comm/MasterWorkerCommManager.java:64-117 | one pass of the loop as written, with the finally block closing the input whether or not it was opened |
| MasterWorkerComm.MasterWorkerCommManager.ServeOne | seep-master/src/main/java/uk/ac/imperial/lsds/seepmaster/comm/MasterWorkerCommManager.java:64-117 | corrected: one pass that closes the input only when it was opened and always closes an accepted socket |
| MasterWorkerComm.MasterWorkerCommManager.ServeAtAsWritten | seep-master/src/main/java/uk/ac/imperial/lsds/seepmaster/comm/MasterWorkerCommManager.java:64-117 | one pass as written, stated as one step of the as-written listener run from that attempt on |
| MasterWorkerComm.MasterWorkerCommManager.ServeAt | seep-master/src/main/java/uk/ac/imperial/lsds/seepmaster/comm/MasterWorkerCommManager.java:64-117 | corrected: one pass, stated as one step of the listener's run from that attempt on |
| MasterWorkerComm.MasterWorkerCommManager.RunAsWritten | seep-master/src/main/java/uk/ac/imperial/lsds/seepmaster/comm/MasterWorkerCommManager.java:63-118 | the listener loop as written: a working listener's trace and the number of attempts it gets through are those of the as-written run, which a stream failure ends with its socket open |
| MasterWorkerComm.MasterWorkerCommManager.Run | seep-master/src/main/java/uk/ac/imperial/lsds/seepmaster/comm/MasterWorkerCommManager.java:63-118 | corrected listener loop: a working listener's trace and the number of attempts it gets through are those of the listener run, in which every socket is closed and every decoded command is dispatched |
| InputAdapters.BuildPerBufferStreams | seep-worker/src/main/java/uk/ac/imperial/lsds/seepworker/core/input/InputAdapterFactory.java:48-51 | one stream per buffer, in buffer order, each of the given store kind, stream id and schema |
| InputAdapters.BuildInputAdapterOfTypeNetworkForOps | seep-worker/src/main/java/uk/ac/imperial/lsds/seepworker/core/input/InputAdapterFactory.java:40-59 | ONE_AT_A_TIME gives one network stream per buffer; UPSTREAM_SYNC_BARRIER gives one barrier over all buffers; any other type gives nothing; all use the first reference's schema |
| InputAdapters.BuildInputAdapterOfTypeFileForOps | seep-worker/src/main/java/uk/ac/imperial/lsds/seepworker/core/input/InputAdapterFactory.java:61-75 | ONE_AT_A_TIME gives one file stream per buffer with the first reference's schema; any other type gives nothing |
| InputAdapters.BuildInputAdapterOfTypeKafkaForOps | seep-worker/src/main/java/uk/ac/imperial/lsds/seepworker/core/input/InputAdapterFactory.java:77-91 | ONE_AT_A_TIME gives one Kafka stream per buffer with the first reference's schema; any other type gives nothing |
| InputAdapters.BuildInputAdapterForStreamId | seep-worker/src/main/java/uk/ac/imperial/lsds/seepworker/core/input/InputAdapterFactory.java:25-38 | a result exists exactly when the first reference's store kind is NETWORK, FILE or KAFKA; it is the expected adapter list for that kind, and every adapter carries the stream id and the expected schema |
| CoreOutputs.StreamGroupMembers | seep-worker/src/main/java/uk/ac/imperial/lsds/seepworker/core/output/CoreOutputFactory.java:30-40 | a connection is in a stream's group exactly when it is one of the operator's connections and is on that stream |
| CoreOutputs.StreamGroupAppend | seep-worker/src/main/java/uk/ac/imperial/lsds/seepworker/core/output/CoreOutputFactory.java:30-40 | grouping distributes over concatenation, so each group keeps the relative order of its connections |
| CoreOutputs.StreamGroupNonEmpty | seep-worker/src/main/java/uk/ac/imperial/lsds/seepworker/core/output/CoreOutputFactory.java:30-40 | every stream id that occurs has a non-empty group |
| CoreOutputs.ExactlyOneGroup | seep-worker/src/main/java/uk/ac/imperial/lsds/seepworker/core/output/CoreOutputFactory.java:30-40 | each connection is in the group of its own stream id and in no other group |
| CoreOutputs.GroupingStep | seep-worker/src/main/java/uk/ac/imperial/lsds/seepworker/core/output/CoreOutputFactory.java:30-40 | one more connection adds its stream id and extends only that stream's group |
| CoreOutputs.GroupByStreamId | seep-worker/src/main/java/uk/ac/imperial/lsds/seepworker/core/output/CoreOutputFactory.java:29-40 | the map's keys are the distinct stream ids, and each maps to that stream's connections in their original order |
| CoreOutputs.AdapterFor | seep-worker/src/main/java/uk/ac/imperial/lsds/seepworker/core/output/CoreOutputFactory.java:47-62 | an adapter is built exactly when the group's first connection expects NETWORK or KAFKA; it carries the stream id and the whole group, and it is a network adapter exactly for NETWORK; a network adapter carries the mapping, a Kafka adapter the configuration of the first connection's expected origin |
| CoreOutputs.AdaptersFor | seep-worker/src/main/java/uk/ac/imperial/lsds/seepworker/core/output/CoreOutputFactory.java:45-63 | one adapter slot per stream id listed |
| CoreOutputs.AdaptersForAt | seep-worker/src/main/java/uk/ac/imperial/lsds/seepworker/core/output/CoreOutputFactory.java:45-63 | the slot at each position is the adapter for that stream id's group |
| CoreOutputs.ConnectionServedOnce | seep-worker/src/main/java/uk/ac/imperial/lsds/seepworker/core/output/CoreOutputFactory.java:25-67 | each connection's stream id has exactly one slot; a built adapter carries the connection exactly when it is that slot's adapter |
| CoreOutputs.BuildCoreOutputForOperator | seep-worker/src/main/java/uk/ac/imperial/lsds/seepworker/core/output/CoreOutputFactory.java:25-67 | one slot per distinct downstream stream id, each visited once in some order, with the adapter of that stream's group; no event hook is set |
| CoreOutputs.BuildCoreOutputForStage | seep-worker/src/main/java/uk/ac/imperial/lsds/seepworker/core/output/CoreOutputFactory.java:69-71 | always absent |
| ProcessingEngines.Drain | seep-worker/src/main/java/uk/ac/imperial/lsds/seepworker/core/SingleThreadProcessingEngine.java:96-101 | every tuple of the item goes to the task exactly once, in order: processData for ONE and processDataGroup for MANY |
| ProcessingEngines.Visit | seep-worker/src/main/java/uk/ac/imperial/lsds/seepworker/core/SingleThreadProcessingEngine.java:92-115 | one pull from the adapter, followed by the task calls for the item if one arrived |
| ProcessingEngines.NextCursor | seep-worker/src/main/java/uk/ac/imperial/lsds/seepworker/core/SingleThreadProcessingEngine.java:116-118 | the iterator moves to the next adapter and restarts from the first after the last one |
| ProcessingEngines.RoundRobinVisitOrder | seep-worker/src/main/java/uk/ac/imperial/lsds/seepworker/core/SingleThreadProcessingEngine.java:90-119 | the pulls of a run go to the adapters in cyclic order |
| ProcessingEngines.VisitOrderAt | seep-worker/src/main/java/uk/ac/imperial/lsds/seepworker/core/SingleThreadProcessingEngine.java:91-119 | the j-th visit starting at adapter c goes to adapter (c + j) mod n |
| ProcessingEngines.EveryAdapterEachRound | seep-worker/src/main/java/uk/ac/imperial/lsds/seepworker/core/SingleThreadProcessingEngine.java:91-119 | fairness: any n consecutive visits among n adapters reach every adapter |
| ProcessingEngines.RoundRobinNoSourceCall | seep-worker/src/main/java/uk/ac/imperial/lsds/seepworker/core/SingleThreadProcessingEngine.java:91-119 | while there are input adapters, the round-robin never calls the task without data |
| ProcessingEngines.DrainCallsPullNothing | seep-worker/src/main/java/uk/ac/imperial/lsds/seepworker/core/SingleThreadProcessingEngine.java:96-101 | draining an item makes no pull |
| ProcessingEngines.VisitPullsOnce | seep-worker/src/main/java/uk/ac/imperial/lsds/seepworker/core/SingleThreadProcessingEngine.java:92-115 | a visit makes exactly one pull, from the visited adapter |
| ProcessingEngines.StopIgnoredAsWritten | seep-worker/src/main/java/uk/ac/imperial/lsds/seepworker/core/SingleThreadProcessingEngine.java:90-123 | as written, an engine with input adapters keeps pulling after stop takes effect; the corrected loop stops there |
| ProcessingEngines.StopIgnoredExample | seep-worker/src/main/java/uk/ac/imperial/lsds/seepworker/core/SingleThreadProcessingEngine.java:90-123 | one silent adapter stopped after its first pull: the loop as written pulls twice in two steps, the corrected loop once |
| ProcessingEngines.StopEndsProcessing | seep-worker/src/main/java/uk/ac/imperial/lsds/seepworker/core/SingleThreadProcessingEngine.java:90-123 | corrected loop: no step after stop is seen, no call without data while there are adapters, and nothing at all when not working |
| ProcessingEngines.SingleThreadProcessingEngine.constructor | seep-worker/src/main/java/uk/ac/imperial/lsds/seepworker/core/SingleThreadProcessingEngine.java:24-39 | the blocking bound is 500 ms; the engine is not working and nothing is configured |
| ProcessingEngines.SingleThreadProcessingEngine.SetId | seep-worker/src/main/java/uk/ac/imperial/lsds/seepworker/core/SingleThreadProcessingEngine.java:41-44 | sets the operator id only |
| ProcessingEngines.SingleThreadProcessingEngine.SetCoreInput | seep-worker/src/main/java/uk/ac/imperial/lsds/seepworker/core/SingleThreadProcessingEngine.java:46-49 | sets the input only |
| ProcessingEngines.SingleThreadProcessingEngine.SetCoreOutput | seep-worker/src/main/java/uk/ac/imperial/lsds/seepworker/core/SingleThreadProcessingEngine.java:51-54 | sets the output only |
| ProcessingEngines.SingleThreadProcessingEngine.SetTask | seep-worker/src/main/java/uk/ac/imperial/lsds/seepworker/core/SingleThreadProcessingEngine.java:56-59 | sets the task only |
| ProcessingEngines.SingleThreadProcessingEngine.SetSeepState | seep-worker/src/main/java/uk/ac/imperial/lsds/seepworker/core/SingleThreadProcessingEngine.java:61-64 | sets the state only |
| ProcessingEngines.SingleThreadProcessingEngine.Start | seep-worker/src/main/java/uk/ac/imperial/lsds/seepworker/core/SingleThreadProcessingEngine.java:66-70 | raises the working flag |
| ProcessingEngines.SingleThreadProcessingEngine.Stop | seep-worker/src/main/java/uk/ac/imperial/lsds/seepworker/core/SingleThreadProcessingEngine.java:72-76 | lowers the working flag |
| ProcessingEngines.SingleThreadProcessingEngine.RunAsWritten | seep-worker/src/main/java/uk/ac/imperial/lsds/seepworker/core/SingleThreadProcessingEngine.java:80-124 | the worker loop as written: nothing without input or output; otherwise the as-written trace, in which the adapters are visited round-robin and stop is never seen again |
| ProcessingEngines.SingleThreadProcessingEngine.Run | seep-worker/src/main/java/uk/ac/imperial/lsds/seepworker/core/SingleThreadProcessingEngine.java:80-124 | corrected worker loop: nothing without input or output; otherwise the trace that checks the working flag before every step |
| Conductors.LastEventApi | seep-worker/src/main/java/uk/ac/imperial/lsds/seepworker/core/Conductor.java:92-94 | a hook exists exactly when some selector is an event API, and it is then one of the selectors and an event API |
| Conductors.LastEventApiIsLast | seep-worker/src/main/java/uk/ac/imperial/lsds/seepworker/core/Conductor.java:92-94 | no event-API selector comes after the one chosen as the hook, since each one found overwrites the previous |
| Conductors.WireEventApi | seep-worker/src/main/java/uk/ac/imperial/lsds/seepworker/core/Conductor.java:92-94 | the adapters are kept; the hook becomes the last event-API selector, or is left as it was when there is none |
| Conductors.ScheduleTableKeys | seep-worker/src/main/java/uk/ac/imperial/lsds/seepworker/core/Conductor.java:111-119 | the table's keys are the old keys plus every stage id |
| Conductors.ScheduleTableAt | seep-worker/src/main/java/uk/ac/imperial/lsds/seepworker/core/Conductor.java:111-119 | each stage id maps to a task for this unit, that stage and the query; every other entry is kept |
| Conductors.Conductor.constructor | seep-worker/src/main/java/uk/ac/imperial/lsds/seepworker/core/Conductor.java:55-61 | a fresh engine, not working and unconfigured, with an empty schedule table and empty traces |
| Conductors.Conductor.SetQuery | seep-worker/src/main/java/uk/ac/imperial/lsds/seepworker/core/Conductor.java:63-67 | sets the unit id, the query and the mapping |
| Conductors.Conductor.GetOpIdLivingInThisEU | seep-worker/src/main/java/uk/ac/imperial/lsds/seepworker/core/Conductor.java:132-137 | an operator mapped to this unit, or -1 exactly when none is |
| Conductors.Conductor.ForEachSelector | seep-worker/src/main/java/uk/ac/imperial/lsds/seepworker/core/Conductor.java:106-108 | one call per selector, in list order |
| Conductors.Conductor.BuildAdapters | seep-worker/src/main/java/uk/ac/imperial/lsds/seepworker/core/Conductor.java:83-94 | the input, output and selectors are those built for the operator, with one output adapter per downstream stream and the last event-API selector as the hook |
| Conductors.Conductor.Configure | seep-worker/src/main/java/uk/ac/imperial/lsds/seepworker/core/Conductor.java:78-108 | state injection when stateful, adapters and selectors built for the operator, the event hook wired, the engine configured with the operator's id, task, state, input and output, then task set-up and selector initialisation |
| Conductors.Conductor.ConfigureEngine | seep-worker/src/main/java/uk/ac/imperial/lsds/seepworker/core/Conductor.java:96-100 | the engine gets the operator's id, task and state and the conductor's input and output |
| Conductors.Conductor.MaterializeAndConfigureTask | seep-worker/src/main/java/uk/ac/imperial/lsds/seepworker/core/Conductor.java:69-109 | succeeds exactly when a mapping and a query are set, the operator on this unit is in the query, and, when stateful, it carries state and its task accepts state (the cast to a stateful task at :81 succeeds); failure changes nothing; success wires that operator and makes the materialisation calls in order |
| Conductors.Conductor.ConfigureScheduleTasks | seep-worker/src/main/java/uk/ac/imperial/lsds/seepworker/core/Conductor.java:111-119 | sets the unit id and the query and registers one schedule task per stage, keyed by stage id |
| Conductors.Conductor.ScheduleTaskForStage | seep-worker/src/main/java/uk/ac/imperial/lsds/seepworker/core/Conductor.java:121-130 | reports exactly one OK status for the stage, from this unit, with the stage's outputs |
| Conductors.Conductor.StartProcessing | seep-worker/src/main/java/uk/ac/imperial/lsds/seepworker/core/Conductor.java:139-145 | once materialised: starts every selector in order, then the engine; before that: fails and changes nothing |
| Conductors.Conductor.StopProcessing | seep-worker/src/main/java/uk/ac/imperial/lsds/seepworker/core/Conductor.java:147-154 | stops the engine first, then every selector in order; before materialisation only the engine is stopped |

## Left out

- Sockets, Kryo serialisation, threads, logging and the Java reflection that composes a query from a jar are not modelled. Reading the jar and composing the query are function parameters of the query manager.
- The listener's attempts and the engine's adapter data are parameters. A pull that times out after 500 ms is a feed entry `None`. The point at which another thread's stop() is observed is a parameter.
- The test-only static factory `buildTestMaterializedQueryManager` and the private constructor it calls are not modelled. That constructor takes a query, a pool, a mapping and a transport, stores the query and its unit count, and leaves the lifecycle manager null. `getInstance` uses the other private constructor, which is the one modelled.
- The lifecycle manager, infrastructure manager and transport are not part of this model beyond the operations called here. Their transition relation, unit pool and send trace are small classes.
- The input-adapter and selector factories that the conductor calls are not part of this model; they are the function parameters `buildCoreInput` and `buildSelectors`. The output-adapter constructors are datatype constructors.
- A command that cannot be decoded (a Kryo or class-cast error) is not caught. It ends the listener after the finally block closes the connection, both as written and corrected; the model keeps that.
- A selector that is an event API shares the core output object in the system; the model records the hook by value, so later changes through the selector are not seen.
- The data references of a stream are a hash set, and the factory reads its first element; the model takes the head of a sequence.
- The order in which a hash map yields its keys is left open; `BuildCoreOutputForOperator` names the order it used, and `GetOpIdLivingInThisEU` returns any matching operator.
- InputAdapters.BuildInputAdapterForStreamId: it requires at least one data reference, because the source throws when the set is empty.
- ProcessingEngines.SingleThreadProcessingEngine.RunAsWritten: it requires a task, because the source throws on a null task when it makes its first call.
- ProcessingEngines.SingleThreadProcessingEngine.Run: it requires a task, as above; it looks at a bounded number of steps, while the loop in the system runs until stopped.
- QueryManager.MaterializedQueryManager.DeployQueryToNodes: it requires a loaded query whenever no mapping was provided and the lifecycle allows DEPLOYED. In the source, that state reads the operators of a null query and throws (MaterializedQueryManager.java:144, :200). The model does not represent the exception. The successor order SUBMITTED → DEPLOYED → RUNNING → STOPPED rules the state out, since SUBMITTED comes before DEPLOYED and stores a query.
- QueryManager.MaterializedQueryManager.StartQuery: it requires a mapping whenever the lifecycle allows RUNNING. In the source, a null mapping makes `opToEndpointMapping.values()` throw (:171). The model does not represent the exception. That successor order rules the state out, since DEPLOYED comes before RUNNING and sets the mapping.
- QueryManager.MaterializedQueryManager.StopQuery: it requires a mapping whenever the lifecycle allows STOPPED, for the same reason as StartQuery: a null mapping throws at :188. The model does not represent the exception.
- ProcessingEngines.Drain: a data item is a finite sequence of tuples. In the system, an item could yield tuples without end; its drain would then never return, and the loop would stay on one adapter. The round-robin traces and the fairness of `EveryAdapterEachRound` hold only for finite items.
- Conductors.Conductor.ScheduleTaskForStage: the schedule-table lookup is not used by the source beyond reading it, so the model does not read it.
- The master API that receives stage reports is the `reported` trace of the conductor.

## Findings

| source | as written | input that shows it | evidently intended | confidence | as-written member | corrected member |
|---|---|---|---|---|---|---|
| seep-master/src/main/java/uk/ac/imperial/lsds/seepmaster/query/MaterializedQueryManager.java:74-82 | `getInstance` never stores the manager it builds, so every call while `qm` is null builds a new one | two successive calls with `qm` null | a singleton: the first manager is stored and returned by later calls | high, not executed | QueryManager.TwoInstancesAsWritten | QueryManager.OneInstance |
| seep-master/src/main/java/uk/ac/imperial/lsds/seepmaster/comm/MasterWorkerCommManager.java:106-116 | when opening the input stream throws, the finally block calls `i.close()` on a null `i`; the null dereference ends the listener thread with the socket still open | the attempts [stream failure, bootstrap command]: the bootstrap command is never handled | close the input only when it was opened, always close the socket, and keep listening | high, not executed | MasterWorkerComm.StreamFailureEndsListenerAsWritten | MasterWorkerComm.EverySocketClosed |
| seep-worker/src/main/java/uk/ac/imperial/lsds/seepworker/core/SingleThreadProcessingEngine.java:90-119 | with at least one input adapter, the inner loop resets its iterator whenever it runs out, so it never ends and `working` is never checked again; stop() has no effect | one adapter that never delivers, stopped after the first pull: the loop keeps pulling | the loop ends once stop() takes effect | medium, not executed | ProcessingEngines.StopIgnoredAsWritten | ProcessingEngines.StopEndsProcessing |
