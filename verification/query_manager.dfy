/**
 * The master's query lifecycle: submission, deployment, start and stop of a
 * logical query, each gated by the application lifecycle.
 */
module QueryManager {
  import opened Wrappers
  import opened SeepApi
  import opened Protocol

  datatype AppStatus = UNDEFINED | QUERY_SUBMITTED | QUERY_DEPLOYED | QUERY_RUNNING | QUERY_STOPPED

  /** Position of a status in the forward order of the lifecycle. */
  function Rank(s: AppStatus): nat {
    match s
    case UNDEFINED => 0
    case QUERY_SUBMITTED => 1
    case QUERY_DEPLOYED => 2
    case QUERY_RUNNING => 3
    case QUERY_STOPPED => 4
  }

  /** The lifecycle's successor order UNDEFINED → SUBMITTED → DEPLOYED → RUNNING → STOPPED: only a move to the next status is allowed. */
  predicate IsSuccessor(from: AppStatus, to: AppStatus)
    ensures IsSuccessor(from, to) <==> Rank(to) == Rank(from) + 1
  {
    match from
    case UNDEFINED => to == QUERY_SUBMITTED
    case QUERY_SUBMITTED => to == QUERY_DEPLOYED
    case QUERY_DEPLOYED => to == QUERY_RUNNING
    case QUERY_RUNNING => to == QUERY_STOPPED
    case QUERY_STOPPED => false
  }

  /**
   * The application lifecycle. Its transition relation is supplied by the
   * caller; `TryTransitTo` moves only when that relation allows it.
   */
  class LifecycleManager {
    var status: AppStatus
    const canTransit: (AppStatus, AppStatus) -> bool

    constructor (canTransit: (AppStatus, AppStatus) -> bool)
      ensures status == UNDEFINED && this.canTransit == canTransit
    {
      this.status := UNDEFINED;
      this.canTransit := canTransit;
    }

    predicate CanTransitTo(target: AppStatus)
      reads this
    {
      canTransit(status, target)
    }

    method TryTransitTo(target: AppStatus)
      modifies this
      ensures status == if old(CanTransitTo(target)) then target else old(status)
    {
      if CanTransitTo(target) {
        status := target;
      }
    }
  }

  /** The pool of execution units: units still available, in lease order. */
  class InfrastructureManager {
    var units: seq<ExecutionUnit>

    constructor (units: seq<ExecutionUnit>)
      ensures this.units == units
    {
      this.units := units;
    }

    function ExecutionUnitsAvailable(): nat
      reads this
    {
      |units|
    }

    /** Leases the first available unit. */
    method GetExecutionUnit() returns (eu: ExecutionUnit)
      requires units != []
      modifies this
      ensures eu == old(units)[0] && units == old(units)[1..]
    {
      eu := units[0];
      units := units[1..];
    }
  }

  /** The pool's `getConnectionsTo`: one connection per unit id. */
  function GetConnectionsTo(ids: set<int>): (r: set<Connection>)
    ensures forall c :: c in r <==> c.unitId in ids
  {
    set id | id in ids :: Connection(id)
  }

  /** One synchronous broadcast of a command to a set of connections. */
  datatype Sent = Sent(command: MasterWorkerCommand, connections: set<Connection>)

  /** The command transport; it records every broadcast in order. */
  class Comm {
    var sent: seq<Sent>

    constructor ()
      ensures sent == []
    {
      sent := [];
    }

    method SendObjectSync(command: MasterWorkerCommand, connections: set<Connection>)
      modifies this
      ensures sent == old(sent) + [Sent(command, connections)]
    {
      sent := sent + [Sent(command, connections)];
    }
  }

  /**
   * The mapping built for a query: each operator, in order, is bound to the
   * end point of the unit at the same position; a later operator with an
   * already-mapped id overwrites the earlier entry.
   */
  function MappingOf(ops: seq<LogicalOperator>, units: seq<ExecutionUnit>): map<int, EndPoint>
    requires |ops| <= |units|
    decreases |ops|
  {
    if ops == [] then map[]
    else MappingOf(ops[..|ops| - 1], units)[ops[|ops| - 1].id := units[|ops| - 1].endPoint]
  }

  /** The mapping has exactly the operator ids as keys. */
  lemma {:induction false} MappingOfKeys(ops: seq<LogicalOperator>, units: seq<ExecutionUnit>)
    requires |ops| <= |units|
    ensures MappingOf(ops, units).Keys == OperatorIds(ops)
    decreases |ops|
  {
    if ops != [] {
      var init := ops[..|ops| - 1];
      MappingOfKeys(init, units);
      assert ops == init + [ops[|ops| - 1]];
      assert OperatorIds(ops) == OperatorIds(init) + {ops[|ops| - 1].id};
    }
  }

  /** An operator whose id no later operator repeats is bound to the unit at its own position. */
  lemma {:induction false} MappingOfAt(ops: seq<LogicalOperator>, units: seq<ExecutionUnit>, i: nat)
    requires |ops| <= |units| && i < |ops|
    requires forall j :: i < j < |ops| ==> ops[j].id != ops[i].id
    ensures ops[i].id in MappingOf(ops, units)
    ensures MappingOf(ops, units)[ops[i].id] == units[i].endPoint
    decreases |ops|
  {
    if i < |ops| - 1 {
      MappingOfAt(ops[..|ops| - 1], units, i);
    }
  }

  /** Every operator is bound to the end point of one of the first |ops| units. */
  lemma {:induction false} MappingOfValues(ops: seq<LogicalOperator>, units: seq<ExecutionUnit>)
    requires |ops| <= |units|
    ensures forall k :: k in MappingOf(ops, units) ==>
              exists i :: 0 <= i < |ops| && units[i].endPoint == MappingOf(ops, units)[k]
    decreases |ops|
  {
    if ops != [] {
      var n := |ops| - 1;
      MappingOfValues(ops[..n], units);
    }
  }

  /** The ids of a collection of end points. */
  function EuIdsOf(values: set<EndPoint>): set<int> {
    set ep | ep in values :: ep.id
  }

  /** `getInvolvedEuIdIn`: collects the id of every end point. */
  method GetInvolvedEuIdIn(values: set<EndPoint>) returns (involved: set<int>)
    ensures involved == EuIdsOf(values)
  {
    involved := {};
    var rest := values;
    while rest != {}
      invariant rest <= values
      invariant involved == EuIdsOf(values - rest)
      decreases rest
    {
      var ep :| ep in rest;
      involved := involved + {ep.id};
      rest := rest - {ep};
    }
  }

  /** The command type of every broadcast, in order. */
  function Kinds(sent: seq<Sent>): seq<ProtocolType> {
    seq(|sent|, i requires 0 <= i < |sent| => sent[i].command.Type())
  }

  /** The broadcasts a coordinator has made by the time the lifecycle reaches `s`. */
  function ExpectedKinds(s: AppStatus): seq<ProtocolType> {
    match s
    case UNDEFINED => []
    case QUERY_SUBMITTED => []
    case QUERY_DEPLOYED => [CODE, MATERIALIZE_TASK]
    case QUERY_RUNNING => [CODE, MATERIALIZE_TASK, START_QUERY]
    case QUERY_STOPPED => [CODE, MATERIALIZE_TASK, START_QUERY, STOP_QUERY]
  }

  class MaterializedQueryManager {
    var slq: Option<SeepLogicalQuery>
    var executionUnitsRequiredToStart: int
    var opToEndpointMapping: Option<map<int, EndPoint>>
    var pathToQueryJar: Option<string>
    var definitionClassName: Option<string>
    var queryArgs: Option<seq<string>>
    var composeMethodName: Option<string>

    const lifeManager: LifecycleManager
    const inf: InfrastructureManager
    const comm: Comm
    /** Reads the query jar (`Utils.readDataFromFile`). */
    const readDataFromFile: Option<string> -> seq<bv8>
    /** Loads and composes a query from a jar (`Utils.executeComposeFromQuery`). */
    const executeComposeFromQuery: (string, string, seq<string>, string) -> SeepLogicalQuery

    /** The required unit count always matches the loaded query. */
    ghost predicate Valid()
      reads this
    {
      executionUnitsRequiredToStart == if slq.Some? then |slq.value.operators| else 0
    }

    /**
     * The recorded lifecycle status and the broadcasts made so far agree, under
     * the lifecycle's successor order `IsSuccessor`.
     */
    ghost predicate InSync()
      reads this, lifeManager, comm
    {
      && (forall s, t :: lifeManager.canTransit(s, t) == IsSuccessor(s, t))
      && Kinds(comm.sent) == ExpectedKinds(lifeManager.status)
      && (lifeManager.status != UNDEFINED ==> slq.Some?)
      && (Rank(lifeManager.status) >= 2 ==> opToEndpointMapping.Some?)
    }

    /** The private constructor `getInstance` uses: no query loaded yet. */
    constructor (inf: InfrastructureManager, mapOpToEndPoint: Option<map<int, EndPoint>>, comm: Comm,
                 lifeManager: LifecycleManager, readDataFromFile: Option<string> -> seq<bv8>,
                 executeComposeFromQuery: (string, string, seq<string>, string) -> SeepLogicalQuery)
      ensures Valid()
      ensures this.inf == inf && this.comm == comm && this.lifeManager == lifeManager
      ensures this.readDataFromFile == readDataFromFile && this.executeComposeFromQuery == executeComposeFromQuery
      ensures opToEndpointMapping == mapOpToEndPoint && slq.None?
      ensures pathToQueryJar.None? && definitionClassName.None? && queryArgs.None? && composeMethodName.None?
    {
      this.inf := inf;
      this.opToEndpointMapping := mapOpToEndPoint;
      this.comm := comm;
      this.lifeManager := lifeManager;
      this.readDataFromFile := readDataFromFile;
      this.executeComposeFromQuery := executeComposeFromQuery;
      this.slq := None;
      this.executionUnitsRequiredToStart := 0;
      this.pathToQueryJar := None;
      this.definitionClassName := None;
      this.queryArgs := None;
      this.composeMethodName := None;
    }

    /**
     * Enough units are available to start: one per operator of the loaded
     * query, or trivially so while no query is loaded.
     */
    function CanStartExecution(): (r: bool)
      reads this, inf
      ensures Valid() && slq.Some? ==> (r <==> |inf.units| >= |slq.value.operators|)
      ensures Valid() && slq.None? ==> r
    {
      inf.ExecutionUnitsAvailable() >= executionUnitsRequiredToStart
    }

    method LoadQueryFromParameter(q: SeepLogicalQuery, path: string, definitionClass: string,
                                  args: seq<string>, composeMethod: string) returns (ok: bool)
      requires Valid()
      modifies this, lifeManager
      ensures Valid()
      ensures ok == old(lifeManager.CanTransitTo(QUERY_SUBMITTED))
      ensures !ok ==> unchanged(this, lifeManager)
      ensures ok ==> && slq == Some(q) && executionUnitsRequiredToStart == |q.operators|
                     && pathToQueryJar == Some(path) && definitionClassName == Some(definitionClass)
                     && queryArgs == Some(args) && composeMethodName == Some(composeMethod)
                     && opToEndpointMapping == old(opToEndpointMapping)
                     && lifeManager.status == QUERY_SUBMITTED
      ensures old(InSync()) ==> InSync()
    {
      var allowed := lifeManager.CanTransitTo(QUERY_SUBMITTED);
      if !allowed {
        return false;
      }
      slq := Some(q);
      pathToQueryJar := Some(path);
      definitionClassName := Some(definitionClass);
      queryArgs := Some(args);
      composeMethodName := Some(composeMethod);
      executionUnitsRequiredToStart := |q.operators|;
      lifeManager.TryTransitTo(QUERY_SUBMITTED);
      ok := true;
    }

    /** Loads the query by composing it from the jar; the composition is always invoked with "compose". */
    method LoadQueryFromFile(path: string, definitionClass: string, args: seq<string>, composeMethod: string)
      returns (ok: bool)
      requires Valid()
      modifies this, lifeManager
      ensures Valid()
      ensures ok == old(lifeManager.CanTransitTo(QUERY_SUBMITTED))
      ensures !ok ==> unchanged(this, lifeManager)
      ensures ok ==> && pathToQueryJar == Some(path)
                     && slq == Some(executeComposeFromQuery(path, definitionClass, args, "compose"))
                     && executionUnitsRequiredToStart == |slq.value.operators|
                     && definitionClassName == old(definitionClassName) && queryArgs == old(queryArgs)
                     && composeMethodName == old(composeMethodName)
                     && opToEndpointMapping == old(opToEndpointMapping)
                     && lifeManager.status == QUERY_SUBMITTED
      ensures old(InSync()) ==> InSync()
    {
      var allowed := lifeManager.CanTransitTo(QUERY_SUBMITTED);
      if !allowed {
        return false;
      }
      pathToQueryJar := Some(path);
      var composed := executeComposeFromQuery(path, definitionClass, args, "compose");
      slq := Some(composed);
      executionUnitsRequiredToStart := |composed.operators|;
      lifeManager.TryTransitTo(QUERY_SUBMITTED);
      ok := true;
    }

    /** `createMappingOfOperatorWithEndPoint`: leases one unit per operator, in operator order. */
    method CreateMappingOfOperatorWithEndPoint(q: SeepLogicalQuery) returns (mapping: map<int, EndPoint>)
      requires |inf.units| >= |q.operators|
      modifies inf
      ensures mapping == MappingOf(q.operators, old(inf.units))
      ensures inf.units == old(inf.units)[|q.operators|..]
    {
      var ops := q.operators;
      mapping := map[];
      var i := 0;
      while i < |ops|
        invariant 0 <= i <= |ops|
        invariant inf.units == old(inf.units)[i..]
        invariant mapping == MappingOf(ops[..i], old(inf.units))
      {
        var opId := ops[i].id;
        var eu := inf.GetExecutionUnit();
        var ep := eu.endPoint;
        mapping := mapping[opId := ep];
        assert ops[..i + 1][..i] == ops[..i];
        i := i + 1;
      }
      assert ops[..|ops|] == ops;
    }

    /** The connections to every unit the current mapping involves. */
    ghost function InvolvedConnections(): set<Connection>
      reads this, inf
      requires opToEndpointMapping.Some?
    {
      GetConnectionsTo(EuIdsOf(opToEndpointMapping.value.Values))
    }

    method DeployQueryToNodes() returns (ok: bool)
      requires Valid()
      requires lifeManager.CanTransitTo(QUERY_DEPLOYED) && opToEndpointMapping.None? ==> slq.Some?
      modifies this, lifeManager, inf, comm
      ensures Valid()
      ensures ok == (old(lifeManager.CanTransitTo(QUERY_DEPLOYED)) && old(CanStartExecution()))
      ensures slq == old(slq) && pathToQueryJar == old(pathToQueryJar)
      ensures definitionClassName == old(definitionClassName) && queryArgs == old(queryArgs)
      ensures composeMethodName == old(composeMethodName)
      ensures executionUnitsRequiredToStart == old(executionUnitsRequiredToStart)
      ensures !ok ==> unchanged(this, lifeManager, inf, comm)
      ensures ok && old(opToEndpointMapping).Some? ==>
                opToEndpointMapping == old(opToEndpointMapping) && inf.units == old(inf.units)
      ensures ok && old(opToEndpointMapping).None? ==>
                && opToEndpointMapping == Some(MappingOf(slq.value.operators, old(inf.units)))
                && inf.units == old(inf.units)[|slq.value.operators|..]
      ensures ok ==> && opToEndpointMapping.Some?
                     && comm.sent == old(comm.sent) + [
                          Sent(Code(readDataFromFile(pathToQueryJar), definitionClassName, queryArgs, composeMethodName),
                               InvolvedConnections()),
                          Sent(MaterializeTask(opToEndpointMapping.value), InvolvedConnections())]
                     && lifeManager.status == QUERY_DEPLOYED
      ensures old(InSync()) ==> InSync()
    {
      var allowed := lifeManager.CanTransitTo(QUERY_DEPLOYED);
      if !allowed {
        return false;
      }
      if !CanStartExecution() {
        return false;
      }
      if opToEndpointMapping.None? {
        var mapping := CreateMappingOfOperatorWithEndPoint(slq.value);
        opToEndpointMapping := Some(mapping);
      }
      var involvedEUId := GetInvolvedEuIdIn(opToEndpointMapping.value.Values);
      var connections := GetConnectionsTo(involvedEUId);
      SendQueryToNodes(connections);
      SendMaterializeTaskToNodes(connections);
      lifeManager.TryTransitTo(QUERY_DEPLOYED);
      ok := true;
    }

    method StartQuery() returns (ok: bool)
      requires lifeManager.CanTransitTo(QUERY_RUNNING) ==> opToEndpointMapping.Some?
      modifies lifeManager, comm
      ensures ok == old(lifeManager.CanTransitTo(QUERY_RUNNING))
      ensures !ok ==> unchanged(lifeManager, comm)
      ensures ok ==> && comm.sent == old(comm.sent) + [Sent(MasterWorkerCommand.StartQuery, InvolvedConnections())]
                     && lifeManager.status == QUERY_RUNNING
      ensures old(InSync()) ==> InSync()
    {
      var allowed := lifeManager.CanTransitTo(QUERY_RUNNING);
      if !allowed {
        return false;
      }
      var involvedEUId := GetInvolvedEuIdIn(opToEndpointMapping.value.Values);
      var connections := GetConnectionsTo(involvedEUId);
      comm.SendObjectSync(MasterWorkerCommand.StartQuery, connections);
      lifeManager.TryTransitTo(QUERY_RUNNING);
      ok := true;
    }

    method StopQuery() returns (ok: bool)
      requires lifeManager.CanTransitTo(QUERY_STOPPED) ==> opToEndpointMapping.Some?
      modifies lifeManager, comm
      ensures ok == old(lifeManager.CanTransitTo(QUERY_STOPPED))
      ensures !ok ==> unchanged(lifeManager, comm)
      ensures ok ==> && comm.sent == old(comm.sent) + [Sent(MasterWorkerCommand.StopQuery, InvolvedConnections())]
                     && lifeManager.status == QUERY_STOPPED
      ensures old(InSync()) ==> InSync()
    {
      var allowed := lifeManager.CanTransitTo(QUERY_STOPPED);
      if !allowed {
        return false;
      }
      var involvedEUId := GetInvolvedEuIdIn(opToEndpointMapping.value.Values);
      var connections := GetConnectionsTo(involvedEUId);
      comm.SendObjectSync(MasterWorkerCommand.StopQuery, connections);
      lifeManager.TryTransitTo(QUERY_STOPPED);
      ok := true;
    }

    method SendQueryToNodes(connections: set<Connection>)
      modifies comm
      ensures comm.sent == old(comm.sent) +
        [Sent(Code(readDataFromFile(pathToQueryJar), definitionClassName, queryArgs, composeMethodName), connections)]
    {
      var queryFile := readDataFromFile(pathToQueryJar);
      var code := Code(queryFile, definitionClassName, queryArgs, composeMethodName);
      comm.SendObjectSync(code, connections);
    }

    method SendMaterializeTaskToNodes(connections: set<Connection>)
      requires opToEndpointMapping.Some?
      modifies comm
      ensures comm.sent == old(comm.sent) + [Sent(MaterializeTask(opToEndpointMapping.value), connections)]
    {
      comm.SendObjectSync(MaterializeTask(opToEndpointMapping.value), connections);
    }
  }

  /**
   * The class-level field `qm` read by `getInstance`; nothing in the class
   * ever assigns it.
   */
  class InstanceHolder {
    var qm: MaterializedQueryManager?

    constructor ()
      ensures qm == null
    {
      qm := null;
    }

    /** `getInstance` as written: returns `qm` when set, otherwise a new manager that is not stored. */
    method GetInstanceAsWritten(inf: InfrastructureManager, mapOpToEndPoint: Option<map<int, EndPoint>>, comm: Comm,
                                lifeManager: LifecycleManager, readDataFromFile: Option<string> -> seq<bv8>,
                                executeComposeFromQuery: (string, string, seq<string>, string) -> SeepLogicalQuery)
      returns (m: MaterializedQueryManager)
      ensures old(qm) != null ==> m == qm
      ensures old(qm) == null ==> && fresh(m) && m.Valid() && m.slq.None?
                                  && m.inf == inf && m.comm == comm && m.lifeManager == lifeManager
                                  && m.opToEndpointMapping == mapOpToEndPoint
    {
      if qm == null {
        m := new MaterializedQueryManager(inf, mapOpToEndPoint, comm, lifeManager, readDataFromFile, executeComposeFromQuery);
      } else {
        m := qm;
      }
    }

    /** `getInstance` as a singleton accessor: the first manager built is kept and returned by every later call. */
    method GetInstance(inf: InfrastructureManager, mapOpToEndPoint: Option<map<int, EndPoint>>, comm: Comm,
                       lifeManager: LifecycleManager, readDataFromFile: Option<string> -> seq<bv8>,
                       executeComposeFromQuery: (string, string, seq<string>, string) -> SeepLogicalQuery)
      returns (m: MaterializedQueryManager)
      modifies this
      ensures qm == m
      ensures old(qm) != null ==> m == old(qm)
      ensures old(qm) == null ==> && fresh(m) && m.Valid() && m.slq.None?
                                  && m.inf == inf && m.comm == comm && m.lifeManager == lifeManager
                                  && m.opToEndpointMapping == mapOpToEndPoint
    {
      if qm == null {
        qm := new MaterializedQueryManager(inf, mapOpToEndPoint, comm, lifeManager, readDataFromFile, executeComposeFromQuery);
      }
      m := qm;
    }
  }

  /** Two successive calls of the accessor as written hand out two different managers. */
  method TwoInstancesAsWritten(inf: InfrastructureManager, comm: Comm, lifeManager: LifecycleManager,
                               readDataFromFile: Option<string> -> seq<bv8>,
                               executeComposeFromQuery: (string, string, seq<string>, string) -> SeepLogicalQuery)
    returns (first: MaterializedQueryManager, second: MaterializedQueryManager)
    ensures first != second
  {
    var holder := new InstanceHolder();
    first := holder.GetInstanceAsWritten(inf, None, comm, lifeManager, readDataFromFile, executeComposeFromQuery);
    second := holder.GetInstanceAsWritten(inf, None, comm, lifeManager, readDataFromFile, executeComposeFromQuery);
  }

  /** With the singleton accessor, successive calls hand out the same manager. */
  method OneInstance(inf: InfrastructureManager, comm: Comm, lifeManager: LifecycleManager,
                     readDataFromFile: Option<string> -> seq<bv8>,
                     executeComposeFromQuery: (string, string, seq<string>, string) -> SeepLogicalQuery)
    returns (first: MaterializedQueryManager, second: MaterializedQueryManager)
    ensures first == second
  {
    var holder := new InstanceHolder();
    first := holder.GetInstance(inf, None, comm, lifeManager, readDataFromFile, executeComposeFromQuery);
    second := holder.GetInstance(inf, None, comm, lifeManager, readDataFromFile, executeComposeFromQuery);
  }

  /** Two operators with distinct ids on two units with distinct ids involve exactly those two units. */
  lemma TwoOperatorMapping(op1: LogicalOperator, op2: LogicalOperator, u1: ExecutionUnit, u2: ExecutionUnit)
    requires op1.id != op2.id
    ensures MappingOf([op1, op2], [u1, u2]) == map[op1.id := u1.endPoint, op2.id := u2.endPoint]
    ensures EuIdsOf(MappingOf([op1, op2], [u1, u2]).Values) == {u1.endPoint.id, u2.endPoint.id}
    ensures GetConnectionsTo({u1.endPoint.id, u2.endPoint.id}) == {Connection(u1.endPoint.id), Connection(u2.endPoint.id)}
  {
    assert [op1, op2][..1] == [op1] && [op1][..0] == [];
    var m := MappingOf([op1, op2], [u1, u2]);
    assert MappingOf([op1], [u1, u2]) == map[op1.id := u1.endPoint];
    assert m == map[op1.id := u1.endPoint, op2.id := u2.endPoint];
    assert m[op1.id] == u1.endPoint && m[op2.id] == u2.endPoint;
    assert m.Values == {u1.endPoint, u2.endPoint};
  }

  /** A fresh manager, under the successor order `IsSuccessor`, that has just accepted query `q` with `units` in its pool. */
  method SubmittedManager(q: SeepLogicalQuery, units: seq<ExecutionUnit>,
                          readDataFromFile: Option<string> -> seq<bv8>,
                          executeComposeFromQuery: (string, string, seq<string>, string) -> SeepLogicalQuery)
    returns (qm: MaterializedQueryManager)
    ensures fresh(qm) && fresh(qm.lifeManager) && fresh(qm.inf) && fresh(qm.comm)
    ensures qm.Valid() && qm.InSync()
    ensures qm.lifeManager.status == QUERY_SUBMITTED && qm.lifeManager.CanTransitTo(QUERY_DEPLOYED)
    ensures qm.slq == Some(q) && qm.opToEndpointMapping.None?
    ensures qm.inf.units == units && qm.comm.sent == []
  {
    var life := new LifecycleManager(IsSuccessor);
    var inf := new InfrastructureManager(units);
    var comm := new Comm();
    qm := new MaterializedQueryManager(inf, None, comm, life, readDataFromFile, executeComposeFromQuery);
    var loaded := qm.LoadQueryFromParameter(q, "query.jar", "Base", [], "compose");
    assert loaded;
  }

  /** A two-operator query is submitted with one unit available: deployment fails and nothing is sent. */
  method DeployWithTooFewUnits(op1: LogicalOperator, op2: LogicalOperator, u1: ExecutionUnit,
                               readDataFromFile: Option<string> -> seq<bv8>,
                               executeComposeFromQuery: (string, string, seq<string>, string) -> SeepLogicalQuery)
    returns (ok: bool, sent: seq<Sent>, status: AppStatus)
    ensures !ok && sent == [] && status == QUERY_SUBMITTED
  {
    var qm := SubmittedManager(SeepLogicalQuery([op1, op2]), [u1], readDataFromFile, executeComposeFromQuery);
    ok := qm.DeployQueryToNodes();
    sent, status := qm.comm.sent, qm.lifeManager.status;
  }

  /**
   * A two-operator query is submitted with two units available: deployment
   * succeeds and broadcasts Code, then MaterializeTask, to both units.
   */
  method DeploymentScenario(op1: LogicalOperator, op2: LogicalOperator, u1: ExecutionUnit, u2: ExecutionUnit,
                            readDataFromFile: Option<string> -> seq<bv8>,
                            executeComposeFromQuery: (string, string, seq<string>, string) -> SeepLogicalQuery)
    returns (sent: seq<Sent>, status: AppStatus)
    requires op1.id != op2.id && u1.endPoint.id != u2.endPoint.id
    ensures status == QUERY_DEPLOYED
    ensures |sent| == 2 && sent[0].command.Type() == CODE && sent[1].command.Type() == MATERIALIZE_TASK
    ensures sent[0].connections == sent[1].connections == {Connection(u1.endPoint.id), Connection(u2.endPoint.id)}
  {
    var qm := SubmittedManager(SeepLogicalQuery([op1, op2]), [u1, u2], readDataFromFile, executeComposeFromQuery);
    TwoOperatorMapping(op1, op2, u1, u2);
    var ok := qm.DeployQueryToNodes();
    assert ok;
    assert qm.opToEndpointMapping == Some(MappingOf([op1, op2], [u1, u2]));
    ghost var conns := qm.InvolvedConnections();
    assert conns == {Connection(u1.endPoint.id), Connection(u2.endPoint.id)};
    sent, status := qm.comm.sent, qm.lifeManager.status;
  }
}
