/**
 * The worker-side conductor: it receives the query and the operator-to-unit
 * mapping from the master, finds the operator that lives on this execution
 * unit, builds its input and output adapters and data-store selectors,
 * configures the processing engine, and starts and stops processing.
 *
 * The input-adapter and selector factories are not part of this model; they
 * are the functions `buildCoreInput` and `buildSelectors`. Calls into the
 * task, the selectors and the master are recorded, in order, in `events`
 * and `reported`.
 */
module Conductors {
  import opened Wrappers
  import opened SeepApi
  import opened Protocol
  import opened InputAdapters
  import opened CoreOutputs
  import opened ProcessingEngines

  /** The unit of scheduled work kept per stage. */
  datatype ScheduleTask = ScheduleTask(euId: int, stage: Stage, query: SeepLogicalQuery)

  /** What is done to every data-store selector in one pass. */
  datatype SelectorAction = Init | StartSelector | StopSelector

  datatype ConductorEvent =
    | StateInjected(state: SeepState)
    | TaskSetUp(task: SeepTask)
    | SelectorCalled(action: SelectorAction, selector: int)
    | EngineStarted
    | EngineStopped

  /** One pass over the selectors: one call per selector, in list order. */
  function SelectorEvents(action: SelectorAction, sels: seq<DataStoreSelector>): seq<ConductorEvent> {
    seq(|sels|, i requires 0 <= i < |sels| => SelectorCalled(action, sels[i].id))
  }

  /**
   * The event hook the output ends up with: the last selector that is an
   * event API, if any (each one found overwrites the previous).
   */
  function LastEventApi(sels: seq<DataStoreSelector>): (r: Option<DataStoreSelector>)
    ensures r.None? <==> forall i :: 0 <= i < |sels| ==> !sels[i].isEventApi
    ensures r.Some? ==> r.value in sels && r.value.isEventApi
    decreases |sels|
  {
    if sels == [] then None
    else if sels[|sels| - 1].isEventApi then Some(sels[|sels| - 1])
    else
      var init := sels[..|sels| - 1];
      assert forall i :: 0 <= i < |init| ==> init[i] == sels[i];
      LastEventApi(init)
  }

  /** No event-API selector comes after the one chosen as the hook. */
  lemma {:induction false} LastEventApiIsLast(sels: seq<DataStoreSelector>)
    requires LastEventApi(sels).Some?
    ensures exists i :: 0 <= i < |sels| && sels[i] == LastEventApi(sels).value &&
                        forall j :: i < j < |sels| ==> !sels[j].isEventApi
    decreases |sels|
  {
    var n := |sels| - 1;
    if sels[n].isEventApi {
      assert sels[n] == LastEventApi(sels).value;
    } else {
      var init := sels[..n];
      LastEventApiIsLast(init);
      var i :| 0 <= i < |init| && init[i] == LastEventApi(init).value && forall j :: i < j < |init| ==> !init[j].isEventApi;
      assert sels[i] == LastEventApi(sels).value;
    }
  }

  /** The loop that registers every event-API selector as the output's hook. */
  method WireEventApi(co: CoreOutput, sels: seq<DataStoreSelector>) returns (r: CoreOutput)
    ensures r.adapters == co.adapters
    ensures r.eventApi == if LastEventApi(sels).Some? then LastEventApi(sels) else co.eventApi
  {
    r := co;
    for i := 0 to |sels|
      invariant r.adapters == co.adapters
      invariant r.eventApi == if LastEventApi(sels[..i]).Some? then LastEventApi(sels[..i]) else co.eventApi
    {
      assert sels[..i + 1][..i] == sels[..i];
      var dss := sels[i];
      if dss.isEventApi {
        r := r.(eventApi := Some(dss));
      }
    }
    assert sels[..|sels|] == sels;
  }

  /** The stage table after registering `stages` in order: a later stage replaces an earlier one with the same id. */
  function ScheduleTable(tasks: map<int, ScheduleTask>, euId: int, stages: seq<Stage>, q: SeepLogicalQuery)
    : map<int, ScheduleTask>
    decreases |stages|
  {
    if stages == [] then tasks
    else
      var s := stages[|stages| - 1];
      ScheduleTable(tasks, euId, stages[..|stages| - 1], q)[s.stageId := ScheduleTask(euId, s, q)]
  }

  /** The table's keys are the old keys plus every registered stage id. */
  lemma {:induction false} ScheduleTableKeys(tasks: map<int, ScheduleTask>, euId: int, stages: seq<Stage>, q: SeepLogicalQuery)
    ensures ScheduleTable(tasks, euId, stages, q).Keys == tasks.Keys + (set s | s in stages :: s.stageId)
    decreases |stages|
  {
    if stages != [] {
      var init := stages[..|stages| - 1];
      ScheduleTableKeys(tasks, euId, init, q);
      assert stages == init + [stages[|stages| - 1]];
    }
  }

  /** Every registered stage maps to its task for this unit and query; other entries are kept. */
  lemma {:induction false} ScheduleTableAt(tasks: map<int, ScheduleTask>, euId: int, stages: seq<Stage>, q: SeepLogicalQuery, k: int)
    ensures (exists s :: s in stages && s.stageId == k) ==>
              k in ScheduleTable(tasks, euId, stages, q) && ScheduleTable(tasks, euId, stages, q)[k] == ScheduleTask(euId, Stage(k), q)
    ensures (forall s :: s in stages ==> s.stageId != k) ==>
              (k in ScheduleTable(tasks, euId, stages, q) <==> k in tasks) &&
              (k in tasks ==> ScheduleTable(tasks, euId, stages, q)[k] == tasks[k])
    decreases |stages|
  {
    if stages != [] {
      var init := stages[..|stages| - 1];
      ScheduleTableAt(tasks, euId, init, q, k);
      assert stages == init + [stages[|stages| - 1]];
    }
  }

  /**
   * The output built for operator `op`: one adapter per downstream stream in
   * some order of the stream ids, with the last event-API selector as hook.
   */
  ghost predicate OutputFor(co: CoreOutput, op: LogicalOperator, m: map<int, EndPoint>, sels: seq<DataStoreSelector>) {
    && (exists order :: IsKeyOrder(order, StreamIds(op.downstream)) && co.adapters == AdaptersFor(order, op.downstream, m))
    && co.eventApi == LastEventApi(sels)
  }

  /**
   * The operator is found in the query and, when stateful, carries its state
   * and has a task that accepts it (the cast to `StatefulSeepTask` succeeds).
   */
  predicate OperatorReady(q: SeepLogicalQuery, opId: int) {
    var o := GetOperatorWithId(q, opId);
    o.Some? && (o.value.stateful ==> o.value.state.Some? && o.value.task.acceptsState)
  }

  class Conductor {
    var id: int
    var query: Option<SeepLogicalQuery>
    var mapping: Option<map<int, EndPoint>>
    var dataStoreSelectors: Option<seq<DataStoreSelector>>
    var coreInput: Option<CoreInput>
    var coreOutput: Option<CoreOutput>
    /** Stage id to the task scheduled for it. */
    var scheduleTasks: map<int, ScheduleTask>
    /** Calls made into the task, the selectors and the engine, in order. */
    var events: seq<ConductorEvent>
    /** Stage statuses reported to the master, in order. */
    var reported: seq<StageStatusCommand>

    const engine: SingleThreadProcessingEngine
    const buildCoreInput: LogicalOperator -> CoreInput
    const buildSelectors: (CoreInput, CoreOutput, LogicalOperator) -> seq<DataStoreSelector>

    constructor (buildCoreInput: LogicalOperator -> CoreInput,
                 buildSelectors: (CoreInput, CoreOutput, LogicalOperator) -> seq<DataStoreSelector>)
      ensures fresh(engine) && !engine.working
      ensures engine.coreInput.None? && engine.coreOutput.None?
      ensures this.buildCoreInput == buildCoreInput && this.buildSelectors == buildSelectors
      ensures query.None? && mapping.None? && dataStoreSelectors.None? && coreInput.None? && coreOutput.None?
      ensures scheduleTasks == map[] && events == [] && reported == []
    {
      id := 0;
      query := None;
      mapping := None;
      dataStoreSelectors := None;
      coreInput := None;
      coreOutput := None;
      scheduleTasks := map[];
      events := [];
      reported := [];
      engine := new SingleThreadProcessingEngine();
      this.buildCoreInput := buildCoreInput;
      this.buildSelectors := buildSelectors;
    }

    method SetQuery(newId: int, q: SeepLogicalQuery, m: map<int, EndPoint>)
      modifies this`id, this`query, this`mapping
      ensures id == newId && query == Some(q) && mapping == Some(m)
    {
      id := newId;
      query := Some(q);
      mapping := Some(m);
    }

    /**
     * The operator mapped to execution unit `euId`, or -1 when none is. When
     * several are, the one the map's iteration meets first is returned.
     */
    method GetOpIdLivingInThisEU(euId: int) returns (opId: int)
      requires mapping.Some?
      ensures (opId in mapping.value && mapping.value[opId].id == euId) ||
              (opId == -1 && forall k :: k in mapping.value ==> mapping.value[k].id != euId)
    {
      var m := mapping.value;
      var rest := m.Items;
      while rest != {}
        invariant rest <= m.Items
        invariant forall k :: k in m && (k, m[k]) !in rest ==> m[k].id != euId
        decreases rest
      {
        var entry :| entry in rest;
        if entry.1.id == euId {
          return entry.0;
        }
        rest := rest - {entry};
      }
      return -1;
    }

    /** One call per selector, in list order, recorded as `action`. */
    method ForEachSelector(action: SelectorAction)
      requires dataStoreSelectors.Some?
      modifies this`events
      ensures events == old(events) + SelectorEvents(action, dataStoreSelectors.value)
    {
      var sels := dataStoreSelectors.value;
      for i := 0 to |sels|
        invariant events == old(events) + SelectorEvents(action, sels[..i])
      {
        assert SelectorEvents(action, sels[..i + 1]) == SelectorEvents(action, sels[..i]) + [SelectorCalled(action, sels[i].id)];
        events := events + [SelectorCalled(action, sels[i].id)];
      }
      assert sels[..|sels|] == sels;
    }

    /** The conductor's input, output and selectors are those built for operator `op`. */
    ghost predicate Built(op: LogicalOperator)
      reads this`mapping, this`coreInput, this`coreOutput, this`dataStoreSelectors
    {
      && mapping.Some?
      && coreInput == Some(buildCoreInput(op))
      && coreOutput.Some?
      && dataStoreSelectors == Some(buildSelectors(coreInput.value, coreOutput.value.(eventApi := None), op))
      && OutputFor(coreOutput.value, op, mapping.value, dataStoreSelectors.value)
    }

    /** The engine runs `op`'s task over the conductor's input and output. */
    ghost predicate EngineConfigured(op: LogicalOperator)
      reads this`coreInput, this`coreOutput
      reads engine`id, engine`task, engine`state, engine`coreInput, engine`coreOutput
    {
      && engine.id == op.id && engine.task == Some(op.task) && engine.state == op.state
      && engine.coreInput == coreInput && engine.coreOutput == coreOutput
    }

    /** The task's wiring once operator `op` is configured. */
    ghost predicate Wired(op: LogicalOperator)
      reads this`mapping, this`coreInput, this`coreOutput, this`dataStoreSelectors
      reads engine`id, engine`task, engine`state, engine`coreInput, engine`coreOutput
    {
      Built(op) && EngineConfigured(op)
    }

    /**
     * The calls recorded after `before` once `op` is materialised, in order:
     * state injection, task set-up, selector initialisation.
     */
    ghost function EventsAfterMaterialize(before: seq<ConductorEvent>, op: LogicalOperator): seq<ConductorEvent>
      requires op.stateful ==> op.state.Some?
      requires dataStoreSelectors.Some?
      reads this`dataStoreSelectors
    {
      before + (if op.stateful then [StateInjected(op.state.value)] else []) +
      [TaskSetUp(op.task)] + SelectorEvents(Init, dataStoreSelectors.value)
    }

    /** Builds the input and output adapters and the selectors for `op`, and wires the event hook. */
    method BuildAdapters(op: LogicalOperator)
      requires mapping.Some?
      modifies this`coreInput, this`coreOutput, this`dataStoreSelectors
      ensures Built(op)
    {
      var ci := buildCoreInput(op);
      var co;
      ghost var order;
      co, order := BuildCoreOutputForOperator(op, mapping.value);
      var sels := buildSelectors(ci, co, op);
      var wired := WireEventApi(co, sels);
      assert wired.(eventApi := None) == co;
      assert OutputFor(wired, op, mapping.value, sels);
      coreInput := Some(ci);
      coreOutput := Some(wired);
      dataStoreSelectors := Some(sels);
    }

    /** Builds the adapters and selectors for `op` and configures the engine with them. */
    method Configure(op: LogicalOperator)
      requires mapping.Some?
      requires op.stateful ==> op.state.Some?
      modifies this`events, this`coreInput, this`coreOutput, this`dataStoreSelectors
      modifies engine`id, engine`task, engine`state, engine`coreInput, engine`coreOutput
      ensures Wired(op)
      ensures events == EventsAfterMaterialize(old(events), op)
    {
      if op.stateful {
        events := events + [StateInjected(op.state.value)];
      }
      BuildAdapters(op);
      ConfigureEngine(op);
      assert Built(op);
      events := events + [TaskSetUp(op.task)];
      ForEachSelector(Init);
    }

    /** Hands the operator's id, task and state and the task's input and output to the engine. */
    method ConfigureEngine(op: LogicalOperator)
      modifies engine`id, engine`task, engine`state, engine`coreInput, engine`coreOutput
      ensures EngineConfigured(op)
    {
      engine.SetId(op.id);
      engine.SetTask(Some(op.task));
      engine.SetSeepState(op.state);
      engine.SetCoreInput(coreInput);
      engine.SetCoreOutput(coreOutput);
    }

    /**
     * Finds the operator living on this unit and wires it up. The run fails
     * (a null dereference in the system) with nothing changed when no query
     * was set, when the operator is not in the query, or when a stateful
     * operator carries no state (a null dereference) or has a task that does
     * not accept state (a failed cast); `opId` is the operator looked up.
     */
    method MaterializeAndConfigureTask() returns (ok: bool, ghost opId: int)
      modifies this`events, this`coreInput, this`coreOutput, this`dataStoreSelectors
      modifies engine`id, engine`task, engine`state, engine`coreInput, engine`coreOutput
      ensures mapping.Some? ==>
                (opId in mapping.value && mapping.value[opId].id == id) ||
                (opId == -1 && forall k :: k in mapping.value ==> mapping.value[k].id != id)
      ensures ok <==> mapping.Some? && query.Some? && OperatorReady(query.value, opId)
      ensures !ok ==> unchanged(this) && unchanged(engine)
      ensures ok ==>
                var op := GetOperatorWithId(query.value, opId).value;
                && op in query.value.operators && op.id == opId
                && Wired(op)
                && events == EventsAfterMaterialize(old(events), op)
    {
      opId := -1;
      if mapping.None? {
        return false, opId;
      }
      var found := GetOpIdLivingInThisEU(id);
      opId := found;
      if query.None? {
        return false, opId;
      }
      var o := GetOperatorWithId(query.value, found);
      if o.None? || (o.value.stateful && (o.value.state.None? || !o.value.task.acceptsState)) {
        return false, opId;
      }
      Configure(o.value);
      ok := true;
    }

    /** Registers one schedule task per stage of the description, keyed by stage id. */
    method ConfigureScheduleTasks(newId: int, sd: ScheduleDescription, slq: SeepLogicalQuery)
      modifies this`id, this`query, this`scheduleTasks
      ensures id == newId && query == Some(slq)
      ensures scheduleTasks == ScheduleTable(old(scheduleTasks), newId, sd.stages, slq)
    {
      id := newId;
      query := Some(slq);
      var stages := sd.stages;
      for i := 0 to |stages|
        invariant id == newId && query == Some(slq)
        invariant scheduleTasks == ScheduleTable(old(scheduleTasks), newId, stages[..i], slq)
      {
        assert stages[..i + 1][..i] == stages[..i];
        var s := stages[i];
        var st := ScheduleTask(newId, s, slq);
        scheduleTasks := scheduleTasks[s.stageId := st];
      }
      assert stages[..|stages|] == stages;
    }

    /** Reports the stage as done, with its outputs, to the master. */
    method ScheduleTaskForStage(stageId: int, input: set<DataReference>, output: set<DataReference>)
      modifies this`reported
      ensures reported == old(reported) + [StageStatusCommand(stageId, id, OK, output)]
    {
      reported := reported + [StageStatusCommand(stageId, id, OK, output)];
    }

    /** Starts every selector, then the engine; fails with nothing changed before materialisation. */
    method StartProcessing() returns (ok: bool)
      modifies this`events, engine`working
      ensures ok == dataStoreSelectors.Some?
      ensures !ok ==> events == old(events) && engine.working == old(engine.working)
      ensures ok ==> engine.working && events == old(events) + SelectorEvents(StartSelector, dataStoreSelectors.value) + [EngineStarted]
    {
      if dataStoreSelectors.None? {
        return false;
      }
      ForEachSelector(StartSelector);
      engine.Start();
      events := events + [EngineStarted];
      ok := true;
    }

    /**
     * Stops the engine, then every selector. Before materialisation the
     * engine is stopped and the selector pass fails.
     */
    method StopProcessing() returns (ok: bool)
      modifies this`events, engine`working
      ensures !engine.working
      ensures ok == dataStoreSelectors.Some?
      ensures events == old(events) + [EngineStopped] + (if ok then SelectorEvents(StopSelector, dataStoreSelectors.value) else [])
    {
      engine.Stop();
      events := events + [EngineStopped];
      if dataStoreSelectors.None? {
        return false;
      }
      ForEachSelector(StopSelector);
      ok := true;
    }
  }
}
