/**
 * The single-threaded processing engine of a worker: one loop visits the
 * input adapters round-robin, pulls a data item from each (blocking at most
 * a fixed time), and hands every tuple of the item to the task; an engine
 * with no input adapters is a source and calls the task with no data.
 *
 * The adapters' data is a parameter: each adapter's feed lists what its
 * successive pulls return (None where a pull times out). Another thread's
 * call to stop() is the parameter `stopAfter`: the number of loop steps the
 * worker completes before it can observe `working == false`. The loop runs
 * forever in the system; `steps` bounds the steps the model looks at.
 */
module ProcessingEngines {
  import opened Wrappers
  import opened SeepApi
  import opened InputAdapters
  import opened CoreOutputs

  /** How an adapter delivers data: one item per pull, or a group. */
  datatype ReturnType = ONE | MANY

  datatype ITuple = ITuple(payload: seq<int>)

  /** A data item: the tuples its consume() hands out, in order, before it answers null. */
  datatype DataItem = DataItem(tuples: seq<ITuple>)

  /** One input adapter's behaviour: its return type and the results of its successive pulls. */
  datatype AdapterFeed = AdapterFeed(returnType: ReturnType, pulls: seq<Option<DataItem>>)

  /** What the worker does, in order: pull from adapter `adapter`, or call the task. */
  datatype EngineEvent =
    | Pulled(adapter: nat)
    | ProcessData(data: Option<ITuple>)
    | ProcessDataGroup(group: ITuple)

  /** The `round`-th pull of an adapter; pulls past the end of the feed time out. */
  function Pull(f: AdapterFeed, round: nat): Option<DataItem> {
    if round < |f.pulls| then f.pulls[round] else None
  }

  /** The task call for one consumed tuple: processData for ONE, processDataGroup for MANY. */
  function TupleCall(rt: ReturnType, t: ITuple): EngineEvent {
    if rt == ONE then ProcessData(Some(t)) else ProcessDataGroup(t)
  }

  /** The task calls made while draining an item. */
  function DrainCalls(rt: ReturnType, item: DataItem): seq<EngineEvent> {
    seq(|item.tuples|, i requires 0 <= i < |item.tuples| => TupleCall(rt, item.tuples[i]))
  }

  /**
   * The consume loop: tuples are taken from the item until it answers null,
   * and every one goes to the task exactly once, in the item's order.
   */
  method Drain(rt: ReturnType, item: DataItem) returns (calls: seq<EngineEvent>)
    ensures |calls| == |item.tuples|
    ensures forall i :: 0 <= i < |calls| ==> calls[i] == TupleCall(rt, item.tuples[i])
    ensures calls == DrainCalls(rt, item)
  {
    calls := [];
    var next := 0;
    var consume := true;
    while consume
      invariant next <= |item.tuples|
      invariant |calls| == next
      invariant forall i :: 0 <= i < next ==> calls[i] == TupleCall(rt, item.tuples[i])
      invariant !consume ==> next == |item.tuples|
      decreases |item.tuples| - next, consume
    {
      var d := if next < |item.tuples| then Some(item.tuples[next]) else None;
      if d.Some? {
        calls := calls + [TupleCall(rt, d.value)];
        next := next + 1;
      } else {
        consume := false;
      }
    }
  }

  /** One visit to an adapter: the pull, then the task calls for the item, if one arrived. */
  function VisitEvents(f: AdapterFeed, adapter: nat, round: nat): seq<EngineEvent> {
    [Pulled(adapter)] + (match Pull(f, round) case None => [] case Some(di) => DrainCalls(f.returnType, di))
  }

  /** One visit: pull from the adapter, then drain the item if one arrived. */
  method Visit(f: AdapterFeed, adapter: nat, round: nat) returns (events: seq<EngineEvent>)
    ensures events == VisitEvents(f, adapter, round)
  {
    events := [Pulled(adapter)];
    var di := Pull(f, round);
    if di.Some? {
      var calls := Drain(f.returnType, di.value);
      events := events + calls;
    }
  }

  /** The adapter after `cursor`: the iterator restarts from the first when it runs out. */
  function NextCursor(n: nat, cursor: nat): (r: nat)
    requires cursor < n
    ensures r < n
    ensures r == Cyclic(n, cursor + 1)
  {
    if cursor + 1 == n then 0 else cursor + 1
  }

  /**
   * `k` visits starting at adapter `cursor` in round `round`: a round ends
   * when the iterator restarts, so an adapter's `m`-th visit makes its
   * `m`-th pull.
   */
  function RoundRobin(feeds: seq<AdapterFeed>, cursor: nat, round: nat, k: nat): seq<EngineEvent>
    requires cursor < |feeds|
    decreases k
  {
    if k == 0 then []
    else
      var next := NextCursor(|feeds|, cursor);
      VisitEvents(feeds[cursor], cursor, round) + RoundRobin(feeds, next, if next == 0 then round + 1 else round, k - 1)
  }

  /** One visit, then the rest of the run from the next adapter. */
  lemma RoundRobinStep(feeds: seq<AdapterFeed>, cursor: nat, round: nat, k: nat)
    requires cursor < |feeds| && k > 0
    ensures var next := NextCursor(|feeds|, cursor);
            forall prefix: seq<EngineEvent> ::
              prefix + RoundRobin(feeds, cursor, round, k) ==
              (prefix + VisitEvents(feeds[cursor], cursor, round)) + RoundRobin(feeds, next, if next == 0 then round + 1 else round, k - 1)
  {
  }

  /** `k` calls of a source task: processData with no data. */
  function SourceCalls(k: nat): seq<EngineEvent> {
    seq(k, _ => ProcessData(None))
  }

  lemma SourceCallsStep(k: nat)
    ensures SourceCalls(k + 1) == SourceCalls(k) + [ProcessData(None)]
  {
  }

  /** The adapter indices of the pulls in a trace, in order. */
  function PulledOrder(events: seq<EngineEvent>): seq<nat> {
    if events == [] then []
    else (if events[0].Pulled? then [events[0].adapter] else []) + PulledOrder(events[1..])
  }

  /** The adapters `k` round-robin visits starting at `c` go to. */
  function VisitOrder(n: nat, c: nat, k: nat): seq<nat>
    requires c < n
    decreases k
  {
    if k == 0 then [] else [c] + VisitOrder(n, NextCursor(n, c), k - 1)
  }

  lemma {:induction false} PulledOrderConcat(a: seq<EngineEvent>, b: seq<EngineEvent>)
    ensures PulledOrder(a + b) == PulledOrder(a) + PulledOrder(b)
    decreases |a|
  {
    if a != [] {
      assert (a + b)[0] == a[0];
      assert (a + b)[1..] == a[1..] + b;
      PulledOrderConcat(a[1..], b);
    } else {
      assert a + b == b;
    }
  }

  /** Draining an item pulls from no adapter. */
  lemma {:induction false} DrainCallsPullNothing(rt: ReturnType, item: DataItem)
    ensures PulledOrder(DrainCalls(rt, item)) == []
    decreases |item.tuples|
  {
    if item.tuples != [] {
      var rest := DataItem(item.tuples[1..]);
      DrainCallsPullNothing(rt, rest);
      assert DrainCalls(rt, item)[1..] == DrainCalls(rt, rest);
    }
  }

  /** A visit makes exactly one pull, from the visited adapter. */
  lemma VisitPullsOnce(f: AdapterFeed, adapter: nat, round: nat)
    ensures PulledOrder(VisitEvents(f, adapter, round)) == [adapter]
  {
    var tail := match Pull(f, round) case None => [] case Some(di) => DrainCalls(f.returnType, di);
    PulledOrderConcat([Pulled(adapter)], tail);
    if Pull(f, round).Some? {
      DrainCallsPullNothing(f.returnType, Pull(f, round).value);
    }
  }

  /** The pulls of a round-robin run go to the adapters in cyclic order. */
  lemma {:induction false} RoundRobinVisitOrder(feeds: seq<AdapterFeed>, cursor: nat, round: nat, k: nat)
    requires cursor < |feeds|
    ensures PulledOrder(RoundRobin(feeds, cursor, round, k)) == VisitOrder(|feeds|, cursor, k)
    decreases k
  {
    if k > 0 {
      var next := NextCursor(|feeds|, cursor);
      var nextRound := if next == 0 then round + 1 else round;
      VisitPullsOnce(feeds[cursor], cursor, round);
      PulledOrderConcat(VisitEvents(feeds[cursor], cursor, round), RoundRobin(feeds, next, nextRound, k - 1));
      RoundRobinVisitOrder(feeds, next, nextRound, k - 1);
    }
  }

  /** `x` reduced modulo `n`: the adapter a cyclic count of `x` visits lands on. */
  function Cyclic(n: nat, x: nat): (r: nat)
    requires n > 0
    ensures r < n
    decreases x
  {
    if x < n then x else Cyclic(n, x - n)
  }

  lemma {:induction false} CyclicAdd(n: nat, x: nat, d: nat)
    requires n > 0
    ensures Cyclic(n, x + d) == Cyclic(n, Cyclic(n, x) + d)
    decreases x
  {
    if x >= n {
      CyclicAdd(n, x - n, d);
    }
  }

  lemma {:induction false} VisitOrderLength(n: nat, c: nat, k: nat)
    requires c < n
    ensures |VisitOrder(n, c, k)| == k
    decreases k
  {
    if k > 0 {
      VisitOrderLength(n, NextCursor(n, c), k - 1);
    }
  }

  /** The `j`-th visit starting at adapter `c` goes to adapter `(c + j) mod n`. */
  lemma {:induction false} VisitOrderAt(n: nat, c: nat, k: nat, j: nat)
    requires c < n && j < k
    ensures |VisitOrder(n, c, k)| == k
    ensures VisitOrder(n, c, k)[j] == Cyclic(n, c + j)
    decreases k
  {
    VisitOrderLength(n, c, k);
    if j > 0 {
      VisitOrderAt(n, NextCursor(n, c), k - 1, j - 1);
    }
  }

  /**
   * Fairness: any `n` consecutive visits among `n` adapters visit every
   * adapter, so no adapter is starved however the others behave.
   */
  lemma EveryAdapterEachRound(n: nat, c: nat, k: nat, i: nat, a: nat)
    requires c < n && a < n && i + n <= k
    ensures |VisitOrder(n, c, k)| == k
    ensures exists j :: i <= j < i + n && VisitOrder(n, c, k)[j] == a
  {
    VisitOrderLength(n, c, k);
    var r := Cyclic(n, c + i);
    var d := if a >= r then a - r else n - r + a;
    VisitOrderAt(n, c, k, i + d);
    CyclicAdd(n, c + i, d);
    assert VisitOrder(n, c, k)[i + d] == a;
  }

  /** With at least one adapter the task is never called without data. */
  lemma {:induction false} RoundRobinNoSourceCall(feeds: seq<AdapterFeed>, cursor: nat, round: nat, k: nat)
    requires cursor < |feeds|
    ensures ProcessData(None) !in RoundRobin(feeds, cursor, round, k)
    decreases k
  {
    if k > 0 {
      var next := NextCursor(|feeds|, cursor);
      RoundRobinNoSourceCall(feeds, next, if next == 0 then round + 1 else round, k - 1);
      var f := feeds[cursor];
      if Pull(f, round).Some? {
        var calls := DrainCalls(f.returnType, Pull(f, round).value);
        assert forall e :: e in calls ==> e != ProcessData(None);
      }
    }
  }

  function Min(a: nat, b: nat): nat {
    if a <= b then a else b
  }

  /**
   * The worker's trace as the loop is written: with no adapters it calls
   * the source task until it sees stop; with adapters the inner loop
   * restarts its iterator forever and never looks at `working` again.
   */
  function RunTraceAsWritten(working: bool, feeds: seq<AdapterFeed>, steps: nat, stopAfter: nat): seq<EngineEvent> {
    if !working || stopAfter == 0 then []
    else if feeds == [] then SourceCalls(Min(steps, stopAfter))
    else RoundRobin(feeds, 0, 0, steps)
  }

  /** The worker's trace when every step checks `working`. */
  function RunTrace(working: bool, feeds: seq<AdapterFeed>, steps: nat, stopAfter: nat): seq<EngineEvent> {
    var k := if working then Min(steps, stopAfter) else 0;
    if feeds == [] then SourceCalls(k) else RoundRobin(feeds, 0, 0, k)
  }

  /** As written, stop() does not end an engine that has input adapters: it keeps pulling. */
  lemma StopIgnoredAsWritten(feeds: seq<AdapterFeed>, steps: nat, stopAfter: nat)
    requires feeds != [] && 0 < stopAfter < steps
    ensures |PulledOrder(RunTraceAsWritten(true, feeds, steps, stopAfter))| == steps
    ensures |PulledOrder(RunTrace(true, feeds, steps, stopAfter))| == stopAfter
  {
    RoundRobinVisitOrder(feeds, 0, 0, steps);
    VisitOrderLength(|feeds|, 0, steps);
    RoundRobinVisitOrder(feeds, 0, 0, stopAfter);
    VisitOrderLength(|feeds|, 0, stopAfter);
  }

  /** A concrete run: one adapter that never delivers, stopped after its first pull. */
  lemma StopIgnoredExample()
    ensures RunTraceAsWritten(true, [AdapterFeed(ONE, [])], 2, 1) == [Pulled(0), Pulled(0)]
    ensures RunTrace(true, [AdapterFeed(ONE, [])], 2, 1) == [Pulled(0)]
  {
    var feeds := [AdapterFeed(ONE, [])];
    assert VisitEvents(feeds[0], 0, 0) == [Pulled(0)];
    assert VisitEvents(feeds[0], 0, 1) == [Pulled(0)];
    assert RoundRobin(feeds, 0, 2, 0) == [];
    assert RoundRobin(feeds, 0, 1, 1) == [Pulled(0)];
  }

  /**
   * With every step checking `working`, the worker takes no step after it
   * sees stop, and it never calls the task without data while it has
   * adapters.
   */
  lemma StopEndsProcessing(working: bool, feeds: seq<AdapterFeed>, steps: nat, stopAfter: nat)
    ensures feeds == [] ==> |RunTrace(working, feeds, steps, stopAfter)| <= stopAfter
    ensures feeds != [] ==> |PulledOrder(RunTrace(working, feeds, steps, stopAfter))| <= stopAfter
    ensures feeds != [] ==> ProcessData(None) !in RunTrace(working, feeds, steps, stopAfter)
    ensures !working ==> RunTrace(working, feeds, steps, stopAfter) == []
  {
    var k := if working then Min(steps, stopAfter) else 0;
    if feeds != [] {
      RoundRobinVisitOrder(feeds, 0, 0, k);
      VisitOrderLength(|feeds|, 0, k);
      RoundRobinNoSourceCall(feeds, 0, 0, k);
    }
  }

  class SingleThreadProcessingEngine {
    /** Bound on how long one pull blocks, in milliseconds; the feeds' timeouts stand for it. */
    const MaxBlockingTimePerInputAdapterMs: int

    var working: bool
    var id: int
    var coreInput: Option<CoreInput>
    var coreOutput: Option<CoreOutput>
    var task: Option<SeepTask>
    var state: Option<SeepState>

    constructor ()
      ensures MaxBlockingTimePerInputAdapterMs == 500
      ensures !working && id == 0
      ensures coreInput.None? && coreOutput.None? && task.None? && state.None?
    {
      MaxBlockingTimePerInputAdapterMs := 500;
      working := false;
      id := 0;
      coreInput := None;
      coreOutput := None;
      task := None;
      state := None;
    }

    method SetId(newId: int)
      modifies this`id
      ensures id == newId
    {
      id := newId;
    }

    method SetCoreInput(ci: Option<CoreInput>)
      modifies this`coreInput
      ensures coreInput == ci
    {
      coreInput := ci;
    }

    method SetCoreOutput(co: Option<CoreOutput>)
      modifies this`coreOutput
      ensures coreOutput == co
    {
      coreOutput := co;
    }

    method SetTask(t: Option<SeepTask>)
      modifies this`task
      ensures task == t
    {
      task := t;
    }

    method SetSeepState(s: Option<SeepState>)
      modifies this`state
      ensures state == s
    {
      state := s;
    }

    /** Raises the flag the worker loop checks; the worker thread itself is `Run`. */
    method Start()
      modifies this`working
      ensures working
    {
      working := true;
    }

    method Stop()
      modifies this`working
      ensures !working
    {
      working := false;
    }

    /**
     * The worker loop as written. Without input or output configured, the
     * worker dies on its first statement and does nothing.
     */
    method RunAsWritten(feeds: seq<AdapterFeed>, steps: nat, stopAfter: nat) returns (trace: seq<EngineEvent>)
      requires coreInput.Some? ==> |feeds| == |coreInput.value.adapters|
      requires task.Some?
      ensures coreInput.None? || coreOutput.None? ==> trace == []
      ensures coreInput.Some? && coreOutput.Some? ==> trace == RunTraceAsWritten(working, feeds, steps, stopAfter)
    {
      trace := [];
      if coreInput.None? || coreOutput.None? {
        return;
      }
      var n := |feeds|;
      var cursor: nat := 0;
      var round: nat := 0;
      var done: nat := 0;
      var live := working && done < stopAfter;
      while live && done < steps
        invariant done <= steps
        invariant !(working && 0 < stopAfter) ==> done == 0 && trace == []
        invariant n == 0 ==> trace == SourceCalls(done) && done <= stopAfter && live == (working && done < stopAfter)
        invariant n > 0 ==> cursor == 0 && round == 0 && done == 0 && trace == [] && live == (working && 0 < stopAfter)
        decreases steps - done
      {
        while cursor < n && done < steps
          invariant done <= steps
          invariant n == 0 ==> trace == SourceCalls(done) && done <= stopAfter && done < stopAfter && done < steps
          invariant n > 0 ==> cursor < n && trace + RoundRobin(feeds, cursor, round, steps - done) == RoundRobin(feeds, 0, 0, steps)
          decreases steps - done
        {
          var events := Visit(feeds[cursor], cursor, round);
          var next := NextCursor(n, cursor);
          var nextRound := if next == 0 then round + 1 else round;
          RoundRobinStep(feeds, cursor, round, steps - done);
          trace := trace + events;
          done := done + 1;
          cursor, round := next, nextRound;
        }
        if done == steps {
          break;
        }
        trace := trace + [ProcessData(None)];
        done := done + 1;
        live := working && done < stopAfter;
      }
    }

    /** The worker loop with `working` checked before every step. */
    method Run(feeds: seq<AdapterFeed>, steps: nat, stopAfter: nat) returns (trace: seq<EngineEvent>)
      requires coreInput.Some? ==> |feeds| == |coreInput.value.adapters|
      requires task.Some?
      ensures coreInput.None? || coreOutput.None? ==> trace == []
      ensures coreInput.Some? && coreOutput.Some? ==> trace == RunTrace(working, feeds, steps, stopAfter)
    {
      trace := [];
      if coreInput.None? || coreOutput.None? {
        return;
      }
      var n := |feeds|;
      ghost var total := if working then Min(steps, stopAfter) else 0;
      var cursor: nat := 0;
      var round: nat := 0;
      var done: nat := 0;
      var live := working && done < stopAfter;
      while live && done < steps
        invariant done <= total
        invariant live == (working && done < stopAfter)
        invariant live && done < steps <==> done < total
        invariant n == 0 ==> trace == SourceCalls(done)
        invariant n > 0 ==> cursor < n && trace + RoundRobin(feeds, cursor, round, total - done) == RoundRobin(feeds, 0, 0, total)
        decreases steps - done
      {
        if n == 0 {
          SourceCallsStep(done);
          trace := trace + [ProcessData(None)];
        } else {
          var events := Visit(feeds[cursor], cursor, round);
          var next := NextCursor(n, cursor);
          var nextRound := if next == 0 then round + 1 else round;
          RoundRobinStep(feeds, cursor, round, total - done);
          trace := trace + events;
          cursor, round := next, nextRound;
        }
        done := done + 1;
        live := working && done < stopAfter;
      }
    }
  }
}
