/**
 * The master's control listener: a loop that, while working, accepts one
 * connection, reads one command envelope from it, dispatches the command to
 * the master's handler by its type, and closes the connection.
 *
 * Sockets and deserialisation are left to the environment: each accepted
 * attempt is an `Incoming` value saying how it went. The handler calls and
 * the closing of streams and sockets are recorded, in order, as
 * `ListenerEvent`s. The attempts are those that arrive before stop() takes
 * effect.
 */
module MasterWorkerComm {
  import opened Wrappers
  import opened Protocol

  /** How one pass of the listener loop goes. */
  datatype Incoming =
    | AcceptFailed          // accept() throws an I/O error
    | StreamFailed          // the socket is accepted but opening its input stream throws an I/O error
    | ReadFailed            // the input is open but no command can be decoded (an unchecked error)
    | Received(command: Command)

  datatype ListenerEvent =
    | Accepted
    | UnrecognisedFamilyLogged
    | BootstrapHandled(bootstrap: BootstrapCommand)
    | StageStatusHandled(stageStatus: StageStatusCommand)
    | DeadWorkerHandled(deadWorker: DeadWorkerCommand)
    | InputClosed
    | SocketClosed

  /** The events of one pass, and whether the listener thread is still alive after it. */
  datatype Outcome = Outcome(events: seq<ListenerEvent>, alive: bool)

  /**
   * The handler call a command leads to: bootstrap, stage status and dead
   * worker reach the master's handler with their payload; crash is only
   * logged; any other command is ignored.
   */
  function Dispatch(mwc: MasterWorkerCommand): (r: seq<ListenerEvent>)
    ensures |r| <= 1
    ensures r == [] <==> mwc.Type() != BOOTSTRAP && mwc.Type() != STAGE_STATUS && mwc.Type() != DEADWORKER
    ensures forall e :: e in r ==>
              || (e.BootstrapHandled? && mwc == Bootstrap(e.bootstrap))
              || (e.StageStatusHandled? && mwc == StageStatus(e.stageStatus))
              || (e.DeadWorkerHandled? && mwc == DeadWorker(e.deadWorker))
  {
    match mwc
    case Bootstrap(bc) => [BootstrapHandled(bc)]
    case StageStatus(ssc) => [StageStatusHandled(ssc)]
    case DeadWorker(dwc) => [DeadWorkerHandled(dwc)]
    case _ => []
  }

  /** A command from the wrong family is logged, then dispatched anyway. */
  function FamilyCheck(c: Command): (r: seq<ListenerEvent>)
    ensures |r| <= 1 && forall e :: e in r ==> e == UnrecognisedFamilyLogged
    ensures r == [] <==> c.familyType == MASTERCOMMAND
  {
    if c.familyType != MASTERCOMMAND then [UnrecognisedFamilyLogged] else []
  }

  /** Whether a pass gets as far as opening the input stream of its socket. */
  predicate OpensInput(inc: Incoming) {
    inc.ReadFailed? || inc.Received?
  }

  /**
   * One pass as written: when opening the input stream fails the `finally`
   * block closes an input that was never opened, and the resulting null
   * dereference ends the listener before the socket is closed.
   */
  function IterationAsWritten(inc: Incoming): (r: Outcome)
    ensures r.alive <==> inc.AcceptFailed? || inc.Received?
    ensures r.events == [] <==> inc.AcceptFailed?
    ensures r.events != [] ==> r.events[0] == Accepted
    ensures r.events != [] ==> (r.events[|r.events| - 1] == SocketClosed <==> !inc.StreamFailed?)
  {
    match inc
    case AcceptFailed => Outcome([], true)
    case StreamFailed => Outcome([Accepted], false)
    case ReadFailed => Outcome([Accepted, InputClosed, SocketClosed], false)
    case Received(c) => Outcome([Accepted] + FamilyCheck(c) + Dispatch(c.command) + [InputClosed, SocketClosed], true)
  }

  /** One pass with a `finally` block that closes the input only when it was opened. */
  function Iteration(inc: Incoming): (r: Outcome)
    ensures r.alive <==> !inc.ReadFailed?
    ensures r.events == [] <==> inc.AcceptFailed?
    ensures r.events != [] ==> r.events[0] == Accepted && r.events[|r.events| - 1] == SocketClosed
  {
    match inc
    case AcceptFailed => Outcome([], true)
    case StreamFailed => Outcome([Accepted, SocketClosed], true)
    case ReadFailed => Outcome([Accepted, InputClosed, SocketClosed], false)
    case Received(c) => Outcome([Accepted] + FamilyCheck(c) + Dispatch(c.command) + [InputClosed, SocketClosed], true)
  }

  /** The events of the listener from some attempt on, and how many attempts it got through. */
  datatype ListenerRun = ListenerRun(events: seq<ListenerEvent>, served: nat)

  /** The listener from attempt `i` on, as written, up to the pass that ends it. */
  function ListenFromAsWritten(incoming: seq<Incoming>, i: nat): ListenerRun
    decreases |incoming| - i
  {
    if i >= |incoming| then ListenerRun([], 0)
    else
      var o := IterationAsWritten(incoming[i]);
      if o.alive then
        var rest := ListenFromAsWritten(incoming, i + 1);
        ListenerRun(o.events + rest.events, 1 + rest.served)
      else ListenerRun(o.events, 1)
  }

  /** The listener from attempt `i` on, up to the pass that ends it or the last attempt. */
  function ListenFrom(incoming: seq<Incoming>, i: nat): ListenerRun
    decreases |incoming| - i
  {
    if i >= |incoming| then ListenerRun([], 0)
    else
      var o := Iteration(incoming[i]);
      if o.alive then
        var rest := ListenFrom(incoming, i + 1);
        ListenerRun(o.events + rest.events, 1 + rest.served)
      else ListenerRun(o.events, 1)
  }

  /** The number of times `e` occurs in `s`. */
  function Count(s: seq<ListenerEvent>, e: ListenerEvent): nat {
    if s == [] then 0 else (if s[0] == e then 1 else 0) + Count(s[1..], e)
  }

  lemma {:induction false} CountConcat(a: seq<ListenerEvent>, b: seq<ListenerEvent>, e: ListenerEvent)
    ensures Count(a + b, e) == Count(a, e) + Count(b, e)
    decreases |a|
  {
    if a == [] {
      assert a + b == b;
    } else {
      assert (a + b)[0] == a[0];
      assert (a + b)[1..] == a[1..] + b;
      CountConcat(a[1..], b, e);
    }
  }

  /** No handler or logging event is an accept or a close. */
  lemma {:induction false} NoSocketEvents(s: seq<ListenerEvent>)
    requires forall e :: e in s ==> e != Accepted && e != InputClosed && e != SocketClosed
    ensures Count(s, Accepted) == 0 && Count(s, InputClosed) == 0 && Count(s, SocketClosed) == 0
    decreases |s|
  {
    if s != [] {
      assert s[0] in s;
      assert forall e :: e in s[1..] ==> e in s;
      NoSocketEvents(s[1..]);
    }
  }

  lemma CountOne(a: ListenerEvent, e: ListenerEvent)
    ensures Count([a], e) == if a == e then 1 else 0
  {
    assert [a][1..] == [];
  }

  lemma CountPair(a: ListenerEvent, b: ListenerEvent, e: ListenerEvent)
    ensures Count([a, b], e) == (if a == e then 1 else 0) + (if b == e then 1 else 0)
  {
    assert [a, b][1..] == [b];
    CountOne(b, e);
  }

  /** A pass that decodes a command accepts once, closes the input once and closes the socket once. */
  lemma ReceivedCount(c: Command, e: ListenerEvent)
    requires e == Accepted || e == InputClosed || e == SocketClosed
    ensures Count([Accepted] + FamilyCheck(c) + Dispatch(c.command) + [InputClosed, SocketClosed], e) == 1
  {
    var mid := FamilyCheck(c) + Dispatch(c.command);
    var tail := [InputClosed, SocketClosed];
    assert [Accepted] + FamilyCheck(c) + Dispatch(c.command) + tail == [Accepted] + (mid + tail);
    NoSocketEvents(mid);
    CountPair(InputClosed, SocketClosed, e);
    CountConcat(mid, tail, e);
    CountOne(Accepted, e);
    CountConcat([Accepted], mid + tail, e);
  }

  /**
   * Within one corrected pass, each accepted socket is closed, and the input
   * is closed exactly when the pass opened it.
   */
  lemma IterationBalanced(inc: Incoming)
    ensures Count(Iteration(inc).events, Accepted) == Count(Iteration(inc).events, SocketClosed)
    ensures Count(Iteration(inc).events, InputClosed) == if OpensInput(inc) then 1 else 0
  {
    match inc
    case Received(c) =>
      ReceivedCount(c, Accepted);
      ReceivedCount(c, InputClosed);
      ReceivedCount(c, SocketClosed);
    case ReadFailed =>
      var ev := [Accepted, InputClosed, SocketClosed];
      assert ev[1..] == [InputClosed, SocketClosed];
      CountPair(InputClosed, SocketClosed, Accepted);
      CountPair(InputClosed, SocketClosed, InputClosed);
      CountPair(InputClosed, SocketClosed, SocketClosed);
    case StreamFailed =>
      CountPair(Accepted, SocketClosed, Accepted);
      CountPair(Accepted, SocketClosed, InputClosed);
      CountPair(Accepted, SocketClosed, SocketClosed);
    case AcceptFailed =>
  }

  /**
   * Within one pass as written, the input is likewise closed exactly when it
   * was opened, but a stream failure leaves its accepted socket open.
   */
  lemma IterationAsWrittenCounts(inc: Incoming)
    ensures Count(IterationAsWritten(inc).events, Accepted) ==
            Count(IterationAsWritten(inc).events, SocketClosed) + (if inc.StreamFailed? then 1 else 0)
    ensures Count(IterationAsWritten(inc).events, InputClosed) == if OpensInput(inc) then 1 else 0
  {
    if inc.StreamFailed? {
      CountOne(Accepted, Accepted);
      CountOne(Accepted, InputClosed);
      CountOne(Accepted, SocketClosed);
    } else {
      assert IterationAsWritten(inc).events == Iteration(inc).events;
      IterationBalanced(inc);
    }
  }

  /** How many of the `k` attempts from attempt `i` on open an input stream. */
  function InputsOpened(incoming: seq<Incoming>, i: nat, k: nat): nat
    decreases k
  {
    if k == 0 || i >= |incoming| then 0
    else (if OpensInput(incoming[i]) then 1 else 0) + InputsOpened(incoming, i + 1, k - 1)
  }

  /** How many of the `k` attempts from attempt `i` on fail to open their input stream. */
  function StreamFailures(incoming: seq<Incoming>, i: nat, k: nat): nat
    decreases k
  {
    if k == 0 || i >= |incoming| then 0
    else (if incoming[i].StreamFailed? then 1 else 0) + StreamFailures(incoming, i + 1, k - 1)
  }

  /**
   * Every connection the listener accepts, it closes, and every input stream
   * it opens, it closes.
   */
  lemma {:induction false} EverySocketClosed(incoming: seq<Incoming>, i: nat)
    ensures Count(ListenFrom(incoming, i).events, Accepted) == Count(ListenFrom(incoming, i).events, SocketClosed)
    ensures Count(ListenFrom(incoming, i).events, InputClosed) == InputsOpened(incoming, i, ListenFrom(incoming, i).served)
    decreases |incoming| - i
  {
    if i < |incoming| {
      var o := Iteration(incoming[i]);
      var rest := if o.alive then ListenFrom(incoming, i + 1).events else [];
      assert ListenFrom(incoming, i).events == o.events + rest;
      CountConcat(o.events, rest, Accepted);
      CountConcat(o.events, rest, InputClosed);
      CountConcat(o.events, rest, SocketClosed);
      if o.alive {
        EverySocketClosed(incoming, i + 1);
      }
      IterationBalanced(incoming[i]);
    }
  }

  /**
   * As written, every opened input is still closed, but the accepts exceed
   * the socket closes by the number of stream failures the run went through,
   * which is at most one since the first of them ends the listener.
   */
  lemma {:induction false} SocketLeftOpenAsWritten(incoming: seq<Incoming>, i: nat)
    ensures StreamFailures(incoming, i, ListenFromAsWritten(incoming, i).served) <= 1
    ensures Count(ListenFromAsWritten(incoming, i).events, Accepted) ==
            Count(ListenFromAsWritten(incoming, i).events, SocketClosed) +
            StreamFailures(incoming, i, ListenFromAsWritten(incoming, i).served)
    ensures Count(ListenFromAsWritten(incoming, i).events, InputClosed) ==
            InputsOpened(incoming, i, ListenFromAsWritten(incoming, i).served)
    decreases |incoming| - i
  {
    if i < |incoming| {
      var o := IterationAsWritten(incoming[i]);
      var rest := if o.alive then ListenFromAsWritten(incoming, i + 1).events else [];
      assert ListenFromAsWritten(incoming, i).events == o.events + rest;
      CountConcat(o.events, rest, Accepted);
      CountConcat(o.events, rest, InputClosed);
      CountConcat(o.events, rest, SocketClosed);
      if o.alive {
        SocketLeftOpenAsWritten(incoming, i + 1);
      }
      IterationAsWrittenCounts(incoming[i]);
    }
  }

  /**
   * Only an undecodable command ends the listener: it gets through every
   * attempt exactly when no attempt before the last is undecodable.
   */
  lemma {:induction false} ListenerSurvives(incoming: seq<Incoming>, i: nat)
    requires i <= |incoming|
    ensures ListenFrom(incoming, i).served <= |incoming| - i
    ensures ListenFrom(incoming, i).served == |incoming| - i <==>
              forall j :: i <= j < |incoming| - 1 ==> !incoming[j].ReadFailed?
    decreases |incoming| - i
  {
    if i < |incoming| {
      ListenerSurvives(incoming, i + 1);
    }
  }

  /**
   * As written, a failure to open an input stream ends the listener too: it
   * gets through every attempt exactly when no attempt before the last is
   * undecodable or fails to open its input.
   */
  lemma {:induction false} ListenerSurvivesAsWritten(incoming: seq<Incoming>, i: nat)
    requires i <= |incoming|
    ensures ListenFromAsWritten(incoming, i).served <= |incoming| - i
    ensures ListenFromAsWritten(incoming, i).served == |incoming| - i <==>
              forall j :: i <= j < |incoming| - 1 ==> !incoming[j].ReadFailed? && !incoming[j].StreamFailed?
    decreases |incoming| - i
  {
    if i < |incoming| {
      ListenerSurvivesAsWritten(incoming, i + 1);
    }
  }

  /** Every command of a handled type that reaches the live listener reaches the master's handler. */
  lemma {:induction false} ReceivedCommandsHandled(incoming: seq<Incoming>, i: nat, j: nat)
    requires i <= j < |incoming| && j < i + ListenFrom(incoming, i).served && incoming[j].Received?
    ensures forall e :: e in Dispatch(incoming[j].command.command) ==> e in ListenFrom(incoming, i).events
    decreases j - i
  {
    var o := Iteration(incoming[i]);
    if i < j {
      ReceivedCommandsHandled(incoming, i + 1, j);
    } else {
      var c := incoming[j].command;
      assert o.events == [Accepted] + FamilyCheck(c) + Dispatch(c.command) + [InputClosed, SocketClosed];
    }
  }

  /**
   * As written, one connection whose input stream cannot be opened ends the
   * listener with its socket open, and every later command is lost.
   */
  lemma StreamFailureEndsListenerAsWritten(bc: BootstrapCommand)
    ensures var incoming := [StreamFailed, Received(Command(MASTERCOMMAND, Bootstrap(bc)))];
            && ListenFromAsWritten(incoming, 0) == ListenerRun([Accepted], 1)
            && Count(ListenFromAsWritten(incoming, 0).events, Accepted) == 1
            && Count(ListenFromAsWritten(incoming, 0).events, SocketClosed) == 0
            && BootstrapHandled(bc) !in ListenFromAsWritten(incoming, 0).events
            && ListenFrom(incoming, 0) ==
               ListenerRun([Accepted, SocketClosed, Accepted, BootstrapHandled(bc), InputClosed, SocketClosed], 2)
  {
    var incoming := [StreamFailed, Received(Command(MASTERCOMMAND, Bootstrap(bc)))];
    assert ListenFromAsWritten(incoming, 0) == ListenerRun([Accepted], 1);
    assert ListenFrom(incoming, 2) == ListenerRun([], 0);
    assert ListenFrom(incoming, 1) == ListenerRun([Accepted, BootstrapHandled(bc), InputClosed, SocketClosed], 1);
  }

  class MasterWorkerCommManager {
    var working: bool
    /** What the listener has done, in order. */
    var trace: seq<ListenerEvent>

    constructor ()
      ensures !working && trace == []
    {
      working := false;
      trace := [];
    }

    method Start()
      modifies this`working
      ensures working
    {
      working := true;
    }

    method Stop()
      modifies this`working
      ensures !working
    {
      working := false;
    }

    /** One pass of the loop as written, `finally` block included. */
    method ServeOneAsWritten(inc: Incoming) returns (alive: bool)
      modifies this`trace
      ensures trace == old(trace) + IterationAsWritten(inc).events
      ensures alive == IterationAsWritten(inc).alive
    {
      var socketOpen := false;
      var inputOpen := false;
      alive := true;
      match inc {
        case AcceptFailed =>
        case StreamFailed =>
          socketOpen := true;
          trace := trace + [Accepted];
        case ReadFailed =>
          socketOpen, inputOpen := true, true;
          trace := trace + [Accepted];
          alive := false;
        case Received(c) =>
          socketOpen, inputOpen := true, true;
          trace := trace + [Accepted] + FamilyCheck(c) + Dispatch(c.command);
      }
      if socketOpen {
        if !inputOpen {
          // i.close() on a null input: the exception leaves the loop
          return false;
        }
        trace := trace + [InputClosed, SocketClosed];
      }
    }

    /** One pass of the loop, closing the input only if it was opened. */
    method ServeOne(inc: Incoming) returns (alive: bool)
      modifies this`trace
      ensures trace == old(trace) + Iteration(inc).events
      ensures alive == Iteration(inc).alive
    {
      var socketOpen := false;
      var inputOpen := false;
      alive := true;
      match inc {
        case AcceptFailed =>
        case StreamFailed =>
          socketOpen := true;
          trace := trace + [Accepted];
        case ReadFailed =>
          socketOpen, inputOpen := true, true;
          trace := trace + [Accepted];
          alive := false;
        case Received(c) =>
          socketOpen, inputOpen := true, true;
          trace := trace + [Accepted] + FamilyCheck(c) + Dispatch(c.command);
      }
      if socketOpen {
        if inputOpen {
          trace := trace + [InputClosed];
        }
        trace := trace + [SocketClosed];
      }
    }

    /** The pass over attempt `i` as written, stated against the listener as written from `i` on. */
    method ServeAtAsWritten(incoming: seq<Incoming>, i: nat) returns (alive: bool)
      requires i < |incoming|
      modifies this`trace
      ensures alive ==>
                old(trace) + ListenFromAsWritten(incoming, i).events == trace + ListenFromAsWritten(incoming, i + 1).events
      ensures alive ==> ListenFromAsWritten(incoming, i).served == 1 + ListenFromAsWritten(incoming, i + 1).served
      ensures !alive ==>
                old(trace) + ListenFromAsWritten(incoming, i).events == trace && ListenFromAsWritten(incoming, i).served == 1
    {
      alive := ServeOneAsWritten(incoming[i]);
    }

    /**
     * The listener thread as written: passes while working, until the
     * attempts run out or a pass ends it, a stream failure included.
     */
    method RunAsWritten(incoming: seq<Incoming>) returns (served: nat)
      modifies this`trace
      ensures !working ==> trace == old(trace) && served == 0
      ensures working ==>
                && trace == old(trace) + ListenFromAsWritten(incoming, 0).events
                && served == ListenFromAsWritten(incoming, 0).served
    {
      served := 0;
      var alive := true;
      while working && alive && served < |incoming|
        invariant served <= |incoming|
        invariant !working ==> served == 0 && trace == old(trace)
        invariant alive ==>
                    old(trace) + ListenFromAsWritten(incoming, 0).events == trace + ListenFromAsWritten(incoming, served).events
        invariant alive ==> ListenFromAsWritten(incoming, 0).served == served + ListenFromAsWritten(incoming, served).served
        invariant !alive ==>
                    trace == old(trace) + ListenFromAsWritten(incoming, 0).events
                    && served == ListenFromAsWritten(incoming, 0).served
        decreases |incoming| - served
      {
        alive := ServeAtAsWritten(incoming, served);
        served := served + 1;
      }
    }

    /** The pass over attempt `i`, stated against the listener from `i` on. */
    method ServeAt(incoming: seq<Incoming>, i: nat) returns (alive: bool)
      requires i < |incoming|
      modifies this`trace
      ensures alive ==> old(trace) + ListenFrom(incoming, i).events == trace + ListenFrom(incoming, i + 1).events
      ensures alive ==> ListenFrom(incoming, i).served == 1 + ListenFrom(incoming, i + 1).served
      ensures !alive ==> old(trace) + ListenFrom(incoming, i).events == trace && ListenFrom(incoming, i).served == 1
    {
      alive := ServeOne(incoming[i]);
    }

    /** The listener thread: passes while working, until the attempts run out or a pass ends it. */
    method Run(incoming: seq<Incoming>) returns (served: nat)
      modifies this`trace
      ensures !working ==> trace == old(trace) && served == 0
      ensures working ==> trace == old(trace) + ListenFrom(incoming, 0).events && served == ListenFrom(incoming, 0).served
    {
      served := 0;
      var alive := true;
      while working && alive && served < |incoming|
        invariant served <= |incoming|
        invariant !working ==> served == 0 && trace == old(trace)
        invariant alive ==> old(trace) + ListenFrom(incoming, 0).events == trace + ListenFrom(incoming, served).events
        invariant alive ==> ListenFrom(incoming, 0).served == served + ListenFrom(incoming, served).served
        invariant !alive ==> trace == old(trace) + ListenFrom(incoming, 0).events && served == ListenFrom(incoming, 0).served
        decreases |incoming| - served
      {
        alive := ServeAt(incoming, served);
        served := served + 1;
      }
    }
  }
}
