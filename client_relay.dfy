/** The client-to-bus relay: each decoded client event is dispatched by its
    type to the bus or to the periodic-task registry, until the client closes
    the connection, a stop names an unregistered task, or no event is left. */
module ClientRelay {
  import opened Events
  import opened Periodic

  /** The part of a session the client-to-bus relay changes: the registry,
      the events queued for the client, and the calls made on the bus. */
  datatype Relay = Relay(tasks: Registry, outbox: seq<Event>, busLog: seq<BusCall>)

  /** Why the relay loop ended. `StopRequested`: the stop flag was set before
      the next read. `UnknownTask`: the `KeyError` of a stop for an ID with no
      task, which propagates out of the session. `AwaitingInput`: the events
      ran out, so the loop is still blocked reading the next one. */
  datatype Exit = ClosedByClient | StopRequested | UnknownTask(arbitrationId: int) | AwaitingInput

  datatype Dispatched = Continue(state: Relay) | Break(state: Relay, why: Exit)

  /** `send_msg`: one `bus.send`; a `CanError` from it queues one TransmitFail. */
  function SendMsg(s: Relay, msg: Frame, sendFails: bool): (r: Relay)
    ensures r.busLog == s.busLog + [Send(msg)]
    ensures r.outbox == s.outbox + (if sendFails then [TransmitFail] else [])
    ensures r.tasks == s.tasks
  {
    Relay(s.tasks, s.outbox + (if sendFails then [TransmitFail] else []), s.busLog + [Send(msg)])
  }

  /** One pass of the loop body for event `e`; `sendFails` says whether the
      bus rejects the frame if `e` is a CanMessage. */
  function Dispatch(s: Relay, e: Event, sendFails: bool): (r: Dispatched)
    ensures e.CanMessage? ==> r == Continue(SendMsg(s, e.msg, sendFails))
    ensures r.Break? <==> e.ConnectionClosed? || (e.PeriodicMessageStop? && e.arbitrationId !in s.tasks)
    ensures r.Break? ==> r.state == s
    ensures e.ConnectionClosed? ==> r.why == ClosedByClient
    ensures e.PeriodicMessageStart? ==>
      r.state == Relay(Start(s.tasks, e.msg, e.period, e.duration), s.outbox,
                       s.busLog + [StartCall(s.tasks, e.msg, e.period, e.duration)])
    ensures e.PeriodicMessageStop? && e.arbitrationId !in s.tasks ==> r.why == UnknownTask(e.arbitrationId)
    ensures e.PeriodicMessageStop? && e.arbitrationId in s.tasks ==>
      && r.state.tasks == Stop(s.tasks, e.arbitrationId).tasks
      && r.state.tasks.Keys == s.tasks.Keys
      && r.state.outbox == s.outbox
      && r.state.busLog == s.busLog + [StopTask(e.arbitrationId)]
    // every other event is ignored
    ensures !(e.CanMessage? || e.ConnectionClosed? || e.PeriodicMessageStart? || e.PeriodicMessageStop?) ==>
      r == Continue(s)
  {
    match e
    case CanMessage(m) => Continue(SendMsg(s, m, sendFails))
    case ConnectionClosed => Break(s, ClosedByClient)
    case PeriodicMessageStart(m, p, d) =>
      Continue(Relay(Start(s.tasks, m, p, d), s.outbox, s.busLog + [StartCall(s.tasks, m, p, d)]))
    case PeriodicMessageStop(id) =>
      (match Stop(s.tasks, id)
       case Stopped(t) => Continue(Relay(t, s.outbox, s.busLog + [StopTask(id)]))
       case UnknownId(_) => Break(s, UnknownTask(id)))
    case _ => Continue(s)
  }

  datatype RunResult = RunResult(state: Relay, consumed: nat, exit: Exit)

  /** The relay loop, with the stop flag clear, reading `events[i..]`; the
      event at index `j` is rejected by the bus if `j in failing`. `consumed`
      is the index just past the last event read. */
  function Run(s: Relay, events: seq<Event>, failing: set<nat>, i: nat): (r: RunResult)
    requires i <= |events|
    decreases |events| - i
    ensures i <= r.consumed <= |events|
    ensures r.exit != StopRequested
    ensures r.exit == AwaitingInput ==> r.consumed == |events|
    ensures r.exit != AwaitingInput ==> i < r.consumed
    ensures r.exit == ClosedByClient ==> events[r.consumed - 1] == ConnectionClosed
    ensures r.exit.UnknownTask? ==>
      events[r.consumed - 1] == PeriodicMessageStop(r.exit.arbitrationId) && r.exit.arbitrationId !in r.state.tasks
    // the loop ends at the first ConnectionClosed it reads
    ensures forall j :: i <= j < r.consumed && events[j].ConnectionClosed? ==>
      j == r.consumed - 1 && r.exit == ClosedByClient
    // registry entries are never removed
    ensures s.tasks.Keys <= r.state.tasks.Keys
  {
    if i == |events| then RunResult(s, i, AwaitingInput)
    else
      match Dispatch(s, events[i], i in failing)
      case Continue(s') => Run(s', events, failing, i + 1)
      case Break(s', why) => RunResult(s', i + 1, why)
  }

  /** The frames of the CanMessage events in `events[i..j]`, in order. */
  function CanFrames(events: seq<Event>, i: nat, j: nat): seq<Frame>
    requires i <= j <= |events|
    decreases j - i
  {
    if i == j then [] else (if events[i].CanMessage? then [events[i].msg] else []) + CanFrames(events, i + 1, j)
  }

  /** One TransmitFail per CanMessage in `events[i..j]` whose send fails. */
  function TransmitFails(events: seq<Event>, failing: set<nat>, i: nat, j: nat): seq<Event>
    requires i <= j <= |events|
    decreases j - i
  {
    if i == j then []
    else (if events[i].CanMessage? && i in failing then [TransmitFail] else []) + TransmitFails(events, failing, i + 1, j)
  }

  /** The frames passed to `bus.send` in a call log, in order. */
  function Sends(log: seq<BusCall>): seq<Frame>
  {
    if log == [] then [] else Sends(log[..|log| - 1]) + (if log[|log| - 1].Send? then [log[|log| - 1].msg] else [])
  }

  lemma SendsAppend(log: seq<BusCall>, c: BusCall)
    ensures Sends(log + [c]) == Sends(log) + (if c.Send? then [c.msg] else [])
  {
    assert (log + [c])[..|log|] == log;
  }

  lemma SendsOfDispatch(s: Relay, e: Event, sendFails: bool)
    ensures Sends(Dispatch(s, e, sendFails).state.busLog)
         == Sends(s.busLog) + (if e.CanMessage? then [e.msg] else [])
  {
    var r := Dispatch(s, e, sendFails);
    if r.state.busLog != s.busLog {
      SendsAppend(s.busLog, r.state.busLog[|r.state.busLog| - 1]);
      assert r.state.busLog == s.busLog + [r.state.busLog[|r.state.busLog| - 1]];
    }
  }

  /** Every CanMessage read causes exactly one `bus.send` of its frame, in the
      order the events were read, and nothing else calls `send`. */
  lemma {:induction false} RunSends(s: Relay, events: seq<Event>, failing: set<nat>, i: nat)
    requires i <= |events|
    decreases |events| - i
    ensures var r := Run(s, events, failing, i);
      Sends(r.state.busLog) == Sends(s.busLog) + CanFrames(events, i, r.consumed)
  {
    if i < |events| {
      var d := Dispatch(s, events[i], i in failing);
      SendsOfDispatch(s, events[i], i in failing);
      if d.Continue? {
        RunSends(d.state, events, failing, i + 1);
        var r := Run(d.state, events, failing, i + 1);
        assert Run(s, events, failing, i) == r;
        assert CanFrames(events, i, r.consumed)
            == (if events[i].CanMessage? then [events[i].msg] else []) + CanFrames(events, i + 1, r.consumed);
      } else {
        assert CanFrames(events, i, i + 1) == [];
      }
    }
  }

  /** The loop queues for the client exactly one TransmitFail per rejected
      send, in order, and nothing else. */
  lemma {:induction false} RunTransmitFails(s: Relay, events: seq<Event>, failing: set<nat>, i: nat)
    requires i <= |events|
    decreases |events| - i
    ensures var r := Run(s, events, failing, i);
      r.state.outbox == s.outbox + TransmitFails(events, failing, i, r.consumed)
  {
    if i < |events| {
      var d := Dispatch(s, events[i], i in failing);
      if d.Continue? {
        RunTransmitFails(d.state, events, failing, i + 1);
        assert Run(s, events, failing, i) == Run(d.state, events, failing, i + 1);
      } else {
        assert TransmitFails(events, failing, i, i + 1) == [];
      }
    }
  }

  /** The arbitration IDs of the PeriodicMessageStart events in `events[i..j]`. */
  function StartedIds(events: seq<Event>, i: nat, j: nat): set<int>
    requires i <= j <= |events|
    decreases j - i
  {
    if i == j then {}
    else (if events[i].PeriodicMessageStart? then {events[i].msg.arbitrationId} else {}) + StartedIds(events, i + 1, j)
  }

  /** One event that does not end the loop adds the ID of a start to the
      registry, and no other key. */
  lemma DispatchKeys(s: Relay, e: Event, sendFails: bool)
    requires Dispatch(s, e, sendFails).Continue?
    ensures Dispatch(s, e, sendFails).state.tasks.Keys
         == s.tasks.Keys + (if e.PeriodicMessageStart? then {e.msg.arbitrationId} else {})
  {
  }

  /** The registry ends up holding exactly the IDs it started with and the
      IDs of the starts read. */
  lemma {:induction false} RunTaskKeys(s: Relay, events: seq<Event>, failing: set<nat>, i: nat)
    requires i <= |events|
    decreases |events| - i
    ensures var r := Run(s, events, failing, i);
      r.state.tasks.Keys == s.tasks.Keys + StartedIds(events, i, r.consumed)
  {
    if i < |events| {
      var d := Dispatch(s, events[i], i in failing);
      if d.Continue? {
        DispatchKeys(s, events[i], i in failing);
        RunTaskKeys(d.state, events, failing, i + 1);
        var r := Run(d.state, events, failing, i + 1);
        assert Run(s, events, failing, i) == r;
        assert StartedIds(events, i, r.consumed)
            == (if events[i].PeriodicMessageStart? then {events[i].msg.arbitrationId} else {})
               + StartedIds(events, i + 1, r.consumed);
      } else {
        assert Run(s, events, failing, i) == RunResult(s, i + 1, d.why);
        assert StartedIds(events, i, i + 1) == {};
      }
    }
  }

  /** The loop ends with `KeyError` at the first stop whose ID is neither
      registered at the start nor started by an earlier event. */
  lemma {:induction false} RunStopsAtFirstUnknown(s: Relay, events: seq<Event>, failing: set<nat>, i: nat)
    requires i <= |events|
    decreases |events| - i
    ensures var r := Run(s, events, failing, i);
      forall j :: i <= j < r.consumed && events[j].PeriodicMessageStop?
                  && events[j].arbitrationId !in s.tasks.Keys + StartedIds(events, i, j) ==>
        j == r.consumed - 1 && r.exit == UnknownTask(events[j].arbitrationId)
  {
    if i < |events| {
      var d := Dispatch(s, events[i], i in failing);
      var r := Run(s, events, failing, i);
      if d.Continue? {
        DispatchKeys(s, events[i], i in failing);
        RunStopsAtFirstUnknown(d.state, events, failing, i + 1);
        assert r == Run(d.state, events, failing, i + 1);
        forall j | i <= j < r.consumed && events[j].PeriodicMessageStop?
                   && events[j].arbitrationId !in s.tasks.Keys + StartedIds(events, i, j)
          ensures j == r.consumed - 1 && r.exit == UnknownTask(events[j].arbitrationId)
        {
          if j > i {
            assert StartedIds(events, i, j)
                == (if events[i].PeriodicMessageStart? then {events[i].msg.arbitrationId} else {})
                   + StartedIds(events, i + 1, j);
          }
        }
      }
    }
  }

  /** Whatever the client sends, no ID ever gets a second `send_periodic`:
      the registry stays in step with the tasks the bus was asked to create. */
  lemma {:induction false} RunKeepsTasksMatchLog(s: Relay, events: seq<Event>, failing: set<nat>, i: nat)
    requires i <= |events|
    requires TasksMatchLog(s.tasks, s.busLog)
    decreases |events| - i
    ensures var r := Run(s, events, failing, i);
      TasksMatchLog(r.state.tasks, r.state.busLog)
  {
    if i < |events| {
      var e := events[i];
      var d := Dispatch(s, e, i in failing);
      if d.Continue? {
        match e {
          case CanMessage(m) =>
            forall id ensures Created(d.state.busLog, id) == (if id in d.state.tasks then 1 else 0) {
              CreatedAppend(s.busLog, Send(m), id);
            }
          case PeriodicMessageStart(m, p, du) =>
            StartKeepsTasksMatchLog(s.tasks, s.busLog, m, p, du);
          case PeriodicMessageStop(id) =>
            StopKeepsTasksMatchLog(s.tasks, s.busLog, id);
          case _ =>
        }
        RunKeepsTasksMatchLog(d.state, events, failing, i + 1);
      }
    }
  }
}
