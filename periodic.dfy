/** The periodic-task registry `send_tasks`: arbitration ID to the handle of
    the repeating transmission the bus runs for it. A handle is modelled by
    the state the session has given it. */
module Periodic {
  import opened Events

  /** A periodic task as the session knows it: the frame it repeats, its
      timing, and whether the session has called `stop()` on it. */
  datatype Task = Task(msg: Frame, period: real, duration: Option<real>, stopped: bool)

  type Registry = map<int, Task>

  /** The bus call a PeriodicMessageStart makes: `modify_data` on the task
      already registered for the frame's ID, or `send_periodic` otherwise. */
  function StartCall(tasks: Registry, msg: Frame, period: real, duration: Option<real>): (c: BusCall)
    ensures msg.arbitrationId in tasks <==> c == ModifyData(msg.arbitrationId, msg)
    ensures msg.arbitrationId !in tasks <==> c == SendPeriodic(msg, period, duration)
  {
    if msg.arbitrationId in tasks then ModifyData(msg.arbitrationId, msg)
    else SendPeriodic(msg, period, duration)
  }

  /** The registry after a PeriodicMessageStart. `modify_data` replaces only the
      frame: the registered task keeps its period, duration and stop mark. */
  function Start(tasks: Registry, msg: Frame, period: real, duration: Option<real>): (r: Registry)
    ensures r.Keys == tasks.Keys + {msg.arbitrationId}
    ensures msg.arbitrationId in tasks ==>
      r[msg.arbitrationId] == tasks[msg.arbitrationId].(msg := msg)
    ensures msg.arbitrationId !in tasks ==>
      r[msg.arbitrationId] == Task(msg, period, duration, false)
    ensures forall id :: id in tasks && id != msg.arbitrationId ==> r[id] == tasks[id]
  {
    var id := msg.arbitrationId;
    if id in tasks then tasks[id := tasks[id].(msg := msg)]
    else tasks[id := Task(msg, period, duration, false)]
  }

  /** A PeriodicMessageStop either stops the registered task, keeping its
      entry, or fails with `KeyError` because no task has that ID. */
  datatype StopResult = Stopped(tasks: Registry) | UnknownId(arbitrationId: int)

  function Stop(tasks: Registry, id: int): (r: StopResult)
    ensures r.UnknownId? <==> id !in tasks
    ensures r.UnknownId? ==> r.arbitrationId == id
    ensures r.Stopped? ==> r.tasks.Keys == tasks.Keys
    ensures r.Stopped? ==> r.tasks[id] == tasks[id].(stopped := true)
    ensures r.Stopped? ==> forall k :: k in tasks && k != id ==> r.tasks[k] == tasks[k]
  {
    if id in tasks then Stopped(tasks[id := tasks[id].(stopped := true)]) else UnknownId(id)
  }

  /** The number of `send_periodic` calls for arbitration ID `id` in a call log. */
  function Created(log: seq<BusCall>, id: int): nat
  {
    if log == [] then 0
    else
      var last := log[|log| - 1];
      Created(log[..|log| - 1], id) + (if last.SendPeriodic? && last.msg.arbitrationId == id then 1 else 0)
  }

  lemma CreatedAppend(log: seq<BusCall>, c: BusCall, id: int)
    ensures Created(log + [c], id)
         == Created(log, id) + (if c.SendPeriodic? && c.msg.arbitrationId == id then 1 else 0)
  {
    assert (log + [c])[..|log|] == log;
  }

  /** The registry holds exactly the IDs the bus was asked to create a task for,
      and the bus was asked once per ID: no two tasks ever run for one ID. */
  ghost predicate TasksMatchLog(tasks: Registry, log: seq<BusCall>)
  {
    forall id :: Created(log, id) == (if id in tasks then 1 else 0)
  }

  lemma {:induction false} StartKeepsTasksMatchLog(
    tasks: Registry, log: seq<BusCall>, msg: Frame, period: real, duration: Option<real>)
    requires TasksMatchLog(tasks, log)
    ensures TasksMatchLog(Start(tasks, msg, period, duration), log + [StartCall(tasks, msg, period, duration)])
  {
    var c := StartCall(tasks, msg, period, duration);
    var r := Start(tasks, msg, period, duration);
    forall id ensures Created(log + [c], id) == (if id in r then 1 else 0) {
      CreatedAppend(log, c, id);
    }
  }

  lemma {:induction false} StopKeepsTasksMatchLog(tasks: Registry, log: seq<BusCall>, id: int)
    requires TasksMatchLog(tasks, log)
    requires id in tasks
    ensures TasksMatchLog(Stop(tasks, id).tasks, log + [StopTask(id)])
  {
    forall k ensures Created(log + [StopTask(id)], k) == (if k in Stop(tasks, id).tasks then 1 else 0) {
      CreatedAppend(log, StopTask(id), k);
    }
  }

  /** Starting a task for an ID twice leaves one task for that ID, repeating
      the newer frame with the timing of the first start; the second start
      only modifies the first task. */
  lemma RestartReplacesFrame(tasks: Registry, m1: Frame, p1: real, d1: Option<real>,
                             m2: Frame, p2: real, d2: Option<real>)
    requires m1.arbitrationId == m2.arbitrationId
    requires m1.arbitrationId !in tasks
    ensures var t1 := Start(tasks, m1, p1, d1);
      && StartCall(t1, m2, p2, d2) == ModifyData(m2.arbitrationId, m2)
      && Start(t1, m2, p2, d2).Keys == tasks.Keys + {m1.arbitrationId}
      && Start(t1, m2, p2, d2)[m2.arbitrationId] == Task(m2, p1, d1, false)
  {
  }

  /** A later start for the ID of a stopped task finds the entry still there,
      so only `modify_data` is called: the task stays marked stopped, and the
      session makes no call that restarts it. */
  lemma StartAfterStopStaysStopped(tasks: Registry, id: int, m: Frame, p: real, d: Option<real>)
    requires id in tasks && m.arbitrationId == id
    ensures var t := Stop(tasks, id).tasks;
      && StartCall(t, m, p, d) == ModifyData(id, m)
      && Start(t, m, p, d)[id].stopped
  {
  }
}
