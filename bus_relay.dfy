/** The bus-to-client relay: each round polls the bus, drains every event
    that is available into the outbound queue, and flushes the queue in one
    write when there is data and the client can take it. */
module BusRelay {
  import opened Events

  /** `_next_event_from_bus`: a `CanError` becomes a RemoteException, a frame
      becomes a CanMessage, and no frame gives no event. */
  function Translate(r: RecvResult): (e: Option<Event>)
    ensures e.None? <==> r.NothingReceived?
    ensures r.Received? ==> e == Some(CanMessage(r.msg))
    ensures r.RecvError? ==> e == Some(RemoteException(r.description))
  {
    match r
    case Received(m) => Some(CanMessage(m))
    case NothingReceived => None
    case RecvError(d) => Some(RemoteException(d))
  }

  /** The result of the `k`-th `recv` call of a round (0-based). Polls past the
      end of the given results find nothing. */
  function Poll(polls: seq<RecvResult>, k: nat): RecvResult
  {
    if k < |polls| then polls[k] else NothingReceived
  }

  /** The events drained in a round, the number of `recv` calls made, and
      whether a bus error stopped the session. */
  datatype Drained = Drained(events: seq<Event>, polled: nat, fatal: bool)

  /** The draining loop, entered with the event of poll `k` in hand. */
  function DrainFrom(polls: seq<RecvResult>, k: nat): (d: Drained)
    decreases |polls| - k
  {
    var e := Translate(Poll(polls, k));
    if e.None? then Drained([], k + 1, false)
    else if e.value.RemoteException? then Drained([e.value], k + 1, true)
    else
      assert k < |polls| && polls[k].Received?;
      var rest := DrainFrom(polls, k + 1);
      Drained([e.value] + rest.events, rest.polled, rest.fatal)
  }

  /** The `n`-th event drained from poll `k` on is the frame poll `k + n` returned. */
  predicate QueuedFrame(polls: seq<RecvResult>, k: nat, events: seq<Event>, n: nat)
  {
    && n < |events| && k + n < |polls| && polls[k + n].Received?
    && events[n] == CanMessage(polls[k + n].msg)
  }

  /** Draining polls the bus until the first poll that does not return a
      frame, queues the frames in poll order, and after them the error if
      that poll met one, which is exactly when the session is stopped. */
  lemma {:induction false} DrainShape(polls: seq<RecvResult>, k: nat)
    decreases |polls| - k
    ensures var d := DrainFrom(polls, k);
      && k + 1 <= d.polled
      && |d.events| == d.polled - 1 - k + (if d.fatal then 1 else 0)
      && (forall n :: 0 <= n < d.polled - 1 - k ==> QueuedFrame(polls, k, d.events, n))
      && !Poll(polls, d.polled - 1).Received?
      && (d.fatal <==> Poll(polls, d.polled - 1).RecvError?)
      && (d.fatal ==> d.events[|d.events| - 1] == RemoteException(Poll(polls, d.polled - 1).description))
  {
    if k < |polls| && polls[k].Received? {
      DrainShape(polls, k + 1);
      var d, rest := DrainFrom(polls, k), DrainFrom(polls, k + 1);
      assert d.events == [CanMessage(polls[k].msg)] + rest.events;
      forall n | 0 <= n < d.polled - 1 - k
        ensures QueuedFrame(polls, k, d.events, n)
      {
        if n > 0 {
          assert QueuedFrame(polls, k + 1, rest.events, n - 1);
        }
      }
    }
  }

  /** What one round is given: the results of its `recv` calls, and whether
      the socket was writable when it was checked. */
  datatype Round = Round(polls: seq<RecvResult>, clientReady: bool)

  /** A round is fatal when draining it meets a bus error. */
  predicate Fatal(r: Round)
  {
    DrainFrom(r.polls, 0).fatal
  }

  /** The events queued but not yet written, and the `sendall` payloads. */
  datatype Outbound = Outbound(outbox: seq<Event>, wire: seq<seq<Event>>)

  /** `if conn.data_ready() and client_ready: sendall(conn.next_data())`. */
  function Flush(o: Outbound, ready: bool): (f: Outbound)
    // nothing is lost, duplicated or reordered between queue and wire
    ensures Flatten(f.wire) + f.outbox == Flatten(o.wire) + o.outbox
    ensures f.wire != o.wire <==> o.outbox != [] && ready
    ensures f.wire != o.wire ==> f.wire == o.wire + [o.outbox] && f.outbox == []
    ensures f.wire == o.wire ==> f.outbox == o.outbox
  {
    FlattenAppend(o.wire, o.outbox);
    if o.outbox != [] && ready then Outbound([], o.wire + [o.outbox]) else o
  }

  datatype StepResult = StepResult(out: Outbound, drained: Drained)

  /** One pass of the loop body of `_send_to_client`. */
  function Step(o: Outbound, r: Round): StepResult
  {
    var d := DrainFrom(r.polls, 0);
    StepResult(Flush(Outbound(o.outbox + d.events, o.wire), r.clientReady), d)
  }

  datatype LoopResult = LoopResult(out: Outbound, roundsRun: nat, stopped: bool, queued: seq<Event>)

  /** The loop `while not stop_event.is_set()` over rounds `rounds[i..]`.
      `roundsRun` is the index just past the last round run, `queued` every
      event drained, in order. */
  function SendLoop(o: Outbound, stopped: bool, rounds: seq<Round>, i: nat): (l: LoopResult)
    requires i <= |rounds|
    decreases |rounds| - i
    ensures i <= l.roundsRun <= |rounds|
    // a set stop flag ends the loop before any polling
    ensures stopped ==> l == LoopResult(o, i, true, [])
    // the loop ends only on the stop flag or when the rounds run out
    ensures !l.stopped ==> l.roundsRun == |rounds|
  {
    if stopped || i == |rounds| then LoopResult(o, i, stopped, [])
    else
      var s := Step(o, rounds[i]);
      var rest := SendLoop(s.out, s.drained.fatal, rounds, i + 1);
      LoopResult(rest.out, rest.roundsRun, rest.stopped, s.drained.events + rest.queued)
  }

  /** One round of the loop, when the stop flag is clear and a round is left. */
  lemma SendLoopUnfold(o: Outbound, rounds: seq<Round>, i: nat)
    requires i < |rounds|
    ensures var s := Step(o, rounds[i]);
      && SendLoop(o, false, rounds, i).out == SendLoop(s.out, s.drained.fatal, rounds, i + 1).out
      && SendLoop(o, false, rounds, i).stopped == SendLoop(s.out, s.drained.fatal, rounds, i + 1).stopped
  {
  }

  /** Every drained event reaches the wire or stays queued: none is lost,
      duplicated or reordered. */
  lemma {:induction false} SendLoopDelivers(o: Outbound, stopped: bool, rounds: seq<Round>, i: nat)
    requires i <= |rounds|
    decreases |rounds| - i
    ensures var l := SendLoop(o, stopped, rounds, i);
      Flatten(l.out.wire) + l.out.outbox == Flatten(o.wire) + o.outbox + l.queued
  {
    if !stopped && i < |rounds| {
      var s := Step(o, rounds[i]);
      SendLoopDelivers(s.out, s.drained.fatal, rounds, i + 1);
      assert Flatten(s.out.wire) + s.out.outbox == Flatten(o.wire) + o.outbox + s.drained.events;
    }
  }

  /** The loop runs every round until the first one that meets a bus error,
      stops after that one, and runs out of rounds otherwise. */
  lemma {:induction false} SendLoopStopsAtFatal(o: Outbound, rounds: seq<Round>, i: nat)
    requires i <= |rounds|
    decreases |rounds| - i
    ensures var l := SendLoop(o, false, rounds, i);
      && (l.stopped <==> i < l.roundsRun && Fatal(rounds[l.roundsRun - 1]))
      && (forall j :: i <= j < l.roundsRun - 1 ==> !Fatal(rounds[j]))
      && (!l.stopped ==> l.roundsRun == |rounds|)
  {
    if i < |rounds| {
      var s := Step(o, rounds[i]);
      if !s.drained.fatal {
        SendLoopStopsAtFatal(s.out, rounds, i + 1);
      }
    }
  }

  /** A bus error ends the session with exactly one RemoteException queued,
      as the last event, and no poll of the bus after it. */
  lemma {:induction false} FatalRoundQueuesOneException(r: Round)
    requires Fatal(r)
    ensures var d := DrainFrom(r.polls, 0);
      && 1 <= d.polled <= |r.polls| && |d.events| >= 1
      && r.polls[d.polled - 1].RecvError?
      && d.events[|d.events| - 1] == RemoteException(r.polls[d.polled - 1].description)
      && forall j :: 0 <= j < |d.events| - 1 ==> d.events[j].CanMessage?
  {
    var d := DrainFrom(r.polls, 0);
    DrainShape(r.polls, 0);
    assert Poll(r.polls, d.polled - 1).RecvError?;
    forall j | 0 <= j < |d.events| - 1 ensures d.events[j].CanMessage? {
      assert QueuedFrame(r.polls, 0, d.events, j);
    }
  }

  /** A round without a bus error queues only frames. */
  lemma {:induction false} QuietRoundQueuesFrames(r: Round)
    requires !Fatal(r)
    ensures forall j :: 0 <= j < |DrainFrom(r.polls, 0).events| ==> DrainFrom(r.polls, 0).events[j].CanMessage?
  {
    var d := DrainFrom(r.polls, 0);
    DrainShape(r.polls, 0);
    forall j | 0 <= j < |d.events| ensures d.events[j].CanMessage? {
      assert QueuedFrame(r.polls, 0, d.events, j);
    }
  }

  /** Over the whole loop, a session stopped by a bus error queued frames and
      then exactly one RemoteException, the last event; a loop still running
      queued frames only. */
  lemma {:induction false} SendLoopQueuesOneException(o: Outbound, rounds: seq<Round>, i: nat)
    requires i <= |rounds|
    decreases |rounds| - i
    ensures var l := SendLoop(o, false, rounds, i);
      && (l.stopped ==> |l.queued| >= 1 && l.queued[|l.queued| - 1].RemoteException?)
      && (l.stopped ==> forall j :: 0 <= j < |l.queued| - 1 ==> l.queued[j].CanMessage?)
      && (!l.stopped ==> forall j :: 0 <= j < |l.queued| ==> l.queued[j].CanMessage?)
  {
    if i < |rounds| {
      var s := Step(o, rounds[i]);
      var d := s.drained;
      if d.fatal {
        FatalRoundQueuesOneException(rounds[i]);
        assert SendLoop(o, false, rounds, i).queued == d.events;
      } else {
        QuietRoundQueuesFrames(rounds[i]);
        SendLoopQueuesOneException(s.out, rounds, i + 1);
        var rest := SendLoop(s.out, false, rounds, i + 1);
        assert SendLoop(o, false, rounds, i).queued == d.events + rest.queued;
        assert SendLoop(o, false, rounds, i).stopped == rest.stopped;
      }
    }
  }

  /** In a round whose bus error arrives while the socket is not writable, the
      RemoteException is queued but not written, and the loop ends: nothing
      after the loop flushes the queue, so the client never receives it. */
  lemma {:induction false} UnreadyFatalRoundKeepsException(o: Outbound, r: Round)
    requires Fatal(r) && !r.clientReady
    ensures var l := SendLoop(o, false, [r], 0);
      && l.stopped && l.out.wire == o.wire
      && l.out.outbox == o.outbox + DrainFrom(r.polls, 0).events
      && l.out.outbox[|l.out.outbox| - 1].RemoteException?
  {
    FatalRoundQueuesOneException(r);
    var s := Step(o, r);
    assert s.out == Outbound(o.outbox + s.drained.events, o.wire);
  }

  /** A first bus error on an unwritable socket: the session stops with the
      exception still queued and nothing written. */
  lemma FatalRoundMayLoseException()
    ensures var l := SendLoop(Outbound([], []), false, [Round([RecvError("boom")], false)], 0);
      && l.stopped && l.out.wire == [] && l.out.outbox == [RemoteException("boom")]
  {
    var r := Round([RecvError("boom")], false);
    assert DrainFrom(r.polls, 0).events == [RemoteException("boom")];
    UnreadyFatalRoundKeepsException(Outbound([], []), r);
  }
}
