/** One client connection of the remote CAN server: its fields and the
    methods that update them, each proved against the functions of the
    Handshake, ClientRelay and BusRelay modules. The socket, the event codec
    and the bus driver are replaced by their results, given as parameters. */
module Server {
  import opened Events
  import opened SessionConfig
  import opened Periodic
  import opened Handshake
  import opened ClientRelay
  import opened BusRelay
  import opened Clients

  /** The listening server, as far as a connection sees it: the base
      configuration and the connections registered with it. */
  class RemoteServer {
    var config: Config
    var clients: multiset<ClientBusConnection>

    constructor (config: Config)
      ensures this.config == config && clients == multiset{}
    {
      this.config := config;
      clients := multiset{};
    }
  }

  /** How `handle` ends: in the handshake (with an exception, or still
      blocked reading when the result is `AwaitingEvent`), or in the
      client-to-bus relay (`ClosedByClient` returns, `UnknownTask` is the
      `KeyError` that propagates, `AwaitingInput` is still blocked reading). */
  datatype HandleOutcome = EndedInHandshake(result: HandshakeResult) | RelayEnded(exit: Exit)

  class ClientBusConnection {
    const server: RemoteServer
    /** The protocol version this server speaks. */
    const protocolVersion: int

    /** The per-client copy of the server configuration. */
    var config: Config
    /** `send_tasks`. */
    var sendTasks: Registry
    /** Events queued in the connection's outbound buffer and not yet written. */
    var outbox: seq<Event>
    /** The payload of every `sendall` on the socket, in order. */
    var wire: seq<seq<Event>>
    /** `stop_event`. */
    var stopped: bool
    /** Whether the bus constructor succeeded. */
    var busOpened: bool
    /** Whether the bus-to-client thread was started. */
    var relayStarted: bool
    /** The number of `bus.shutdown()` calls. */
    var shutdownCount: nat
    /** Every other call made on the bus or on its periodic tasks, in order. */
    var busLog: seq<BusCall>

    /** The state right after `setup`, before `handle`. */
    predicate AtSetup()
      reads this
    {
      && sendTasks == map[] && outbox == [] && wire == [] && busLog == []
      && !stopped && !busOpened && !relayStarted && shutdownCount == 0
    }

    function RelayState(): Relay
      reads this
    {
      Relay(sendTasks, outbox, busLog)
    }

    /** `setup`: the client works on its own copy of the server configuration
        and registers itself once with the server. */
    constructor Setup(server: RemoteServer, protocolVersion: int)
      modifies server`clients
      ensures this.server == server && this.protocolVersion == protocolVersion
      ensures config == server.config && server.config == old(server.config)
      ensures server.clients == Register(old(server.clients), this)
      ensures AtSetup()
    {
      this.server := server;
      this.protocolVersion := protocolVersion;
      config := server.config;
      sendTasks := map[];
      outbox := [];
      wire := [];
      busLog := [];
      stopped := false;
      busOpened := false;
      relayStarted := false;
      shutdownCount := 0;
      new;
      server.clients := Register(server.clients, this);
    }

    /** `request.sendall(conn.next_data())`: everything queued goes out in one write. */
    method FlushAll()
      modifies this`outbox, this`wire
      ensures wire == old(wire) + [old(outbox)] && outbox == []
      ensures Flatten(wire) + outbox == Flatten(old(wire)) + old(outbox)
    {
      FlattenAppend(wire, outbox);
      wire := wire + [outbox];
      outbox := [];
    }

    /** The handshake part of `handle` (everything before the relay starts),
        reading `events[0]` and `events[1]`; `open` stands for the bus
        constructor. */
    method RunHandshake(events: seq<Event>, open: Config -> OpenResult) returns (result: HandshakeResult)
      requires AtSetup()
      modifies this`config, this`outbox, this`wire, this`busOpened, server`clients
      ensures server.config == old(server.config)
      // a successful open registers the connection with the server a second time
      ensures server.clients == old(server.clients) + (if result.Connected? then multiset{this} else multiset{})
      ensures var h := Negotiate(old(config), protocolVersion, events, open);
        && result == h.result
        && config == h.config
        && wire == h.flushed
        && outbox == []
        && busOpened == h.result.Connected?
    {
      if |events| == 0 {
        return AwaitingEvent;
      }
      var busEvent := events[0];
      if !busEvent.BusRequest? {
        return HandshakeError;
      }
      if busEvent.version != protocolVersion {
        return VersionMismatch(busEvent.version);
      }
      config := SetDefault(config, BitrateKey, IntValue(busEvent.bitrate));
      if |events| == 1 {
        return AwaitingEvent;
      }
      var filterEvent := events[1];
      if !filterEvent.FilterConfig? {
        return HandshakeError;
      }
      config := config[FiltersKey := FiltersValue(filterEvent.canFilters)];
      match open(config) {
        case OpenFailed(d) =>
          outbox := outbox + [RemoteException(d)];
          assert outbox == [RemoteException(d)];
          FlushAll();
          assert wire == [[RemoteException(d)]];
          result := BusOpenError(d);
        case Opened(info) =>
          busOpened := true;
          outbox := outbox + [BusResponse(info)];
          server.clients := server.clients + multiset{this};
          assert outbox == [BusResponse(info)];
          FlushAll();
          assert wire == [[BusResponse(info)]];
          result := Connected(info);
      }
    }

    /** `handle`: the handshake on `events[0]` and `events[1]`, then, once the
        bus is open, the client-to-bus relay on `events[2..]`. `failing` holds
        the indices of the events whose `bus.send` raises `CanError`. */
    method Handle(events: seq<Event>, open: Config -> OpenResult, failing: set<nat>)
      returns (outcome: HandleOutcome)
      requires AtSetup()
      modifies this, server`clients
      ensures server.config == old(server.config)
      ensures server.clients == old(server.clients) + (if outcome.RelayEnded? then multiset{this} else multiset{})
      ensures var h := Negotiate(old(config), protocolVersion, events, open);
        && config == h.config
        && wire == h.flushed
        && busOpened == h.result.Connected?
        && relayStarted == h.result.Connected?
        && !stopped && shutdownCount == 0
        && (!h.result.Connected? ==>
              && outcome == EndedInHandshake(h.result)
              && sendTasks == map[] && outbox == [] && busLog == [])
        && (h.result.Connected? ==>
              var r := Run(Relay(map[], [], []), events, failing, 2);
              && outcome == RelayEnded(r.exit)
              && RelayState() == r.state)
    {
      var result := RunHandshake(events, open);
      if !result.Connected? {
        return EndedInHandshake(result);
      }
      relayStarted := true;
      var consumed, exit := ReceiveFromClient(events, 2, failing);
      outcome := RelayEnded(exit);
    }

    /** `send_msg`. */
    method SendMsg(msg: Frame, sendFails: bool)
      modifies this`outbox, this`busLog
      ensures RelayState() == ClientRelay.SendMsg(old(RelayState()), msg, sendFails)
    {
      busLog := busLog + [Send(msg)];
      if sendFails {
        outbox := outbox + [TransmitFail];
      }
    }

    /** The body of the loop in `_receive_from_client` for one event; gives the
        reason to leave the loop, if any. */
    method DispatchEvent(e: Event, sendFails: bool) returns (exit: Option<Exit>)
      modifies this`sendTasks, this`outbox, this`busLog
      ensures var d := Dispatch(old(RelayState()), e, sendFails);
        && RelayState() == d.state
        && exit == (if d.Break? then Some(d.why) else None)
    {
      exit := None;
      match e {
        case CanMessage(m) =>
          SendMsg(m, sendFails);
        case ConnectionClosed =>
          exit := Some(ClosedByClient);
        case PeriodicMessageStart(m, period, duration) =>
          var id := m.arbitrationId;
          if id in sendTasks {
            busLog := busLog + [ModifyData(id, m)];
            sendTasks := sendTasks[id := sendTasks[id].(msg := m)];
          } else {
            busLog := busLog + [SendPeriodic(m, period, duration)];
            sendTasks := sendTasks[id := Task(m, period, duration, false)];
          }
        case PeriodicMessageStop(id) =>
          if id in sendTasks {
            busLog := busLog + [StopTask(id)];
            sendTasks := sendTasks[id := sendTasks[id].(stopped := true)];
          } else {
            exit := Some(UnknownTask(id));
          }
        case _ =>
      }
    }

    /** `_receive_from_client` on the events `events[from..]`; `consumed` is the
        index just past the last event read. */
    method ReceiveFromClient(events: seq<Event>, from: nat, failing: set<nat>)
      returns (consumed: nat, exit: Exit)
      requires from <= |events|
      modifies this`sendTasks, this`outbox, this`busLog
      ensures old(stopped) ==>
        consumed == from && exit == StopRequested && RelayState() == old(RelayState())
      ensures !old(stopped) ==>
        var r := Run(old(RelayState()), events, failing, from);
        RelayState() == r.state && consumed == r.consumed && exit == r.exit
    {
      consumed, exit := from, StopRequested;
      while !stopped
        invariant from <= consumed <= |events|
        invariant stopped ==> consumed == from && RelayState() == old(RelayState())
        invariant !stopped ==>
          Run(old(RelayState()), events, failing, from) == Run(RelayState(), events, failing, consumed)
        decreases |events| - consumed
      {
        if consumed == |events| {
          // `_next_event` blocks: no further event is given
          exit := AwaitingInput;
          break;
        }
        var quit := DispatchEvent(events[consumed], consumed in failing);
        consumed := consumed + 1;
        if quit.Some? {
          exit := quit.value;
          break;
        }
      }
    }

    /** The body of the loop in `_send_to_client`: a first poll, the draining of
        every available event, and a flush if there is data and the socket
        was writable. */
    method SendToClientStep(r: Round) returns (polled: nat)
      requires relayStarted && !stopped
      modifies this`outbox, this`wire, this`stopped
      ensures var s := Step(Outbound(old(outbox), old(wire)), r);
        && outbox == s.out.outbox && wire == s.out.wire
        && stopped == s.drained.fatal && polled == s.drained.polled
    {
      ghost var d0 := DrainFrom(r.polls, 0);
      var event := Translate(Poll(r.polls, 0));
      var k := 1;
      var clientReady := r.clientReady;
      while event.Some?
        invariant 1 <= k
        invariant event == Translate(Poll(r.polls, k - 1))
        invariant !stopped && wire == old(wire)
        invariant outbox + DrainFrom(r.polls, k - 1).events == old(outbox) + d0.events
        invariant DrainFrom(r.polls, k - 1).polled == d0.polled
        invariant DrainFrom(r.polls, k - 1).fatal == d0.fatal
        decreases |r.polls| - k + 1
      {
        outbox := outbox + [event.value];
        if event.value.RemoteException? {
          stopped := true;
          break;
        }
        event := Translate(Poll(r.polls, k));
        k := k + 1;
      }
      polled := k;
      assert outbox == old(outbox) + d0.events;
      ghost var flushed := Flush(Outbound(outbox, wire), clientReady);
      assert Step(Outbound(old(outbox), old(wire)), r).out == flushed;
      if outbox != [] && clientReady {
        wire := wire + [outbox];
        outbox := [];
      }
    }

    /** `_send_to_client` over the rounds `rounds`: the loop runs while the stop
        flag is clear, and once it exits the bus is shut down, once.
        `exited` is false when the rounds ran out with the loop still running. */
    method SendToClient(rounds: seq<Round>) returns (exited: bool)
      requires relayStarted && shutdownCount == 0
      modifies this`outbox, this`wire, this`stopped, this`shutdownCount
      ensures var l := SendLoop(Outbound(old(outbox), old(wire)), old(stopped), rounds, 0);
        && outbox == l.out.outbox && wire == l.out.wire
        && stopped == l.stopped && exited == l.stopped
      ensures shutdownCount == (if exited then 1 else 0)
    {
      ghost var l0 := SendLoop(Outbound(outbox, wire), stopped, rounds, 0);
      var i := 0;
      while !stopped && i < |rounds|
        invariant i <= |rounds|
        invariant shutdownCount == 0
        invariant l0.out == SendLoop(Outbound(outbox, wire), stopped, rounds, i).out
        invariant l0.stopped == SendLoop(Outbound(outbox, wire), stopped, rounds, i).stopped
      {
        SendLoopUnfold(Outbound(outbox, wire), rounds, i);
        var polled := SendToClientStep(rounds[i]);
        i := i + 1;
      }
      exited := stopped;
      if stopped {
        shutdownCount := shutdownCount + 1;
      }
    }

    /** `finish`: the connection leaves the server's list, then the stop flag
        is set. When the connection is not in the list, `remove` raises
        `ValueError` first and the flag is left as it was. */
    method Finish() returns (removed: bool)
      modifies this`stopped, server`clients
      ensures var r := Remove(old(server.clients), this);
        && removed == r.Some?
        && server.clients == (if r.Some? then r.value else old(server.clients))
        && stopped == (removed || old(stopped))
    {
      var r := Remove(server.clients, this);
      if r.None? {
        return false;
      }
      server.clients := r.value;
      stopped := true;
      removed := true;
    }
  }
}
