/** The handshake a session runs before relaying: a BusRequest, then a
    FilterConfig, then opening the bus with the merged configuration and
    flushing the one reply to the client. */
module Handshake {
  import opened Events
  import opened SessionConfig

  /** How the handshake ends. `AwaitingEvent`: the client's events ran out
      before the handshake did, so the session is still blocked reading. */
  datatype HandshakeResult =
    | AwaitingEvent
    | HandshakeError
    | VersionMismatch(got: int)
    | BusOpenError(description: string)
    | Connected(channelInfo: string)

  /** The result, the session's configuration afterwards, whether the bus
      constructor was called, and the `sendall` payloads sent to the client. */
  datatype Negotiated = Negotiated(
    result: HandshakeResult,
    config: Config,
    openCalled: bool,
    flushed: seq<seq<Event>>)

  /** Handshake of a session whose configuration is `server` (the copy made at
      setup), reading the decoded client events `events` in order; `open`
      stands for the bus constructor. */
  function Negotiate(server: Config, protocolVersion: int, events: seq<Event>,
                     open: Config -> OpenResult): (h: Negotiated)
    // the bus is opened only after a BusRequest of the right version and a FilterConfig
    ensures h.openCalled <==>
      && |events| >= 2
      && events[0].BusRequest? && events[0].version == protocolVersion
      && events[1].FilterConfig?
    // a first event that is not a BusRequest is a handshake error
    ensures |events| >= 1 && !events[0].BusRequest? ==>
      h.result == HandshakeError && h.config == server && h.flushed == []
    // a BusRequest of another protocol version fails before any bus is opened
    ensures |events| >= 1 && events[0].BusRequest? && events[0].version != protocolVersion ==>
      h.result == VersionMismatch(events[0].version) && h.config == server && h.flushed == []
    // a second event that is not a FilterConfig is a handshake error
    ensures |events| >= 2 && events[0].BusRequest? && events[0].version == protocolVersion
            && !events[1].FilterConfig? ==>
      h.result == HandshakeError && h.flushed == []
    // the bus is opened with the client's settings merged into the copy
    ensures h.openCalled ==> h.config == Merged(server, events[0].bitrate, events[1].canFilters)
    // a failing open sends exactly one RemoteException, then the failure propagates
    ensures h.openCalled && open(h.config).OpenFailed? ==>
      && h.result == BusOpenError(open(h.config).description)
      && h.flushed == [[RemoteException(open(h.config).description)]]
    // the session relays iff the open succeeded; the only reply is the BusResponse
    ensures h.result.Connected? <==> h.openCalled && open(h.config).Opened?
    ensures h.result.Connected? ==>
      && h.result.channelInfo == open(h.config).channelInfo
      && h.flushed == [[BusResponse(h.result.channelInfo)]]
    ensures !h.openCalled ==> h.flushed == []
  {
    if |events| == 0 then Negotiated(AwaitingEvent, server, false, [])
    else if !events[0].BusRequest? then Negotiated(HandshakeError, server, false, [])
    else if events[0].version != protocolVersion then
      Negotiated(VersionMismatch(events[0].version), server, false, [])
    else
      var withBitrate := SetDefault(server, BitrateKey, IntValue(events[0].bitrate));
      if |events| == 1 then Negotiated(AwaitingEvent, withBitrate, false, [])
      else if !events[1].FilterConfig? then Negotiated(HandshakeError, withBitrate, false, [])
      else
        var config := withBitrate[FiltersKey := FiltersValue(events[1].canFilters)];
        match open(config)
        case OpenFailed(d) => Negotiated(BusOpenError(d), config, true, [[RemoteException(d)]])
        case Opened(info) => Negotiated(Connected(info), config, true, [[BusResponse(info)]])
  }

  /** A bitrate the server configuration fixes is what the bus is opened
      with, whatever the client asked for; filters always come from the client. */
  lemma ServerBitrateWins(server: Config, protocolVersion: int, events: seq<Event>,
                          open: Config -> OpenResult)
    requires BitrateKey in server
    requires Negotiate(server, protocolVersion, events, open).openCalled
    ensures var h := Negotiate(server, protocolVersion, events, open);
      && h.config[BitrateKey] == server[BitrateKey]
      && h.config[FiltersKey] == FiltersValue(events[1].canFilters)
  {
  }
}
