/** Values one client session of the remote CAN server works with: the
    protocol events it reads from and queues for its client, CAN frames,
    configuration values, and the results of the calls it makes into the bus
    driver, which the model takes as inputs. */
module Events {

  datatype Option<T> = None | Some(value: T)

  type Byte = x: int | 0 <= x < 256

  /** A CAN frame: its arbitration ID and its data bytes. */
  datatype Frame = Frame(arbitrationId: int, data: seq<Byte>)

  /** One entry of a `can_filters` list. */
  datatype Filter = Filter(canId: int, canMask: int)

  /** A value of the keyword configuration handed to the bus constructor. */
  datatype Value =
    | IntValue(n: int)
    | TextValue(s: string)
    | FiltersValue(filters: seq<Filter>)

  /** The protocol events exchanged with a client. */
  datatype Event =
    | BusRequest(version: int, bitrate: int)
    | FilterConfig(canFilters: seq<Filter>)
    | BusResponse(channelInfo: string)
    | CanMessage(msg: Frame)
    | PeriodicMessageStart(msg: Frame, period: real, duration: Option<real>)
    | PeriodicMessageStop(arbitrationId: int)
    | ConnectionClosed
    | RemoteException(description: string)
    | TransmitFail

  /** What one `bus.recv(timeout)` call gives: a frame, nothing, or a `CanError`. */
  datatype RecvResult =
    | Received(msg: Frame)
    | NothingReceived
    | RecvError(description: string)

  /** What constructing the bus from a configuration gives: a bus with its
      channel description, or the exception the constructor raised. */
  datatype OpenResult = Opened(channelInfo: string) | OpenFailed(description: string)

  /** A call the session makes on the open bus or on one of its periodic tasks. */
  datatype BusCall =
    | Send(msg: Frame)
    | SendPeriodic(msg: Frame, period: real, duration: Option<real>)
    | ModifyData(arbitrationId: int, msg: Frame)
    | StopTask(arbitrationId: int)

  /** The events carried by a sequence of `sendall` payloads, in wire order. */
  function Flatten(batches: seq<seq<Event>>): seq<Event>
  {
    if batches == [] then [] else Flatten(batches[..|batches| - 1]) + batches[|batches| - 1]
  }

  lemma FlattenAppend(batches: seq<seq<Event>>, b: seq<Event>)
    ensures Flatten(batches + [b]) == Flatten(batches) + b
  {
    assert (batches + [b])[..|batches|] == batches;
  }
}
