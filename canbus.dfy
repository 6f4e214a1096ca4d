/** The collaborators the CAN client is written against: the python-can bus
    constructor, the optional kuksa_can_bridge package and the bus objects they
    return. None of them is modelled; each appears only as an oracle that says
    whether a call returns or which exception it raises. */
module CanBus {

  datatype Option<+T> = None | Some(value: T)

  /** The Python exception classes the client tells apart. Every one of them
      derives from `Exception`, so an `except Exception` handler catches all.
      `TypeError` is what Python raises for a keyword argument given twice. */
  datatype Exc = ImportError | CanError | ValueError | TypeError | OtherError

  /** What a Python call does: return a value, or raise. */
  datatype Outcome<+T> = Ok(value: T) | Raise(exc: Exc)

  newtype byte = x: int | 0 <= x < 256

  /** A Python argument value, as far as the client looks at one. */
  datatype PyValue = NoneValue | IntValue(i: int) | StrValue(s: string)

  /** The keyword arguments handed to `can.interface.Bus`; `None` marks an
      argument the call leaves out (python-can then uses its own default).
      Extra keyword arguments are passed through by name. */
  datatype BusArgs = BusArgs(
    interface: string,
    channel: string,
    bitrate: Option<int>,
    port: Option<PyValue>,
    kwargs: map<string, PyValue>)

  /** An instance of `kuksa_can_bridge.CanClient`, built from the interface and
      bitrate it was given; `truthy` is how the object tests in a Python `if`. */
  datatype Bridge = Bridge(canInterface: string, canBitrate: int, truthy: bool)

  /** A bus object: one opened by `can.interface.Bus` with the given
      arguments, or the `bus` attribute of a bridge. */
  datatype BusHandle = Opened(args: BusArgs) | BridgeBus(bridge: Bridge)

  /** A `can.Message`: the fields the client sets or reads. */
  datatype Message = Message(arbitrationId: int, data: seq<byte>, isExtendedId: bool)

  /** A call the client makes on a bridge or a bus after construction. */
  datatype Call =
    | BridgeStop(bridge: Bridge)
    | Shutdown(bus: BusHandle)
    | Receive(bus: BusHandle, timeout: int)
    | Transmit(bus: BusHandle, msg: Message)

  /** The outside world, as far as construction is concerned:
      - `openBus`: what `can.interface.Bus(**args)` does;
      - `importBridge`: what `from kuksa_can_bridge import CanClient` does;
      - `newBridge`: what `CanClient(can_interface=channel, can_bitrate=bitrate)`
        does, and when it returns, whether the new object is truthy;
      - `bridgeBus`: what reading the `bus` attribute of a bridge does. */
  datatype World = World(
    openBus: BusArgs -> Outcome<()>,
    importBridge: Outcome<()>,
    newBridge: (string, int) -> Outcome<bool>,
    bridgeBus: Bridge -> Outcome<()>)
}
