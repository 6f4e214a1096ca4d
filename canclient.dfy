/** `CANMessage` and `CANClient` of dbcfeederlib/canclient.py: how the
    constructor picks a transport from the interface name, and how `stop`,
    `recv` and `send` delegate to the bus it holds. */
module CanClient {
  import opened CanBus

  /** A received message, wrapped so that callers see only its identifier
      and its payload. */
  datatype CANMessage = CANMessage(msg: Message) {
    function GetArbitrationId(): int { msg.arbitrationId }
    function GetData(): seq<byte> { msg.data }
  }

  /** The `**kwargs` of `CANClient.__init__`: Python binds a keyword that
      names one of the constructor's own parameters to that parameter, so
      the extra keywords never include those names. */
  type CtorKwargs = m: map<string, PyValue> | m.Keys !! {"self", "interface", "channel", "bitrate", "port"}
    witness map[]

  /** The arguments of `CANClient(interface, channel, bitrate, port, **kwargs)`. */
  datatype Request = Request(
    interface: string := "socketcan",
    channel: string := DefaultChannel,
    bitrate: int := DefaultBitrate,
    port: PyValue := NoneValue,
    kwargs: CtorKwargs := map[])

  const DefaultChannel: string := "vcan0"
  const DefaultBitrate: int := 500000

  /** The attributes a constructed client holds; `kuksaClient` is `None` when
      the attribute `_kuksa_client` was never assigned. */
  datatype ClientState = ClientState(
    interface: string,
    channel: string,
    bus: BusHandle,
    kuksaClient: Option<Bridge>)

  /** The virtual bus the kuksa branch falls back to: only interface and
      channel are passed. */
  function VirtualFallbackArgs(channel: string): BusArgs {
    BusArgs("virtual", channel, None, None, map[])
  }

  /** Whether the bridge path of the kuksa branch completes: the import, the
      bridge constructor and the read of its `bus` attribute all return. */
  predicate BridgeReady(w: World, channel: string, bitrate: int) {
    w.importBridge.Ok? && w.newBridge(channel, bitrate).Ok? &&
    w.bridgeBus(Bridge(channel, bitrate, w.newBridge(channel, bitrate).value)).Ok?
  }

  /** Opens a bus with `args` and, when that returns, the client state holding it. */
  function OpenBus(w: World, q: Request, args: BusArgs, kuksa: Option<Bridge>): Outcome<ClientState> {
    match w.openBus(args)
    case Ok(_) => Ok(ClientState(q.interface, q.channel, Opened(args), kuksa))
    case Raise(e) => Raise(e)
  }

  /** The kuksa branch: try the bridge; any exception in the try block sends
      the constructor to a virtual bus on the same channel. `_kuksa_client` is
      assigned once the bridge constructor has returned, even when reading
      its `bus` attribute then raises. */
  function KuksaInit(w: World, q: Request): (r: Outcome<ClientState>)
    ensures r.Raise? <==> !BridgeReady(w, q.channel, q.bitrate) && w.openBus(VirtualFallbackArgs(q.channel)).Raise?
    ensures r.Ok? ==> (r.value.kuksaClient.Some? <==> w.importBridge.Ok? && w.newBridge(q.channel, q.bitrate).Ok?)
    ensures r.Ok? && r.value.kuksaClient.Some? ==>
              r.value.kuksaClient.value == Bridge(q.channel, q.bitrate, w.newBridge(q.channel, q.bitrate).value)
  {
    var fallback := VirtualFallbackArgs(q.channel);
    match w.importBridge
    case Raise(_) => OpenBus(w, q, fallback, None)
    case Ok(_) =>
      match w.newBridge(q.channel, q.bitrate)
      case Raise(_) => OpenBus(w, q, fallback, None)
      case Ok(truthy) =>
        var b := Bridge(q.channel, q.bitrate, truthy);
        match w.bridgeBus(b)
        case Ok(_) => Ok(ClientState(q.interface, q.channel, BridgeBus(b), Some(b)))
        case Raise(_) => OpenBus(w, q, fallback, Some(b))
  }

  /** What `CANClient(...)` does: the state of the new client, or the
      exception the constructor lets escape. */
  function Init(w: World, q: Request): (r: Outcome<ClientState>)
    ensures r.Ok? ==> r.value.interface == q.interface && r.value.channel == q.channel
    ensures q.interface == "udp_multicast" && q.port == NoneValue ==> r == Raise(ValueError)
    ensures q.interface != "kuksa" && r.Ok? ==> r.value.kuksaClient.None? && r.value.bus.Opened?
  {
    if q.interface == "kuksa" then
      KuksaInit(w, q)
    else if q.interface == "udp_multicast" then
      if q.port == NoneValue then Raise(ValueError)
      else OpenBus(w, q, BusArgs("udp_multicast", q.channel, Some(q.bitrate), Some(q.port), q.kwargs), None)
    else
      OpenBus(w, q, BusArgs(q.interface, q.channel, Some(q.bitrate), None, q.kwargs), None)
  }

  /** A multicast request without a port raises the configuration error
      whatever the world does: no bus and no bridge is consulted. */
  lemma UdpWithoutPortRaises(w: World, w': World, q: Request)
    requires q.interface == "udp_multicast" && q.port == NoneValue
    ensures Init(w, q) == Raise(ValueError)
    ensures Init(w, q) == Init(w', q)
  {
  }

  /** A multicast request with a port opens exactly that multicast bus,
      forwarding channel, port, bitrate and extra arguments. */
  lemma UdpWithPortOpensMulticast(w: World, q: Request)
    requires q.interface == "udp_multicast" && q.port != NoneValue
    ensures var args := BusArgs("udp_multicast", q.channel, Some(q.bitrate), Some(q.port), q.kwargs);
      Init(w, q) == (if w.openBus(args).Ok?
                     then Ok(ClientState("udp_multicast", q.channel, Opened(args), None))
                     else Raise(w.openBus(args).exc))
  {
  }

  /** Any other interface name goes straight to `can.interface.Bus` with the
      name, channel, bitrate and extra arguments; the port is dropped. */
  lemma OtherInterfaceOpensDirectly(w: World, q: Request)
    requires q.interface != "kuksa" && q.interface != "udp_multicast"
    ensures var args := BusArgs(q.interface, q.channel, Some(q.bitrate), None, q.kwargs);
      Init(w, q) == (if w.openBus(args).Ok?
                     then Ok(ClientState(q.interface, q.channel, Opened(args), None))
                     else Raise(w.openBus(args).exc))
  {
  }

  /** The kuksa branch raises only when the bridge path failed AND the
      virtual fallback itself raised; bridge failures alone never escape. */
  lemma KuksaRaisesOnlyThroughFallback(w: World, q: Request)
    requires q.interface == "kuksa"
    ensures Init(w, q).Raise? <==>
              !BridgeReady(w, q.channel, q.bitrate) && w.openBus(VirtualFallbackArgs(q.channel)).Raise?
    ensures Init(w, q).Raise? ==> Init(w, q).exc == w.openBus(VirtualFallbackArgs(q.channel)).exc
  {
  }

  /** What a kuksa client holds: the bridge and its bus when the bridge path
      completes, otherwise a virtual bus on the requested channel; the
      interface name stays "kuksa" either way, and `_kuksa_client` is set
      exactly when the bridge constructor returned. */
  lemma KuksaState(w: World, q: Request)
    requires q.interface == "kuksa" && Init(w, q).Ok?
    ensures var s := Init(w, q).value;
      && s.interface == "kuksa" && s.channel == q.channel
      && (BridgeReady(w, q.channel, q.bitrate) ==>
            var b := Bridge(q.channel, q.bitrate, w.newBridge(q.channel, q.bitrate).value);
            s.bus == BridgeBus(b) && s.kuksaClient == Some(b))
      && (!BridgeReady(w, q.channel, q.bitrate) ==> s.bus == Opened(VirtualFallbackArgs(q.channel)))
      && (s.kuksaClient.Some? <==> w.importBridge.Ok? && w.newBridge(q.channel, q.bitrate).Ok?)
      && (s.kuksaClient.Some? ==>
            s.kuksaClient.value == Bridge(q.channel, q.bitrate, w.newBridge(q.channel, q.bitrate).value))
  {
  }

  /** When the bridge is built but reading its `bus` raises, the client holds
      both the bridge and a virtual bus; if the bridge is truthy, `stop`
      stops the bridge and the virtual bus is never shut down. */
  lemma HalfFailedStopSkipsVirtual(w: World, q: Request)
    requires q.interface == "kuksa"
    requires w.importBridge.Ok? && w.newBridge(q.channel, q.bitrate) == Ok(true)
    requires w.bridgeBus(Bridge(q.channel, q.bitrate, true)).Raise?
    requires w.openBus(VirtualFallbackArgs(q.channel)).Ok?
    ensures Init(w, q).Ok?
    ensures var s := Init(w, q).value;
      && s.bus == Opened(VirtualFallbackArgs(q.channel))
      && s.kuksaClient == Some(Bridge(q.channel, q.bitrate, true))
      && StopTarget(s) == BridgeStop(Bridge(q.channel, q.bitrate, true))
      && StopTarget(s) != Shutdown(s.bus)
  {
  }

  /** Neither the port nor the extra keyword arguments reach the kuksa branch. */
  lemma KuksaIgnoresPortAndKwargs(w: World, q: Request, port: PyValue, kwargs: CtorKwargs)
    requires q.interface == "kuksa"
    ensures Init(w, q.(port := port, kwargs := kwargs)) == Init(w, q)
  {
  }

  /** The call `stop` makes: the bridge's `stop` when `_kuksa_client` is set
      and truthy, the bus's `shutdown` otherwise, never both. */
  function StopTarget(s: ClientState): (c: Call)
    ensures c.BridgeStop? <==> s.kuksaClient.Some? && s.kuksaClient.value.truthy
    ensures c.BridgeStop? ==> c.bridge == s.kuksaClient.value
    ensures !c.BridgeStop? ==> c == Shutdown(s.bus)
  {
    if s.kuksaClient.Some? && s.kuksaClient.value.truthy then BridgeStop(s.kuksaClient.value)
    else Shutdown(s.bus)
  }

  /** What `recv` returns, given what the bus's `recv` did and whether the
      message it returned is truthy: a `CanError` or a falsy result becomes
      `None`, any other exception escapes, anything else is wrapped. */
  function RecvResult(polled: Outcome<Option<Message>>, truthy: bool): (r: Outcome<Option<CANMessage>>)
    ensures r == Ok(None) <==>
              polled == Raise(CanError) || (polled.Ok? && (polled.value.None? || !truthy))
    ensures r.Raise? <==> polled.Raise? && polled.exc != CanError
    ensures r.Raise? ==> r.exc == polled.exc
    ensures r.Ok? && r.value.Some? ==>
              && polled.Ok? && polled.value.Some? && truthy
              && r.value.value.GetArbitrationId() == polled.value.value.arbitrationId
              && r.value.value.GetData() == polled.value.value.data
  {
    match polled
    case Raise(e) => if e == CanError then Ok(None) else Raise(e)
    case Ok(m) => if m.Some? && truthy then Ok(Some(CANMessage(m.value))) else Ok(None)
  }

  /** What escapes `send`, given what the bus's `send` did: `CanError` is
      swallowed, any other exception escapes. */
  function SendResult(sent: Outcome<()>): (raised: Option<Exc>)
    ensures raised.None? <==> sent.Ok? || sent.exc == CanError
    ensures raised.Some? ==> sent == Raise(raised.value)
  {
    match sent
    case Ok(_) => None
    case Raise(e) => if e == CanError then None else Some(e)
  }

  class CANClient {
    var interface: string
    var channel: string
    var bus: BusHandle
    var kuksaClient: Option<Bridge>
    /** The calls this client has made on its bridge or bus, oldest first. */
    var calls: seq<Call>

    function State(): ClientState
      reads this
    {
      ClientState(interface, channel, bus, kuksaClient)
    }

    constructor (interface: string, channel: string, bus: BusHandle, kuksaClient: Option<Bridge>)
      ensures State() == ClientState(interface, channel, bus, kuksaClient)
      ensures calls == []
    {
      this.interface := interface;
      this.channel := channel;
      this.bus := bus;
      this.kuksaClient := kuksaClient;
      calls := [];
    }

    /** `CANClient(...)`: the new client, or the exception that escapes. */
    static method Create(w: World, q: Request) returns (r: Outcome<CANClient>)
      ensures r.Raise? ==> Init(w, q) == Raise(r.exc)
      ensures r.Ok? ==> fresh(r.value) && Init(w, q) == Ok(r.value.State()) && r.value.calls == []
    {
      var held := Opened(VirtualFallbackArgs(q.channel));
      var kuksa: Option<Bridge> := None;
      if q.interface == "kuksa" {
        var failed := true;
        var imported := w.importBridge;
        if imported.Ok? {
          var made := w.newBridge(q.channel, q.bitrate);
          if made.Ok? {
            var b := Bridge(q.channel, q.bitrate, made.value);
            kuksa := Some(b);
            var access := w.bridgeBus(b);
            if access.Ok? {
              held := BridgeBus(b);
              failed := false;
            }
          }
        }
        if failed {
          var args := VirtualFallbackArgs(q.channel);
          var outcome := w.openBus(args);
          if outcome.Raise? {
            return Raise(outcome.exc);
          }
          held := Opened(args);
        }
      } else {
        var args;
        if q.interface == "udp_multicast" {
          if q.port == NoneValue {
            return Raise(ValueError);
          }
          args := BusArgs("udp_multicast", q.channel, Some(q.bitrate), Some(q.port), q.kwargs);
        } else {
          args := BusArgs(q.interface, q.channel, Some(q.bitrate), None, q.kwargs);
        }
        var outcome := w.openBus(args);
        if outcome.Raise? {
          return Raise(outcome.exc);
        }
        held := Opened(args);
      }
      var c := new CANClient(q.interface, q.channel, held, kuksa);
      return Ok(c);
    }

    /** `stop()`: one call on the bridge or the bus; whatever that call does,
        nothing escapes. A second `stop` makes the call again. */
    method Stop() returns (raised: Option<Exc>)
      modifies this`calls
      ensures calls == old(calls) + [StopTarget(State())]
      ensures raised == None
    {
      if kuksaClient.Some? && kuksaClient.value.truthy {
        calls := calls + [BridgeStop(kuksaClient.value)];
      } else {
        calls := calls + [Shutdown(bus)];
      }
      raised := None;
    }

    /** `recv(timeout)`: one receive on the held bus, given what that
        receive did and whether the message it returned is truthy. */
    method Recv(polled: Outcome<Option<Message>>, truthy: bool, timeout: int := 1)
      returns (r: Outcome<Option<CANMessage>>)
      modifies this`calls
      ensures calls == old(calls) + [Receive(bus, timeout)]
      ensures r == RecvResult(polled, truthy)
    {
      calls := calls + [Receive(bus, timeout)];
      var msg: Option<Message> := None;
      if polled.Raise? {
        if polled.exc != CanError {
          return Raise(polled.exc);
        }
      } else {
        msg := polled.value;
      }
      if msg.Some? && truthy {
        r := Ok(Some(CANMessage(msg.value)));
      } else {
        r := Ok(None);
      }
    }

    /** `send(arbitration_id, data)`: transmits one standard-identifier frame
        with the given identifier and payload on the held bus. */
    method Send(arbitrationId: int, data: seq<byte>, sent: Outcome<()>) returns (raised: Option<Exc>)
      modifies this`calls
      ensures calls == old(calls) + [Transmit(bus, Message(arbitrationId, data, false))]
      ensures raised == SendResult(sent)
    {
      var msg := Message(arbitrationId, data, false);
      calls := calls + [Transmit(bus, msg)];
      raised := None;
      if sent.Raise? && sent.exc != CanError {
        raised := Some(sent.exc);
      }
    }
  }
}
