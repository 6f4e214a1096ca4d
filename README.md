# CAN client transport selection, modelled in Dafny

This project models `dbcfeederlib/canclient.py`, the CAN client of a DBC
feeder. The client hides several CAN transports behind one object:
SocketCAN, python-can's virtual bus, UDP multicast, and the KUKSA CAN bridge.
The model covers four things:

- how the `CANClient` constructor picks a transport from the `interface`
  name, and when it falls back to a virtual bus;
- how `stop`, `recv` and `send` delegate to the bus the client holds, and
  which exceptions they swallow;
- the order in which `create_default_client` tries transports on Windows
  and on other platforms;
- the explicit factories `create_kuksa_client` and `create_pcan_client`.

python-can and the bridge package are not modelled. They appear only as a
`World` of oracles (`canbus.dfy`): each says whether a bus construction, the
bridge import, the bridge constructor or the bridge's `bus` attribute returns
or raises. A Python exception is `Raise(e)`, where `e` is one of
`ImportError`, `CanError`, `ValueError`, `TypeError` or `OtherError`.
Argument values are `PyValue`s (`None`, an integer or a string). The
constructor's `**kwargs` has a type that excludes its own parameter names,
and the factory's `**kwargs` has one that excludes `channel` and `bitrate`.
Python binds those names to the named parameters, so they never reach
`**kwargs`.

Files:

- `canbus.dfy`: the oracles and value types (bus arguments, bus handles,
  messages, and the calls a client makes on its bus).
- `canclient.dfy`:
  - `CANMessage` with its getters;
  - `Init`, a pure function that states what the constructor does;
  - the `CANClient` class, whose fields are `interface`, `channel`, `bus`
    and `kuksaClient`, plus `calls`, the calls made so far on the bridge or
    bus;
  - `Create`, the constructor written as imperative code, proved equal to
    `Init`;
  - `Stop`, `Recv` and `Send`.
- `selection.dfy`:
  - `DefaultClient`, the nested try blocks of `create_default_client`;
  - `FirstSuccess`, a separate reference definition: try the candidates in
    order, stop at the first success;
  - `DefaultClient`'s postcondition proves the two equal;
  - lemmas on attempt order and the fallbacks;
  - the two factories.

The platform name (`platform.system()`) is an input. A receive or send
outcome is a method parameter. So is whether a received message is truthy.

## Model

| member | source | states |
|---|---|---|
| `CanClient.Init` | dbcfeederlib/canclient.py:20-54 | The constructor's dispatch. A client always records the requested interface and channel. A multicast request without a port raises `ValueError`. Outside the kuksa branch no bridge is held and the bus is one opened by `can.interface.Bus`. Branch by branch: `UdpWithoutPortRaises`, `UdpWithPortOpensMulticast`, `OtherInterfaceOpensDirectly`, `KuksaRaisesOnlyThroughFallback`, `KuksaState` |
| `CanClient.KuksaInit` | dbcfeederlib/canclient.py:24-39 | The kuksa branch raises if and only if the bridge path failed and the virtual bus on the same channel raised. `_kuksa_client` is set exactly when the import and the bridge constructor returned, and it is then the bridge built from the requested channel and bitrate |
| `CanClient.CANMessage.GetArbitrationId` | dbcfeederlib/canclient.py:12-13 | The wrapped message's arbitration id; `RecvResult` proves it equals the received message's |
| `CanClient.CANMessage.GetData` | dbcfeederlib/canclient.py:15-16 | The wrapped message's payload; `RecvResult` proves it equals the received message's |
| `CanClient.UdpWithoutPortRaises` | dbcfeederlib/canclient.py:41-43 | A `udp_multicast` request with no port raises `ValueError`, and the result is the same whatever the world does: no bus or bridge is consulted and there is no fallback |
| `CanClient.UdpWithPortOpensMulticast` | dbcfeederlib/canclient.py:44-50 | With a port, the constructor opens exactly the multicast bus with channel, port, bitrate and extra arguments; its exception escapes unchanged |
| `CanClient.OtherInterfaceOpensDirectly` | dbcfeederlib/canclient.py:51-52 | Any other interface name goes straight to `can.interface.Bus` with name, channel, bitrate and extra arguments (no port); no fallback |
| `CanClient.KuksaRaisesOnlyThroughFallback` | dbcfeederlib/canclient.py:24-39 | A kuksa construction raises if and only if the bridge path failed and the virtual bus on the same channel also raised, and then with that bus's exception |
| `CanClient.KuksaState` | dbcfeederlib/canclient.py:21-39 | A kuksa client keeps interface "kuksa" and its channel. It holds the bridge and the bridge's bus when the bridge path completes, otherwise a virtual bus on the same channel. `_kuksa_client` is set exactly when the import and the bridge constructor returned, and it is then the bridge built from the requested channel and bitrate, also when reading its `bus` raised |
| `CanClient.HalfFailedStopSkipsVirtual` | dbcfeederlib/canclient.py:28-39 | When the bridge is built but reading its `bus` raises, the client holds the bridge and a virtual bus; with a truthy bridge, `stop` targets the bridge and never shuts the virtual bus down |
| `CanClient.KuksaIgnoresPortAndKwargs` | dbcfeederlib/canclient.py:24-39 | Neither the port nor the extra keyword arguments have any effect on a kuksa construction |
| `CanClient.StopTarget` | dbcfeederlib/canclient.py:58-61 | `stop` calls the bridge's `stop` exactly when `_kuksa_client` is set and truthy, and otherwise `shutdown` on the held bus; never both |
| `CanClient.RecvResult` | dbcfeederlib/canclient.py:65-73 | `recv` gives `None` exactly when the bus raised `CanError` or returned a falsy value. Any other exception escapes unchanged. Otherwise the wrapped message's id and data equal the received ones |
| `CanClient.SendResult` | dbcfeederlib/canclient.py:77-80 | Nothing escapes `send` exactly when the bus's send returned or raised `CanError`; any other exception escapes unchanged |
| `CanClient.CANClient.constructor` | dbcfeederlib/canclient.py:21-22 | Assigns the interface, channel, bus and bridge attributes; no call made yet |
| `CanClient.CANClient.Create` | dbcfeederlib/canclient.py:20-52 | The branching constructor either raises what `Init` raises, or returns a fresh client whose state is the one `Init` gives |
| `CanClient.CANClient.Stop` | dbcfeederlib/canclient.py:56-63 | Each call adds exactly one call, the `StopTarget` of the current state (repeated stops repeat it), and nothing escapes whatever that call does |
| `CanClient.CANClient.Recv` | dbcfeederlib/canclient.py:65-73 | One receive with the given timeout (default 1) on the held bus; the result is `RecvResult` of what the bus did |
| `CanClient.CANClient.Send` | dbcfeederlib/canclient.py:75-80 | Sends one frame on the held bus, with the given id and data and `is_extended_id` false; what escapes is `SendResult` of what the bus did |
| `Selection.AsciiLower` | dbcfeederlib/canclient.py:84 | Lower-casing keeps the length and lower-cases each ASCII letter in place |
| `Selection.IsWindows` | dbcfeederlib/canclient.py:84-88 | For every platform name: the Windows branch is taken if and only if the name has seven characters that lower-case to "windows" |
| `Selection.IsWindowsNames` | dbcfeederlib/canclient.py:84-88 | "Windows", "WINDOWS" and "windows" select the Windows branch; "Linux", "Darwin" and "Windows10" do not |
| `Selection.Candidates` | dbcfeederlib/canclient.py:88-116 | Each platform has three candidates, and the last is always `CANClient(interface="virtual")` |
| `Selection.FirstSuccess` | dbcfeederlib/canclient.py:87-116 | Reference policy. Attempts are a prefix of the candidates, every attempt before the last raised, and the caller gets the last attempt's outcome. All candidates are attempted when it raises |
| `Selection.FirstSuccessPicksFirstOk` | dbcfeederlib/canclient.py:87-112 | Corollary of `FirstSuccess`'s contract, for any candidate list: when candidate k is the first whose construction returns, exactly candidates 0..k are attempted and the caller gets candidate k's client |
| `Selection.FirstSuccessAllRaise` | dbcfeederlib/canclient.py:87-116 | Corollary of `FirstSuccess`'s contract, for any candidate list: when every construction raises, all are attempted and the last one's exception escapes |
| `Selection.DefaultClient` | dbcfeederlib/canclient.py:83-116 | The nested try blocks of `create_default_client` equal the first-success policy over the platform's candidate list. Order and fallbacks: `DefaultClientFirstSuccessWins`, `WindowsOrder`, `WindowsMulticastNeedsVirtualFailure`, `PosixOrder`, `PosixVirtualNeedsFallbackFailure`, `PosixWithoutHardware`, `AllFailingGivesVirtual` |
| `Selection.DefaultClientFirstSuccessWins` | dbcfeederlib/canclient.py:87-116 | First success wins: no candidate after a successful one is constructed, and a later candidate is constructed only when every earlier one raised |
| `Selection.WindowsOrder` | dbcfeederlib/canclient.py:88-104 | On Windows, kuksa comes first with the caller's channel and bitrate. UDP multicast on 239.0.0.1:50000 comes second, and exactly when kuksa raised |
| `Selection.WindowsMulticastNeedsVirtualFailure` | dbcfeederlib/canclient.py:24-104 | On Windows, UDP multicast is attempted if and only if the bridge path failed and kuksa's own virtual fallback also raised |
| `Selection.PosixOrder` | dbcfeederlib/canclient.py:106-112 | Elsewhere, socketcan comes first with the caller's channel and bitrate, and kuksa second, exactly when socketcan raised |
| `Selection.PosixVirtualNeedsFallbackFailure` | dbcfeederlib/canclient.py:24-116 | Elsewhere, the outer virtual client is attempted if and only if socketcan raised, the bridge path failed and the kuksa virtual fallback raised |
| `Selection.PosixWithoutHardware` | dbcfeederlib/canclient.py:24-112 | With no SocketCAN device and no bridge package, the default client elsewhere is kuksa's virtual bus on the caller's channel, with interface "kuksa" and no bridge |
| `Selection.AllFailingGivesVirtual` | dbcfeederlib/canclient.py:113-116 | When both platform candidates raise, the result is a virtual client on "vcan0" at 500000 bit/s. If that bus raises, its exception escapes |
| `Selection.FactoryRequest` | dbcfeederlib/canclient.py:119-123 | The constructor call the kuksa factory makes with its channel and bitrate: a `port` keyword binds to the constructor's `port`, and every other keyword goes on as an extra argument with its value |
| `Selection.CreateKuksaClient` | dbcfeederlib/canclient.py:119-123 | An `interface` or `self` keyword raises `TypeError` before any construction. Otherwise exactly one kuksa construction, the `FactoryRequest`, with its outcome returned unchanged. It raises if and only if a keyword clashed, or the bridge path and the virtual bus both failed |
| `Selection.CreatePcanClient` | dbcfeederlib/canclient.py:126-130 | One kuksa construction with the given channel (default "PCAN_USBBUS1") and bitrate and no extra arguments; it raises only when the bridge path and the virtual bus both failed |
| `Selection.FactoriesHaveNoFallback` | dbcfeederlib/canclient.py:119-130 | The explicit factories attempt at most one construction: there is no fallback chain. Without a keyword clash, the kuksa factory gives the same outcome as the pcan factory, whatever its extra keywords or port |

## Left out

- python-can (`can.interface.Bus`, `can.Message`, and a bus's `recv`, `send`
  and `shutdown`) and `kuksa_can_bridge.CanClient`: foreign libraries and
  real I/O. They appear only as outcome oracles.
- UDP sockets, SocketCAN devices and PCAN hardware: device and network I/O.
- Logging calls, and the read of `channel_info` at line 54. They have no
  effect on behaviour. The model assumes reading `channel_info` never raises.
- `platform.system()`: the platform name is an input. `str.lower()` is
  modelled for ASCII letters only.
- Receive timeouts as wall-clock time. The timeout is an integer recorded in
  the call, and a timeout shows up as the bus returning no message.
- Exceptions that do not derive from `Exception` (such as
  `KeyboardInterrupt`). Every exception kind in the model is caught by an
  `except Exception` handler.
- Argument values are `None`, integers or strings. Only their names and
  their forwarding matter, not their Python types.
- `can.Message` construction in `send` is assumed never to raise.
  python-can does not validate the frame by default.
- Python truthiness of a received message or a bridge object is an input.
  The model does not decide it.
- Behaviour a transport wrapper might be expected to have, but this code
  does not have, is not modelled:
  - `stop` is not idempotent: every call repeats the bridge stop or the bus
    shutdown.
  - `CanError`s from send and receive are swallowed, not surfaced.
  - Frames are not validated against a length limit or an FD flag.
  - An explicit kuksa request does not propagate bridge failures: it falls
    back to a virtual bus.
  - The bridge is not checked for availability before its constructor is
    tried; the import failure itself is the signal.
