/** `create_default_client`, `create_kuksa_client` and `create_pcan_client`
    of dbcfeederlib/canclient.py: which client constructions are attempted,
    in which order, and which one's outcome the caller gets. */
module Selection {
  import opened CanBus
  import opened CanClient

  /** The client constructions a factory attempted, in order, and the outcome
      the factory returns or raises. */
  datatype Attempted = Attempted(attempts: seq<Request>, result: Outcome<ClientState>)

  function LowerChar(c: char): char {
    if 'A' <= c <= 'Z' then (c as int - 'A' as int + 'a' as int) as char else c
  }

  /** `str.lower()` restricted to ASCII letters. */
  function AsciiLower(s: string): (r: string)
    ensures |r| == |s|
    ensures forall i :: 0 <= i < |s| ==> r[i] == LowerChar(s[i])
  {
    if s == [] then [] else [LowerChar(s[0])] + AsciiLower(s[1..])
  }

  /** `platform.system().lower() == "windows"`: the name is "windows" up to
      the case of its letters. */
  function IsWindows(system: string): (b: bool)
    ensures b <==> |system| == 7 && forall i :: 0 <= i < 7 ==> LowerChar(system[i]) == "windows"[i]
  {
    AsciiLower(system) == "windows"
  }

  /** The platform test ignores letter case and nothing else. */
  lemma IsWindowsNames()
    ensures IsWindows("Windows") && IsWindows("WINDOWS") && IsWindows("windows")
    ensures !IsWindows("Linux") && !IsWindows("Darwin") && !IsWindows("Windows10")
  {
    assert AsciiLower("Windows") == "windows";
    assert AsciiLower("WINDOWS") == "windows";
    assert AsciiLower("windows") == "windows";
    assert AsciiLower("Linux")[0] == 'l';
    assert AsciiLower("Darwin")[0] == 'd';
  }

  function KuksaRequest(channel: string, bitrate: int, kwargs: CtorKwargs): Request {
    Request("kuksa", channel, bitrate, NoneValue, kwargs)
  }

  function SocketcanRequest(channel: string, bitrate: int): Request {
    Request("socketcan", channel, bitrate, NoneValue, map[])
  }

  /** The Windows fallback: the multicast group 239.0.0.1 on port 50000, with
      the constructor's default bitrate. */
  const MulticastFallback: Request := Request(interface := "udp_multicast", channel := "239.0.0.1", port := IntValue(50000))

  /** The last resort: `CANClient(interface="virtual")`, so the default
      channel and bitrate. */
  const VirtualFallback: Request := Request(interface := "virtual")

  /** `create_default_client(channel, bitrate)` on the platform `system`: each
      attempt returns on success; an exception from the first goes to the
      second; one from the second goes to the outer handler, whose virtual
      client is not guarded. */
  function DefaultClient(w: World, system: string, channel: string := DefaultChannel, bitrate: int := DefaultBitrate): (s: Attempted)
    ensures s == FirstSuccess(w, Candidates(system, channel, bitrate))
  {
    var first := if IsWindows(system) then KuksaRequest(channel, bitrate, map[]) else SocketcanRequest(channel, bitrate);
    var second := if IsWindows(system) then MulticastFallback else KuksaRequest(channel, bitrate, map[]);
    match Init(w, first)
    case Ok(c) => Attempted([first], Ok(c))
    case Raise(_) =>
      match Init(w, second)
      case Ok(c) => Attempted([first, second], Ok(c))
      case Raise(_) => Attempted([first, second, VirtualFallback], Init(w, VirtualFallback))
  }

  /** The platform's candidate list, last resort included. */
  function Candidates(system: string, channel: string, bitrate: int): (cs: seq<Request>)
    ensures |cs| == 3 && cs[2] == VirtualFallback
  {
    if IsWindows(system) then [KuksaRequest(channel, bitrate, map[]), MulticastFallback, VirtualFallback]
    else [SocketcanRequest(channel, bitrate), KuksaRequest(channel, bitrate, map[]), VirtualFallback]
  }

  /** Reference policy: attempt the candidates in order and stop at the first
      construction that returns; when all raise, the last one's exception
      escapes. */
  function FirstSuccess(w: World, cands: seq<Request>): (s: Attempted)
    requires |cands| > 0
    ensures 0 < |s.attempts| <= |cands| && s.attempts == cands[..|s.attempts|]
    ensures forall i :: 0 <= i < |s.attempts| - 1 ==> Init(w, s.attempts[i]).Raise?
    ensures s.result == Init(w, s.attempts[|s.attempts| - 1])
    ensures s.result.Raise? ==> s.attempts == cands
  {
    var r := Init(w, cands[0]);
    if r.Ok? || |cands| == 1 then Attempted([cands[0]], r)
    else
      var rest := FirstSuccess(w, cands[1..]);
      Attempted([cands[0]] + rest.attempts, rest.result)
  }

  /** Corollary of the contract of `FirstSuccess`: when candidate `k` is the
      first whose construction returns, the policy attempts exactly the
      candidates up to `k` and returns that client. */
  lemma {:induction false} FirstSuccessPicksFirstOk(w: World, cands: seq<Request>, k: nat)
    requires k < |cands| && Init(w, cands[k]).Ok?
    requires forall j :: 0 <= j < k ==> Init(w, cands[j]).Raise?
    ensures FirstSuccess(w, cands).attempts == cands[..k + 1]
    ensures FirstSuccess(w, cands).result == Init(w, cands[k])
  {
  }

  /** Corollary of the contract of `FirstSuccess`: when every candidate
      raises, all are attempted and the last one's exception escapes. */
  lemma {:induction false} FirstSuccessAllRaise(w: World, cands: seq<Request>)
    requires |cands| > 0
    requires forall j :: 0 <= j < |cands| ==> Init(w, cands[j]).Raise?
    ensures FirstSuccess(w, cands).attempts == cands
    ensures FirstSuccess(w, cands).result == Init(w, cands[|cands| - 1])
  {
  }

  /** First success wins: every attempt before the last raised, the caller
      gets the last attempt's outcome, and a later candidate is attempted
      only when every earlier one raised. */
  lemma DefaultClientFirstSuccessWins(w: World, system: string, channel: string, bitrate: int)
    ensures var s := DefaultClient(w, system, channel, bitrate);
      && var cs := Candidates(system, channel, bitrate);
      && 0 < |s.attempts| <= 3
      && s.attempts == cs[..|s.attempts|]
      && (forall i :: 0 <= i < |s.attempts| - 1 ==> Init(w, s.attempts[i]).Raise?)
      && s.result == Init(w, s.attempts[|s.attempts| - 1])
      && (forall i :: 0 <= i < |s.attempts| - 1 ==> Init(w, cs[i]).Raise?)
  {
  }

  /** On Windows the bridge is tried first, with the caller's channel and
      bitrate; the multicast client is attempted exactly when that raised. */
  lemma WindowsOrder(w: World, system: string, channel: string, bitrate: int)
    requires IsWindows(system)
    ensures var s := DefaultClient(w, system, channel, bitrate);
      && s.attempts[0] == Request("kuksa", channel, bitrate, NoneValue, map[])
      && ((|s.attempts| > 1 && s.attempts[1] == MulticastFallback) <==>
            Init(w, KuksaRequest(channel, bitrate, map[])).Raise?)
  {
  }

  /** Because the kuksa constructor swallows bridge failures, the Windows
      multicast fallback is reached only when the bridge path failed and
      the virtual bus on the caller's channel then raised as well. */
  lemma WindowsMulticastNeedsVirtualFailure(w: World, system: string, channel: string, bitrate: int)
    requires IsWindows(system)
    ensures var s := DefaultClient(w, system, channel, bitrate);
      MulticastFallback in s.attempts <==>
        !BridgeReady(w, channel, bitrate) && w.openBus(VirtualFallbackArgs(channel)).Raise?
  {
    var s := DefaultClient(w, system, channel, bitrate);
    var kq := KuksaRequest(channel, bitrate, map[]);
    KuksaRaisesOnlyThroughFallback(w, kq);
    assert kq != MulticastFallback;
    if Init(w, kq).Ok? {
      assert s.attempts == [kq];
    }
  }

  /** Elsewhere socketcan is tried first, with the caller's channel and
      bitrate; the bridge is attempted exactly when socketcan raised. */
  lemma PosixOrder(w: World, system: string, channel: string, bitrate: int)
    requires !IsWindows(system)
    ensures var s := DefaultClient(w, system, channel, bitrate);
      && s.attempts[0] == Request("socketcan", channel, bitrate, NoneValue, map[])
      && ((|s.attempts| > 1 && s.attempts[1] == KuksaRequest(channel, bitrate, map[])) <==>
            Init(w, SocketcanRequest(channel, bitrate)).Raise?)
  {
  }

  /** Elsewhere the bridge step cannot raise unless the virtual bus on the
      caller's channel raises, so the outer virtual client on "vcan0" is
      attempted exactly when socketcan raised, the bridge path failed and
      that virtual bus raised as well. */
  lemma PosixVirtualNeedsFallbackFailure(w: World, system: string, channel: string, bitrate: int)
    requires !IsWindows(system)
    ensures var s := DefaultClient(w, system, channel, bitrate);
      VirtualFallback in s.attempts <==>
        && Init(w, SocketcanRequest(channel, bitrate)).Raise?
        && !BridgeReady(w, channel, bitrate)
        && w.openBus(VirtualFallbackArgs(channel)).Raise?
  {
    var s := DefaultClient(w, system, channel, bitrate);
    var kq := KuksaRequest(channel, bitrate, map[]);
    var sq := SocketcanRequest(channel, bitrate);
    KuksaRaisesOnlyThroughFallback(w, kq);
    assert sq != VirtualFallback;
    assert kq != VirtualFallback;
    if Init(w, sq).Ok? {
      assert s.attempts == [sq];
    } else if Init(w, kq).Ok? {
      assert s.attempts == [sq, kq];
    }
  }

  /** Without CAN hardware and without the bridge package, the default
      client elsewhere ends on the kuksa constructor's own virtual bus on
      the caller's channel: interface "kuksa", no bridge held, and the outer
      virtual client is never attempted. */
  lemma PosixWithoutHardware(w: World, system: string, channel: string, bitrate: int)
    requires !IsWindows(system)
    requires Init(w, SocketcanRequest(channel, bitrate)).Raise?
    requires w.importBridge.Raise? && w.openBus(VirtualFallbackArgs(channel)).Ok?
    ensures var s := DefaultClient(w, system, channel, bitrate);
      && s.attempts == [SocketcanRequest(channel, bitrate), KuksaRequest(channel, bitrate, map[])]
      && s.result == Ok(ClientState("kuksa", channel, Opened(VirtualFallbackArgs(channel)), None))
  {
  }

  /** When both platform candidates raise, the caller gets the outer virtual
      client on the default channel, provided that bus opens; otherwise its
      exception escapes. */
  lemma AllFailingGivesVirtual(w: World, system: string, channel: string, bitrate: int)
    requires var cs := Candidates(system, channel, bitrate);
      Init(w, cs[0]).Raise? && Init(w, cs[1]).Raise?
    ensures var s := DefaultClient(w, system, channel, bitrate);
      var args := BusArgs("virtual", "vcan0", Some(500000), None, map[]);
      && s.attempts == Candidates(system, channel, bitrate)
      && (w.openBus(args).Ok? ==>
            s.result == Ok(ClientState("virtual", "vcan0", Opened(args), None)))
      && (w.openBus(args).Raise? ==> s.result == Raise(w.openBus(args).exc))
  {
  }

  /** The `**kwargs` of `create_kuksa_client`: `channel` and `bitrate` bind to
      the factory's own parameters, so they are never among them. */
  type FactoryKwargs = m: map<string, PyValue> | "channel" !in m && "bitrate" !in m
    witness map[]

  /** Forwarding `kwargs` to `CANClient(interface="kuksa", channel=..., bitrate=...,
      **kwargs)` gives `interface` twice, or `self` twice, when one of them is
      among the keywords: Python then raises `TypeError` before the call. */
  predicate KeywordClash(kwargs: FactoryKwargs) {
    "interface" in kwargs || "self" in kwargs
  }

  /** The constructor call the factory makes when no keyword clashes: a
      `port` keyword binds to the constructor's own `port` parameter, the
      other keywords become its `**kwargs`. */
  function FactoryRequest(channel: string, bitrate: int, kwargs: FactoryKwargs): (q: Request)
    requires !KeywordClash(kwargs)
    ensures q.interface == "kuksa" && q.channel == channel && q.bitrate == bitrate
    ensures q.port == (if "port" in kwargs then kwargs["port"] else NoneValue)
    ensures q.kwargs.Keys == kwargs.Keys - {"port"}
    ensures forall k :: k in q.kwargs ==> q.kwargs[k] == kwargs[k]
  {
    var rest: CtorKwargs := kwargs - {"port"};
    Request("kuksa", channel, bitrate, if "port" in kwargs then kwargs["port"] else NoneValue, rest)
  }

  /** `create_kuksa_client(channel, bitrate, **kwargs)`: a keyword clash
      raises `TypeError` with no construction attempted; otherwise one kuksa
      construction, its outcome handed back unchanged. */
  function CreateKuksaClient(w: World, channel: string := DefaultChannel, bitrate: int := DefaultBitrate,
                             kwargs: FactoryKwargs := map[]): (s: Attempted)
    ensures KeywordClash(kwargs) ==> s == Attempted([], Raise(TypeError))
    ensures !KeywordClash(kwargs) ==>
              s.attempts == [FactoryRequest(channel, bitrate, kwargs)] && s.result == Init(w, s.attempts[0])
    ensures s.result.Raise? <==>
              KeywordClash(kwargs) ||
              (!BridgeReady(w, channel, bitrate) && w.openBus(VirtualFallbackArgs(channel)).Raise?)
  {
    if KeywordClash(kwargs) then Attempted([], Raise(TypeError))
    else
      var q := FactoryRequest(channel, bitrate, kwargs);
      Attempted([q], Init(w, q))
  }

  /** `create_pcan_client(channel, bitrate)`: the kuksa factory without
      extra arguments. */
  function CreatePcanClient(w: World, channel: string := "PCAN_USBBUS1", bitrate: int := DefaultBitrate): (s: Attempted)
    ensures s.attempts == [Request("kuksa", channel, bitrate, NoneValue, map[])]
    ensures s.result.Raise? <==>
              !BridgeReady(w, channel, bitrate) && w.openBus(VirtualFallbackArgs(channel)).Raise?
  {
    CreateKuksaClient(w, channel, bitrate)
  }

  /** The explicit factories have no fallback chain: at most one construction
      is attempted. When no keyword clashes, neither the extra keywords nor a
      `port` change the outcome, so the kuksa factory with any keywords gives
      what the pcan factory gives. */
  lemma FactoriesHaveNoFallback(w: World, channel: string, bitrate: int, kwargs: FactoryKwargs)
    ensures |CreateKuksaClient(w, channel, bitrate, kwargs).attempts| <= 1
    ensures |CreatePcanClient(w, channel, bitrate).attempts| == 1
    ensures !KeywordClash(kwargs) ==>
              CreateKuksaClient(w, channel, bitrate, kwargs).result == CreatePcanClient(w, channel, bitrate).result
  {
    if !KeywordClash(kwargs) {
      var q := FactoryRequest(channel, bitrate, kwargs);
      KuksaIgnoresPortAndKwargs(w, Request("kuksa", channel, bitrate, NoneValue, map[]), q.port, q.kwargs);
      assert q == Request("kuksa", channel, bitrate, NoneValue, map[]).(port := q.port, kwargs := q.kwargs);
    }
  }
}
