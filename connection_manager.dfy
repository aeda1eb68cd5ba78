/**
 * core/connection_manager.py: the serial connection state machine and the
 * guarded ping / read / write entry points every module goes through.
 */
module Connection {
  import opened Wrappers
  import opened DataParser
  import opened Bus
  import Settings

  /** How an SDK port call (openPort, setBaudRate) turned out. */
  datatype Outcome = Ok | Fails | Raises

  /** The SDK PortHandler object: only whether its port is open matters. */
  datatype Port = Port(isOpen: bool)

  /** The fields connect may change, as a value. */
  datatype ConnState = ConnState(connected: bool, port: Option<Port>, protocol: Option<Settings.Protocol>)

  /** One entry of the scan_servos result list; 'connected' is always True. */
  datatype ServoInfo = ServoInfo(id: int, modelNumber: Option<int>)

  /** get_connection_status. */
  datatype ConnectionStatus = ConnectionStatus(isConnected: bool, portName: string, baudRate: int, protocol: Option<Settings.Protocol>)

  /**
   * connect started while disconnected (so with no protocol handler), given
   * the outcomes of openPort and setBaudRate.  An exception runs _cleanup,
   * which nulls both handlers; a plain failure keeps the port handler, and
   * the last two failures close it first.
   */
  function ConnectSpec(name: string, open: Outcome, baud: Outcome): (r: ConnState)
    ensures r.connected <==> open == Ok && baud == Ok && Settings.ProtocolNamed(name).Some?
    ensures r.connected ==> r.port == Some(Port(true)) && r.protocol == Settings.ProtocolNamed(name)
    ensures !r.connected ==> r.protocol == None
    ensures open == Raises || (open == Ok && baud == Raises) ==> r.port == None
    ensures open == Fails ==> r.port == Some(Port(false))
    ensures open == Ok && baud == Fails ==> r.port == Some(Port(false))
    ensures open == Ok && baud == Ok && Settings.ProtocolNamed(name).None? ==> r.port == Some(Port(false))
  {
    match open
    case Raises => ConnState(false, None, None)
    case Fails => ConnState(false, Some(Port(false)), None)
    case Ok =>
      match baud
      case Raises => ConnState(false, None, None)
      case Fails => ConnState(false, Some(Port(false)), None)
      case Ok =>
        match Settings.ProtocolNamed(name)
        case None => ConnState(false, Some(Port(false)), None)
        case Some(p) => ConnState(true, Some(Port(true)), Some(p))
  }

  /** ping: (model_number, result); the error text is not modelled. */
  function PingSpec(t: Trace, id: int): (r: (Trace, (Option<int>, int)))
    ensures !t.online ==> r == (t, (None, Settings.ERROR_OPERATION_FAILED))
    ensures t.online ==> r.0 == t.(log := t.log + [Ping(id)])
    ensures t.online && t.answer(|t.log|).Done? ==>
      r.1 == (Some(t.answer(|t.log|).value), t.answer(|t.log|).result)
    ensures t.online && t.answer(|t.log|).Raised? ==> r.1 == (None, Settings.ERROR_OPERATION_FAILED)
    ensures r.1.1 == 0 <==> t.online && Succeeded(t.answer(|t.log|))
  {
    if !t.online then (t, (None, Settings.ERROR_OPERATION_FAILED))
    else
      var (t1, reply) := Issue(t, Ping(id));
      match reply
      case Raised => (t1, (None, Settings.ERROR_OPERATION_FAILED))
      case Done(result, value, _) => (t1, (Some(value), result))
  }

  /** read_memory: (data, result); a data of None is the empty sequence. */
  function ReadMemorySpec(t: Trace, id: int, address: int, length: int): (r: (Trace, (seq<Byte>, int)))
    ensures !t.online ==> r == (t, ([], Settings.ERROR_OPERATION_FAILED))
    ensures t.online ==> r.0 == t.(log := t.log + [Read(id, address, length)])
    ensures t.online && t.answer(|t.log|).Done? ==>
      r.1 == (t.answer(|t.log|).data, t.answer(|t.log|).result)
    ensures t.online && t.answer(|t.log|).Raised? ==> r.1 == ([], Settings.ERROR_OPERATION_FAILED)
  {
    if !t.online then (t, ([], Settings.ERROR_OPERATION_FAILED))
    else
      var (t1, reply) := Issue(t, Read(id, address, length));
      match reply
      case Raised => (t1, ([], Settings.ERROR_OPERATION_FAILED))
      case Done(result, _, data) => (t1, (data, result))
  }

  /** write_memory: the result code. */
  function WriteMemorySpec(t: Trace, id: int, address: int, length: int, data: seq<int>): (r: (Trace, int))
    ensures !t.online ==> r == (t, Settings.ERROR_OPERATION_FAILED)
    ensures t.online ==> r.0 == t.(log := t.log + [Write(id, address, length, data)])
    ensures t.online && t.answer(|t.log|).Done? ==> r.1 == t.answer(|t.log|).result
    ensures t.online && t.answer(|t.log|).Raised? ==> r.1 == Settings.ERROR_OPERATION_FAILED
  {
    if !t.online then (t, Settings.ERROR_OPERATION_FAILED)
    else
      var (t1, reply) := Issue(t, Write(id, address, length, data));
      match reply
      case Raised => (t1, Settings.ERROR_OPERATION_FAILED)
      case Done(result, _, _) => (t1, result)
  }

  /** The IDs lo..hi-1, ascending. */
  function IdRange(lo: int, hi: int): (r: seq<int>)
    ensures |r| == if hi <= lo then 0 else hi - lo
    ensures forall k :: 0 <= k < |r| ==> r[k] == lo + k
    decreases hi - lo
  {
    if hi <= lo then [] else IdRange(lo, hi - 1) + [hi - 1]
  }

  function Pings(ids: seq<int>): (r: seq<Cmd>)
    ensures |r| == |ids| && forall k :: 0 <= k < |ids| ==> r[k] == Ping(ids[k])
  {
    seq(|ids|, k requires 0 <= k < |ids| => Ping(ids[k]))
  }

  function Ids(s: seq<ServoInfo>): (r: seq<int>)
    ensures |r| == |s| && forall k :: 0 <= k < |s| ==> r[k] == s[k].id
  {
    seq(|s|, k requires 0 <= k < |s| => s[k].id)
  }

  predicate StrictlyAscending(s: seq<int>)
  {
    forall j, k :: 0 <= j < k < |s| ==> s[j] < s[k]
  }

  /** The scan loop over the IDs start..stop-1: this many have run. */
  function ScanUpTo(t: Trace, start: int, stop: int): (Trace, seq<ServoInfo>)
    decreases stop - start
  {
    if stop <= start then (t, [])
    else
      var (t1, found) := ScanUpTo(t, start, stop - 1);
      var (t2, (model, result)) := PingSpec(t1, stop - 1);
      (t2, if result == 0 then found + [ServoInfo(stop - 1, model)] else found)
  }

  /** scan_servos(start_id, end_id). */
  function ScanServosSpec(t: Trace, startId: int, endId: int): (Trace, seq<ServoInfo>)
  {
    if !t.online then (t, []) else ScanUpTo(t, startId, endId + 1)
  }

  /** The reply to the ping of `id` when the scan started at `start` with `base` commands logged. */
  function PingReply(t: Trace, base: nat, start: int, id: int): Reply
    requires start <= id
  {
    t.answer(base + (id - start))
  }

  /** The scan pings start..stop-1 once each, ascending, and nothing else. */
  lemma {:induction false} ScanUpToLog(t: Trace, start: int, stop: int)
    requires t.online
    ensures ScanUpTo(t, start, stop).0 == t.(log := t.log + Pings(IdRange(start, stop)))
    decreases stop - start
  {
    if stop > start {
      ScanUpToLog(t, start, stop - 1);
      assert Pings(IdRange(start, stop)) == Pings(IdRange(start, stop - 1)) + [Ping(stop - 1)];
    }
  }

  /** The scan reports exactly the IDs whose ping succeeded, ascending, with their model numbers. */
  lemma {:induction false} ScanUpToFound(t: Trace, start: int, stop: int)
    requires t.online
    ensures var found := ScanUpTo(t, start, stop).1;
      && StrictlyAscending(Ids(found))
      && (forall k :: 0 <= k < |found| ==>
            start <= found[k].id < stop
            && Succeeded(PingReply(t, |t.log|, start, found[k].id))
            && found[k].modelNumber == Some(PingReply(t, |t.log|, start, found[k].id).value))
      && (forall id :: id in Ids(found) <==>
            start <= id < stop && Succeeded(PingReply(t, |t.log|, start, id)))
    decreases stop - start
  {
    if stop > start {
      ScanUpToFound(t, start, stop - 1);
      ScanUpToLog(t, start, stop - 1);
      var (t1, found) := ScanUpTo(t, start, stop - 1);
      assert |t1.log| == |t.log| + (stop - 1 - start);
      var found' := ScanUpTo(t, start, stop).1;
      if Succeeded(PingReply(t, |t.log|, start, stop - 1)) {
        assert found' == found + [ServoInfo(stop - 1, Some(PingReply(t, |t.log|, start, stop - 1).value))];
        assert Ids(found') == Ids(found) + [stop - 1];
      } else {
        assert found' == found;
      }
    }
  }

  /** scan_servos: nothing while disconnected; otherwise the scan lemmas above over start..end. */
  lemma ScanServosProperties(t: Trace, startId: int, endId: int)
    ensures !t.online ==> ScanServosSpec(t, startId, endId) == (t, [])
    ensures t.online ==> ScanServosSpec(t, startId, endId).0.log == t.log + Pings(IdRange(startId, endId + 1))
    ensures t.online ==> forall id :: id in Ids(ScanServosSpec(t, startId, endId).1) <==>
      startId <= id <= endId && Succeeded(PingReply(t, |t.log|, startId, id))
  {
    if t.online {
      ScanUpToLog(t, startId, endId + 1);
      ScanUpToFound(t, startId, endId + 1);
    }
  }

  class ConnectionManager {
    const portName: string
    const baudRate: int
    /** The SDK packet handler; its log outlives reconnections. */
    const bus: Handler
    var isConnected: bool
    var portHandler: Option<Port>
    var protocol: Option<Settings.Protocol>

    /** A protocol handler exists exactly while connected, and then the port is open. */
    predicate Valid()
      reads this
    {
      (isConnected <==> protocol.Some?) && (isConnected ==> portHandler == Some(Port(true)))
    }

    /** What the modules see of the handler through this manager. */
    function State(): Trace
      reads this, bus
    {
      Trace(bus.answer, bus.log, isConnected, bus.caps)
    }

    /** `port_name or DEFAULT_PORT`, `baud_rate or DEFAULT_BAUDRATE`; None is passed as "" or 0. */
    constructor (portName: string, baudRate: int, defaultPort: string, bus: Handler)
      ensures Valid() && !isConnected && portHandler == None && protocol == None && this.bus == bus
      ensures this.portName == (if portName == "" then defaultPort else portName)
      ensures this.baudRate == (if baudRate == 0 then Settings.DEFAULT_BAUDRATE else baudRate)
    {
      this.portName := if portName == "" then defaultPort else portName;
      this.baudRate := if baudRate == 0 then Settings.DEFAULT_BAUDRATE else baudRate;
      this.bus := bus;
      isConnected := false;
      portHandler := None;
      protocol := None;
    }

    method Connect(name: string, open: Outcome, baud: Outcome) returns (ok: bool)
      requires Valid()
      modifies this
      ensures Valid()
      ensures old(isConnected) ==>
        (ok && isConnected == old(isConnected) && portHandler == old(portHandler) && protocol == old(protocol))
      ensures !old(isConnected) ==>
        (ConnState(ok, portHandler, protocol) == ConnectSpec(name, open, baud) && ok == isConnected)
    {
      if isConnected {
        return true;
      }
      if open == Raises {
        Cleanup();
        return false;
      }
      portHandler := Some(Port(open == Ok));
      if open == Fails {
        return false;
      }
      if baud == Raises {
        Cleanup();
        return false;
      }
      if baud == Fails {
        portHandler := Some(Port(false));
        return false;
      }
      var p := Settings.ProtocolNamed(name);
      if p.None? {
        portHandler := Some(Port(false));
        return false;
      }
      protocol := p;
      isConnected := true;
      ok := true;
    }

    method Disconnect()
      requires Valid()
      modifies this
      ensures Valid() && !isConnected
      ensures old(isConnected) ==> portHandler == None && protocol == None
      ensures !old(isConnected) ==> portHandler == old(portHandler) && protocol == old(protocol)
    {
      if isConnected {
        Cleanup();
        isConnected := false;
      }
    }

    /** _cleanup: close the port if there is one (errors swallowed), null both handlers. */
    method Cleanup()
      modifies this
      ensures portHandler == None && protocol == None && isConnected == old(isConnected)
    {
      portHandler := None;
      protocol := None;
    }

    /** reset_connection: disconnect, then connect with the default protocol. */
    method ResetConnection(open: Outcome, baud: Outcome) returns (ok: bool)
      requires Valid()
      modifies this
      ensures Valid() && ok == isConnected
      ensures ConnState(ok, portHandler, protocol) == ConnectSpec(Settings.DEFAULT_PROTOCOL, open, baud)
    {
      Disconnect();
      ok := Connect(Settings.DEFAULT_PROTOCOL, open, baud);
    }

    function GetConnectionStatus(): (r: ConnectionStatus)
      reads this
      ensures r.isConnected == isConnected && r.protocol == protocol
    {
      ConnectionStatus(isConnected, portName, baudRate, protocol)
    }

    method Ping(id: int) returns (model: Option<int>, result: int)
      requires Valid()
      modifies bus
      ensures (State(), (model, result)) == PingSpec(old(State()), id)
    {
      if !isConnected {
        return None, Settings.ERROR_OPERATION_FAILED;
      }
      var reply := bus.Send(Bus.Ping(id));
      match reply
      case Raised => model, result := None, Settings.ERROR_OPERATION_FAILED;
      case Done(res, value, _) => model, result := Some(value), res;
    }

    method ReadMemory(id: int, address: int, length: int) returns (data: seq<Byte>, result: int)
      requires Valid()
      modifies bus
      ensures (State(), (data, result)) == ReadMemorySpec(old(State()), id, address, length)
    {
      if !isConnected {
        return [], Settings.ERROR_OPERATION_FAILED;
      }
      var reply := bus.Send(Read(id, address, length));
      match reply
      case Raised => data, result := [], Settings.ERROR_OPERATION_FAILED;
      case Done(res, _, d) => data, result := d, res;
    }

    method WriteMemory(id: int, address: int, length: int, data: seq<int>) returns (result: int)
      requires Valid()
      modifies bus
      ensures (State(), result) == WriteMemorySpec(old(State()), id, address, length, data)
    {
      if !isConnected {
        return Settings.ERROR_OPERATION_FAILED;
      }
      var reply := bus.Send(Write(id, address, length, data));
      match reply
      case Raised => result := Settings.ERROR_OPERATION_FAILED;
      case Done(res, _, _) => result := res;
    }

    /** A direct call on protocol_handler: raises when there is none. */
    method Call(c: Cmd) returns (r: Reply)
      requires Valid()
      modifies bus
      ensures (State(), r) == Issue(old(State()), c)
    {
      if !isConnected {
        return Raised;
      }
      r := bus.Send(c);
    }

    method ScanServos(startId: int, endId: int) returns (servos: seq<ServoInfo>)
      requires Valid()
      modifies bus
      ensures (State(), servos) == ScanServosSpec(old(State()), startId, endId)
    {
      if !isConnected {
        return [];
      }
      servos := [];
      var id := startId;
      while id <= endId
        invariant startId <= id && (id <= endId + 1 || id == startId)
        invariant (State(), servos) == ScanUpTo(old(State()), startId, id)
        decreases endId + 1 - id
      {
        var model, result := Ping(id);
        if result == 0 {
          servos := servos + [ServoInfo(id, model)];
        }
        id := id + 1;
      }
    }
  }
}
