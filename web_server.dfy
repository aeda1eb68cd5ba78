/**
 * The final FTServo web server, as far as it drives the servos.
 * The class keeps the port settings and the handler state; its
 * synchronous helpers are those of ServerHelpers, on this server's packet
 * handler.  The WebSocket side (clients, message dispatch, broadcasting)
 * is not part of this model.
 */
module WebServer {
  import opened Wrappers
  import opened Bus
  import opened DataParser
  import opened ServerCore
  import opened ServerEeprom
  import Connection
  import ServerHelpers

  class FTServoWebServer {
    const portName: string
    const baudRate: int
    const wsPort: int
    /** The SDK handler; it exists once the port is open. */
    const bus: Handler
    /** `port_handler is not None`, and whether that port is open. */
    var hasPortHandler: bool
    var portOpen: bool
    /** `packet_handler is not None`: set on the first successful connect, never cleared. */
    var hasPacketHandler: bool
    var isConnected: bool

    /** What the helpers see of the packet handler. */
    function State(): Trace
      reads this, bus
    {
      ServerHelpers.View(bus, hasPacketHandler)
    }

    /** The defaults are port 'COM8', 1000000 baud and WebSocket port 8765. */
    constructor (portName: string, baudRate: int, wsPort: int, bus: Handler)
      ensures this.portName == portName && this.baudRate == baudRate && this.wsPort == wsPort && this.bus == bus
      ensures !hasPortHandler && !portOpen && !hasPacketHandler && !isConnected
    {
      this.portName := portName;
      this.baudRate := baudRate;
      this.wsPort := wsPort;
      this.bus := bus;
      hasPortHandler := false;
      portOpen := false;
      hasPacketHandler := false;
      isConnected := false;
    }

    /**
     * connect_hardware, with the outcomes of openPort and setBaudRate as
     * parameters: a new port handler is made; a port that does not open,
     * or a baud rate that is refused, fails the connect (the latter after
     * closing the port); an exception fails it too.
     */
    method ConnectHardware(open: Connection.Outcome, baud: Connection.Outcome) returns (ok: bool)
      modifies this
      ensures hasPortHandler
      ensures ok <==> open == Connection.Ok && baud == Connection.Ok
      ensures portOpen <==> open == Connection.Ok && baud != Connection.Fails
      ensures hasPacketHandler == (old(hasPacketHandler) || ok)
      ensures isConnected == (old(isConnected) || ok)
    {
      hasPortHandler := true;
      portOpen := false;
      if open != Connection.Ok {
        return false;
      }
      portOpen := true;
      if baud == Connection.Raises {
        return false;
      }
      if baud == Connection.Fails {
        portOpen := false;
        return false;
      }
      hasPacketHandler := true;
      isConnected := true;
      return true;
    }

    /** disconnect_hardware: closes the port if there is one; the packet handler stays. */
    method DisconnectHardware()
      modifies this
      ensures hasPortHandler == old(hasPortHandler) && hasPacketHandler == old(hasPacketHandler)
      ensures old(hasPortHandler) ==> !portOpen && !isConnected
      ensures !old(hasPortHandler) ==> portOpen == old(portOpen) && isConnected == old(isConnected)
    {
      if hasPortHandler {
        portOpen := false;
        isConnected := false;
      }
    }

    method ScanServos(startId: int, endId: int) returns (servos: seq<Connection.ServoInfo>)
      modifies bus
      ensures (State(), servos) == Connection.ScanServosSpec(old(State()), startId, endId)
    {
      servos := ServerHelpers.ScanServos(bus, hasPacketHandler, startId, endId);
    }

    method GetServoStatus(id: int) returns (s: Status)
      modifies bus
      ensures (State(), s) == StatusSpec(old(State()), id)
    {
      s := ServerHelpers.GetServoStatus(bus, hasPacketHandler, id);
    }

    method GetFirmwareInfo(id: int) returns (f: Firmware)
      modifies bus
      ensures (State(), f) == FirmwareSpec(old(State()), id)
    {
      f := ServerHelpers.GetFirmwareInfo(bus, hasPacketHandler, id);
    }

    method ReadMemoryDirect(id: int, address: int, length: int) returns (data: seq<Byte>, result: int, note: Note)
      modifies bus
      ensures (State(), (data, result, note)) == ServerCore.ReadMemorySpec(old(State()), id, address, length)
    {
      data, result, note := ServerHelpers.ReadMemoryDirect(bus, hasPacketHandler, id, address, length);
    }

    method WriteMemoryDirect(id: int, address: int, d: WriteData) returns (ok: bool, note: Note)
      modifies bus
      ensures (State(), (ok, note)) == ServerCore.WriteMemorySpec(old(State()), id, address, d)
    {
      ok, note := ServerHelpers.WriteMemoryDirect(bus, hasPacketHandler, id, address, d);
    }

    method ReadPidParams(id: int) returns (p: Pid)
      modifies bus
      ensures (State(), p) == ReadPidSpec(old(State()), id)
    {
      p := ServerHelpers.ReadPidParams(bus, hasPacketHandler, id);
    }

    method WritePidParams(id: int, positionPid: seq<int>, speedPid: seq<int>, torque: Option<int>) returns (ok: bool, note: Note)
      modifies bus
      ensures (State(), (ok, note)) == WritePidSpec(old(State()), id, positionPid, speedPid, torque)
    {
      ok, note := ServerHelpers.WritePidParams(bus, hasPacketHandler, id, positionPid, speedPid, torque);
    }

    method ReadTemperatureLimit(id: int) returns (limit: Option<int>, ok: bool, note: Note)
      modifies bus
      ensures (State(), (limit, ok, note)) == ReadTempLimitSpec(old(State()), id)
    {
      limit, ok, note := ServerHelpers.ReadTemperatureLimit(bus, hasPacketHandler, id);
    }

    method WriteTemperatureLimit(id: int, limit: int) returns (ok: bool, note: Note)
      modifies bus
      ensures (State(), (ok, note)) == WriteTempLimitSpec(old(State()), id, limit)
    {
      ok, note := ServerHelpers.WriteTemperatureLimit(bus, hasPacketHandler, id, limit);
    }
  }
}
