/**
 * The synchronous helpers of the WebSocket servers as the step-by-step
 * code they are: each one makes its SDK calls in turn, fills its result as
 * the answers come in and leaves at the first call that raises.  Each
 * method is proved to do exactly what the matching function of ServerCore
 * or ServerEeprom describes.  The servers' packet handler is `None` until
 * the hardware is connected; then every call raises, which `online`
 * models.
 */
module ServerHelpers {
  import opened Wrappers
  import opened Bus
  import opened DataParser
  import opened ServerCore
  import opened ServerEeprom
  import Connection

  /** What the helpers see of the handler: its log, and whether the server has one. */
  function View(h: Handler, online: bool): (t: Trace)
    reads h
    ensures t.log == h.log && t.online == online
  {
    Trace(h.answer, h.log, online, h.caps)
  }

  /** One call on `self.packet_handler`: a missing handler raises. */
  method Call(h: Handler, online: bool, c: Cmd) returns (r: Reply)
    modifies h
    ensures (View(h, online), r) == Issue(old(View(h, online)), c)
  {
    if !online {
      return Raised;
    }
    r := h.Send(c);
  }

  /** scan_servos: ping each ID from startId to endId; an exception skips that ID. */
  method ScanServos(h: Handler, online: bool, startId: int, endId: int) returns (servos: seq<Connection.ServoInfo>)
    modifies h
    ensures (View(h, online), servos) == Connection.ScanServosSpec(old(View(h, online)), startId, endId)
  {
    servos := [];
    if !online {
      return;
    }
    var id := startId;
    while id <= endId
      invariant startId <= id && (id <= endId + 1 || id == startId)
      invariant (View(h, online), servos) == Connection.ScanUpTo(old(View(h, online)), startId, id)
      decreases endId + 1 - id
    {
      var reply := Call(h, online, Ping(id));
      if Succeeded(reply) {
        servos := servos + [Connection.ServoInfo(id, Some(reply.value))];
      }
      id := id + 1;
    }
  }

  /** get_servo_status. */
  method GetServoStatus(h: Handler, online: bool, id: int) returns (s: Status)
    modifies h
    ensures (View(h, online), s) == StatusSpec(old(View(h, online)), id)
  {
    s := Blank(id);
    var ping := Call(h, online, Ping(id));
    if ping.Raised? {
      s := s.(error := true);
      return;
    }
    if ping.result != 0 {
      return;
    }
    s := s.(connected := true, modelNumber := Some(ping.value));
    var position := Call(h, online, ReadPos(id));
    if position.Raised? {
      s := s.(error := true);
      return;
    }
    s := s.(position := ValueOf(position));
    var speed := Call(h, online, ReadSpeed(id));
    if speed.Raised? {
      s := s.(error := true);
      return;
    }
    s := s.(speed := ValueOf(speed));
    var temp := Call(h, online, Read(id, TEMPERATURE_ADDRESS, 1));
    if temp.Raised? {
      s := s.(error := true);
      return;
    }
    s := s.(temperature := FirstByte(temp));
    var voltage := Call(h, online, Read(id, VOLTAGE_ADDRESS, 1));
    if voltage.Raised? {
      s := s.(error := true);
      return;
    }
    s := s.(voltage := FirstByte(voltage));
    var current := Call(h, online, Read(id, CURRENT_ADDRESS, 2));
    if current.Raised? {
      s := s.(error := true);
      return;
    }
    s := s.(current := Signed16(current));
  }

  /** get_firmware_info. */
  method GetFirmwareInfo(h: Handler, online: bool, id: int) returns (f: Firmware)
    modifies h
    ensures (View(h, online), f) == FirmwareSpec(old(View(h, online)), id)
  {
    f := BlankFirmware(id);
    var major := Call(h, online, Read(id, FW_MAJOR_ADDRESS, 1));
    if major.Raised? {
      f := f.(error := true);
      return;
    }
    f := f.(fwMajor := FirstByte(major));
    var minor := Call(h, online, Read(id, FW_MINOR_ADDRESS, 1));
    if minor.Raised? {
      f := f.(error := true);
      return;
    }
    f := f.(fwMinor := FirstByte(minor));
    var patch := Call(h, online, Read(id, FW_PATCH_ADDRESS, 1));
    if patch.Raised? {
      f := f.(error := true);
      return;
    }
    f := f.(fwPatch := FirstByte(patch));
    var hwMajor := Call(h, online, Read(id, HW_VERSION_ADDRESS, 1));
    if hwMajor.Raised? {
      f := f.(error := true);
      return;
    }
    f := f.(hwMajor := FirstByte(hwMajor));
    var hwMinor := Call(h, online, Read(id, HW_VERSION_ADDRESS, 1));
    if hwMinor.Raised? {
      f := f.(error := true);
      return;
    }
    f := f.(hwMinor := FirstByte(hwMinor));
  }

  /** read_memory_direct: (bytes, result, note). */
  method ReadMemoryDirect(h: Handler, online: bool, id: int, address: int, length: int)
    returns (data: seq<Byte>, result: int, note: Note)
    modifies h
    ensures (View(h, online), (data, result, note)) == ServerCore.ReadMemorySpec(old(View(h, online)), id, address, length)
  {
    var reply := Call(h, online, Read(id, address, length));
    if reply.Raised? {
      return [], -1, Exception;
    }
    if reply.result == 0 && |reply.data| > 0 {
      return reply.data, reply.result, DeviceReported;
    }
    return [], reply.result, DeviceReported;
  }

  /** write_memory_direct: (result == 0, note). */
  method WriteMemoryDirect(h: Handler, online: bool, id: int, address: int, d: WriteData)
    returns (ok: bool, note: Note)
    modifies h
    ensures (View(h, online), (ok, note)) == ServerCore.WriteMemorySpec(old(View(h, online)), id, address, d)
  {
    var data := WriteList(d);
    if data.None? {
      return false, Exception;
    }
    var reply := Call(h, online, Write(id, address, |data.value|, data.value));
    if reply.Raised? {
      return false, Exception;
    }
    return reply.result == 0, DeviceReported;
  }

  /** read_pid_params. */
  method ReadPidParams(h: Handler, online: bool, id: int) returns (p: Pid)
    modifies h
    ensures (View(h, online), p) == ReadPidSpec(old(View(h, online)), id)
  {
    p := BlankPid(id);
    var unlock := Call(h, online, Unlock(id));
    if unlock.Raised? {
      p := p.(error := true);
      return;
    }
    ghost var t1 := View(h, online);
    var n := 0;
    while n < |POSITION_GAINS|
      invariant 0 <= n <= |POSITION_GAINS|
      invariant (View(h, online), p) == GainReads(t1, BlankPid(id), n) && !p.error
    {
      var (address, gain) := POSITION_GAINS[n];
      var reply := Call(h, online, Read(id, address, 1));
      if reply.Raised? {
        p := p.(error := true);
        GainReadsAfterError(t1, BlankPid(id), n + 1, |POSITION_GAINS|);
        return;
      }
      if reply.result == 0 && |reply.data| > 0 {
        p := SetGain(p, gain, reply.data[0]);
      }
      n := n + 1;
    }
    var speedP := Call(h, online, Read(id, SPEED_P_ADDRESS, 1));
    if speedP.Raised? {
      p := p.(error := true);
      return;
    }
    p := p.(speedP := FirstByte(speedP));
    var speedI := Call(h, online, Read(id, SPEED_I_ADDRESS, 2));
    if speedI.Raised? {
      p := p.(error := true);
      return;
    }
    p := p.(speedI := Signed16(speedI));
    var torque := Call(h, online, Read(id, STARTUP_TORQUE_ADDRESS, 1));
    if torque.Raised? {
      p := p.(error := true);
      return;
    }
    p := p.(startupTorque := FirstByte(torque));
    var lock := Call(h, online, Lock(id));
    if lock.Raised? {
      p := p.(error := true);
    }
  }

  /** write_pid_params; a list that is None is passed as the empty sequence. */
  method WritePidParams(h: Handler, online: bool, id: int, positionPid: seq<int>, speedPid: seq<int>, torque: Option<int>)
    returns (ok: bool, note: Note)
    modifies h
    ensures (View(h, online), (ok, note)) == WritePidSpec(old(View(h, online)), id, positionPid, speedPid, torque)
  {
    var unlock := Call(h, online, Unlock(id));
    if unlock.Raised? {
      return false, Exception;
    }
    if unlock.result != 0 {
      return false, UnlockFailed;
    }
    ghost var t1 := View(h, online);
    var w1, w2, w3 := PositionWrites(id, positionPid), SpeedWrites(id, speedPid), TorqueWrites(id, torque);
    WritesConcat(t1, w1 + w2, w3, true);
    WritesConcat(t1, w1, w2, true);
    var success := true;
    var raised;
    success, raised := WritePositionPid(h, online, id, positionPid, success);
    if raised {
      return false, Exception;
    }
    success, raised := WriteSpeedPid(h, online, id, speedPid, success);
    if raised {
      return false, Exception;
    }
    success, raised := WriteStartupTorque(h, online, id, torque, success);
    if raised {
      return false, Exception;
    }
    var lock := Call(h, online, Lock(id));
    if lock.Raised? {
      return false, Exception;
    }
    return success, Quiet;
  }

  /** The position group of write_pid_params: P to 21, D to 22, I to 23, then the flag. */
  method WritePositionPid(h: Handler, online: bool, id: int, pid: seq<int>, success0: bool)
    returns (success: bool, raised: bool)
    modifies h
    ensures (View(h, online), success, raised) == Writes(old(View(h, online)), PositionWrites(id, pid), success0)
  {
    success, raised := success0, false;
    if |pid| != 3 {
      return;
    }
    var w := PositionWrites(id, pid);
    ghost var t0 := View(h, online);
    var p, i, d := pid[0], pid[1], pid[2];
    var result1 := Call(h, online, Write(id, POSITION_P_ADDRESS, 1, [p]));
    if result1.Raised? {
      return false, true;
    }
    ghost var t1 := View(h, online);
    assert Writes(t0, w, success0) == Writes(t1, w[1..], success0 && Succeeded(result1));
    var result2 := Call(h, online, Write(id, POSITION_D_ADDRESS, 1, [d]));
    if result2.Raised? {
      return false, true;
    }
    ghost var t2 := View(h, online);
    assert Writes(t1, w[1..], success0 && Succeeded(result1))
      == Writes(t2, w[1..][1..], success0 && Succeeded(result1) && Succeeded(result2));
    assert w[1..][1..][1..] == [];
    var result3 := Call(h, online, Write(id, POSITION_I_ADDRESS, 1, [i]));
    if result3.Raised? {
      return false, true;
    }
    if result1.result != 0 || result2.result != 0 || result3.result != 0 {
      success := false;
    }
    assert Writes(t2, w[1..][1..], success0 && Succeeded(result1) && Succeeded(result2))
      == Writes(View(h, online), [], success);
  }

  /** The speed group of write_pid_params: P to 37, the two bytes of I to 39, then the flag. */
  method WriteSpeedPid(h: Handler, online: bool, id: int, pid: seq<int>, success0: bool)
    returns (success: bool, raised: bool)
    modifies h
    ensures (View(h, online), success, raised) == Writes(old(View(h, online)), SpeedWrites(id, pid), success0)
  {
    success, raised := success0, false;
    if |pid| != 2 {
      return;
    }
    var w := SpeedWrites(id, pid);
    ghost var t0 := View(h, online);
    var p, i := pid[0], pid[1];
    var result1 := Call(h, online, Write(id, SPEED_P_ADDRESS, 1, [p]));
    if result1.Raised? {
      return false, true;
    }
    ghost var t1 := View(h, online);
    assert Writes(t0, w, success0) == Writes(t1, w[1..], success0 && Succeeded(result1));
    assert w[1..][1..] == [];
    var result2 := Call(h, online, Write(id, SPEED_I_ADDRESS, 2, SpeedIBytes(i)));
    if result2.Raised? {
      return false, true;
    }
    if result1.result != 0 || result2.result != 0 {
      success := false;
    }
    assert Writes(t1, w[1..], success0 && Succeeded(result1)) == Writes(View(h, online), [], success);
  }

  /** The startup torque write of write_pid_params, when a torque is given. */
  method WriteStartupTorque(h: Handler, online: bool, id: int, torque: Option<int>, success0: bool)
    returns (success: bool, raised: bool)
    modifies h
    ensures (View(h, online), success, raised) == Writes(old(View(h, online)), TorqueWrites(id, torque), success0)
  {
    success, raised := success0, false;
    if torque.None? {
      return;
    }
    var w := TorqueWrites(id, torque);
    assert w[1..] == [];
    var result := Call(h, online, Write(id, STARTUP_TORQUE_ADDRESS, 1, [torque.value]));
    if result.Raised? {
      return false, true;
    }
    if result.result != 0 {
      success := false;
    }
  }

  /** read_temperature_limit: (limit, success, note). */
  method ReadTemperatureLimit(h: Handler, online: bool, id: int) returns (limit: Option<int>, ok: bool, note: Note)
    modifies h
    ensures (View(h, online), (limit, ok, note)) == ReadTempLimitSpec(old(View(h, online)), id)
  {
    var unlock := Call(h, online, Unlock(id));
    if unlock.Raised? {
      return None, false, Exception;
    }
    if unlock.result != 0 {
      return None, false, UnlockFailed;
    }
    var reply := Call(h, online, Read(id, TEMPERATURE_LIMIT_ADDRESS, 1));
    if reply.Raised? {
      return None, false, Exception;
    }
    var lock := Call(h, online, Lock(id));
    if lock.Raised? {
      return None, false, Exception;
    }
    if reply.result == 0 && |reply.data| > 0 {
      return Some(reply.data[0]), true, Quiet;
    }
    return None, false, DeviceReported;
  }

  /** write_temperature_limit: (result == 0, note). */
  method WriteTemperatureLimit(h: Handler, online: bool, id: int, limit: int) returns (ok: bool, note: Note)
    modifies h
    ensures (View(h, online), (ok, note)) == WriteTempLimitSpec(old(View(h, online)), id, limit)
  {
    var unlock := Call(h, online, Unlock(id));
    if unlock.Raised? {
      return false, Exception;
    }
    if unlock.result != 0 {
      return false, UnlockFailed;
    }
    var reply := Call(h, online, Write(id, TEMPERATURE_LIMIT_ADDRESS, 1, [limit]));
    if reply.Raised? {
      return false, Exception;
    }
    var lock := Call(h, online, Lock(id));
    if lock.Raised? {
      return false, Exception;
    }
    return reply.result == 0, DeviceReported;
  }
}
