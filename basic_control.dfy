/**
 * modules/basic_control.py: position, speed and torque commands with their
 * parameter validation, and the status read-out of one servo.
 */
module BasicControl {
  import opened Wrappers
  import opened DataParser
  import opened Bus
  import opened Connection
  import Settings
  import MemoryMap

  /** The torque WritePosEx is always given: ServoConfig.MAX_TORQUE. */
  const MOVE_TORQUE: int := Settings.MAX_TORQUE

  predicate ValidMove(position: int, speed: int, acceleration: int)
  {
    Settings.InRange(position, Settings.MIN_POSITION, Settings.MAX_POSITION)
    && Settings.InRange(speed, Settings.MIN_SPEED, Settings.MAX_SPEED)
    && Settings.InRange(acceleration, Settings.MIN_ACCELERATION, Settings.MAX_ACCELERATION)
  }

  /** write_position. */
  function WritePositionSpec(t: Trace, id: int, position: int, speed: int, acceleration: int): (Trace, int)
  {
    if !ValidMove(position, speed, acceleration) then (t, Settings.ERROR_INVALID_PARAMETER)
    else if Has(t, t.caps.writePosEx) then
      var (t1, reply) := Issue(t, MovePos(id, position, speed, acceleration, Some(MOVE_TORQUE)));
      (t1, ResultOf(reply))
    else
      WriteMemorySpec(t, id, MemoryMap.GOAL_POSITION_L, 2, IntToBytes(position, 2))
  }

  /** read_position: (position, result). */
  function ReadPositionSpec(t: Trace, id: int): (Trace, (Option<int>, int))
  {
    if Has(t, t.caps.readPos) then
      var (t1, reply) := Issue(t, ReadPos(id));
      (t1, if reply.Raised? then (None, Settings.ERROR_OPERATION_FAILED) else (Some(reply.value), reply.result))
    else
      var (t1, (data, result)) := ReadMemorySpec(t, id, MemoryMap.PRESENT_POSITION_L, 2);
      (t1, if result == Settings.COMM_SUCCESS && data != [] then (Some(ParsePosition(data)), result) else (None, result))
  }

  /** read_speed: (speed, result). */
  function ReadSpeedSpec(t: Trace, id: int): (Trace, (Option<int>, int))
  {
    if Has(t, t.caps.readSpeed) then
      var (t1, reply) := Issue(t, ReadSpeed(id));
      (t1, if reply.Raised? then (None, Settings.ERROR_OPERATION_FAILED) else (Some(reply.value), reply.result))
    else
      var (t1, (data, result)) := ReadMemorySpec(t, id, MemoryMap.PRESENT_SPEED_L, 2);
      (t1, if result == Settings.COMM_SUCCESS && data != [] then (Some(ParseSpeed(data)), result) else (None, result))
  }

  function Abs(x: int): nat
  {
    if x < 0 then -x else x
  }

  /** write_speed: a signed speed of magnitude at most MAX_SPEED. */
  function WriteSpeedSpec(t: Trace, id: int, speed: int): (Trace, int)
  {
    if Abs(speed) > Settings.MAX_SPEED then (t, Settings.ERROR_INVALID_PARAMETER)
    else WriteMemorySpec(t, id, MemoryMap.GOAL_SPEED_L, 2, IntToBytes(speed, 2))
  }

  /** enable_torque. */
  function EnableTorqueSpec(t: Trace, id: int, enable: bool): (Trace, int)
  {
    WriteMemorySpec(t, id, MemoryMap.TORQUE_ENABLE, 1, [if enable then 1 else 0])
  }

  /** set_torque_limit. */
  function SetTorqueLimitSpec(t: Trace, id: int, limit: int): (Trace, int)
  {
    if !Settings.InRange(limit, Settings.MIN_TORQUE, Settings.MAX_TORQUE) then (t, Settings.ERROR_INVALID_PARAMETER)
    else WriteMemorySpec(t, id, MemoryMap.TORQUE_LIMIT_L, 2, IntToBytes(limit, 2))
  }

  /**
   * stop_servo: command the position just read.  A successful read that
   * returned no position makes write_position compare None with an int,
   * which raises and is reported as ERROR_OPERATION_FAILED.
   */
  function StopServoSpec(t: Trace, id: int): (Trace, int)
  {
    var (t1, (position, result)) := ReadPositionSpec(t, id);
    if result != Settings.COMM_SUCCESS then (t1, result)
    else if position.None? then (t1, Settings.ERROR_OPERATION_FAILED)
    else WritePositionSpec(t1, id, position.value, 0, 0)
  }

  /** The status dictionary of get_servo_status (voltage in raw tenths of a volt). */
  datatype ServoStatus = ServoStatus(
    id: int, connected: bool, modelNumber: Option<int>,
    position: Option<int>, speed: Option<int>, voltage: Option<int>,
    temperature: Option<int>, moving: bool)

  function Offline(id: int): ServoStatus
  {
    ServoStatus(id, false, None, None, None, None, None, false)
  }

  /** get_servo_status. */
  function GetServoStatusSpec(t: Trace, id: int): (Trace, ServoStatus)
  {
    var (t1, (model, pingResult)) := PingSpec(t, id);
    if pingResult != Settings.COMM_SUCCESS then (t1, Offline(id))
    else
      var (t2, (position, r2)) := ReadPositionSpec(t1, id);
      var (t3, (speed, r3)) := ReadSpeedSpec(t2, id);
      var (t4, (voltage, r4)) := ReadMemorySpec(t3, id, MemoryMap.PRESENT_VOLTAGE, 1);
      var (t5, (temp, r5)) := ReadMemorySpec(t4, id, MemoryMap.PRESENT_TEMPERATURE, 1);
      var (t6, (moving, r6)) := ReadMemorySpec(t5, id, MemoryMap.MOVING_STATUS, 1);
      (t6, ServoStatus(id, true, model,
        if r2 == Settings.COMM_SUCCESS then position else None,
        if r3 == Settings.COMM_SUCCESS then speed else None,
        if r4 == Settings.COMM_SUCCESS && voltage != [] then Some(ParseVoltage(voltage)) else None,
        if r5 == Settings.COMM_SUCCESS && temp != [] then Some(ParseTemperature(temp)) else None,
        r6 == Settings.COMM_SUCCESS && moving != [] && moving[0] != 0))
  }

  /** One entry of multi_servo_control's list; absent keys are None. */
  datatype MoveConfig = MoveConfig(id: int, position: Option<int>, speed: Option<int>, acceleration: Option<int>)

  function OrElse(o: Option<int>, d: int): int
  {
    if o.Some? then o.value else d
  }

  /** multi_servo_control after the first n configurations. */
  function MultiServoSpec(t: Trace, configs: seq<MoveConfig>, n: nat): (Trace, map<int, int>)
    requires n <= |configs|
  {
    if n == 0 then (t, map[])
    else
      var (t1, results) := MultiServoSpec(t, configs, n - 1);
      var c := configs[n - 1];
      var (t2, r) := WritePositionSpec(t1, c.id, OrElse(c.position, Settings.CENTER_POSITION),
                                       OrElse(c.speed, 100), OrElse(c.acceleration, 50));
      (t2, results[c.id := r])
  }

  /** The command one valid move sends, by the handler's capabilities. */
  function MoveCmd(t: Trace, id: int, position: int, speed: int, acceleration: int): Cmd
  {
    if Has(t, t.caps.writePosEx) then MovePos(id, position, speed, acceleration, Some(MOVE_TORQUE))
    else Write(id, MemoryMap.GOAL_POSITION_L, 2, IntToBytes(position, 2))
  }

  /**
   * write_position sends nothing and reports ERROR_INVALID_PARAMETER unless
   * position, speed and acceleration are in range; otherwise it sends one
   * command: WritePosEx with MAX_TORQUE, or the two little-endian bytes of
   * the position at GOAL_POSITION_L.
   */
  lemma WritePositionCommands(t: Trace, id: int, position: int, speed: int, acceleration: int)
    ensures var (t1, r) := WritePositionSpec(t, id, position, speed, acceleration);
      && (!ValidMove(position, speed, acceleration) ==> t1 == t && r == Settings.ERROR_INVALID_PARAMETER)
      && (ValidMove(position, speed, acceleration) && t.online ==>
            t1.log == t.log + [MoveCmd(t, id, position, speed, acceleration)]
            && (Succeeded(t.answer(|t.log|)) <==> r == Settings.COMM_SUCCESS))
      && (ValidMove(position, speed, acceleration) && !t.online ==>
            t1 == t && r == Settings.ERROR_OPERATION_FAILED)
  {
  }

  /** The fallback's two bytes decode back to the position. */
  lemma WritePositionBytes(position: int)
    requires Settings.InRange(position, Settings.MIN_POSITION, Settings.MAX_POSITION)
    ensures |IntToBytes(position, 2)| == 2
    ensures BytesToInt(IntToBytes(position, 2), false) == position
  {
    RoundTripUnsigned(position, 2);
  }

  /** write_speed rejects |speed| > MAX_SPEED; otherwise it writes speed's 2-byte signed encoding at GOAL_SPEED_L. */
  lemma WriteSpeedCommands(t: Trace, id: int, speed: int)
    ensures var (t1, r) := WriteSpeedSpec(t, id, speed);
      && (Abs(speed) > Settings.MAX_SPEED ==> t1 == t && r == Settings.ERROR_INVALID_PARAMETER)
      && (Abs(speed) <= Settings.MAX_SPEED && t.online ==>
            exists d: seq<Byte> :: |d| == 2 && BytesToInt(d, true) == speed
              && t1.log == t.log + [Write(id, MemoryMap.GOAL_SPEED_L, 2, d)])
  {
    if Abs(speed) <= Settings.MAX_SPEED && t.online {
      var d := IntToBytes(speed, 2);
      assert Pow256(2) == 65536;
      RoundTripSigned(speed, 2);
      assert BytesToInt(d, true) == speed;
    }
  }

  /** enable_torque writes the single byte 1 or 0 at TORQUE_ENABLE. */
  lemma EnableTorqueCommands(t: Trace, id: int, enable: bool)
    ensures t.online ==>
      EnableTorqueSpec(t, id, enable).0.log == t.log + [Write(id, MemoryMap.TORQUE_ENABLE, 1, [if enable then 1 else 0])]
    ensures !t.online ==> EnableTorqueSpec(t, id, enable) == (t, Settings.ERROR_OPERATION_FAILED)
  {
  }

  /** set_torque_limit rejects limits outside [0, 2047]; otherwise it writes their two unsigned bytes at TORQUE_LIMIT_L. */
  lemma SetTorqueLimitCommands(t: Trace, id: int, limit: int)
    ensures var (t1, r) := SetTorqueLimitSpec(t, id, limit);
      && (!Settings.InRange(limit, Settings.MIN_TORQUE, Settings.MAX_TORQUE) ==> t1 == t && r == Settings.ERROR_INVALID_PARAMETER)
      && (Settings.InRange(limit, Settings.MIN_TORQUE, Settings.MAX_TORQUE) && t.online ==>
            exists d: seq<Byte> :: |d| == 2 && BytesToInt(d, false) == limit
              && t1.log == t.log + [Write(id, MemoryMap.TORQUE_LIMIT_L, 2, d)])
  {
    if Settings.InRange(limit, Settings.MIN_TORQUE, Settings.MAX_TORQUE) && t.online {
      RoundTripUnsigned(limit, 2);
    }
  }

  /**
   * stop_servo: a failed position read is returned as is and nothing is
   * written; after a successful one the current position is commanded with
   * speed 0 and acceleration 0.
   */
  lemma StopServoCommands(t: Trace, id: int)
    requires t.online
    ensures var (t1, (position, result)) := ReadPositionSpec(t, id);
      var (t2, r) := StopServoSpec(t, id);
      && (result != Settings.COMM_SUCCESS ==> t2 == t1 && r == result)
      && (result == Settings.COMM_SUCCESS && position.Some? ==> (t2, r) == WritePositionSpec(t1, id, position.value, 0, 0))
      && |t1.log| == |t.log| + 1
  {
  }

  /** get_servo_status: a failed ping leaves the servo disconnected, with only the ping sent. */
  lemma GetServoStatusOffline(t: Trace, id: int)
    ensures var (t1, (_, pingResult)) := PingSpec(t, id);
      pingResult != Settings.COMM_SUCCESS ==>
        GetServoStatusSpec(t, id) == (t1, Offline(id)) && !Offline(id).connected
    ensures var s := GetServoStatusSpec(t, id).1;
      s.connected <==> t.online && Succeeded(t.answer(|t.log|))
  {
  }

  /** multi_servo_control has one entry per configured ID. */
  lemma {:induction false} MultiServoKeys(t: Trace, configs: seq<MoveConfig>, n: nat)
    requires n <= |configs|
    ensures forall id :: id in MultiServoSpec(t, configs, n).1 <==> exists k :: 0 <= k < n && configs[k].id == id
  {
    if n > 0 {
      MultiServoKeys(t, configs, n - 1);
    }
  }

  /**
   * multi_servo_control reports, for each ID, the write_position result of
   * the last configuration naming that ID, sent after every earlier
   * configuration.
   */
  lemma {:induction false} MultiServoValues(t: Trace, configs: seq<MoveConfig>, n: nat, k: nat)
    requires k < n <= |configs|
    requires forall j :: k < j < n ==> configs[j].id != configs[k].id
    ensures configs[k].id in MultiServoSpec(t, configs, n).1
    ensures var c := configs[k];
      MultiServoSpec(t, configs, n).1[c.id]
        == WritePositionSpec(MultiServoSpec(t, configs, k).0, c.id, OrElse(c.position, Settings.CENTER_POSITION),
                             OrElse(c.speed, 100), OrElse(c.acceleration, 50)).1
  {
    if n > k + 1 {
      MultiServoValues(t, configs, n - 1, k);
    }
  }

  /** The defaults are ServoConfig.CENTER_POSITION, speed 100 and acceleration 50, which are valid moves. */
  lemma MultiServoDefaults(t: Trace, id: int)
    ensures MultiServoSpec(t, [MoveConfig(id, None, None, None)], 1)
      == (var (t1, r) := WritePositionSpec(t, id, 2048, 100, 50); (t1, map[id := r]))
    ensures ValidMove(Settings.CENTER_POSITION, 100, 50)
  {
  }

  class BasicControl {
    const connection: ConnectionManager

    constructor (connection: ConnectionManager)
      ensures this.connection == connection
    {
      this.connection := connection;
    }

    method WritePosition(id: int, position: int, speed: int, acceleration: int) returns (result: int)
      requires connection.Valid()
      modifies connection.bus
      ensures (connection.State(), result) == WritePositionSpec(old(connection.State()), id, position, speed, acceleration)
    {
      if !ValidMove(position, speed, acceleration) {
        return Settings.ERROR_INVALID_PARAMETER;
      }
      if connection.isConnected && connection.bus.caps.writePosEx {
        var reply := connection.Call(MovePos(id, position, speed, acceleration, Some(MOVE_TORQUE)));
        result := ResultOf(reply);
      } else {
        result := connection.WriteMemory(id, MemoryMap.GOAL_POSITION_L, 2, IntToBytes(position, 2));
      }
    }

    method ReadPosition(id: int) returns (position: Option<int>, result: int)
      requires connection.Valid()
      modifies connection.bus
      ensures (connection.State(), (position, result)) == ReadPositionSpec(old(connection.State()), id)
    {
      if connection.isConnected && connection.bus.caps.readPos {
        var reply := connection.Call(ReadPos(id));
        if reply.Raised? {
          position, result := None, Settings.ERROR_OPERATION_FAILED;
        } else {
          position, result := Some(reply.value), reply.result;
        }
      } else {
        var data;
        data, result := connection.ReadMemory(id, MemoryMap.PRESENT_POSITION_L, 2);
        position := if result == Settings.COMM_SUCCESS && data != [] then Some(ParsePosition(data)) else None;
      }
    }

    method ReadSpeed(id: int) returns (speed: Option<int>, result: int)
      requires connection.Valid()
      modifies connection.bus
      ensures (connection.State(), (speed, result)) == ReadSpeedSpec(old(connection.State()), id)
    {
      if connection.isConnected && connection.bus.caps.readSpeed {
        var reply := connection.Call(Bus.ReadSpeed(id));
        if reply.Raised? {
          speed, result := None, Settings.ERROR_OPERATION_FAILED;
        } else {
          speed, result := Some(reply.value), reply.result;
        }
      } else {
        var data;
        data, result := connection.ReadMemory(id, MemoryMap.PRESENT_SPEED_L, 2);
        speed := if result == Settings.COMM_SUCCESS && data != [] then Some(ParseSpeed(data)) else None;
      }
    }

    method WriteSpeed(id: int, speed: int) returns (result: int)
      requires connection.Valid()
      modifies connection.bus
      ensures (connection.State(), result) == WriteSpeedSpec(old(connection.State()), id, speed)
    {
      if Abs(speed) > Settings.MAX_SPEED {
        return Settings.ERROR_INVALID_PARAMETER;
      }
      result := connection.WriteMemory(id, MemoryMap.GOAL_SPEED_L, 2, IntToBytes(speed, 2));
    }

    method EnableTorque(id: int, enable: bool) returns (result: int)
      requires connection.Valid()
      modifies connection.bus
      ensures (connection.State(), result) == EnableTorqueSpec(old(connection.State()), id, enable)
    {
      result := connection.WriteMemory(id, MemoryMap.TORQUE_ENABLE, 1, [if enable then 1 else 0]);
    }

    method SetTorqueLimit(id: int, limit: int) returns (result: int)
      requires connection.Valid()
      modifies connection.bus
      ensures (connection.State(), result) == SetTorqueLimitSpec(old(connection.State()), id, limit)
    {
      if !Settings.InRange(limit, Settings.MIN_TORQUE, Settings.MAX_TORQUE) {
        return Settings.ERROR_INVALID_PARAMETER;
      }
      result := connection.WriteMemory(id, MemoryMap.TORQUE_LIMIT_L, 2, IntToBytes(limit, 2));
    }

    method StopServo(id: int) returns (result: int)
      requires connection.Valid()
      modifies connection.bus
      ensures (connection.State(), result) == StopServoSpec(old(connection.State()), id)
    {
      var position;
      position, result := ReadPosition(id);
      if result != Settings.COMM_SUCCESS {
        return;
      }
      if position.None? {
        return Settings.ERROR_OPERATION_FAILED;
      }
      result := WritePosition(id, position.value, 0, 0);
    }

    method GetServoStatus(id: int) returns (status: ServoStatus)
      requires connection.Valid()
      modifies connection.bus
      ensures (connection.State(), status) == GetServoStatusSpec(old(connection.State()), id)
    {
      status := Offline(id);
      var model, result := connection.Ping(id);
      if result != Settings.COMM_SUCCESS {
        return;
      }
      status := status.(connected := true, modelNumber := model);
      var position, r2 := ReadPosition(id);
      if r2 == Settings.COMM_SUCCESS {
        status := status.(position := position);
      }
      var speed, r3 := ReadSpeed(id);
      if r3 == Settings.COMM_SUCCESS {
        status := status.(speed := speed);
      }
      var voltage, r4 := connection.ReadMemory(id, MemoryMap.PRESENT_VOLTAGE, 1);
      if r4 == Settings.COMM_SUCCESS && voltage != [] {
        status := status.(voltage := Some(ParseVoltage(voltage)));
      }
      var temp, r5 := connection.ReadMemory(id, MemoryMap.PRESENT_TEMPERATURE, 1);
      if r5 == Settings.COMM_SUCCESS && temp != [] {
        status := status.(temperature := Some(ParseTemperature(temp)));
      }
      var moving, r6 := connection.ReadMemory(id, MemoryMap.MOVING_STATUS, 1);
      if r6 == Settings.COMM_SUCCESS && moving != [] {
        status := status.(moving := moving[0] != 0);
      }
    }

    method MultiServoControl(configs: seq<MoveConfig>) returns (results: map<int, int>)
      requires connection.Valid()
      modifies connection.bus
      ensures (connection.State(), results) == MultiServoSpec(old(connection.State()), configs, |configs|)
    {
      results := map[];
      var n := 0;
      while n < |configs|
        invariant n <= |configs|
        invariant (connection.State(), results) == MultiServoSpec(old(connection.State()), configs, n)
      {
        var c := configs[n];
        var r := WritePosition(c.id, OrElse(c.position, Settings.CENTER_POSITION),
                               OrElse(c.speed, 100), OrElse(c.acceleration, 50));
        results := results[c.id := r];
        n := n + 1;
      }
    }
  }
}
