/**
 * modules/pid_controller.py: the position PID gains (addresses 21-23), the
 * speed PID gains (SPEED_P_GAIN and SPEED_I_GAIN_L) and the startup torque
 * (24), each access bracketed by EEPROM unlock and lock.
 */
module PidController {
  import opened Wrappers
  import opened DataParser
  import opened Bus
  import opened Connection
  import Settings
  import MemoryMap

  predicate GainInRange(g: int)
  {
    Settings.InRange(g, Settings.MIN_PID_GAIN, Settings.MAX_PID_GAIN)
  }

  /** A successful read that returned bytes. */
  predicate GotData(data: seq<Byte>, result: int)
  {
    result == 0 && data != []
  }

  /**
   * read_position_pid: unlock (result ignored), read P, I and D, lock, and
   * report [P, I, D] when all three reads came back.  Any exception, which
   * only the two direct handler calls can raise, reports -1.
   */
  function ReadPositionPidSpec(t: Trace, id: int): (Trace, (Option<seq<int>>, int))
  {
    var (t1, u) := Issue(t, Unlock(id));
    if u.Raised? then (t1, (None, -1))
    else
      var (t2, (p, rp)) := ReadMemorySpec(t1, id, MemoryMap.POSITION_P_GAIN, 1);
      var (t3, (i, ri)) := ReadMemorySpec(t2, id, MemoryMap.POSITION_I_GAIN, 1);
      var (t4, (d, rd)) := ReadMemorySpec(t3, id, MemoryMap.POSITION_D_GAIN, 1);
      var (t5, l) := Issue(t4, Lock(id));
      if l.Raised? then (t5, (None, -1))
      else if GotData(p, rp) && GotData(i, ri) && GotData(d, rd) then
        (t5, (Some([BytesToInt(p, false), BytesToInt(i, false), BytesToInt(d, false)]), 0))
      else (t5, (None, -1))
  }

  /**
   * write_position_pid: validate, unlock, write P, I, D (each one byte),
   * returning the first failure at once (no lock); lock and report 0.
   */
  function WritePositionPidSpec(t: Trace, id: int, p: int, i: int, d: int): (Trace, int)
  {
    if !(GainInRange(p) && GainInRange(i) && GainInRange(d)) then (t, Settings.ERROR_INVALID_PARAMETER)
    else
      var (t1, u) := Issue(t, Unlock(id));
      if ResultOf(u) != 0 then (t1, ResultOf(u))
      else
        var (t2, rp) := WriteMemorySpec(t1, id, MemoryMap.POSITION_P_GAIN, 1, [p]);
        if rp != 0 then (t2, rp)
        else
          var (t3, ri) := WriteMemorySpec(t2, id, MemoryMap.POSITION_I_GAIN, 1, [i]);
          if ri != 0 then (t3, ri)
          else
            var (t4, rd) := WriteMemorySpec(t3, id, MemoryMap.POSITION_D_GAIN, 1, [d]);
            if rd != 0 then (t4, rd)
            else
              var (t5, l) := Issue(t4, Lock(id));
              (t5, if l.Raised? then Settings.ERROR_OPERATION_FAILED else 0)
  }

  /** read_speed_pid: [P, I] with I the signed decode of the first two bytes read. */
  function ReadSpeedPidSpec(t: Trace, id: int): (Trace, (Option<seq<int>>, int))
  {
    var (t1, u) := Issue(t, Unlock(id));
    if u.Raised? then (t1, (None, -1))
    else
      var (t2, (p, rp)) := ReadMemorySpec(t1, id, MemoryMap.SPEED_P_GAIN, 1);
      var (t3, (i, ri)) := ReadMemorySpec(t2, id, MemoryMap.SPEED_I_GAIN_L, 2);
      var (t4, l) := Issue(t3, Lock(id));
      if l.Raised? then (t4, (None, -1))
      else if GotData(p, rp) && GotData(i, ri) && |i| >= 2 then
        (t4, (Some([BytesToInt(p, false), BytesToInt(i[..2], true)]), 0))
      else (t4, (None, -1))
  }

  predicate SpeedIInRange(i: int)
  {
    -32768 <= i <= 32767
  }

  /** write_speed_pid: P one byte, I two signed little-endian bytes. */
  function WriteSpeedPidSpec(t: Trace, id: int, p: int, i: int): (Trace, int)
  {
    if !(GainInRange(p) && SpeedIInRange(i)) then (t, Settings.ERROR_INVALID_PARAMETER)
    else
      var (t1, u) := Issue(t, Unlock(id));
      if ResultOf(u) != 0 then (t1, ResultOf(u))
      else
        var (t2, rp) := WriteMemorySpec(t1, id, MemoryMap.SPEED_P_GAIN, 1, [p]);
        if rp != 0 then (t2, rp)
        else
          var (t3, ri) := WriteMemorySpec(t2, id, MemoryMap.SPEED_I_GAIN_L, 2, IntToBytes(i, 2));
          if ri != 0 then (t3, ri)
          else
            var (t4, l) := Issue(t3, Lock(id));
            (t4, if l.Raised? then Settings.ERROR_OPERATION_FAILED else 0)
  }

  /** read_startup_torque: the unsigned byte at 24, or None with the read's result. */
  function ReadStartupTorqueSpec(t: Trace, id: int): (Trace, (Option<int>, int))
  {
    var (t1, u) := Issue(t, Unlock(id));
    if u.Raised? then (t1, (None, -1))
    else
      var (t2, (data, result)) := ReadMemorySpec(t1, id, MemoryMap.STARTUP_TORQUE, 1);
      var (t3, l) := Issue(t2, Lock(id));
      if l.Raised? then (t3, (None, -1))
      else if GotData(data, result) then (t3, (Some(BytesToInt(data, false)), result))
      else (t3, (None, result))
  }

  predicate StartupTorqueInRange(v: int)
  {
    Settings.InRange(v, Settings.MIN_STARTUP_TORQUE, Settings.MAX_STARTUP_TORQUE)
  }

  /** write_startup_torque: after a good unlock, write then always lock; the write's result. */
  function WriteStartupTorqueSpec(t: Trace, id: int, torque: int): (Trace, int)
  {
    if !StartupTorqueInRange(torque) then (t, Settings.ERROR_INVALID_PARAMETER)
    else
      var (t1, u) := Issue(t, Unlock(id));
      if ResultOf(u) != 0 then (t1, ResultOf(u))
      else
        var (t2, r) := WriteMemorySpec(t1, id, MemoryMap.STARTUP_TORQUE, 1, [torque]);
        var (t3, l) := Issue(t2, Lock(id));
        (t3, if l.Raised? then Settings.ERROR_OPERATION_FAILED else r)
  }

  /** A list argument is used only when present (truthy) and of the given length. */
  predicate Supplied(o: Option<seq<int>>, n: nat)
  {
    o.Some? && |o.value| == n
  }

  function AttemptPosition(t: Trace, id: int, positionPid: Option<seq<int>>): (Trace, seq<int>)
  {
    if Supplied(positionPid, 3) then
      var (t1, r) := WritePositionPidSpec(t, id, positionPid.value[0], positionPid.value[1], positionPid.value[2]);
      (t1, [r])
    else (t, [])
  }

  function AttemptSpeed(t: Trace, id: int, speedPid: Option<seq<int>>): (Trace, seq<int>)
  {
    if Supplied(speedPid, 2) then
      var (t1, r) := WriteSpeedPidSpec(t, id, speedPid.value[0], speedPid.value[1]);
      (t1, [r])
    else (t, [])
  }

  function AttemptTorque(t: Trace, id: int, startupTorque: Option<int>): (Trace, seq<int>)
  {
    if startupTorque.Some? then
      var (t1, r) := WriteStartupTorqueSpec(t, id, startupTorque.value);
      (t1, [r])
    else (t, [])
  }

  /**
   * set_pid_params as the results of the sub-calls it made, in order:
   * position PID, speed PID, startup torque, each only when supplied.
   */
  function SetPidAttempts(t: Trace, id: int, positionPid: Option<seq<int>>, speedPid: Option<seq<int>>,
                          startupTorque: Option<int>): (Trace, seq<int>)
  {
    var (t1, a1) := AttemptPosition(t, id, positionPid);
    var (t2, a2) := AttemptSpeed(t1, id, speedPid);
    var (t3, a3) := AttemptTorque(t2, id, startupTorque);
    (t3, a1 + a2 + a3)
  }

  function PositionPidCmds(id: int, p: int, i: int, d: int): seq<Cmd>
  {
    [Unlock(id), Write(id, MemoryMap.POSITION_P_GAIN, 1, [p]), Write(id, MemoryMap.POSITION_I_GAIN, 1, [i]),
     Write(id, MemoryMap.POSITION_D_GAIN, 1, [d]), Lock(id)]
  }

  /** write_position_pid rejects any gain outside [0, 255] before sending anything. */
  lemma WritePositionPidRejects(t: Trace, id: int, p: int, i: int, d: int)
    ensures !(GainInRange(p) && GainInRange(i) && GainInRange(d)) <==>
      WritePositionPidSpec(t, id, p, i, d) == (t, Settings.ERROR_INVALID_PARAMETER)
  {
  }

  /**
   * write_position_pid sends Unlock, P@21, I@23, D@22 and Lock, stopping
   * after the first failure with that failure's result and without Lock;
   * when everything succeeded the result is 0 whatever Lock returned.
   */
  lemma WritePositionPidSequence(t: Trace, id: int, p: int, i: int, d: int)
    requires t.online && GainInRange(p) && GainInRange(i) && GainInRange(d)
    ensures var (t1, r) := WritePositionPidSpec(t, id, p, i, d);
      var cmds := PositionPidCmds(id, p, i, d);
      && (!Succeeded(At(t, 0)) ==> t1.log == t.log + cmds[..1] && r == ResultOf(At(t, 0)) && r != 0)
      && (Succeeded(At(t, 0)) && !Succeeded(At(t, 1)) ==> t1.log == t.log + cmds[..2] && r == ResultOf(At(t, 1)) && r != 0)
      && (Succeeded(At(t, 0)) && Succeeded(At(t, 1)) && !Succeeded(At(t, 2)) ==>
            t1.log == t.log + cmds[..3] && r == ResultOf(At(t, 2)) && r != 0)
      && (Succeeded(At(t, 0)) && Succeeded(At(t, 1)) && Succeeded(At(t, 2)) && !Succeeded(At(t, 3)) ==>
            t1.log == t.log + cmds[..4] && r == ResultOf(At(t, 3)) && r != 0)
      && (Succeeded(At(t, 0)) && Succeeded(At(t, 1)) && Succeeded(At(t, 2)) && Succeeded(At(t, 3)) ==>
            t1.log == t.log + cmds && (r == 0 <==> At(t, 4).Done?))
  {
  }

  /** With a missing handler the unlock raises: nothing is sent and ERROR_OPERATION_FAILED is reported. */
  lemma WritePositionPidOffline(t: Trace, id: int, p: int, i: int, d: int)
    requires !t.online && GainInRange(p) && GainInRange(i) && GainInRange(d)
    ensures WritePositionPidSpec(t, id, p, i, d) == (t, Settings.ERROR_OPERATION_FAILED)
  {
  }

  /**
   * write_speed_pid accepts P in [0, 255] and I in [-32768, 32767], and
   * writes I as two bytes whose signed decode is I.  A failing unlock, P
   * write or I write is returned at once, without the Lock; with no
   * handler the unlock raises and nothing is sent.
   */
  lemma WriteSpeedPidSequence(t: Trace, id: int, p: int, i: int)
    ensures !(GainInRange(p) && SpeedIInRange(i)) ==> WriteSpeedPidSpec(t, id, p, i) == (t, Settings.ERROR_INVALID_PARAMETER)
    ensures GainInRange(p) && SpeedIInRange(i) && !t.online ==>
      WriteSpeedPidSpec(t, id, p, i) == (t, Settings.ERROR_OPERATION_FAILED)
    ensures GainInRange(p) && SpeedIInRange(i) && t.online ==>
      var (t1, r) := WriteSpeedPidSpec(t, id, p, i);
      var cmds := [Unlock(id), Write(id, MemoryMap.SPEED_P_GAIN, 1, [p]),
                   Write(id, MemoryMap.SPEED_I_GAIN_L, 2, IntToBytes(i, 2)), Lock(id)];
      && (!Succeeded(At(t, 0)) ==> t1.log == t.log + cmds[..1] && r == ResultOf(At(t, 0)) && r != 0)
      && (Succeeded(At(t, 0)) && !Succeeded(At(t, 1)) ==> t1.log == t.log + cmds[..2] && r == ResultOf(At(t, 1)) && r != 0)
      && (Succeeded(At(t, 0)) && Succeeded(At(t, 1)) && !Succeeded(At(t, 2)) ==>
            t1.log == t.log + cmds[..3] && r == ResultOf(At(t, 2)) && r != 0)
      && (Succeeded(At(t, 0)) && Succeeded(At(t, 1)) && Succeeded(At(t, 2)) ==>
            t1.log == t.log + cmds && (r == 0 <==> At(t, 3).Done?))
    ensures SpeedIInRange(i) ==> |IntToBytes(i, 2)| == 2 && BytesToInt(IntToBytes(i, 2), true) == i
  {
    if SpeedIInRange(i) {
      assert Pow256(2) == 65536;
      RoundTripSigned(i, 2);
    }
  }

  /**
   * write_startup_torque validates [0, 255]; with no handler the unlock
   * raises and ERROR_OPERATION_FAILED comes back with nothing sent; a
   * failed unlock is returned with nothing written; otherwise write and
   * Lock are both sent, and the write's result is returned, or
   * ERROR_OPERATION_FAILED when the Lock raised.
   */
  lemma WriteStartupTorqueSequence(t: Trace, id: int, torque: int)
    ensures !StartupTorqueInRange(torque) ==> WriteStartupTorqueSpec(t, id, torque) == (t, Settings.ERROR_INVALID_PARAMETER)
    ensures StartupTorqueInRange(torque) && !t.online ==>
      WriteStartupTorqueSpec(t, id, torque) == (t, Settings.ERROR_OPERATION_FAILED)
    ensures StartupTorqueInRange(torque) && t.online && !Succeeded(At(t, 0)) ==>
      WriteStartupTorqueSpec(t, id, torque) == (t.(log := t.log + [Unlock(id)]), ResultOf(At(t, 0)))
    ensures StartupTorqueInRange(torque) && t.online && Succeeded(At(t, 0)) ==>
      var (t1, r) := WriteStartupTorqueSpec(t, id, torque);
      && t1.log == t.log + [Unlock(id), Write(id, MemoryMap.STARTUP_TORQUE, 1, [torque]), Lock(id)]
      && (At(t, 2).Done? ==> r == ResultOf(At(t, 1)))
      && (At(t, 2).Raised? ==> r == Settings.ERROR_OPERATION_FAILED)
  {
  }

  /**
   * read_position_pid: a raising unlock (no handler, or the SDK raised)
   * reports (None, -1) after the unlock alone; otherwise Unlock, the three
   * reads and Lock are sent, a raising Lock reports (None, -1), and else
   * [P, I, D], the unsigned bytes read, come back exactly when all three
   * reads succeeded with data; every failure reports -1.
   */
  lemma ReadPositionPidSequence(t: Trace, id: int)
    ensures !t.online ==> ReadPositionPidSpec(t, id) == (t, (None, -1))
    ensures var (t1, (gains, r)) := ReadPositionPidSpec(t, id);
      && (t.online && At(t, 0).Raised? ==> t1.log == t.log + [Unlock(id)] && gains.None?)
      && (t.online && At(t, 0).Done? ==>
            t1.log == t.log + [Unlock(id), Read(id, MemoryMap.POSITION_P_GAIN, 1), Read(id, MemoryMap.POSITION_I_GAIN, 1),
                               Read(id, MemoryMap.POSITION_D_GAIN, 1), Lock(id)])
      && (t.online && At(t, 0).Done? && At(t, 4).Raised? ==> gains.None?)
      && (t.online && At(t, 0).Done? && At(t, 4).Done? ==>
            (gains.Some? <==>
               Succeeded(At(t, 1)) && At(t, 1).data != [] && Succeeded(At(t, 2)) && At(t, 2).data != []
               && Succeeded(At(t, 3)) && At(t, 3).data != []))
      && (gains.Some? ==> r == 0 && gains.value == [Unsigned(At(t, 1).data), Unsigned(At(t, 2).data), Unsigned(At(t, 3).data)])
      && (gains.None? ==> r == -1)
  {
  }

  /**
   * read_speed_pid: the same exception paths as the position read, with
   * Unlock, P (one byte), I (two bytes) and Lock; [P, I] is the unsigned P
   * byte and the signed decode of the first two I bytes, and needs at
   * least two bytes of I; every failure reports -1.
   */
  lemma ReadSpeedPidSequence(t: Trace, id: int)
    ensures !t.online ==> ReadSpeedPidSpec(t, id) == (t, (None, -1))
    ensures var (t1, (gains, r)) := ReadSpeedPidSpec(t, id);
      && (t.online && At(t, 0).Raised? ==> t1.log == t.log + [Unlock(id)] && gains.None?)
      && (t.online && At(t, 0).Done? ==>
            t1.log == t.log + [Unlock(id), Read(id, MemoryMap.SPEED_P_GAIN, 1), Read(id, MemoryMap.SPEED_I_GAIN_L, 2), Lock(id)])
      && (t.online && At(t, 0).Done? && At(t, 3).Raised? ==> gains.None?)
      && (t.online && At(t, 0).Done? && At(t, 3).Done? ==>
            (gains.Some? <==> Succeeded(At(t, 1)) && At(t, 1).data != [] && Succeeded(At(t, 2)) && |At(t, 2).data| >= 2))
      && (gains.Some? ==>
            && r == 0
            && gains.value == [Unsigned(At(t, 1).data), BytesToInt(At(t, 2).data[..2], true)]
            && -32768 <= gains.value[1] < 32768)
      && (gains.None? ==> r == -1)
  {
    var (t1, (gains, r)) := ReadSpeedPidSpec(t, id);
    if gains.Some? {
      var i := At(t, 2).data;
      assert HalfRange(2) == 32768;
      assert |i[..2]| == 2;
    }
  }

  /**
   * read_startup_torque: a raising unlock or Lock reports (None, -1);
   * otherwise Unlock, the read of 24 and Lock are sent, the result is the
   * read's, and the torque is the unsigned byte read exactly when the read
   * succeeded with data.
   */
  lemma ReadStartupTorqueSequence(t: Trace, id: int)
    ensures !t.online ==> ReadStartupTorqueSpec(t, id) == (t, (None, -1))
    ensures var (t1, (v, r)) := ReadStartupTorqueSpec(t, id);
      && (t.online && At(t, 0).Raised? ==> t1.log == t.log + [Unlock(id)] && v.None? && r == -1)
      && (t.online && At(t, 0).Done? ==>
            t1.log == t.log + [Unlock(id), Read(id, MemoryMap.STARTUP_TORQUE, 1), Lock(id)])
      && (t.online && At(t, 0).Done? && At(t, 2).Raised? ==> v.None? && r == -1)
      && (t.online && At(t, 0).Done? && At(t, 2).Done? ==>
            && (v.Some? <==> Succeeded(At(t, 1)) && At(t, 1).data != [])
            && r == ResultOf(At(t, 1)))
      && (v.Some? ==> v.value == Unsigned(At(t, 1).data) && 0 <= v.value < Pow256(|At(t, 1).data|))
  {
  }

  /**
   * set_pid_params makes one attempt per supplied, correctly sized
   * component and succeeds iff every attempt returned 0; with nothing
   * supplied it sends nothing and succeeds.
   */
  lemma SetPidParamsAttempts(t: Trace, id: int, positionPid: Option<seq<int>>, speedPid: Option<seq<int>>,
                             startupTorque: Option<int>)
    ensures var (t1, attempts) := SetPidAttempts(t, id, positionPid, speedPid, startupTorque);
      && |attempts| == (if Supplied(positionPid, 3) then 1 else 0) + (if Supplied(speedPid, 2) then 1 else 0)
                       + (if startupTorque.Some? then 1 else 0)
      && (!Supplied(positionPid, 3) && !Supplied(speedPid, 2) && startupTorque.None? ==> t1 == t && AllZero(attempts))
      && (Supplied(positionPid, 3) ==> attempts[0] == WritePositionPidSpec(t, id, positionPid.value[0], positionPid.value[1], positionPid.value[2]).1)
  {
  }

  class PIDController {
    const connection: ConnectionManager

    constructor (connection: ConnectionManager)
      ensures this.connection == connection
    {
      this.connection := connection;
    }

    method ReadPositionPid(id: int) returns (gains: Option<seq<int>>, result: int)
      requires connection.Valid()
      modifies connection.bus
      ensures (connection.State(), (gains, result)) == ReadPositionPidSpec(old(connection.State()), id)
    {
      var u := connection.Call(Unlock(id));
      if u.Raised? {
        return None, -1;
      }
      var p, rp := connection.ReadMemory(id, MemoryMap.POSITION_P_GAIN, 1);
      var i, ri := connection.ReadMemory(id, MemoryMap.POSITION_I_GAIN, 1);
      var d, rd := connection.ReadMemory(id, MemoryMap.POSITION_D_GAIN, 1);
      var l := connection.Call(Lock(id));
      if l.Raised? {
        return None, -1;
      }
      if GotData(p, rp) && GotData(i, ri) && GotData(d, rd) {
        return Some([BytesToInt(p, false), BytesToInt(i, false), BytesToInt(d, false)]), 0;
      }
      return None, -1;
    }

    method WritePositionPid(id: int, p: int, i: int, d: int) returns (result: int)
      requires connection.Valid()
      modifies connection.bus
      ensures (connection.State(), result) == WritePositionPidSpec(old(connection.State()), id, p, i, d)
    {
      if !(GainInRange(p) && GainInRange(i) && GainInRange(d)) {
        return Settings.ERROR_INVALID_PARAMETER;
      }
      var u := connection.Call(Unlock(id));
      if ResultOf(u) != 0 {
        return ResultOf(u);
      }
      result := connection.WriteMemory(id, MemoryMap.POSITION_P_GAIN, 1, [p]);
      if result != 0 {
        return;
      }
      result := connection.WriteMemory(id, MemoryMap.POSITION_I_GAIN, 1, [i]);
      if result != 0 {
        return;
      }
      result := connection.WriteMemory(id, MemoryMap.POSITION_D_GAIN, 1, [d]);
      if result != 0 {
        return;
      }
      var l := connection.Call(Lock(id));
      result := if l.Raised? then Settings.ERROR_OPERATION_FAILED else 0;
    }

    method ReadSpeedPid(id: int) returns (gains: Option<seq<int>>, result: int)
      requires connection.Valid()
      modifies connection.bus
      ensures (connection.State(), (gains, result)) == ReadSpeedPidSpec(old(connection.State()), id)
    {
      var u := connection.Call(Unlock(id));
      if u.Raised? {
        return None, -1;
      }
      var p, rp := connection.ReadMemory(id, MemoryMap.SPEED_P_GAIN, 1);
      var i, ri := connection.ReadMemory(id, MemoryMap.SPEED_I_GAIN_L, 2);
      var l := connection.Call(Lock(id));
      if l.Raised? {
        return None, -1;
      }
      if GotData(p, rp) && GotData(i, ri) && |i| >= 2 {
        return Some([BytesToInt(p, false), BytesToInt(i[..2], true)]), 0;
      }
      return None, -1;
    }

    method WriteSpeedPid(id: int, p: int, i: int) returns (result: int)
      requires connection.Valid()
      modifies connection.bus
      ensures (connection.State(), result) == WriteSpeedPidSpec(old(connection.State()), id, p, i)
    {
      if !(GainInRange(p) && SpeedIInRange(i)) {
        return Settings.ERROR_INVALID_PARAMETER;
      }
      var u := connection.Call(Unlock(id));
      if ResultOf(u) != 0 {
        return ResultOf(u);
      }
      result := connection.WriteMemory(id, MemoryMap.SPEED_P_GAIN, 1, [p]);
      if result != 0 {
        return;
      }
      result := connection.WriteMemory(id, MemoryMap.SPEED_I_GAIN_L, 2, IntToBytes(i, 2));
      if result != 0 {
        return;
      }
      var l := connection.Call(Lock(id));
      result := if l.Raised? then Settings.ERROR_OPERATION_FAILED else 0;
    }

    method ReadStartupTorque(id: int) returns (torque: Option<int>, result: int)
      requires connection.Valid()
      modifies connection.bus
      ensures (connection.State(), (torque, result)) == ReadStartupTorqueSpec(old(connection.State()), id)
    {
      var u := connection.Call(Unlock(id));
      if u.Raised? {
        return None, -1;
      }
      var data;
      data, result := connection.ReadMemory(id, MemoryMap.STARTUP_TORQUE, 1);
      var l := connection.Call(Lock(id));
      if l.Raised? {
        return None, -1;
      }
      torque := if GotData(data, result) then Some(BytesToInt(data, false)) else None;
    }

    method WriteStartupTorque(id: int, torque: int) returns (result: int)
      requires connection.Valid()
      modifies connection.bus
      ensures (connection.State(), result) == WriteStartupTorqueSpec(old(connection.State()), id, torque)
    {
      if !StartupTorqueInRange(torque) {
        return Settings.ERROR_INVALID_PARAMETER;
      }
      var u := connection.Call(Unlock(id));
      if ResultOf(u) != 0 {
        return ResultOf(u);
      }
      result := connection.WriteMemory(id, MemoryMap.STARTUP_TORQUE, 1, [torque]);
      var l := connection.Call(Lock(id));
      if l.Raised? {
        result := Settings.ERROR_OPERATION_FAILED;
      }
    }

    method SetPidParams(id: int, positionPid: Option<seq<int>>, speedPid: Option<seq<int>>, startupTorque: Option<int>)
      returns (success: bool)
      requires connection.Valid()
      modifies connection.bus
      ensures var (t, attempts) := SetPidAttempts(old(connection.State()), id, positionPid, speedPid, startupTorque);
        connection.State() == t && success == AllZero(attempts)
    {
      ghost var t0 := connection.State();
      ghost var attempts: seq<int> := [];
      success := true;
      if Supplied(positionPid, 3) {
        var r := WritePositionPid(id, positionPid.value[0], positionPid.value[1], positionPid.value[2]);
        AllZeroAppend(attempts, r);
        attempts := attempts + [r];
        if r != 0 {
          success := false;
        }
      }
      ghost var s1 := AttemptPosition(t0, id, positionPid);
      assert connection.State() == s1.0;
      assert attempts == s1.1;
      if Supplied(speedPid, 2) {
        var r := WriteSpeedPid(id, speedPid.value[0], speedPid.value[1]);
        AllZeroAppend(attempts, r);
        attempts := attempts + [r];
        if r != 0 {
          success := false;
        }
      }
      ghost var s2 := AttemptSpeed(s1.0, id, speedPid);
      assert connection.State() == s2.0;
      assert attempts == s1.1 + s2.1;
      if startupTorque.Some? {
        var r := WriteStartupTorque(id, startupTorque.value);
        AllZeroAppend(attempts, r);
        attempts := attempts + [r];
        if r != 0 {
          success := false;
        }
      }
      ghost var s3 := AttemptTorque(s2.0, id, startupTorque);
      assert connection.State() == s3.0;
      assert attempts == s1.1 + s2.1 + s3.1;
    }
  }
}
