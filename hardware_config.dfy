/**
 * modules/hardware_config.py: changing and reading a servo's ID (register
 * ID, address 5).
 */
module HardwareConfig {
  import opened Wrappers
  import opened DataParser
  import opened Bus
  import opened Connection
  import Settings
  import MemoryMap

  predicate NewIdInRange(id: int)
  {
    1 <= id <= 253
  }

  /** set_servo_id: only the new ID is validated; every command goes to the current ID. */
  function SetServoIdSpec(t: Trace, currentId: int, newId: int): (Trace, int)
  {
    if !NewIdInRange(newId) then (t, Settings.ERROR_INVALID_PARAMETER)
    else
      var (t1, u) := Issue(t, Unlock(currentId));
      if ResultOf(u) != 0 then (t1, ResultOf(u))
      else
        var (t2, r) := WriteMemorySpec(t1, currentId, MemoryMap.ID, 1, [newId]);
        var (t3, l) := Issue(t2, Lock(currentId));
        (t3, if l.Raised? then Settings.ERROR_OPERATION_FAILED else r)
  }

  /** read_servo_id: the unsigned byte at address 5, or None with the read's result. */
  function ReadServoIdSpec(t: Trace, id: int): (Trace, (Option<int>, int))
  {
    var (t1, (data, result)) := ReadMemorySpec(t, id, MemoryMap.ID, 1);
    (t1, if result == 0 && data != [] then (Some(BytesToInt(data, false)), result) else (None, result))
  }

  /**
   * set_servo_id rejects a new ID outside [1, 253] before sending anything;
   * with no handler the unlock raises and ERROR_OPERATION_FAILED comes back
   * with nothing sent; a failed unlock of the current ID is returned with
   * nothing written; otherwise [new_id] is written at address 5 of the
   * current ID and Lock goes to the current (old) ID whatever the write
   * returned, and the write's result is returned, or ERROR_OPERATION_FAILED
   * when the Lock raised.
   */
  lemma SetServoIdSequence(t: Trace, currentId: int, newId: int)
    ensures !NewIdInRange(newId) <==> SetServoIdSpec(t, currentId, newId) == (t, Settings.ERROR_INVALID_PARAMETER)
    ensures NewIdInRange(newId) && !t.online ==>
      SetServoIdSpec(t, currentId, newId) == (t, Settings.ERROR_OPERATION_FAILED)
    ensures NewIdInRange(newId) && t.online && !Succeeded(At(t, 0)) ==>
      SetServoIdSpec(t, currentId, newId) == (t.(log := t.log + [Unlock(currentId)]), ResultOf(At(t, 0)))
    ensures NewIdInRange(newId) && t.online && Succeeded(At(t, 0)) ==>
      var (t1, r) := SetServoIdSpec(t, currentId, newId);
      && t1.log == t.log + [Unlock(currentId), Write(currentId, 5, 1, [newId]), Lock(currentId)]
      && (At(t, 2).Done? ==> r == ResultOf(At(t, 1)))
      && (At(t, 2).Raised? ==> r == Settings.ERROR_OPERATION_FAILED)
  {
  }

  /** The current ID is never validated: even ID 0 or 254 is addressed. */
  lemma SetServoIdAnyCurrent(t: Trace, currentId: int)
    requires t.online
    ensures SetServoIdSpec(t, currentId, 1).0.log[|t.log|] == Unlock(currentId)
  {
  }

  /** read_servo_id: one read of address 5; the value is the byte read, below 256. */
  lemma ReadServoIdValue(t: Trace, id: int)
    requires t.online
    ensures var (t1, (v, r)) := ReadServoIdSpec(t, id);
      && t1.log == t.log + [Read(id, 5, 1)]
      && (v.Some? <==> Succeeded(At(t, 0)) && At(t, 0).data != [])
      && (v.Some? && |At(t, 0).data| == 1 ==> v.value == At(t, 0).data[0] && 0 <= v.value < 256)
  {
  }

  class HardwareConfig {
    const connection: ConnectionManager

    constructor (connection: ConnectionManager)
      ensures this.connection == connection
    {
      this.connection := connection;
    }

    method SetServoId(currentId: int, newId: int) returns (result: int)
      requires connection.Valid()
      modifies connection.bus
      ensures (connection.State(), result) == SetServoIdSpec(old(connection.State()), currentId, newId)
    {
      if !NewIdInRange(newId) {
        return Settings.ERROR_INVALID_PARAMETER;
      }
      var u := connection.Call(Unlock(currentId));
      if ResultOf(u) != 0 {
        return ResultOf(u);
      }
      result := connection.WriteMemory(currentId, MemoryMap.ID, 1, [newId]);
      var l := connection.Call(Lock(currentId));
      if l.Raised? {
        result := Settings.ERROR_OPERATION_FAILED;
      }
    }

    method ReadServoId(id: int) returns (value: Option<int>, result: int)
      requires connection.Valid()
      modifies connection.bus
      ensures (connection.State(), (value, result)) == ReadServoIdSpec(old(connection.State()), id)
    {
      var data;
      data, result := connection.ReadMemory(id, MemoryMap.ID, 1);
      value := if result == 0 && data != [] then Some(BytesToInt(data, false)) else None;
    }
  }
}
