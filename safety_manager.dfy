/**
 * modules/safety_manager.py: the temperature limit (MAX_TEMPERATURE_LIMIT)
 * and input-voltage limits (MAX_INPUT_VOLTAGE, MIN_INPUT_VOLTAGE), written
 * inside an EEPROM unlock/lock bracket.  Voltages are integer tenths of a
 * volt, the value the source computes with int(v * 10).
 */
module SafetyManager {
  import opened Wrappers
  import opened Bus
  import opened Connection
  import Settings
  import MemoryMap

  predicate TemperatureLimitInRange(limit: int)
  {
    0 <= limit <= 100
  }

  predicate VoltageInRange(v10: int)
  {
    50 <= v10 <= 250
  }

  /** configure_temperature_limit. */
  function ConfigureTemperatureLimitSpec(t: Trace, id: int, limit: int): (Trace, int)
  {
    if !TemperatureLimitInRange(limit) then (t, Settings.ERROR_INVALID_PARAMETER)
    else
      var (t1, u) := Issue(t, Unlock(id));
      if ResultOf(u) != 0 then (t1, ResultOf(u))
      else
        var (t2, r) := WriteMemorySpec(t1, id, MemoryMap.MAX_TEMPERATURE_LIMIT, 1, [limit]);
        var (t3, l) := Issue(t2, Lock(id));
        (t3, if l.Raised? then Settings.ERROR_OPERATION_FAILED else r)
  }

  /** configure_voltage_limits: both writes are attempted, max first; the first non-zero result wins. */
  function ConfigureVoltageLimitsSpec(t: Trace, id: int, min10: int, max10: int): (Trace, int)
  {
    if !VoltageInRange(min10) || !VoltageInRange(max10) then (t, Settings.ERROR_INVALID_PARAMETER)
    else
      var (t1, u) := Issue(t, Unlock(id));
      if ResultOf(u) != 0 then (t1, ResultOf(u))
      else
        var (t2, r1) := WriteMemorySpec(t1, id, MemoryMap.MAX_INPUT_VOLTAGE, 1, [max10]);
        var (t3, r2) := WriteMemorySpec(t2, id, MemoryMap.MIN_INPUT_VOLTAGE, 1, [min10]);
        var (t4, l) := Issue(t3, Lock(id));
        (t4, if l.Raised? then Settings.ERROR_OPERATION_FAILED else if r1 != 0 then r1 else r2)
  }

  function AttemptTemperature(t: Trace, id: int, tempLimit: Option<int>): (Trace, seq<int>)
  {
    if tempLimit.Some? then
      var (t1, r) := ConfigureTemperatureLimitSpec(t, id, tempLimit.value);
      (t1, [r])
    else (t, [])
  }

  /** A voltage range is used only when present and a pair (min, max). */
  function AttemptVoltage(t: Trace, id: int, voltageRange: Option<seq<int>>): (Trace, seq<int>)
  {
    if voltageRange.Some? && |voltageRange.value| == 2 then
      var (t1, r) := ConfigureVoltageLimitsSpec(t, id, voltageRange.value[0], voltageRange.value[1]);
      (t1, [r])
    else (t, [])
  }

  /** configure_safety as the results of the sub-configurations it attempted. */
  function ConfigureSafetyAttempts(t: Trace, id: int, tempLimit: Option<int>, voltageRange: Option<seq<int>>): (Trace, seq<int>)
  {
    var (t1, a1) := AttemptTemperature(t, id, tempLimit);
    var (t2, a2) := AttemptVoltage(t1, id, voltageRange);
    (t2, a1 + a2)
  }

  /**
   * configure_temperature_limit rejects limits outside [0, 100] unsent;
   * with no handler the unlock raises and ERROR_OPERATION_FAILED comes
   * back with nothing sent; a failed unlock is returned with nothing
   * written; otherwise the log gains Unlock, Write(13, [limit]) and Lock
   * whatever the write returned, and the result is the write's, or
   * ERROR_OPERATION_FAILED when the Lock raised.
   */
  lemma TemperatureLimitSequence(t: Trace, id: int, limit: int)
    ensures !TemperatureLimitInRange(limit) ==>
      ConfigureTemperatureLimitSpec(t, id, limit) == (t, Settings.ERROR_INVALID_PARAMETER)
    ensures TemperatureLimitInRange(limit) && !t.online ==>
      ConfigureTemperatureLimitSpec(t, id, limit) == (t, Settings.ERROR_OPERATION_FAILED)
    ensures TemperatureLimitInRange(limit) && t.online && !Succeeded(At(t, 0)) ==>
      ConfigureTemperatureLimitSpec(t, id, limit) == (t.(log := t.log + [Unlock(id)]), ResultOf(At(t, 0)))
    ensures TemperatureLimitInRange(limit) && t.online && Succeeded(At(t, 0)) ==>
      var (t1, r) := ConfigureTemperatureLimitSpec(t, id, limit);
      && t1.log == t.log + [Unlock(id), Write(id, 13, 1, [limit]), Lock(id)]
      && (At(t, 2).Done? ==> r == ResultOf(At(t, 1)))
      && (At(t, 2).Raised? ==> r == Settings.ERROR_OPERATION_FAILED)
  {
  }

  /**
   * configure_voltage_limits rejects either limit outside [50, 250] tenths
   * but never compares min with max; with no handler, or a failing unlock,
   * nothing is written; after a good unlock it writes max@14 and min@15,
   * attempting both, then locks; a raising Lock gives
   * ERROR_OPERATION_FAILED, and otherwise the result is the first non-zero
   * write result, else 0.
   */
  lemma VoltageLimitsSequence(t: Trace, id: int, min10: int, max10: int)
    ensures !VoltageInRange(min10) || !VoltageInRange(max10) ==>
      ConfigureVoltageLimitsSpec(t, id, min10, max10) == (t, Settings.ERROR_INVALID_PARAMETER)
    ensures VoltageInRange(min10) && VoltageInRange(max10) && !t.online ==>
      ConfigureVoltageLimitsSpec(t, id, min10, max10) == (t, Settings.ERROR_OPERATION_FAILED)
    ensures VoltageInRange(min10) && VoltageInRange(max10) && t.online && !Succeeded(At(t, 0)) ==>
      ConfigureVoltageLimitsSpec(t, id, min10, max10) == (t.(log := t.log + [Unlock(id)]), ResultOf(At(t, 0)))
    ensures VoltageInRange(min10) && VoltageInRange(max10) && t.online && Succeeded(At(t, 0)) ==>
      var (t1, r) := ConfigureVoltageLimitsSpec(t, id, min10, max10);
      && t1.log == t.log + [Unlock(id), Write(id, 14, 1, [max10]), Write(id, 15, 1, [min10]), Lock(id)]
      && (At(t, 3).Raised? ==> r == Settings.ERROR_OPERATION_FAILED)
      && (At(t, 3).Done? ==>
            && (r == 0 <==> ResultOf(At(t, 1)) == 0 && ResultOf(At(t, 2)) == 0)
            && (ResultOf(At(t, 1)) != 0 ==> r == ResultOf(At(t, 1)))
            && (ResultOf(At(t, 1)) == 0 ==> r == ResultOf(At(t, 2))))
  {
  }

  /**
   * A minimum above the maximum is accepted: once the unlock succeeds,
   * any such in-range pair is written as given, never answered with
   * ERROR_INVALID_PARAMETER unless a write or the lock reported that code.
   */
  lemma VoltageOrderUnchecked(t: Trace, id: int, min10: int, max10: int)
    requires VoltageInRange(min10) && VoltageInRange(max10) && min10 > max10
    requires t.online && Succeeded(At(t, 0))
    ensures var (t1, r) := ConfigureVoltageLimitsSpec(t, id, min10, max10);
      && t1.log == t.log + [Unlock(id), Write(id, 14, 1, [max10]), Write(id, 15, 1, [min10]), Lock(id)]
      && (r == Settings.ERROR_INVALID_PARAMETER ==> ResultOf(At(t, 1)) == r || ResultOf(At(t, 2)) == r)
  {
  }

  /** configure_safety tries each supplied part once, temperature first. */
  lemma ConfigureSafetyAttemptsCount(t: Trace, id: int, tempLimit: Option<int>, voltageRange: Option<seq<int>>)
    ensures var (t1, attempts) := ConfigureSafetyAttempts(t, id, tempLimit, voltageRange);
      && |attempts| == (if tempLimit.Some? then 1 else 0)
                       + (if voltageRange.Some? && |voltageRange.value| == 2 then 1 else 0)
      && (tempLimit.Some? ==> attempts[0] == ConfigureTemperatureLimitSpec(t, id, tempLimit.value).1)
      && (tempLimit.None? && !(voltageRange.Some? && |voltageRange.value| == 2) ==> t1 == t)
  {
  }

  class SafetyManager {
    const connection: ConnectionManager

    constructor (connection: ConnectionManager)
      ensures this.connection == connection
    {
      this.connection := connection;
    }

    method ConfigureTemperatureLimit(id: int, limit: int) returns (result: int)
      requires connection.Valid()
      modifies connection.bus
      ensures (connection.State(), result) == ConfigureTemperatureLimitSpec(old(connection.State()), id, limit)
    {
      if !TemperatureLimitInRange(limit) {
        return Settings.ERROR_INVALID_PARAMETER;
      }
      var u := connection.Call(Unlock(id));
      if ResultOf(u) != 0 {
        return ResultOf(u);
      }
      result := connection.WriteMemory(id, MemoryMap.MAX_TEMPERATURE_LIMIT, 1, [limit]);
      var l := connection.Call(Lock(id));
      if l.Raised? {
        result := Settings.ERROR_OPERATION_FAILED;
      }
    }

    method ConfigureVoltageLimits(id: int, min10: int, max10: int) returns (result: int)
      requires connection.Valid()
      modifies connection.bus
      ensures (connection.State(), result) == ConfigureVoltageLimitsSpec(old(connection.State()), id, min10, max10)
    {
      if !VoltageInRange(min10) || !VoltageInRange(max10) {
        return Settings.ERROR_INVALID_PARAMETER;
      }
      var u := connection.Call(Unlock(id));
      if ResultOf(u) != 0 {
        return ResultOf(u);
      }
      var r1 := connection.WriteMemory(id, MemoryMap.MAX_INPUT_VOLTAGE, 1, [max10]);
      var r2 := connection.WriteMemory(id, MemoryMap.MIN_INPUT_VOLTAGE, 1, [min10]);
      var l := connection.Call(Lock(id));
      if l.Raised? {
        return Settings.ERROR_OPERATION_FAILED;
      }
      result := if r1 != 0 then r1 else r2;
    }

    method ConfigureSafety(id: int, tempLimit: Option<int>, voltageRange: Option<seq<int>>) returns (success: bool)
      requires connection.Valid()
      modifies connection.bus
      ensures var (t, attempts) := ConfigureSafetyAttempts(old(connection.State()), id, tempLimit, voltageRange);
        connection.State() == t && success == AllZero(attempts)
    {
      ghost var t0 := connection.State();
      ghost var attempts: seq<int> := [];
      success := true;
      if tempLimit.Some? {
        var r := ConfigureTemperatureLimit(id, tempLimit.value);
        AllZeroAppend(attempts, r);
        attempts := attempts + [r];
        if r != 0 {
          success := false;
        }
      }
      ghost var s1 := AttemptTemperature(t0, id, tempLimit);
      assert connection.State() == s1.0;
      assert attempts == s1.1;
      if voltageRange.Some? && |voltageRange.value| == 2 {
        var r := ConfigureVoltageLimits(id, voltageRange.value[0], voltageRange.value[1]);
        AllZeroAppend(attempts, r);
        attempts := attempts + [r];
        if r != 0 {
          success := false;
        }
      }
      ghost var s2 := AttemptVoltage(s1.0, id, voltageRange);
      assert connection.State() == s2.0;
      assert attempts == s1.1 + s2.1;
    }
  }
}
