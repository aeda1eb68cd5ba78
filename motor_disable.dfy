/**
 * The quick motor-disable script: open the port, then write 0 to the torque
 * switch of servos 1..6 inside one `try`, counting the successes.
 */
module MotorDisable {
  import opened Bus
  import opened ScriptOps

  const SERVO_IDS: seq<int> := [1, 2, 3, 4, 5, 6]

  /** write1ByteTxRx(id, 40, 0): torque off. */
  function DisableCmd(id: int): Cmd
  {
    Write1(id, TORQUE_ENABLE, 0)
  }

  /**
   * quick_motor_disable on a handler after the port was (or was not) opened
   * and set to 1 Mbaud: (trace, return value, disabled_count).
   */
  function QuickMotorDisableSpec(t: Trace, portOpen: bool, baudSet: bool): (r: (Trace, bool, nat))
  {
    if !portOpen || !baudSet then (t, false, 0)
    else
      var (t1, count, raised) := CountEach(t, SERVO_IDS, DisableCmd, true);
      (t1, !raised, count)
  }

  /**
   * A port that cannot be opened or set up sends nothing and fails.
   * Otherwise the script writes 0 at register 40 of servos 1, 2, ..., 6 in
   * that order and nothing else, stopping after the first exception; it
   * returns True exactly when no call raised, whatever the number of
   * successful writes, which it counts.
   */
  lemma QuickMotorDisableProperties(t: Trace, portOpen: bool, baudSet: bool)
    requires t.online
    ensures var (t1, ok, disabled) := QuickMotorDisableSpec(t, portOpen, baudSet);
      var m := |t1.log| - |t.log|;
      && (!portOpen || !baudSet ==> t1 == t && !ok)
      && (portOpen && baudSet ==>
            && 0 <= m <= 6
            && t1.log == t.log + [Write1(1, 40, 0), Write1(2, 40, 0), Write1(3, 40, 0),
                                  Write1(4, 40, 0), Write1(5, 40, 0), Write1(6, 40, 0)][..m]
            && (ok <==> NoRaise(t, 0, 6))
            && (ok ==> m == 6 && disabled == Successes(t, m) && disabled <= 6))
  {
    if portOpen && baudSet {
      AbortingCount(t, SERVO_IDS, DisableCmd);
      assert Cmds(DisableCmd, SERVO_IDS) == [Write1(1, 40, 0), Write1(2, 40, 0), Write1(3, 40, 0),
                                             Write1(4, 40, 0), Write1(5, 40, 0), Write1(6, 40, 0)];
    }
  }

  method QuickMotorDisable(handler: Handler, portOpen: bool, baudSet: bool) returns (ok: bool, disabled: nat)
    modifies handler
    ensures (handler.State(), ok, disabled) == QuickMotorDisableSpec(old(handler.State()), portOpen, baudSet)
  {
    if !portOpen || !baudSet {
      return false, 0;
    }
    var raised;
    disabled, raised := CountLoop(handler, SERVO_IDS, DisableCmd, true);
    ok := !raised;
  }
}
