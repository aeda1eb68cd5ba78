/**
 * The quick middle-calibration script: open the port; then, inside one
 * `try`, turn the torque of servos 1..6 off and calibrate each of them in
 * turn (unlock, write 128 at register 40, lock), counting both phases.
 */
module QuickCalibration {
  import opened Bus
  import opened ScriptOps

  const SERVO_IDS: seq<int> := [1, 2, 3, 4, 5, 6]

  /** write1ByteTxRx(id, 40, 0): torque off. */
  function DisableCmd(id: int): Cmd
  {
    Write1(id, TORQUE_ENABLE, 0)
  }

  /** What quick_middle_calibration reports: return value and the two counters. */
  datatype Outcome = Outcome(ok: bool, disabledCount: nat, calibratedCount: nat)

  /** quick_middle_calibration on a handler after the port was (or was not) opened and set to 1 Mbaud. */
  function QuickMiddleCalibrationSpec(t: Trace, portOpen: bool, baudSet: bool): (r: (Trace, Outcome))
  {
    if !portOpen || !baudSet then (t, Outcome(false, 0, 0))
    else
      var (t1, disabled, raised1) := CountEach(t, SERVO_IDS, DisableCmd, true);
      if raised1 then (t1, Outcome(false, disabled, 0))
      else
        var (t2, calibrated, raised2) := CalibrateEach(t1, SERVO_IDS, true);
        (t2, Outcome(!raised2, disabled, calibrated))
  }

  /**
   * A port that cannot be opened or set up sends nothing and fails.
   * Otherwise the disable phase writes 0 at register 40 of servos 1..6 in
   * order; when it completes without an exception it has counted every
   * successful write.  disabled_count is at most 6.
   */
  lemma QuickMiddleCalibrationDisablePhase(t: Trace, portOpen: bool, baudSet: bool)
    requires t.online
    ensures var (t2, out) := QuickMiddleCalibrationSpec(t, portOpen, baudSet);
      && (!portOpen || !baudSet ==> t2 == t && !out.ok)
      && (portOpen && baudSet ==>
            var t1 := CountEach(t, SERVO_IDS, DisableCmd, true).0;
            var m := |t1.log| - |t.log|;
            && 0 <= m <= 6
            && t1.log == t.log + [Write1(1, 40, 0), Write1(2, 40, 0), Write1(3, 40, 0),
                                  Write1(4, 40, 0), Write1(5, 40, 0), Write1(6, 40, 0)][..m]
            && (out.ok ==> m == 6 && out.disabledCount == Successes(t, m))
            && out.disabledCount <= 6)
  {
    if portOpen && baudSet {
      AbortingCount(t, SERVO_IDS, DisableCmd);
      assert Cmds(DisableCmd, SERVO_IDS) == [Write1(1, 40, 0), Write1(2, 40, 0), Write1(3, 40, 0),
                                             Write1(4, 40, 0), Write1(5, 40, 0), Write1(6, 40, 0)];
    }
  }

  /**
   * The calibration phase starts only after all six disables went through
   * without an exception, and sends only unlocks, calibration writes and
   * locks addressed to servos 1..6.  The return value is True exactly when
   * no call of either phase raised, whatever the counts; calibrated_count
   * is the number of completed calibrations the phase recorded, at most 6.
   */
  lemma QuickMiddleCalibrationCalibratePhase(t: Trace, portOpen: bool, baudSet: bool)
    requires t.online && portOpen && baudSet
    ensures var (t2, out) := QuickMiddleCalibrationSpec(t, portOpen, baudSet);
      var t1 := CountEach(t, SERVO_IDS, DisableCmd, true).0;
      && |t1.log| <= |t2.log| && t2.log[..|t1.log|] == t1.log
      && (|t2.log| > |t1.log| ==> |t1.log| == |t.log| + 6 && NoRaise(t, 0, 6))
      && (forall j :: |t1.log| <= j < |t2.log| ==> CalibrationCmd(t2.log[j], SERVO_IDS))
      && (out.ok <==> NoRaise(t, 0, 6) && !CalibrateEach(t1, SERVO_IDS, true).2)
      && out.calibratedCount == CalibratedLocks(t2, |t1.log|, |t2.log|)
      && out.calibratedCount <= 6
  {
    AbortingCount(t, SERVO_IDS, DisableCmd);
    var (t1, _, raised1) := CountEach(t, SERVO_IDS, DisableCmd, true);
    if !raised1 {
      CalibrateEachCommands(t1, SERVO_IDS, true);
      var t2 := CalibrateEach(t1, SERVO_IDS, true).0;
      assert t2.log[..|t2.log|] == t2.log;
      CalibrateEachCount(t1, SERVO_IDS, true, t2);
    }
  }

  method QuickMiddleCalibration(handler: Handler, portOpen: bool, baudSet: bool) returns (out: Outcome)
    modifies handler
    ensures (handler.State(), out) == QuickMiddleCalibrationSpec(old(handler.State()), portOpen, baudSet)
  {
    if !portOpen || !baudSet {
      return Outcome(false, 0, 0);
    }
    var disabled, raised := CountLoop(handler, SERVO_IDS, DisableCmd, true);
    if raised {
      return Outcome(false, disabled, 0);
    }
    var calibrated;
    calibrated, raised := CalibrateLoop(handler, SERVO_IDS, true);
    out := Outcome(!raised, disabled, calibrated);
  }
}
