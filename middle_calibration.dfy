/**
 * The middle-value calibrator for one port: scan servos 1..6, switch
 * their torque off, read their positions, make each servo take its
 * current position as the 2048 centre (write 128 at register 40 between an
 * EEPROM unlock and lock), and centre them again to test the calibration.
 * The user's confirmations are parameters; the calibrator talks to an SDK
 * handler that is already connected.
 */
module MiddleCalibration {
  import opened Wrappers
  import opened Bus
  import opened ScriptOps
  import Connection

  const SERVO_IDS: seq<int> := [1, 2, 3, 4, 5, 6]
  const TORQUE_ENABLE_VALUE := 1
  const TORQUE_DISABLE_VALUE := 0
  /** The centre a calibrated servo should hold. */
  const MIDDLE_POSITION := 2048

  /** write1ByteTxRx(id, 40, 0): torque off. */
  function DisableCmd(id: int): Cmd
  {
    Write1(id, TORQUE_ENABLE, TORQUE_DISABLE_VALUE)
  }

  /** Strictly ascending lists have no repeated ID. */
  lemma AscendingDistinct(s: seq<int>)
    requires Connection.StrictlyAscending(s)
    ensures Distinct(s)
  {
  }

  /**
   * disable_all_servos writes 0 at register 40 once per listed ID, in list
   * order, and returns the number of writes that reported COMM_SUCCESS.
   */
  lemma DisableAllServosProperties(t: Trace, servoList: seq<int>)
    requires t.online
    ensures var (t1, count, _) := CountEach(t, servoList, DisableCmd, false);
      && t1 == t.(log := t.log + Cmds(DisableCmd, servoList))
      && count == Successes(t, |servoList|)
      && count <= |servoList|
  {
    CountEachProperties(t, servoList, DisableCmd, false);
    CountEachCount(t, servoList, DisableCmd, false);
    assert servoList[..|servoList|] == servoList;
  }

  /**
   * read_servo_positions reads every listed ID once, in order, and for
   * distinct IDs returns exactly the IDs whose read reported COMM_SUCCESS,
   * each with the position that read returned.
   */
  lemma ReadServoPositionsProperties(t: Trace, servoList: seq<int>)
    requires t.online && Distinct(servoList)
    ensures var (t1, positions, _) := ReadEach(t, servoList, false);
      && t1 == t.(log := t.log + Cmds(k => ReadPos(k), servoList))
      && PositionsOf(t, servoList, |servoList|, positions)
  {
    ReadEachTrace(t, servoList, false);
    CountEachProperties(t, servoList, k => ReadPos(k), false);
    ReadEachPositions(t, servoList, false);
    assert servoList[..|servoList|] == servoList;
  }

  /** sorted() keeps exactly the IDs of the list. */
  lemma SortMembers(s: seq<int>)
    ensures forall x :: x in Sort(s) <==> x in s
  {
    SortProperties(s);
    forall x ensures x in Sort(s) <==> x in s {
      assert x in Sort(s) <==> x in multiset(Sort(s));
      assert x in s <==> x in multiset(s);
    }
  }

  /** The three commands of one successful calibration, for each ID in turn. */
  function CalibrationSequence(ids: seq<int>): (r: seq<Cmd>)
    ensures |r| == 3 * |ids|
    ensures forall k :: 0 <= k < |ids| ==>
      r[3 * k] == Unlock(ids[k]) && r[3 * k + 1] == Write1(ids[k], 40, 128) && r[3 * k + 2] == Lock(ids[k])
  {
    if ids == [] then []
    else
      var id := ids[|ids| - 1];
      CalibrationSequence(ids[..|ids| - 1]) + [Unlock(id), Write1(id, TORQUE_ENABLE, CALIBRATE_MIDDLE_VALUE), Lock(id)]
  }

  /**
   * When every SDK call succeeds, a calibration pass sends unlock, the
   * calibration write and lock to each ID in list order, and calibrates
   * them all.
   */
  lemma {:induction false} CalibrateEachSucceeds(t: Trace, ids: seq<int>)
    requires t.online && AllSucceeded(t, 0, 3 * |ids|)
    ensures CalibrateEach(t, ids, false) == (t.(log := t.log + CalibrationSequence(ids)), |ids|, false)
  {
    if ids != [] {
      var n := |ids| - 1;
      var init := ids[..n];
      var id := ids[n];
      CalibrateEachSucceeds(t, init);
      var t1 := t.(log := t.log + CalibrationSequence(init));
      AtShift(t, CalibrationSequence(init), 0);
      AtShift(t, CalibrationSequence(init), 1);
      AtShift(t, CalibrationSequence(init), 2);
      CalibrateMiddleProperties(t1, id);
      var tail := [Unlock(id), Write1(id, 40, 128), Lock(id)];
      assert CalibrationSequence(ids) == CalibrationSequence(init) + tail;
      ExtendTwice(t, CalibrationSequence(init), tail);
      assert CalibrateEach(t, init, false) == (t1, n, false);
      var (t3, ok, raised) := CalibrateMiddle(t1, id);
      assert ok && !raised;
      assert t3 == t.(log := t.log + CalibrationSequence(ids));
      assert CalibrateEach(t, ids, false) == (t3, n + 1, false);
    } else {
      assert t.log + CalibrationSequence(ids) == t.log;
    }
  }

  /** calibrate_middle_values: nothing when the user declines, else each ID in sorted order. */
  function CalibrateMiddleValuesSpec(t: Trace, servoList: seq<int>, confirm: bool): (r: (Trace, nat))
  {
    if !confirm then (t, 0)
    else
      var (t1, count, _) := CalibrateEach(t, Sort(servoList), false);
      (t1, count)
  }

  /**
   * A declined calibration sends nothing and returns 0.  A confirmed one
   * only appends unlocks, calibration writes and locks addressed to listed
   * IDs, and returns the number of completed calibrations it recorded,
   * at most one per listed ID; when every call succeeds it calibrates
   * every listed ID in ascending order.
   */
  lemma CalibrateMiddleValuesProperties(t: Trace, servoList: seq<int>, confirm: bool)
    requires t.online
    ensures var (t1, count) := CalibrateMiddleValuesSpec(t, servoList, confirm);
      && (!confirm ==> t1 == t && count == 0)
      && count <= |servoList|
      && |t.log| <= |t1.log| && t1.log[..|t.log|] == t.log
      && (forall j :: |t.log| <= j < |t1.log| ==> CalibrationCmd(t1.log[j], servoList))
      && (confirm ==> count == CalibratedLocks(t1, |t.log|, |t1.log|))
      && (confirm && AllSucceeded(t, 0, 3 * |servoList|) ==>
            t1.log == t.log + CalibrationSequence(Sort(servoList)) && count == |servoList|)
  {
    if confirm {
      var sorted := Sort(servoList);
      CalibrateEachCommands(t, sorted, false);
      var t1 := CalibrateEach(t, sorted, false).0;
      assert t1.log[..|t1.log|] == t1.log;
      CalibrateEachCount(t, sorted, false, t1);
      SortMembers(servoList);
      forall j | |t.log| <= j < |t1.log| ensures CalibrationCmd(t1.log[j], servoList) {
        assert CalibrationCmd(t1.log[j], sorted);
      }
      if AllSucceeded(t, 0, 3 * |servoList|) {
        CalibrateEachSucceeds(t, sorted);
      }
    }
  }

  /**
   * center_servo: enable torque, then move to 2048 at speed 1000 and
   * acceleration 50: (trace, whether the move reported COMM_SUCCESS).
   * An exception anywhere makes it return False.
   */
  function CenterServoSpec(t: Trace, id: int): (r: (Trace, bool))
    ensures r.0.answer == t.answer && r.0.online == t.online && r.0.caps == t.caps
  {
    var (t1, enable) := Issue(t, Write1(id, TORQUE_ENABLE, TORQUE_ENABLE_VALUE));
    if !Succeeded(enable) then (t1, false)
    else
      var (t2, move) := Issue(t1, MovePos(id, MIDDLE_POSITION, 1000, 50, None));
      (t2, Succeeded(move))
  }

  /**
   * A torque enable that does not succeed sends no move and fails;
   * otherwise the move follows and decides the result.
   */
  lemma CenterServoProperties(t: Trace, id: int)
    requires t.online
    ensures var (t1, ok) := CenterServoSpec(t, id);
      && (!Succeeded(At(t, 0)) ==> t1.log == t.log + [Write1(id, 40, 1)] && !ok)
      && (Succeeded(At(t, 0)) ==>
            t1.log == t.log + [Write1(id, 40, 1), MovePos(id, 2048, 1000, 50, None)]
            && (ok <==> Succeeded(At(t, 1))))
  {
    var (t1, _) := Issue(t, Write1(id, 40, 1));
    assert At(t1, 0) == At(t, 1);
  }

  /** Centre each ID in turn, each inside its own `try`, counting the successes. */
  function CenterEach(t: Trace, ids: seq<int>): (r: (Trace, nat))
    ensures r.0.answer == t.answer && r.0.online == t.online && r.0.caps == t.caps
    ensures r.1 <= |ids|
  {
    if ids == [] then (t, 0)
    else
      var (t1, count) := CenterEach(t, ids[..|ids| - 1]);
      var (t2, ok) := CenterServoSpec(t1, ids[|ids| - 1]);
      (t2, count + if ok then 1 else 0)
  }

  /** Log entry j of T is a move that answered COMM_SUCCESS. */
  predicate CentredAt(T: Trace, j: nat)
    requires j < |T.log|
  {
    T.log[j].MovePos? && Succeeded(T.answer(j))
  }

  /** The number of successful moves recorded at log entries lo..hi-1. */
  function CentredMoves(T: Trace, lo: nat, hi: nat): (r: nat)
    requires lo <= hi <= |T.log|
    ensures r <= hi - lo
    decreases hi
  {
    if hi == lo then 0 else CentredMoves(T, lo, hi - 1) + (if CentredAt(T, hi - 1) then 1 else 0)
  }

  /** One centring records one successful move exactly when it reports success. */
  lemma CenterServoCount(t: Trace, id: int, T: Trace, lo: nat)
    requires t.online && T.answer == t.answer && lo <= |t.log|
    requires var t1 := CenterServoSpec(t, id).0; |t1.log| <= |T.log| && T.log[..|t1.log|] == t1.log
    ensures var (t1, ok) := CenterServoSpec(t, id);
      && |t.log| <= |t1.log|
      && CentredMoves(T, lo, |t1.log|) == CentredMoves(T, lo, |t.log|) + (if ok then 1 else 0)
  {
    CenterServoProperties(t, id);
    var (t1, ok) := CenterServoSpec(t, id);
    var m := |t.log|;
    assert T.log[m] == t1.log[m] == Write1(id, 40, 1);
    assert CentredMoves(T, lo, m + 1) == CentredMoves(T, lo, m);
    if !Succeeded(At(t, 0)) {
      assert |t1.log| == m + 1 && !ok;
    } else {
      assert T.log[m + 1] == t1.log[m + 1] == MovePos(id, 2048, 1000, 50, None);
      assert CentredAt(T, m + 1) == ok;
      assert |t1.log| == m + 2;
    }
  }

  /**
   * The count of a centring pass is the number of its moves that answered
   * COMM_SUCCESS: one per servo whose torque enable and move succeeded.
   * T is any later trace.
   */
  lemma {:induction false} CenterEachCount(t: Trace, ids: seq<int>, T: Trace)
    requires t.online && T.answer == t.answer
    requires var t1 := CenterEach(t, ids).0; |t1.log| <= |T.log| && T.log[..|t1.log|] == t1.log
    ensures |t.log| <= |CenterEach(t, ids).0.log|
    ensures var (t1, count) := CenterEach(t, ids);
      count == CentredMoves(T, |t.log|, |t1.log|)
  {
    if ids != [] {
      var n := |ids| - 1;
      var init := ids[..n];
      var t1 := CenterEach(t, init).0;
      CenterServoProperties(t1, ids[n]);
      var t2 := CenterServoSpec(t1, ids[n]).0;
      assert T.log[..|t1.log|] == t2.log[..|t1.log|] == t1.log;
      CenterEachCount(t, init, T);
      CenterServoCount(t1, ids[n], T, |t.log|);
    }
  }

  /** A command of a centring pass over ids. */
  predicate CenterCmd(c: Cmd, ids: seq<int>)
  {
    ((c.Write1? && c.address == 40 && c.value == 1) || (c.MovePos? && c.position == 2048)) && c.id in ids
  }

  /**
   * A centring pass only extends the log, and every command it sends is a
   * torque enable or a move to 2048 addressed to a listed ID.
   */
  lemma {:induction false} CenterEachCommands(t: Trace, ids: seq<int>)
    requires t.online
    ensures var t1 := CenterEach(t, ids).0;
      && |t.log| <= |t1.log| && t1.log[..|t.log|] == t.log
      && forall j :: |t.log| <= j < |t1.log| ==> CenterCmd(t1.log[j], ids)
  {
    if ids != [] {
      var n := |ids| - 1;
      var init := ids[..n];
      CenterEachCommands(t, init);
      var t1 := CenterEach(t, init).0;
      forall c | CenterCmd(c, init) ensures CenterCmd(c, ids) {
        var k :| 0 <= k < |init| && init[k] == c.id;
        assert ids[k] == c.id;
      }
      CenterServoProperties(t1, ids[n]);
      var t2 := CenterEach(t, ids).0;
      assert t2.log[..|t1.log|] == t1.log;
      assert t2.log[..|t.log|] == t1.log[..|t.log|];
      forall j | |t1.log| <= j < |t2.log| ensures CenterCmd(t2.log[j], ids) {
        assert t2.log[j].id == ids[n];
      }
    }
  }

  /** The two commands of one successful centring, for each ID in turn. */
  function CenterSequence(ids: seq<int>): (r: seq<Cmd>)
    ensures |r| == 2 * |ids|
    ensures forall k :: 0 <= k < |ids| ==>
      r[2 * k] == Write1(ids[k], 40, 1) && r[2 * k + 1] == MovePos(ids[k], 2048, 1000, 50, None)
  {
    if ids == [] then []
    else
      var id := ids[|ids| - 1];
      CenterSequence(ids[..|ids| - 1]) + [Write1(id, TORQUE_ENABLE, TORQUE_ENABLE_VALUE), MovePos(id, MIDDLE_POSITION, 1000, 50, None)]
  }

  /**
   * When every SDK call succeeds, a centring pass enables and moves each
   * ID in list order and centres them all.
   */
  lemma {:induction false} CenterEachSucceeds(t: Trace, ids: seq<int>)
    requires t.online && AllSucceeded(t, 0, 2 * |ids|)
    ensures CenterEach(t, ids) == (t.(log := t.log + CenterSequence(ids)), |ids|)
  {
    if ids != [] {
      var n := |ids| - 1;
      var init := ids[..n];
      var id := ids[n];
      CenterEachSucceeds(t, init);
      var t1 := t.(log := t.log + CenterSequence(init));
      AtShift(t, CenterSequence(init), 0);
      AtShift(t, CenterSequence(init), 1);
      CenterServoProperties(t1, id);
      var tail := [Write1(id, 40, 1), MovePos(id, 2048, 1000, 50, None)];
      assert CenterSequence(ids) == CenterSequence(init) + tail;
      ExtendTwice(t, CenterSequence(init), tail);
    } else {
      assert t.log + CenterSequence(ids) == t.log;
    }
  }

  /** center_all_servos: nothing when the user declines, else each ID in sorted order. */
  function CenterAllServosSpec(t: Trace, servoList: seq<int>, confirm: bool): (r: (Trace, nat))
  {
    if !confirm then (t, 0) else CenterEach(t, Sort(servoList))
  }

  /**
   * A declined centring sends nothing and returns 0.  A confirmed one only
   * appends torque enables and moves to 2048 addressed to listed IDs, and
   * returns the number of its moves that succeeded, at most one per listed
   * ID; when every call succeeds it centres every listed ID in ascending
   * order.
   */
  lemma CenterAllServosProperties(t: Trace, servoList: seq<int>, confirm: bool)
    requires t.online
    ensures var (t1, count) := CenterAllServosSpec(t, servoList, confirm);
      && (!confirm ==> t1 == t && count == 0)
      && count <= |servoList|
      && |t.log| <= |t1.log| && t1.log[..|t.log|] == t.log
      && (forall j :: |t.log| <= j < |t1.log| ==> CenterCmd(t1.log[j], servoList))
      && (confirm ==> count == CentredMoves(t1, |t.log|, |t1.log|))
      && (confirm && AllSucceeded(t, 0, 2 * |servoList|) ==>
            t1.log == t.log + CenterSequence(Sort(servoList)) && count == |servoList|)
  {
    if confirm {
      var sorted := Sort(servoList);
      CenterEachCommands(t, sorted);
      SortMembers(servoList);
      var t1 := CenterEach(t, sorted).0;
      assert t1.log[..|t1.log|] == t1.log;
      CenterEachCount(t, sorted, t1);
      forall j | |t.log| <= j < |t1.log| ensures CenterCmd(t1.log[j], servoList) {
        assert CenterCmd(t1.log[j], sorted);
      }
      if AllSucceeded(t, 0, 2 * |servoList|) {
        CenterEachSucceeds(t, sorted);
      }
    }
  }

  /** MiddleValueCalibrator after connect_port succeeded. */
  class MiddleValueCalibrator {
    const servoHandler: Handler
    const servoIds: seq<int>
    const baudRate: int

    constructor (servoHandler: Handler)
      ensures this.servoHandler == servoHandler && servoIds == SERVO_IDS && baudRate == 1000000
    {
      this.servoHandler := servoHandler;
      servoIds := SERVO_IDS;
      baudRate := 1000000;
    }

    method ScanServos() returns (found: seq<int>)
      modifies servoHandler
      ensures (servoHandler.State(), found) == PingEach(old(servoHandler.State()), servoIds)
    {
      found := PingLoop(servoHandler, servoIds);
    }

    method DisableAllServos(servoList: seq<int>) returns (successCount: nat)
      modifies servoHandler
      ensures var r := CountEach(old(servoHandler.State()), servoList, DisableCmd, false);
        servoHandler.State() == r.0 && successCount == r.1
    {
      var raised;
      successCount, raised := CountLoop(servoHandler, servoList, DisableCmd, false);
    }

    method ReadServoPositions(servoList: seq<int>) returns (positions: map<int, int>)
      modifies servoHandler
      ensures var r := ReadEach(old(servoHandler.State()), servoList, false);
        servoHandler.State() == r.0 && positions == r.1
    {
      var raised;
      positions, raised := ReadLoop(servoHandler, servoList, false);
    }

    method WriteMiddleOffset(servoId: int) returns (ok: bool)
      modifies servoHandler
      ensures var r := CalibrateMiddle(old(servoHandler.State()), servoId);
        servoHandler.State() == r.0 && ok == r.1
    {
      var raised;
      ok, raised := CalibrateStep(servoHandler, servoId);
    }

    method CalibrateMiddleValues(servoList: seq<int>, confirm: bool) returns (successCount: nat)
      modifies servoHandler
      ensures (servoHandler.State(), successCount) == CalibrateMiddleValuesSpec(old(servoHandler.State()), servoList, confirm)
    {
      if !confirm {
        return 0;
      }
      ghost var t0 := servoHandler.State();
      var sorted := Sort(servoList);
      successCount := 0;
      var i := 0;
      while i < |sorted|
        invariant 0 <= i <= |sorted|
        invariant servoHandler.State() == CalibrateEach(t0, sorted[..i], false).0
        invariant successCount == CalibrateEach(t0, sorted[..i], false).1
      {
        var ok := WriteMiddleOffset(sorted[i]);
        if ok {
          successCount := successCount + 1;
        }
        assert sorted[..i + 1][..i] == sorted[..i];
        i := i + 1;
      }
      assert sorted[..i] == sorted;
    }

    method CenterServo(servoId: int) returns (ok: bool)
      modifies servoHandler
      ensures (servoHandler.State(), ok) == CenterServoSpec(old(servoHandler.State()), servoId)
    {
      var enable := servoHandler.Send(Write1(servoId, TORQUE_ENABLE, TORQUE_ENABLE_VALUE));
      if !Succeeded(enable) {
        return false;
      }
      var move := servoHandler.Send(MovePos(servoId, MIDDLE_POSITION, 1000, 50, None));
      ok := Succeeded(move);
    }

    method CenterAllServos(servoList: seq<int>, confirm: bool) returns (successCount: nat)
      modifies servoHandler
      ensures (servoHandler.State(), successCount) == CenterAllServosSpec(old(servoHandler.State()), servoList, confirm)
    {
      if !confirm {
        return 0;
      }
      ghost var t0 := servoHandler.State();
      var sorted := Sort(servoList);
      successCount := 0;
      var i := 0;
      while i < |sorted|
        invariant 0 <= i <= |sorted|
        invariant (servoHandler.State(), successCount) == CenterEach(t0, sorted[..i])
      {
        var ok := CenterServo(sorted[i]);
        if ok {
          successCount := successCount + 1;
        }
        assert sorted[..i + 1][..i] == sorted[..i];
        i := i + 1;
      }
      assert sorted[..i] == sorted;
    }
  }
}
