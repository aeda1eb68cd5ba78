/**
 * The remote-control script: a master port whose servos 1..6 are only
 * read and a slave port whose servos copy them.  After scanning both
 * ports it stops unless the master answered; otherwise it switches the
 * torque of every slave servo that answers a ping on, and then, round
 * after round, reads each master angle and writes it to the slave servo
 * with the same ID.
 */
module RemoteControl {
  import opened Wrappers
  import opened Bus
  import opened ScriptOps
  import Connection

  const SERVO_IDS: seq<int> := [1, 2, 3, 4, 5, 6]
  /** WritePosEx speed and acceleration of the slave moves. */
  const SYNC_SPEED := 3000
  const SYNC_ACC := 100

  /**
   * scan_servos pings 1..6 on the master and then on the slave; each list
   * holds, in ascending order, exactly the IDs that answered on its port.
   */
  lemma ScanServosProperties(m: Trace, s: Trace, id: int)
    requires m.online && s.online
    ensures var (m1, masterFound) := PingEach(m, SERVO_IDS);
      var (s1, slaveFound) := PingEach(s, SERVO_IDS);
      && m1 == m.(log := m.log + Connection.Pings(SERVO_IDS))
      && s1 == s.(log := s.log + Connection.Pings(SERVO_IDS))
      && Connection.StrictlyAscending(masterFound) && Connection.StrictlyAscending(slaveFound)
      && (id in masterFound <==> 1 <= id <= 6 && Succeeded(At(m, id - 1)))
      && (id in slaveFound <==> 1 <= id <= 6 && Succeeded(At(s, id - 1)))
  {
    ScanOneToSix(m, id);
    ScanOneToSix(s, id);
  }

  /** read_servo_angle: the master position when ReadPos reported COMM_SUCCESS, else None. */
  function ReadServoAngleSpec(m: Trace, id: int): (r: (Trace, Option<int>))
  {
    var (m1, reply) := Issue(m, ReadPos(id));
    (m1, if Succeeded(reply) then Some(reply.value) else None)
  }

  /**
   * read_servo_angle sends one ReadPos and returns Some(position) exactly
   * when that read reported COMM_SUCCESS; an exception gives None.
   */
  lemma ReadServoAngleProperties(m: Trace, id: int)
    ensures var (m1, angle) := ReadServoAngleSpec(m, id);
      && (m.online ==> m1.log == m.log + [ReadPos(id)])
      && (angle.Some? <==> m.online && Succeeded(At(m, 0)))
      && (angle.Some? ==> angle.value == At(m, 0).value)
  {
  }

  /** write_servo_angle: WritePosEx(id, angle, 3000, 100) on the slave; True on COMM_SUCCESS. */
  function WriteServoAngleSpec(s: Trace, id: int, angle: int): (r: (Trace, bool))
  {
    var (s1, reply) := Issue(s, MovePos(id, angle, SYNC_SPEED, SYNC_ACC, None));
    (s1, Succeeded(reply))
  }

  /** write_servo_angle sends exactly one move to the slave and is True exactly on COMM_SUCCESS. */
  lemma WriteServoAngleProperties(s: Trace, id: int, angle: int)
    ensures var (s1, ok) := WriteServoAngleSpec(s, id, angle);
      && (s.online ==> s1.log == s.log + [MovePos(id, angle, 3000, 100, None)])
      && (ok <==> s.online && Succeeded(At(s, 0)))
  {
  }

  /**
   * set_slave_torque_on: ping each ID on the slave and, when the ping
   * reported COMM_SUCCESS, write 1 at register 40; each ID has its own `try`.
   */
  function TorqueOn(s: Trace, ids: seq<int>): (r: Trace)
    ensures r.answer == s.answer && r.online == s.online && r.caps == s.caps
  {
    if ids == [] then s
    else
      var id := ids[|ids| - 1];
      var (s1, ping) := Issue(TorqueOn(s, ids[..|ids| - 1]), Ping(id));
      if Succeeded(ping) then Issue(s1, Write1(id, TORQUE_ENABLE, 1)).0 else s1
  }

  /**
   * Command j of t, at or after lo, is a ping of a listed ID or the torque
   * write for the ID whose ping, command j - 1 at or after lo, reported
   * COMM_SUCCESS.
   */
  predicate TorqueStep(t: Trace, lo: nat, j: nat, ids: seq<int>)
    requires lo <= j < |t.log|
  {
    || (t.log[j].Ping? && t.log[j].id in ids)
    || (lo < j && t.log[j - 1] == Ping(t.log[j].id) && Succeeded(t.answer(j - 1)) && t.log[j] == Write1(t.log[j].id, 40, 1))
  }

  /** t1's log is t's log followed by more commands. */
  predicate Extends(t: Trace, t1: Trace)
  {
    |t.log| <= |t1.log| && t1.log[..|t.log|] == t.log
  }

  lemma ExtendsTrans(a: Trace, b: Trace, c: Trace)
    requires Extends(a, b) && Extends(b, c)
    ensures Extends(a, c)
  {
    assert c.log[..|a.log|] == c.log[..|b.log|][..|a.log|];
  }

  /**
   * set_slave_torque_on only pings listed IDs and writes torque on; it
   * writes 1 at register 40 to an ID only right after that ID answered its
   * ping with COMM_SUCCESS, and every such ping is followed by the write.
   */
  lemma TorqueOnProperties(s: Trace, ids: seq<int>)
    requires s.online
    ensures var s1 := TorqueOn(s, ids);
      && Extends(s, s1)
      && (forall j :: |s.log| <= j < |s1.log| ==> TorqueStep(s1, |s.log|, j, ids))
      && (forall j :: |s.log| <= j < |s1.log| && s1.log[j].Ping? && Succeeded(s1.answer(j)) ==>
            j + 1 < |s1.log| && s1.log[j + 1] == Write1(s1.log[j].id, 40, 1))
  {
    TorqueOnExtends(s, ids);
    TorqueOnSteps(s, ids);
    TorqueOnWrites(s, ids);
  }

  /** One more ID: its ping, and the write when the ping succeeded, go after the earlier commands. */
  lemma TorqueOnLast(s: Trace, ids: seq<int>)
    requires s.online && ids != []
    ensures var s1 := TorqueOn(s, ids[..|ids| - 1]);
      var s3 := TorqueOn(s, ids);
      var id := ids[|ids| - 1];
      && |s1.log| < |s3.log| && s3.log[..|s1.log|] == s1.log
      && s3.log[|s1.log|] == Ping(id)
      && (Succeeded(s3.answer(|s1.log|)) ==> |s3.log| == |s1.log| + 2 && s3.log[|s1.log| + 1] == Write1(id, 40, 1))
      && (!Succeeded(s3.answer(|s1.log|)) ==> |s3.log| == |s1.log| + 1)
  {
  }

  lemma {:induction false} TorqueOnExtends(s: Trace, ids: seq<int>)
    requires s.online
    ensures Extends(s, TorqueOn(s, ids))
  {
    if ids != [] {
      var s1 := TorqueOn(s, ids[..|ids| - 1]);
      var s3 := TorqueOn(s, ids);
      TorqueOnExtends(s, ids[..|ids| - 1]);
      TorqueOnLast(s, ids);
      ExtendsTrans(s, s1, s3);
    }
  }

  lemma {:induction false} TorqueOnSteps(s: Trace, ids: seq<int>)
    requires s.online
    ensures var s1 := TorqueOn(s, ids);
      |s.log| <= |s1.log| && forall j :: |s.log| <= j < |s1.log| ==> TorqueStep(s1, |s.log|, j, ids)
  {
    TorqueOnExtends(s, ids);
    if ids != [] {
      var n := |ids| - 1;
      var init := ids[..n];
      var id := ids[n];
      TorqueOnSteps(s, init);
      TorqueOnLast(s, ids);
      var s1 := TorqueOn(s, init);
      var s3 := TorqueOn(s, ids);
      forall c | c in init ensures c in ids {
        var k :| 0 <= k < |init| && init[k] == c;
        assert ids[k] == c;
      }
      forall j | |s.log| <= j < |s3.log| ensures TorqueStep(s3, |s.log|, j, ids) {
        if j < |s1.log| {
          assert TorqueStep(s1, |s.log|, j, init);
          assert s3.log[j] == s1.log[j];
          if |s.log| < j {
            assert s3.log[j - 1] == s1.log[j - 1];
          }
        }
      }
    }
  }

  lemma {:induction false} TorqueOnWrites(s: Trace, ids: seq<int>)
    requires s.online
    ensures var s1 := TorqueOn(s, ids);
      forall j :: |s.log| <= j < |s1.log| && s1.log[j].Ping? && Succeeded(s1.answer(j)) ==>
        j + 1 < |s1.log| && s1.log[j + 1] == Write1(s1.log[j].id, 40, 1)
  {
    if ids != [] {
      var n := |ids| - 1;
      var init := ids[..n];
      TorqueOnWrites(s, init);
      TorqueOnLast(s, ids);
      var s1 := TorqueOn(s, init);
      var s3 := TorqueOn(s, ids);
      forall j | |s.log| <= j < |s3.log| && s3.log[j].Ping? && Succeeded(s3.answer(j))
        ensures j + 1 < |s3.log| && s3.log[j + 1] == Write1(s3.log[j].id, 40, 1)
      {
        if j < |s1.log| {
          assert s3.log[j] == s1.log[j];
          if j + 1 < |s1.log| {
            assert s3.log[j + 1] == s1.log[j + 1];
          }
        }
      }
    }
  }

  /**
   * The IDs of a sync round and the master's replies to its reads decide
   * the slave's commands: a move of the read angle, at speed 3000 and
   * acceleration 100, for every read that reported COMM_SUCCESS, in order.
   */
  function SyncMoves(m: Trace, ids: seq<int>): (r: seq<Cmd>)
    ensures |r| == Successes(m, |ids|)
  {
    if ids == [] then []
    else
      var n := |ids| - 1;
      var reply := At(m, n);
      SyncMoves(m, ids[..n]) + if Succeeded(reply) then [MovePos(ids[n], reply.value, SYNC_SPEED, SYNC_ACC, None)] else []
  }

  /** c moves a listed ID to the position its master read returned, at speed 3000 and acceleration 100. */
  predicate CopiesRead(m: Trace, ids: seq<int>, c: Cmd)
  {
    exists k :: 0 <= k < |ids| && Succeeded(At(m, k)) && c == MovePos(ids[k], At(m, k).value, 3000, 100, None)
  }

  /**
   * Every slave move of a sync round copies one successful master read:
   * same ID, the position that read returned, speed 3000, acceleration 100.
   */
  lemma {:induction false} SyncMovesCopyReads(m: Trace, ids: seq<int>)
    ensures forall j :: 0 <= j < |SyncMoves(m, ids)| ==> CopiesRead(m, ids, SyncMoves(m, ids)[j])
  {
    if ids != [] {
      var n := |ids| - 1;
      var init := ids[..n];
      SyncMovesCopyReads(m, init);
      var rest := SyncMoves(m, init);
      var moves := SyncMoves(m, ids);
      forall j | 0 <= j < |moves| ensures CopiesRead(m, ids, moves[j]) {
        if j < |rest| {
          assert moves[j] == rest[j];
          assert CopiesRead(m, init, rest[j]);
          var k :| 0 <= k < |init| && Succeeded(At(m, k)) && rest[j] == MovePos(init[k], At(m, k).value, 3000, 100, None);
          assert ids[k] == init[k];
        } else {
          assert Succeeded(At(m, n)) && moves == rest + [MovePos(ids[n], At(m, n).value, 3000, 100, None)];
          assert moves[j] == MovePos(ids[n], At(m, n).value, 3000, 100, None);
        }
      }
    }
  }

  /**
   * One round of the control loop: for each ID read the master angle and,
   * when there is one, write it to the slave:
   * (master, slave, sync_count).
   */
  function SyncEach(m: Trace, s: Trace, ids: seq<int>): (r: (Trace, Trace, nat))
    ensures r.0.answer == m.answer && r.0.online == m.online && r.0.caps == m.caps
    ensures r.1.answer == s.answer && r.1.online == s.online && r.1.caps == s.caps
    ensures r.2 <= |ids|
  {
    if ids == [] then (m, s, 0)
    else
      var id := ids[|ids| - 1];
      var (m1, s1, count) := SyncEach(m, s, ids[..|ids| - 1]);
      var (m2, angle) := ReadServoAngleSpec(m1, id);
      if angle.None? then (m2, s1, count)
      else
        var (s2, ok) := WriteServoAngleSpec(s1, id, angle.value);
        (m2, s2, count + if ok then 1 else 0)
  }

  /** A sync round reads every ID on the master once, in order, and sends nothing else there. */
  lemma {:induction false} SyncEachMaster(m: Trace, s: Trace, ids: seq<int>)
    requires m.online
    ensures SyncEach(m, s, ids).0 == m.(log := m.log + Cmds(k => ReadPos(k), ids))
  {
    if ids != [] {
      var n := |ids| - 1;
      var init := ids[..n];
      SyncEachMaster(m, s, init);
      var readCmds := Cmds(k => ReadPos(k), init);
      assert Cmds(k => ReadPos(k), ids) == readCmds + [ReadPos(ids[n])];
      ExtendTwice(m, readCmds, [ReadPos(ids[n])]);
    } else {
      assert m.log + Cmds(k => ReadPos(k), ids) == m.log;
    }
  }

  /**
   * In a sync round the slave receives exactly SyncMoves, and sync_count
   * is the number of those moves that reported COMM_SUCCESS.
   */
  lemma {:induction false} SyncEachSlave(m: Trace, s: Trace, ids: seq<int>)
    requires m.online && s.online
    ensures var (_, s1, count) := SyncEach(m, s, ids);
      && s1 == s.(log := s.log + SyncMoves(m, ids))
      && count == Successes(s, |SyncMoves(m, ids)|)
  {
    if ids != [] {
      var n := |ids| - 1;
      var init := ids[..n];
      var id := ids[n];
      SyncEachMaster(m, s, init);
      SyncEachSlave(m, s, init);
      var readCmds := Cmds(k => ReadPos(k), init);
      var moves := SyncMoves(m, init);
      AtShift(m, readCmds, 0);
      AtShift(s, moves, 0);
      var reply := At(m, n);
      if Succeeded(reply) {
        var move := MovePos(id, reply.value, 3000, 100, None);
        assert SyncMoves(m, ids) == moves + [move];
        ExtendTwice(s, moves, [move]);
        assert Successes(s, |moves| + 1) == Successes(s, |moves|) + if Succeeded(At(s, |moves|)) then 1 else 0;
      } else {
        assert SyncMoves(m, ids) == moves;
      }
    } else {
      assert s.log + SyncMoves(m, ids) == s.log;
    }
  }

  /**
   * A sync round reads every ID on the master once, in order, and sends
   * nothing else there; the slave receives exactly SyncMoves; sync_count is
   * the number of slave moves that reported COMM_SUCCESS, so at most the
   * number of successful master reads, which is at most the number of IDs.
   */
  lemma SyncEachProperties(m: Trace, s: Trace, ids: seq<int>)
    requires m.online && s.online
    ensures var (m1, s1, count) := SyncEach(m, s, ids);
      && m1 == m.(log := m.log + Cmds(k => ReadPos(k), ids))
      && s1 == s.(log := s.log + SyncMoves(m, ids))
      && count == Successes(s, |SyncMoves(m, ids)|)
      && count <= Successes(m, |ids|) <= |ids|
  {
    SyncEachMaster(m, s, ids);
    SyncEachSlave(m, s, ids);
  }

  /** k rounds of the control loop: (master, slave). */
  function SyncRounds(m: Trace, s: Trace, ids: seq<int>, k: nat): (r: (Trace, Trace))
    ensures r.0.answer == m.answer && r.0.online == m.online && r.0.caps == m.caps
    ensures r.1.answer == s.answer && r.1.online == s.online && r.1.caps == s.caps
  {
    if k == 0 then (m, s)
    else
      var (m1, s1) := SyncRounds(m, s, ids, k - 1);
      var (m2, s2, _) := SyncEach(m1, s1, ids);
      (m2, s2)
  }

  /** Every command after the first lo of t is a ping or a position read. */
  predicate QueriesOnly(t: Trace, lo: nat)
  {
    forall j :: lo <= j < |t.log| ==> t.log[j].Ping? || t.log[j].ReadPos?
  }

  /** However many rounds run, the master only receives position reads. */
  lemma {:induction false} SyncRoundsQueryMaster(m: Trace, s: Trace, ids: seq<int>, k: nat)
    requires m.online && s.online
    ensures var m1 := SyncRounds(m, s, ids, k).0;
      Extends(m, m1) && QueriesOnly(m1, |m.log|)
  {
    if k > 0 {
      SyncRoundsQueryMaster(m, s, ids, k - 1);
      var (m1, s1) := SyncRounds(m, s, ids, k - 1);
      SyncEachMaster(m1, s1, ids);
      var m2 := SyncRounds(m, s, ids, k).0;
      var readCmds := Cmds(i => ReadPos(i), ids);
      assert m2 == SyncEach(m1, s1, ids).0;
      assert m2.log == m1.log + readCmds;
      assert m2.log[..|m1.log|] == m1.log;
      ExtendsTrans(m, m1, m2);
      forall j | |m.log| <= j < |m2.log| ensures m2.log[j].Ping? || m2.log[j].ReadPos? {
        if j >= |m1.log| {
          assert m2.log[j] == readCmds[j - |m1.log|];
        }
      }
    }
  }

  /**
   * run: scan both ports; stop unless a master servo answered; otherwise
   * switch the slave torque on and run the given number of control
   * rounds: (master, slave, whether control started).
   */
  function RunSpec(m: Trace, s: Trace, ids: seq<int>, rounds: nat): (r: (Trace, Trace, bool))
  {
    var (m1, masterFound) := PingEach(m, ids);
    var (s1, _) := PingEach(s, ids);
    if masterFound == [] then (m1, s1, false)
    else
      var (m2, s2) := SyncRounds(m1, TorqueOn(s1, ids), ids, rounds);
      (m2, s2, true)
  }

  /**
   * Control starts exactly when some master ping reported COMM_SUCCESS;
   * when none did, each port got only its six pings.
   */
  lemma RunStarts(m: Trace, s: Trace, rounds: nat)
    requires m.online && s.online
    ensures var (m1, s1, started) := RunSpec(m, s, SERVO_IDS, rounds);
      && (started <==> exists k :: 0 <= k < 6 && Succeeded(At(m, k)))
      && (!started ==> m1.log == m.log + Connection.Pings(SERVO_IDS) && s1.log == s.log + Connection.Pings(SERVO_IDS))
  {
    PingEachLog(m, SERVO_IDS);
    PingEachLog(s, SERVO_IDS);
    var masterFound := PingEach(m, SERVO_IDS).1;
    if exists k :: 0 <= k < 6 && Succeeded(At(m, k)) {
      var k :| 0 <= k < 6 && Succeeded(At(m, k));
      PingEachFound(m, SERVO_IDS, SERVO_IDS[k]);
    } else if masterFound != [] {
      PingEachFound(m, SERVO_IDS, masterFound[0]);
      assert false;
    }
  }

  /** The master never receives a write: whatever happens it only gets the scan's pings and position reads. */
  lemma RunQueriesMaster(m: Trace, s: Trace, rounds: nat)
    requires m.online && s.online
    ensures var m1 := RunSpec(m, s, SERVO_IDS, rounds).0;
      Extends(m, m1) && QueriesOnly(m1, |m.log|)
  {
    PingEachLog(m, SERVO_IDS);
    var (m1, masterFound) := PingEach(m, SERVO_IDS);
    var pings := Connection.Pings(SERVO_IDS);
    assert m1.log[..|m.log|] == m.log;
    forall j | |m.log| <= j < |m1.log| ensures m1.log[j].Ping? {
      assert m1.log[j] == pings[j - |m.log|];
    }
    if masterFound != [] {
      var s1 := PingEach(s, SERVO_IDS).0;
      SyncRoundsQueryMaster(m1, TorqueOn(s1, SERVO_IDS), SERVO_IDS, rounds);
      var m2 := RunSpec(m, s, SERVO_IDS, rounds).0;
      ExtendsTrans(m, m1, m2);
    }
  }

  /** UltraFastRemoteControl once both ports are connected. */
  class UltraFastRemoteControl {
    const masterServo: Handler
    const slaveServo: Handler
    const servoIds: seq<int>
    const baudRate: int
    var running: bool

    /** The two ports have their own packet handlers. */
    predicate Valid()
    {
      masterServo != slaveServo
    }

    constructor (masterServo: Handler, slaveServo: Handler)
      requires masterServo != slaveServo
      ensures Valid() && this.masterServo == masterServo && this.slaveServo == slaveServo
      ensures servoIds == SERVO_IDS && baudRate == 1000000 && !running
    {
      this.masterServo := masterServo;
      this.slaveServo := slaveServo;
      servoIds := SERVO_IDS;
      baudRate := 1000000;
      running := false;
    }

    method ScanServos() returns (masterFound: seq<int>, slaveFound: seq<int>)
      requires Valid()
      modifies masterServo, slaveServo
      ensures (masterServo.State(), masterFound) == PingEach(old(masterServo.State()), servoIds)
      ensures (slaveServo.State(), slaveFound) == PingEach(old(slaveServo.State()), servoIds)
    {
      masterFound := PingLoop(masterServo, servoIds);
      slaveFound := PingLoop(slaveServo, servoIds);
    }

    method ReadServoAngle(servoId: int) returns (angle: Option<int>)
      modifies masterServo
      ensures (masterServo.State(), angle) == ReadServoAngleSpec(old(masterServo.State()), servoId)
    {
      var reply := masterServo.Send(ReadPos(servoId));
      angle := if Succeeded(reply) then Some(reply.value) else None;
    }

    method WriteServoAngle(servoId: int, angle: int) returns (ok: bool)
      modifies slaveServo
      ensures (slaveServo.State(), ok) == WriteServoAngleSpec(old(slaveServo.State()), servoId, angle)
    {
      var reply := slaveServo.Send(MovePos(servoId, angle, SYNC_SPEED, SYNC_ACC, None));
      ok := Succeeded(reply);
    }

    method SetSlaveTorqueOn()
      modifies slaveServo
      ensures slaveServo.State() == TorqueOn(old(slaveServo.State()), servoIds)
    {
      ghost var s0 := slaveServo.State();
      var i := 0;
      while i < |servoIds|
        invariant 0 <= i <= |servoIds|
        invariant slaveServo.State() == TorqueOn(s0, servoIds[..i])
      {
        var id := servoIds[i];
        var ping := slaveServo.Send(Ping(id));
        if Succeeded(ping) {
          var _ := slaveServo.Send(Write1(id, TORQUE_ENABLE, 1));
        }
        assert servoIds[..i + 1][..i] == servoIds[..i];
        i := i + 1;
      }
      assert servoIds[..i] == servoIds;
    }

    /** One round of the control loop; returns sync_count. */
    method SyncOnce() returns (syncCount: nat)
      requires Valid()
      modifies masterServo, slaveServo
      ensures (masterServo.State(), slaveServo.State(), syncCount)
           == SyncEach(old(masterServo.State()), old(slaveServo.State()), servoIds)
    {
      ghost var m0, s0 := masterServo.State(), slaveServo.State();
      syncCount := 0;
      var i := 0;
      while i < |servoIds|
        invariant 0 <= i <= |servoIds|
        invariant (masterServo.State(), slaveServo.State(), syncCount) == SyncEach(m0, s0, servoIds[..i])
      {
        var id := servoIds[i];
        var angle := ReadServoAngle(id);
        if angle.Some? {
          var ok := WriteServoAngle(id, angle.value);
          if ok {
            syncCount := syncCount + 1;
          }
        }
        assert servoIds[..i + 1][..i] == servoIds[..i];
        i := i + 1;
      }
      assert servoIds[..i] == servoIds;
    }

    /**
     * run_ultra_fast_control: torque on for the slave, then the given
     * number of rounds (the user's Ctrl+C ends the loop).
     */
    method RunUltraFastControl(rounds: nat)
      requires Valid()
      modifies this, masterServo, slaveServo
      ensures running
      ensures (masterServo.State(), slaveServo.State())
           == SyncRounds(old(masterServo.State()), TorqueOn(old(slaveServo.State()), servoIds), servoIds, rounds)
    {
      SetSlaveTorqueOn();
      running := true;
      ghost var m0, s0 := masterServo.State(), slaveServo.State();
      var k := 0;
      while k < rounds
        invariant 0 <= k <= rounds && running
        invariant (masterServo.State(), slaveServo.State()) == SyncRounds(m0, s0, servoIds, k)
      {
        var _ := SyncOnce();
        k := k + 1;
      }
    }

    /** run: scan, give up without a master servo, else control. */
    method Run(rounds: nat) returns (started: bool)
      requires Valid()
      modifies this, masterServo, slaveServo
      ensures (masterServo.State(), slaveServo.State(), started)
           == RunSpec(old(masterServo.State()), old(slaveServo.State()), servoIds, rounds)
    {
      var masterFound, slaveFound := ScanServos();
      if masterFound == [] {
        return false;
      }
      RunUltraFastControl(rounds);
      started := true;
    }
  }
}
