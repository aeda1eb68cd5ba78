/**
 * The quick centre-test script: open the port; then, inside one `try`,
 * read the positions of servos 1..6, enable their torque, move them to
 * 2047 and read them again, reporting how far each one moved.
 */
module CenterTest {
  import opened Wrappers
  import opened Bus
  import opened ScriptOps

  const SERVO_IDS: seq<int> := [1, 2, 3, 4, 5, 6]
  /** The target of the test move (one below the 2048 centre). */
  const TEST_POSITION := 2047

  /** write1ByteTxRx(id, 40, 1): torque on. */
  function EnableCmd(id: int): Cmd
  {
    Write1(id, TORQUE_ENABLE, 1)
  }

  /** WritePosEx(id, 2047, 1000, 50). */
  function MoveCmd(id: int): Cmd
  {
    MovePos(id, TEST_POSITION, 1000, 50, None)
  }

  const READ_ALL: seq<Cmd> := [ReadPos(1), ReadPos(2), ReadPos(3), ReadPos(4), ReadPos(5), ReadPos(6)]
  const ENABLE_ALL: seq<Cmd> :=
    [Write1(1, 40, 1), Write1(2, 40, 1), Write1(3, 40, 1), Write1(4, 40, 1), Write1(5, 40, 1), Write1(6, 40, 1)]
  const MOVE_ALL: seq<Cmd> :=
    [MovePos(1, 2047, 1000, 50, None), MovePos(2, 2047, 1000, 50, None), MovePos(3, 2047, 1000, 50, None),
     MovePos(4, 2047, 1000, 50, None), MovePos(5, 2047, 1000, 50, None), MovePos(6, 2047, 1000, 50, None)]

  /**
   * The final read loop: read each ID and, when the read succeeded and the
   * ID has a position from before, record final - before:
   * (trace, movements, whether a call raised).
   */
  function MovementsEach(t: Trace, ids: seq<int>, before: map<int, int>): (r: (Trace, map<int, int>, bool))
  {
    if ids == [] then (t, map[], false)
    else
      var (t1, movements, raised) := MovementsEach(t, ids[..|ids| - 1], before);
      if raised then (t1, movements, raised)
      else
        var id := ids[|ids| - 1];
        var (t2, reply) := Issue(t1, ReadPos(id));
        (t2, if Succeeded(reply) && id in before then movements[id := reply.value - before[id]] else movements,
         reply.Raised?)
  }

  /** The movement of every ID with both a before and a final position. */
  function Difference(final: map<int, int>, before: map<int, int>): (r: map<int, int>)
    ensures forall id :: id in r <==> id in final && id in before
    ensures forall id :: id in r ==> r[id] == final[id] - before[id]
  {
    map id | id in final.Keys * before.Keys :: final[id] - before[id]
  }

  /** Recording one more final position adds at most that ID's movement. */
  lemma DifferenceUpdate(final: map<int, int>, before: map<int, int>, id: int, v: int)
    ensures Difference(final[id := v], before)
         == if id in before then Difference(final, before)[id := v - before[id]] else Difference(final, before)
  {
  }

  /**
   * The final read loop is a read loop followed by taking differences: it
   * sends the same reads and records a movement exactly for the IDs whose
   * final read succeeded and that have a before position.
   */
  lemma {:induction false} MovementsAreDifferences(t: Trace, ids: seq<int>, before: map<int, int>)
    ensures var (t1, final, raised) := ReadEach(t, ids, true);
      MovementsEach(t, ids, before) == (t1, Difference(final, before), raised)
  {
    if ids != [] {
      var init := ids[..|ids| - 1];
      MovementsAreDifferences(t, init, before);
      var (t1, final, raised) := ReadEach(t, init, true);
      if !raised {
        var id := ids[|ids| - 1];
        var (t2, reply) := Issue(t1, ReadPos(id));
        if Succeeded(reply) {
          DifferenceUpdate(final, before, id, reply.value);
        }
      }
    }
  }

  /** What quick_middle_test keeps: return value, positions_before, the two counters, the movements. */
  datatype TestOutcome = TestOutcome(ok: bool, before: map<int, int>, enabledCount: nat, movedCount: nat,
                                     movements: map<int, int>)

  /**
   * quick_middle_test on a handler after the port was (or was not) opened
   * and set to 1 Mbaud; ids is the script's servo list.
   */
  function QuickMiddleTestSpec(t: Trace, ids: seq<int>, portOpen: bool, baudSet: bool): (r: (Trace, TestOutcome))
  {
    if !portOpen || !baudSet then (t, TestOutcome(false, map[], 0, 0, map[]))
    else
      var (t1, before, raised1) := ReadEach(t, ids, true);
      if raised1 then (t1, TestOutcome(false, before, 0, 0, map[]))
      else
        var (t2, enabled, raised2) := CountEach(t1, ids, EnableCmd, true);
        if raised2 then (t2, TestOutcome(false, before, enabled, 0, map[]))
        else
          var (t3, moved, raised3) := CountEach(t2, ids, MoveCmd, true);
          if raised3 then (t3, TestOutcome(false, before, enabled, moved, map[]))
          else
            var (t4, movements, raised4) := MovementsEach(t3, ids, before);
            (t4, TestOutcome(!raised4, before, enabled, moved, movements))
  }

  /**
   * A port that cannot be opened or set up sends nothing and fails.  A
   * run that returns True has read every position, enabled every servo,
   * moved every servo and read every position again, in that order and
   * with nothing else.  It returns True exactly when none of those calls
   * raised, whatever the counts.
   */
  lemma QuickMiddleTestLog(t: Trace, ids: seq<int>, portOpen: bool, baudSet: bool)
    requires t.online
    ensures var (t4, out) := QuickMiddleTestSpec(t, ids, portOpen, baudSet);
      var readCmds := Cmds(k => ReadPos(k), ids);
      && (!portOpen || !baudSet ==> t4 == t && !out.ok)
      && (portOpen && baudSet && out.ok ==>
            t4.log == t.log + readCmds + Cmds(EnableCmd, ids) + Cmds(MoveCmd, ids) + readCmds)
      && (portOpen && baudSet ==> (out.ok <==> NoRaise(t, 0, 4 * |ids|)))
  {
    if portOpen && baudSet {
      var n := |ids|;
      var readCmds := Cmds(k => ReadPos(k), ids);
      var enables := Cmds(EnableCmd, ids);
      var moves := Cmds(MoveCmd, ids);
      AbortingCount(t, ids, k => ReadPos(k));
      ReadEachTrace(t, ids, true);
      NoRaiseThen(t, readCmds, n, 3 * n, 4 * n);
      var (t1, before, raised1) := ReadEach(t, ids, true);
      var out := QuickMiddleTestSpec(t, ids, portOpen, baudSet).1;
      if raised1 {
        assert !out.ok && !NoRaise(t, 0, n);
      } else {
        assert readCmds[..n] == readCmds;
        assert t1 == t.(log := t.log + readCmds);
        AbortingCount(t1, ids, EnableCmd);
        NoRaiseThen(t1, enables, n, 2 * n, 3 * n);
        var (t2, _, raised2) := CountEach(t1, ids, EnableCmd, true);
        if raised2 {
          assert !out.ok && !NoRaise(t1, 0, n);
        } else {
          assert enables[..n] == enables;
          assert t2 == t1.(log := t1.log + enables);
          AbortingCount(t2, ids, MoveCmd);
          NoRaiseThen(t2, moves, n, n, 2 * n);
          var (t3, _, raised3) := CountEach(t2, ids, MoveCmd, true);
          if raised3 {
            assert !out.ok && !NoRaise(t2, 0, n);
          } else {
            assert moves[..n] == moves;
            assert t3 == t2.(log := t2.log + moves);
            MovementsAreDifferences(t3, ids, before);
            ReadEachTrace(t3, ids, true);
            AbortingCount(t3, ids, k => ReadPos(k));
            assert out.ok <==> NoRaise(t3, 0, n);
          }
        }
      }
    }
  }

  lemma ReadAll()
    ensures Cmds(k => ReadPos(k), SERVO_IDS) == READ_ALL
  {
  }

  lemma EnableAll()
    ensures Cmds(EnableCmd, SERVO_IDS) == ENABLE_ALL
  {
  }

  lemma MoveAll()
    ensures Cmds(MoveCmd, SERVO_IDS) == MOVE_ALL
  {
  }

  /**
   * For servos 1..6: a run that returns True has sent exactly the 24
   * commands read 1..6, enable 1..6, move 1..6 to 2047, read 1..6, and it
   * returns True exactly when none of them raised.
   */
  lemma QuickMiddleTestCommands(t: Trace)
    requires t.online
    ensures var (t4, out) := QuickMiddleTestSpec(t, SERVO_IDS, true, true);
      && (out.ok ==> t4.log == t.log + READ_ALL + ENABLE_ALL + MOVE_ALL + READ_ALL)
      && (out.ok <==> NoRaise(t, 0, 24))
  {
    QuickMiddleTestLog(t, SERVO_IDS, true, true);
    ReadAll();
    EnableAll();
    MoveAll();
  }

  /**
   * The counts of a run that returns True, for distinct IDs (as the
   * script's IDs 1..6 are): positions_before holds exactly the IDs whose
   * first read succeeded, with their positions, and enabled_count and
   * moved_count are the numbers of successful commands of their phases.
   * t1 and t2 are the handler after the first read loop and after the
   * enable loop.
   */
  lemma QuickMiddleTestCounts(t: Trace, ids: seq<int>)
    requires t.online && Distinct(ids)
    ensures var (t4, out) := QuickMiddleTestSpec(t, ids, true, true);
      var t1 := t.(log := t.log + Cmds(k => ReadPos(k), ids));
      var t2 := t1.(log := t1.log + Cmds(EnableCmd, ids));
      out.ok ==>
        && PositionsOf(t, ids, |ids|, out.before)
        && out.enabledCount == Successes(t1, |ids|)
        && out.movedCount == Successes(t2, |ids|)
  {
    var out := QuickMiddleTestSpec(t, ids, true, true).1;
    if out.ok {
      QuickMiddleTestPhases(t, ids);
      AbortingRead(t, ids);
      ReadAllOk(t, ids);
      var t1 := ReadEach(t, ids, true).0;
      AbortingCount(t1, ids, EnableCmd);
      CountAllOk(t1, ids, EnableCmd);
      var t2 := CountEach(t1, ids, EnableCmd, true).0;
      AbortingCount(t2, ids, MoveCmd);
    }
  }

  /** A run that returns True went through all three loops without an exception. */
  lemma QuickMiddleTestPhases(t: Trace, ids: seq<int>)
    ensures var (t4, out) := QuickMiddleTestSpec(t, ids, true, true);
      var (t1, before, raised1) := ReadEach(t, ids, true);
      var (t2, enabled, raised2) := CountEach(t1, ids, EnableCmd, true);
      var (t3, moved, raised3) := CountEach(t2, ids, MoveCmd, true);
      out.ok ==>
        && !raised1 && !raised2 && !raised3
        && out.before == before && out.enabledCount == enabled && out.movedCount == moved
        && out.movements == MovementsEach(t3, ids, before).1
  {
  }

  /**
   * The movements of a run that returns True, for distinct IDs (as the
   * script's IDs 1..6 are): a movement is recorded exactly for the IDs
   * whose final read succeeded and that have a before position, as
   * final - before.  t3 is the handler after the move loop.
   */
  lemma QuickMiddleTestMovements(t: Trace, ids: seq<int>)
    requires t.online && Distinct(ids)
    ensures var (t4, out) := QuickMiddleTestSpec(t, ids, true, true);
      var t1 := t.(log := t.log + Cmds(k => ReadPos(k), ids));
      var t2 := t1.(log := t1.log + Cmds(EnableCmd, ids));
      var t3 := t2.(log := t2.log + Cmds(MoveCmd, ids));
      var final := ReadEach(t3, ids, true).1;
      out.ok ==>
        && PositionsOf(t3, ids, |ids|, final)
        && out.movements == Difference(final, out.before)
  {
    var out := QuickMiddleTestSpec(t, ids, true, true).1;
    if out.ok {
      QuickMiddleTestPhases(t, ids);
      var (t1, before, raised1) := ReadEach(t, ids, true);
      ReadAllOk(t, ids);
      var t2 := CountEach(t1, ids, EnableCmd, true).0;
      CountAllOk(t1, ids, EnableCmd);
      var t3 := CountEach(t2, ids, MoveCmd, true).0;
      CountAllOk(t2, ids, MoveCmd);
      MovementsAreDifferences(t3, ids, before);
      AbortingRead(t3, ids);
    }
  }

  /** A read loop that did not raise read every ID. */
  lemma ReadAllOk(t: Trace, ids: seq<int>)
    requires t.online && Distinct(ids)
    ensures !ReadEach(t, ids, true).2 ==> ReadEach(t, ids, true).0 == t.(log := t.log + Cmds(k => ReadPos(k), ids))
  {
    AbortingRead(t, ids);
    var n := |ids|;
    assert Cmds(k => ReadPos(k), ids)[..n] == Cmds(k => ReadPos(k), ids);
  }

  /** A counting loop that did not raise sent its command to every ID. */
  lemma CountAllOk(t: Trace, ids: seq<int>, mk: int -> Cmd)
    requires t.online
    ensures !CountEach(t, ids, mk, true).2 ==> CountEach(t, ids, mk, true).0 == t.(log := t.log + Cmds(mk, ids))
  {
    AbortingCount(t, ids, mk);
    var n := |ids|;
    assert Cmds(mk, ids)[..n] == Cmds(mk, ids);
  }

  /** The final read loop on the handler. */
  method MovementLoop(handler: Handler, ids: seq<int>, before: map<int, int>) returns (movements: map<int, int>, raised: bool)
    modifies handler
    ensures (handler.State(), movements, raised) == MovementsEach(old(handler.State()), ids, before)
  {
    ghost var t0 := handler.State();
    movements, raised := map[], false;
    var i := 0;
    while i < |ids| && !raised
      invariant 0 <= i <= |ids|
      invariant (handler.State(), movements, raised) == MovementsEach(t0, ids[..i], before)
    {
      var id := ids[i];
      var reply := handler.Send(ReadPos(id));
      if Succeeded(reply) && id in before {
        movements := movements[id := reply.value - before[id]];
      }
      raised := reply.Raised?;
      assert ids[..i + 1][..i] == ids[..i];
      i := i + 1;
    }
    if i < |ids| {
      MovementsAreDifferences(t0, ids[..i], before);
      MovementsAreDifferences(t0, ids, before);
      ReadEachAfterAbort(t0, ids, i);
    } else {
      assert ids[..i] == ids;
    }
  }

  method QuickMiddleTest(handler: Handler, portOpen: bool, baudSet: bool) returns (out: TestOutcome)
    modifies handler
    ensures (handler.State(), out) == QuickMiddleTestSpec(old(handler.State()), SERVO_IDS, portOpen, baudSet)
  {
    if !portOpen || !baudSet {
      return TestOutcome(false, map[], 0, 0, map[]);
    }
    var before, raised := ReadLoop(handler, SERVO_IDS, true);
    if raised {
      return TestOutcome(false, before, 0, 0, map[]);
    }
    var enabled;
    enabled, raised := CountLoop(handler, SERVO_IDS, EnableCmd, true);
    if raised {
      return TestOutcome(false, before, enabled, 0, map[]);
    }
    var moved;
    moved, raised := CountLoop(handler, SERVO_IDS, MoveCmd, true);
    if raised {
      return TestOutcome(false, before, enabled, moved, map[]);
    }
    var movements;
    movements, raised := MovementLoop(handler, SERVO_IDS, before);
    out := TestOutcome(!raised, before, enabled, moved, movements);
  }
}
