/**
 * The servers' EEPROM helpers: reading and writing the PID parameters and
 * the temperature limit.  Each one unlocks the EEPROM, accesses the
 * registers and locks it again, all inside one `try`.
 */
module ServerEeprom {
  import opened Wrappers
  import opened Bus
  import opened DataParser
  import opened ScriptOps
  import opened ServerCore

  // ---------------------------------------------------------------------
  // read_pid_params

  datatype Gain = PGain | IGain | DGain

  /** The params dict of read_pid_params. */
  datatype Pid = Pid(
    id: int, positionP: Option<int>, positionI: Option<int>, positionD: Option<int>,
    speedP: Option<int>, speedI: Option<int>, startupTorque: Option<int>, error: bool)

  function BlankPid(id: int): (p: Pid)
  {
    Pid(id, None, None, None, None, None, None, false)
  }

  /** The position gains and their registers, in the order of the read loop. */
  const POSITION_GAINS: seq<(int, Gain)> :=
    [(POSITION_P_ADDRESS, PGain), (POSITION_D_ADDRESS, DGain), (POSITION_I_ADDRESS, IGain)]

  function SetGain(p: Pid, g: Gain, v: int): (r: Pid)
  {
    match g
    case PGain => p.(positionP := Some(v))
    case IGain => p.(positionI := Some(v))
    case DGain => p.(positionD := Some(v))
  }

  /** The calls read_pid_params makes when nothing raises. */
  function PidReadCmds(id: int): (r: seq<Cmd>)
  {
    [Unlock(id), Read(id, POSITION_P_ADDRESS, 1), Read(id, POSITION_D_ADDRESS, 1),
     Read(id, POSITION_I_ADDRESS, 1), Read(id, SPEED_P_ADDRESS, 1), Read(id, SPEED_I_ADDRESS, 2),
     Read(id, STARTUP_TORQUE_ADDRESS, 1), Lock(id)]
  }

  /** The first n rounds of the position gain loop. */
  function GainReads(t: Trace, p: Pid, n: nat): (r: (Trace, Pid))
    requires n <= |POSITION_GAINS|
    ensures r.1.id == p.id
  {
    if n == 0 then (t, p)
    else
      var (t1, p1) := GainReads(t, p, n - 1);
      if p1.error then (t1, p1)
      else
        var (address, gain) := POSITION_GAINS[n - 1];
        var (t2, reply) := Issue(t1, Read(p.id, address, 1));
        if reply.Raised? then (t2, p1.(error := true))
        else if FirstByte(reply).Some? then (t2, SetGain(p1, gain, FirstByte(reply).value))
        else (t2, p1)
  }

  /** Speed P, the signed two-byte speed I and the startup torque. */
  function SpeedReads(t: Trace, p: Pid): (r: (Trace, Pid))
  {
    var (t1, sp) := Issue(t, Read(p.id, SPEED_P_ADDRESS, 1));
    if sp.Raised? then (t1, p.(error := true)) else
    var p1 := p.(speedP := FirstByte(sp));
    var (t2, si) := Issue(t1, Read(p.id, SPEED_I_ADDRESS, 2));
    if si.Raised? then (t2, p1.(error := true)) else
    var p2 := p1.(speedI := Signed16(si));
    var (t3, tq) := Issue(t2, Read(p.id, STARTUP_TORQUE_ADDRESS, 1));
    if tq.Raised? then (t3, p2.(error := true)) else
    (t3, p2.(startupTorque := FirstByte(tq)))
  }

  /** The six register reads between unlock and lock. */
  function PidReads(t: Trace, p: Pid): (r: (Trace, Pid))
  {
    var (t1, p1) := GainReads(t, p, 3);
    if p1.error then (t1, p1) else SpeedReads(t1, p1)
  }

  /**
   * read_pid_params: the unlock's result is not checked, only an exception
   * from it stops the reads; the lock follows the reads.
   */
  function ReadPidSpec(t: Trace, id: int): (r: (Trace, Pid))
  {
    var (t1, unlock) := Issue(t, Unlock(id));
    if unlock.Raised? then (t1, BlankPid(id).(error := true)) else
    var (t2, p) := PidReads(t1, BlankPid(id));
    if p.error then (t2, p) else
    var (t3, lock) := Issue(t2, Lock(id));
    (t3, p.(error := lock.Raised?))
  }

  /** Once a round raised, the loop is left: the later rounds never run. */
  lemma {:induction false} GainReadsAfterError(t: Trace, p: Pid, n: nat, n': nat)
    requires n <= n' <= |POSITION_GAINS| && GainReads(t, p, n).1.error
    ensures GainReads(t, p, n') == GainReads(t, p, n)
    decreases n'
  {
    if n' > n {
      GainReadsAfterError(t, p, n, n' - 1);
    }
  }

  /**
   * The first n rounds of the gain loop read 21, 22, 23 in turn, stop at
   * the first read that raises, and store each gain the first byte its own
   * read returned.
   */
  lemma GainReadsProperties(t: Trace, p: Pid, n: nat)
    requires n <= |POSITION_GAINS|
    requires t.online && !p.error && p.positionP == p.positionI == p.positionD == None
    ensures var (t1, p1) := GainReads(t, p, n);
      var m := |t1.log| - |t.log|;
      && Tried(t, PidReadCmds(p.id)[1..1 + n], t1, p1.error)
      && p1 == p.(positionP := p1.positionP, positionI := p1.positionI, positionD := p1.positionD, error := p1.error)
      && p1.positionP == Field(t, m, 0, FirstByte)
      && p1.positionD == Field(t, m, 1, FirstByte)
      && p1.positionI == Field(t, m, 2, FirstByte)
  {
    GainReadsTried(t, p, n);
    GainReadsFrame(t, p, n);
    GainReadsFields(t, p, n);
  }

  lemma {:induction false} GainReadsFrame(t: Trace, p: Pid, n: nat)
    requires n <= |POSITION_GAINS|
    ensures var p1 := GainReads(t, p, n).1;
      p1 == p.(positionP := p1.positionP, positionI := p1.positionI, positionD := p1.positionD, error := p1.error)
  {
    if n > 0 {
      GainReadsFrame(t, p, n - 1);
    }
  }

  lemma {:induction false} GainReadsTried(t: Trace, p: Pid, n: nat)
    requires n <= |POSITION_GAINS|
    requires t.online && !p.error
    ensures var (t1, p1) := GainReads(t, p, n);
      Tried(t, PidReadCmds(p.id)[1..1 + n], t1, p1.error)
  {
    var cmds := PidReadCmds(p.id)[1..1 + n];
    if n == 0 {
      TriedNone(t);
    } else {
      GainReadsTried(t, p, n - 1);
      var (t1, p1) := GainReads(t, p, n - 1);
      var init := PidReadCmds(p.id)[1..n];
      assert init + [cmds[n - 1]] == cmds;
      if p1.error {
        TriedStop(t, init, t1, [cmds[n - 1]]);
      } else {
        var c := Read(p.id, POSITION_GAINS[n - 1].0, 1);
        GainReadCmd(p.id, n - 1);
        var (t2, reply) := Issue(t1, c);
        TriedOne(t1, c);
        TriedThen(t, init, t1, [c], t2, reply.Raised?);
      }
    }
  }

  /** Round i of the gain loop reads the gain's address: the (i + 1)-th command of read_pid_params. */
  lemma GainReadCmd(id: int, i: nat)
    requires i < |POSITION_GAINS|
    ensures PidReadCmds(id)[1..2 + i][i] == Read(id, POSITION_GAINS[i].0, 1)
  {
  }

  lemma {:induction false} GainReadsFields(t: Trace, p: Pid, n: nat)
    requires n <= |POSITION_GAINS|
    requires t.online && !p.error && p.positionP == p.positionI == p.positionD == None
    ensures var (t1, p1) := GainReads(t, p, n);
      var m := |t1.log| - |t.log|;
      && p1.positionP == Field(t, m, 0, FirstByte)
      && p1.positionD == Field(t, m, 1, FirstByte)
      && p1.positionI == Field(t, m, 2, FirstByte)
  {
    GainReadsTried(t, p, n);
    if n > 0 {
      GainReadsFields(t, p, n - 1);
      GainReadsTried(t, p, n - 1);
      var (t1, p1) := GainReads(t, p, n - 1);
      if !p1.error {
        var (address, gain) := POSITION_GAINS[n - 1];
        AtShift(t, PidReadCmds(p.id)[1..n], 0);
        assert At(t1, 0) == At(t, n - 1);
      }
    }
  }

  lemma SpeedReadsProperties(t: Trace, p: Pid)
    requires t.online && !p.error && p.speedP == p.speedI == p.startupTorque == None
    ensures var (t1, p1) := SpeedReads(t, p);
      var m := |t1.log| - |t.log|;
      && Tried(t, PidReadCmds(p.id)[4..7], t1, p1.error)
      && p1 == p.(speedP := p1.speedP, speedI := p1.speedI, startupTorque := p1.startupTorque, error := p1.error)
      && p1.speedP == Field(t, m, 0, FirstByte)
      && p1.speedI == Field(t, m, 1, Signed16)
      && p1.startupTorque == Field(t, m, 2, FirstByte)
  {
    var cmds := PidReadCmds(p.id)[4..7];
    var (t1, sp) := Issue(t, cmds[0]);
    TriedOne(t, cmds[0]);
    if !sp.Raised? {
      var (t2, si) := Issue(t1, cmds[1]);
      TriedOne(t1, cmds[1]);
      TriedThen(t, [cmds[0]], t1, [cmds[1]], t2, si.Raised?);
      AtShift(t, [cmds[0]], 0);
      if !si.Raised? {
        var (t3, tq) := Issue(t2, cmds[2]);
        TriedOne(t2, cmds[2]);
        TriedThen(t, [cmds[0], cmds[1]], t2, [cmds[2]], t3, tq.Raised?);
        assert [cmds[0], cmds[1]] + [cmds[2]] == cmds;
        AtShift(t, [cmds[0], cmds[1]], 0);
      } else {
        TriedStop(t, [cmds[0], cmds[1]], t2, [cmds[2]]);
        assert [cmds[0], cmds[1]] + [cmds[2]] == cmds;
      }
    } else {
      TriedStop(t, [cmds[0]], t1, cmds[1..]);
      assert [cmds[0]] + cmds[1..] == cmds;
    }
  }

  lemma PidReadsCalls(t: Trace, p: Pid)
    requires t.online && p == BlankPid(p.id)
    ensures var (t1, p1) := PidReads(t, p);
      p1.id == p.id && Tried(t, PidReadCmds(p.id)[1..7], t1, p1.error)
  {
    var cmds := PidReadCmds(p.id)[1..7];
    GainReadsProperties(t, p, 3);
    var (t1, p1) := GainReads(t, p, 3);
    assert PidReadCmds(p.id)[1..4] == cmds[..3];
    if !p1.error {
      SpeedReadsProperties(t1, p1);
      var (t2, p2) := SpeedReads(t1, p1);
      TriedThen(t, cmds[..3], t1, PidReadCmds(p.id)[4..7], t2, p2.error);
      assert cmds[..3] + PidReadCmds(p.id)[4..7] == cmds;
    } else {
      TriedStop(t, cmds[..3], t1, cmds[3..]);
      assert cmds[..3] + cmds[3..] == cmds;
    }
  }

  lemma PidReadsFields(t: Trace, p: Pid)
    requires t.online && p == BlankPid(p.id)
    ensures var (t1, p1) := PidReads(t, p);
      var m := |t1.log| - |t.log|;
      && p1.positionP == Field(t, m, 0, FirstByte)
      && p1.positionD == Field(t, m, 1, FirstByte)
      && p1.positionI == Field(t, m, 2, FirstByte)
      && p1.speedP == Field(t, m, 3, FirstByte)
      && p1.speedI == Field(t, m, 4, Signed16)
      && p1.startupTorque == Field(t, m, 5, FirstByte)
  {
    GainReadsProperties(t, p, 3);
    var (t1, p1) := GainReads(t, p, 3);
    if !p1.error {
      SpeedReadsProperties(t1, p1);
      var (t2, p2) := SpeedReads(t1, p1);
      var cmds := PidReadCmds(p.id)[1..4];
      assert t1 == t.(log := t.log + cmds);
      var m := |t2.log| - |t1.log|;
      FieldShift(t, cmds, m, 0, FirstByte);
      FieldShift(t, cmds, m, 1, Signed16);
      FieldShift(t, cmds, m, 2, FirstByte);
    }
  }

  /**
   * read_pid_params sends unlock, the reads of 21, 22, 23, 37, 39 (two
   * bytes), 24, then lock, and stops at the first call that raises, which
   * marks the error.
   */
  lemma ReadPidCalls(t: Trace, id: int)
    requires t.online
    ensures var (t1, p) := ReadPidSpec(t, id);
      p.id == id && Tried(t, PidReadCmds(id), t1, p.error)
  {
    var cmds := PidReadCmds(id);
    var (t1, unlock) := Issue(t, Unlock(id));
    TriedOne(t, Unlock(id));
    if !unlock.Raised? {
      PidReadsCalls(t1, BlankPid(id));
      var (t2, p) := PidReads(t1, BlankPid(id));
      TriedThen(t, [Unlock(id)], t1, cmds[1..7], t2, p.error);
      assert [Unlock(id)] + cmds[1..7] == cmds[..7];
      if !p.error {
        var (t3, lock) := Issue(t2, Lock(id));
        TriedOne(t2, Lock(id));
        TriedThen(t, cmds[..7], t2, [Lock(id)], t3, lock.Raised?);
        assert cmds[..7] + [Lock(id)] == cmds;
      } else {
        TriedStop(t, cmds[..7], t2, [Lock(id)]);
        assert cmds[..7] + [Lock(id)] == cmds;
      }
    } else {
      TriedStop(t, [Unlock(id)], t1, cmds[1..]);
      assert [Unlock(id)] + cmds[1..] == cmds;
    }
  }

  /**
   * P, D and I come from 21, 22 and 23, speed P from 37, speed I is the
   * signed value of the two bytes at 39, the startup torque comes from 24,
   * and each field is empty when its own read failed, raised or never
   * happened.  (The m calls sent are those ReadPidCalls describes.)
   */
  lemma ReadPidFields(t: Trace, id: int)
    requires t.online
    ensures var (t1, p) := ReadPidSpec(t, id);
      var m := |t1.log| - |t.log|;
      && p.positionP == Field(t, m, 1, FirstByte)
      && p.positionD == Field(t, m, 2, FirstByte)
      && p.positionI == Field(t, m, 3, FirstByte)
      && p.speedP == Field(t, m, 4, FirstByte)
      && p.speedI == Field(t, m, 5, Signed16)
      && p.startupTorque == Field(t, m, 6, FirstByte)
  {
    var (t1, unlock) := Issue(t, Unlock(id));
    if !unlock.Raised? {
      PidReadsCalls(t1, BlankPid(id));
      PidReadsFields(t1, BlankPid(id));
      var (t2, p) := PidReads(t1, BlankPid(id));
      var m := |t2.log| - |t1.log|;
      var (t3, p3) := ReadPidSpec(t, id);
      var m' := |t3.log| - |t.log|;
      assert p3 == p.(error := p3.error);
      assert m' == (if p.error then m + 1 else m + 2) && m <= 6;
      FieldShift(t, [Unlock(id)], m' - 1, 0, FirstByte);
      FieldShift(t, [Unlock(id)], m' - 1, 1, FirstByte);
      FieldShift(t, [Unlock(id)], m' - 1, 2, FirstByte);
      FieldShift(t, [Unlock(id)], m' - 1, 3, FirstByte);
      FieldShift(t, [Unlock(id)], m' - 1, 4, Signed16);
      FieldShift(t, [Unlock(id)], m' - 1, 5, FirstByte);
    }
  }


  // ---------------------------------------------------------------------
  // write_pid_params

  /**
   * Speed I as the two bytes write_pid_params sends to address 39: a
   * negative value has 65536 added, then comes `& 0xFF` and `(>> 8) & 0xFF`
   * (Python's `&` and `>>` on an int are Euclidean mod and floor division
   * here, also for a value still negative after the addition).
   */
  function SpeedIBytes(i: int): (r: seq<int>)
    ensures |r| == 2 && 0 <= r[0] < 256 && 0 <= r[1] < 256
  {
    var u := if i < 0 then i + 65536 else i;
    [u % 256, (u / 256) % 256]
  }

  /** The two bytes hold speed I modulo 65536, so a signed 16-bit value reads back as itself. */
  lemma SpeedIRoundTrip(i: int)
    ensures var b := SpeedIBytes(i);
      && SignedWord(b[0], b[1]) % 65536 == i % 65536
      && (-32768 <= i < 32768 ==> SignedWord(b[0], b[1]) == i)
  {
    var b := SpeedIBytes(i);
    var u := if i < 0 then i + 65536 else i;
    assert Unsigned([b[0], b[1]]) == b[0] + 256 * b[1] by {
      assert [b[0], b[1]][1..][1..] == [];
    }
    assert b[0] + 256 * b[1] == u % 65536;
  }

  /** The writes for position_pid = (p, i, d): P to 21, D to 22, I to 23; none unless there are three. */
  function PositionWrites(id: int, pid: seq<int>): (r: seq<Cmd>)
  {
    if |pid| == 3 then
      [Write(id, POSITION_P_ADDRESS, 1, [pid[0]]), Write(id, POSITION_D_ADDRESS, 1, [pid[2]]),
       Write(id, POSITION_I_ADDRESS, 1, [pid[1]])]
    else []
  }

  /** The writes for speed_pid = (p, i): P to 37, the two bytes of I to 39; none unless there are two. */
  function SpeedWrites(id: int, pid: seq<int>): (r: seq<Cmd>)
  {
    if |pid| == 2 then
      [Write(id, SPEED_P_ADDRESS, 1, [pid[0]]), Write(id, SPEED_I_ADDRESS, 2, SpeedIBytes(pid[1]))]
    else []
  }

  /** The write of startup_torque to 24, when one is given. */
  function TorqueWrites(id: int, torque: Option<int>): (r: seq<Cmd>)
  {
    if torque.Some? then [Write(id, STARTUP_TORQUE_ADDRESS, 1, [torque.value])] else []
  }

  /** Every write write_pid_params attempts, in order. */
  function PidWrites(id: int, positionPid: seq<int>, speedPid: seq<int>, torque: Option<int>): (r: seq<Cmd>)
  {
    PositionWrites(id, positionPid) + SpeedWrites(id, speedPid) + TorqueWrites(id, torque)
  }

  /**
   * Writes made one after another inside the `try`, folding their results
   * into the success flag: (trace, flag, whether one raised).
   */
  function Writes(t: Trace, cmds: seq<Cmd>, success: bool): (r: (Trace, bool, bool))
    decreases |cmds|
  {
    if cmds == [] then (t, success, false)
    else
      var (t1, reply) := Issue(t, cmds[0]);
      if reply.Raised? then (t1, false, true)
      else Writes(t1, cmds[1..], success && Succeeded(reply))
  }

  /**
   * write_pid_params (whose lists are given as sequences, None as the
   * empty one): an unlock that does not report success ends it before any
   * write; the lock's own result is not checked.
   */
  function WritePidSpec(t: Trace, id: int, positionPid: seq<int>, speedPid: seq<int>, torque: Option<int>): (r: (Trace, (bool, Note)))
  {
    var (t1, unlock) := Issue(t, Unlock(id));
    if unlock.Raised? then (t1, (false, Exception))
    else if unlock.result != 0 then (t1, (false, UnlockFailed))
    else
      var (t2, success, raised) := Writes(t1, PidWrites(id, positionPid, speedPid, torque), true);
      if raised then (t2, (false, Exception)) else
      var (t3, lock) := Issue(t2, Lock(id));
      if lock.Raised? then (t3, (false, Exception)) else (t3, (success, Quiet))
  }

  /**
   * The writes are sent in order up to the first that raises; when none
   * raises, the flag ends up true exactly when it started true and every
   * write reported success.
   */
  lemma {:induction false} WritesProperties(t: Trace, cmds: seq<Cmd>, success: bool)
    requires t.online
    ensures var (t1, ok, raised) := Writes(t, cmds, success);
      && Tried(t, cmds, t1, raised)
      && (!raised ==> (ok <==> success && AllSucceeded(t, 0, |cmds|)))
    decreases |cmds|
  {
    if cmds == [] {
      TriedNone(t);
    } else {
      var (t1, reply) := Issue(t, cmds[0]);
      TriedOne(t, cmds[0]);
      if reply.Raised? {
        TriedStop(t, [cmds[0]], t1, cmds[1..]);
        assert [cmds[0]] + cmds[1..] == cmds;
      } else {
        WritesProperties(t1, cmds[1..], success && Succeeded(reply));
        var (t2, ok, raised) := Writes(t1, cmds[1..], success && Succeeded(reply));
        TriedThen(t, [cmds[0]], t1, cmds[1..], t2, raised);
        assert [cmds[0]] + cmds[1..] == cmds;
        AllSucceededShift(t, [cmds[0]], 0, |cmds| - 1);
      }
    }
  }

  /** Writes in two runs: the second run starts from the first one's flag, unless the first one raised. */
  lemma {:induction false} WritesConcat(t: Trace, a: seq<Cmd>, b: seq<Cmd>, success: bool)
    ensures Writes(t, a + b, success) ==
      var (t1, ok, raised) := Writes(t, a, success);
      if raised then (t1, ok, raised) else Writes(t1, b, ok)
    decreases |a|
  {
    if a == [] {
      assert a + b == b;
    } else {
      assert (a + b)[0] == a[0] && (a + b)[1..] == a[1..] + b;
      var (t1, reply) := Issue(t, a[0]);
      if !reply.Raised? {
        WritesConcat(t1, a[1..], b, success && Succeeded(reply));
      }
    }
  }

  /** The calls write_pid_params makes when the unlock succeeds and nothing raises. */
  function WritePidCmds(id: int, positionPid: seq<int>, speedPid: seq<int>, torque: Option<int>): (r: seq<Cmd>)
  {
    [Unlock(id)] + PidWrites(id, positionPid, speedPid, torque) + [Lock(id)]
  }

  /**
   * write_pid_params: an unlock that returns a non-zero result sends
   * nothing more and reports the unlock failure; otherwise the unlock,
   * every supplied write and the lock are sent in order up to the first
   * call that raises, which is reported as an exception.
   */
  lemma WritePidCalls(t: Trace, id: int, positionPid: seq<int>, speedPid: seq<int>, torque: Option<int>)
    requires t.online
    ensures var (t1, (ok, note)) := WritePidSpec(t, id, positionPid, speedPid, torque);
      && (note == UnlockFailed <==> At(t, 0).Done? && At(t, 0).result != 0)
      && (note == UnlockFailed ==> t1 == t.(log := t.log + [Unlock(id)]) && !ok)
      && (note != UnlockFailed ==> Tried(t, WritePidCmds(id, positionPid, speedPid, torque), t1, note == Exception))
      && note != DeviceReported
  {
    var w := PidWrites(id, positionPid, speedPid, torque);
    var cmds := WritePidCmds(id, positionPid, speedPid, torque);
    var (t1, unlock) := Issue(t, Unlock(id));
    TriedOne(t, Unlock(id));
    if unlock.Raised? {
      TriedStop(t, [Unlock(id)], t1, w + [Lock(id)]);
      assert [Unlock(id)] + (w + [Lock(id)]) == cmds;
    } else if unlock.result == 0 {
      WritesProperties(t1, w, true);
      var (t2, success, raised) := Writes(t1, w, true);
      TriedThen(t, [Unlock(id)], t1, w, t2, raised);
      if raised {
        TriedStop(t, [Unlock(id)] + w, t2, [Lock(id)]);
      } else {
        var (t3, lock) := Issue(t2, Lock(id));
        TriedOne(t2, Lock(id));
        TriedThen(t, [Unlock(id)] + w, t2, [Lock(id)], t3, lock.Raised?);
      }
    }
  }

  /**
   * The answer of write_pid_params is a success exactly when the unlock
   * succeeded, nothing raised and every supplied write reported success,
   * whatever the lock returned.
   */
  lemma WritePidResult(t: Trace, id: int, positionPid: seq<int>, speedPid: seq<int>, torque: Option<int>)
    requires t.online
    ensures var (t1, (ok, note)) := WritePidSpec(t, id, positionPid, speedPid, torque);
      ok <==> note == Quiet && AllSucceeded(t, 1, 1 + |PidWrites(id, positionPid, speedPid, torque)|)
  {
    var w := PidWrites(id, positionPid, speedPid, torque);
    var (t1, unlock) := Issue(t, Unlock(id));
    if Succeeded(unlock) {
      WritesProperties(t1, w, true);
      AllSucceededShift(t, [Unlock(id)], 0, |w|);
    }
  }

  /** A servo's register file, as the value each address holds. */
  type Registers = int -> int

  /** The registers after data is written from address on. */
  function Poke(regs: Registers, address: int, data: seq<int>): (r: Registers)
    ensures forall a :: address <= a < address + |data| ==> r(a) == data[a - address]
    ensures forall a :: !(address <= a < address + |data|) ==> r(a) == regs(a)
  {
    a => if address <= a < address + |data| then data[a - address] else regs(a)
  }

  /** The registers after one call: a write stores its data, any other call changes nothing. */
  function Effect(regs: Registers, c: Cmd): (r: Registers)
  {
    match c
    case Write(_, address, _, data) => Poke(regs, address, data)
    case _ => regs
  }

  /** The registers after the writes among cmds take effect, in order. */
  function Apply(regs: Registers, cmds: seq<Cmd>): (r: Registers)
    decreases |cmds|
  {
    if cmds == [] then regs else Apply(Effect(regs, cmds[0]), cmds[1..])
  }

  lemma {:induction false} ApplyConcat(regs: Registers, a: seq<Cmd>, b: seq<Cmd>)
    ensures Apply(regs, a + b) == Apply(Apply(regs, a), b)
    decreases |a|
  {
    if a == [] {
      assert a + b == b;
    } else {
      assert (a + b)[0] == a[0] && (a + b)[1..] == a[1..] + b;
      ApplyConcat(Effect(regs, a[0]), a[1..], b);
    }
  }

  /** The gain of the given kind in position_pid = (p, i, d). */
  function GainIn(pid: seq<int>, g: Gain): (v: int)
    requires |pid| == 3
  {
    match g
    case PGain => pid[0]
    case IGain => pid[1]
    case DGain => pid[2]
  }

  /** Written this way, each register the read loop labels with a gain gets that gain from (p, i, d). */
  lemma PositionWritesStore(regs: Registers, id: int, pid: seq<int>)
    ensures var r := Apply(regs, PositionWrites(id, pid));
      && (|pid| == 3 ==> forall j :: 0 <= j < |POSITION_GAINS| ==> r(POSITION_GAINS[j].0) == GainIn(pid, POSITION_GAINS[j].1))
      && (forall a :: (|pid| != 3 || a < POSITION_P_ADDRESS || a > POSITION_I_ADDRESS) ==> r(a) == regs(a))
  {
    if |pid| == 3 {
      var w := PositionWrites(id, pid);
      var r1 := Poke(regs, POSITION_P_ADDRESS, [pid[0]]);
      var r2 := Poke(r1, POSITION_D_ADDRESS, [pid[2]]);
      var r3 := Poke(r2, POSITION_I_ADDRESS, [pid[1]]);
      assert w[1..][1..][1..] == [];
      assert Apply(regs, w) == Apply(r1, w[1..]) == Apply(r2, w[1..][1..]) == Apply(r3, []);
    }
  }

  lemma SpeedWritesStore(regs: Registers, id: int, pid: seq<int>)
    ensures var r := Apply(regs, SpeedWrites(id, pid));
      && (|pid| == 2 ==>
            && r(SPEED_P_ADDRESS) == pid[0]
            && 0 <= r(SPEED_I_ADDRESS) < 256 && 0 <= r(SPEED_I_ADDRESS + 1) < 256
            && SignedWord(r(SPEED_I_ADDRESS), r(SPEED_I_ADDRESS + 1)) % 65536 == pid[1] % 65536
            && (-32768 <= pid[1] < 32768 ==> SignedWord(r(SPEED_I_ADDRESS), r(SPEED_I_ADDRESS + 1)) == pid[1]))
      && (forall a :: (|pid| != 2 || (a != SPEED_P_ADDRESS && a != SPEED_I_ADDRESS && a != SPEED_I_ADDRESS + 1)) ==> r(a) == regs(a))
  {
    if |pid| == 2 {
      var w := SpeedWrites(id, pid);
      var b := SpeedIBytes(pid[1]);
      var r1 := Poke(regs, SPEED_P_ADDRESS, [pid[0]]);
      var r2 := Poke(r1, SPEED_I_ADDRESS, b);
      assert w[1..][1..] == [];
      assert Apply(regs, w) == Apply(r1, w[1..]) == Apply(r2, []);
      SpeedIRoundTrip(pid[1]);
    }
  }

  /**
   * What write_pid_params writes lands where read_pid_params reads it:
   * P, I and D in the registers the read loop labels with them, speed P at
   * 37, speed I as a signed 16-bit value (modulo 65536) at 39 and 40, the
   * startup torque at 24; a group that is not supplied, and every other
   * register, keeps its value.
   */
  lemma WritePidStore(regs: Registers, id: int, positionPid: seq<int>, speedPid: seq<int>, torque: Option<int>)
    ensures var r := Apply(regs, PidWrites(id, positionPid, speedPid, torque));
      && (|positionPid| == 3 ==> forall j :: 0 <= j < |POSITION_GAINS| ==> r(POSITION_GAINS[j].0) == GainIn(positionPid, POSITION_GAINS[j].1))
      && (|speedPid| == 2 ==>
            && r(SPEED_P_ADDRESS) == speedPid[0]
            && 0 <= r(SPEED_I_ADDRESS) < 256 && 0 <= r(SPEED_I_ADDRESS + 1) < 256
            && SignedWord(r(SPEED_I_ADDRESS), r(SPEED_I_ADDRESS + 1)) % 65536 == speedPid[1] % 65536)
      && (torque.Some? ==> r(STARTUP_TORQUE_ADDRESS) == torque.value)
      && (forall a ::
            && (|positionPid| != 3 || a < POSITION_P_ADDRESS || a > POSITION_I_ADDRESS)
            && (|speedPid| != 2 || (a != SPEED_P_ADDRESS && a != SPEED_I_ADDRESS && a != SPEED_I_ADDRESS + 1))
            && (torque.None? || a != STARTUP_TORQUE_ADDRESS)
            ==> r(a) == regs(a))
  {
    var p := PositionWrites(id, positionPid);
    var s := SpeedWrites(id, speedPid);
    var q := TorqueWrites(id, torque);
    ApplyConcat(regs, p + s, q);
    ApplyConcat(regs, p, s);
    PositionWritesStore(regs, id, positionPid);
    var r1 := Apply(regs, p);
    SpeedWritesStore(r1, id, speedPid);
    var r2 := Apply(r1, s);
    if torque.Some? {
      assert Apply(r2, q) == Poke(r2, STARTUP_TORQUE_ADDRESS, [torque.value]);
    }
  }

  // ---------------------------------------------------------------------
  // read_temperature_limit and write_temperature_limit

  /** The three calls each temperature helper makes around its one access to address 13. */
  function TempLimitCmds(id: int, access: Cmd): (r: seq<Cmd>)
  {
    [Unlock(id), access, Lock(id)]
  }

  /**
   * read_temperature_limit: (limit, success, note).  The byte is read
   * before the lock, but only returned once the lock did not raise.
   */
  function ReadTempLimitSpec(t: Trace, id: int): (r: (Trace, (Option<int>, bool, Note)))
  {
    var (t1, unlock) := Issue(t, Unlock(id));
    if unlock.Raised? then (t1, (None, false, Exception))
    else if unlock.result != 0 then (t1, (None, false, UnlockFailed))
    else
      var (t2, reply) := Issue(t1, Read(id, TEMPERATURE_LIMIT_ADDRESS, 1));
      if reply.Raised? then (t2, (None, false, Exception)) else
      var (t3, lock) := Issue(t2, Lock(id));
      if lock.Raised? then (t3, (None, false, Exception))
      else if FirstByte(reply).Some? then (t3, (FirstByte(reply), true, Quiet))
      else (t3, (None, false, DeviceReported))
  }

  /** write_temperature_limit: (result == 0, note); the limit is sent as given. */
  function WriteTempLimitSpec(t: Trace, id: int, limit: int): (r: (Trace, (bool, Note)))
  {
    var (t1, unlock) := Issue(t, Unlock(id));
    if unlock.Raised? then (t1, (false, Exception))
    else if unlock.result != 0 then (t1, (false, UnlockFailed))
    else
      var (t2, reply) := Issue(t1, Write(id, TEMPERATURE_LIMIT_ADDRESS, 1, [limit]));
      if reply.Raised? then (t2, (false, Exception)) else
      var (t3, lock) := Issue(t2, Lock(id));
      if lock.Raised? then (t3, (false, Exception)) else (t3, (Succeeded(reply), DeviceReported))
  }

  /** Unlock, one access, lock: sent in order up to the first call that raises. */
  lemma TempLimitCalls(t: Trace, id: int, access: Cmd)
    requires t.online
    ensures var (t1, unlock) := Issue(t, Unlock(id));
      var (t2, reply) := Issue(t1, access);
      var (t3, lock) := Issue(t2, Lock(id));
      var cmds := TempLimitCmds(id, access);
      && (unlock.Raised? ==> Tried(t, cmds, t1, true))
      && (Succeeded(unlock) && reply.Raised? ==> Tried(t, cmds, t2, true))
      && (Succeeded(unlock) && !reply.Raised? ==> Tried(t, cmds, t3, lock.Raised?))
  {
    var cmds := TempLimitCmds(id, access);
    var (t1, unlock) := Issue(t, Unlock(id));
    TriedOne(t, Unlock(id));
    if unlock.Raised? {
      TriedStop(t, [Unlock(id)], t1, cmds[1..]);
      assert [Unlock(id)] + cmds[1..] == cmds;
    }
    var (t2, reply) := Issue(t1, access);
    TriedOne(t1, access);
    if !unlock.Raised? {
      TriedThen(t, [Unlock(id)], t1, [access], t2, reply.Raised?);
      if reply.Raised? {
        TriedStop(t, [Unlock(id), access], t2, [Lock(id)]);
      } else {
        var (t3, lock) := Issue(t2, Lock(id));
        TriedOne(t2, Lock(id));
        TriedThen(t, [Unlock(id), access], t2, [Lock(id)], t3, lock.Raised?);
      }
    }
  }

  /**
   * read_temperature_limit: an unlock that returns a non-zero result sends
   * nothing more; otherwise the read of address 13 and the lock follow up
   * to the first call that raises, and a limit is returned, with success,
   * exactly when nothing raised and the read reported success with at
   * least one byte, and it is that byte.
   */
  lemma ReadTempLimitProperties(t: Trace, id: int)
    requires t.online
    ensures var (t1, (limit, ok, note)) := ReadTempLimitSpec(t, id);
      && (note == UnlockFailed <==> At(t, 0).Done? && At(t, 0).result != 0)
      && (note == UnlockFailed ==> t1 == t.(log := t.log + [Unlock(id)]))
      && (note != UnlockFailed ==> Tried(t, TempLimitCmds(id, Read(id, TEMPERATURE_LIMIT_ADDRESS, 1)), t1, note == Exception))
      && (ok <==> limit.Some?)
      && (ok <==> Succeeded(At(t, 0)) && FirstByte(At(t, 1)).Some? && !At(t, 2).Raised?)
      && (ok ==> limit == FirstByte(At(t, 1)) && note == Quiet)
  {
    TempLimitCalls(t, id, Read(id, TEMPERATURE_LIMIT_ADDRESS, 1));
    var (t1, unlock) := Issue(t, Unlock(id));
    var (t2, reply) := Issue(t1, Read(id, TEMPERATURE_LIMIT_ADDRESS, 1));
    AtShift(t, [Unlock(id)], 0);
    AtShift(t, [Unlock(id), Read(id, TEMPERATURE_LIMIT_ADDRESS, 1)], 0);
  }

  /**
   * write_temperature_limit: an unlock that returns a non-zero result sends
   * nothing more; otherwise the limit, whatever its value, is written as
   * one byte to address 13 and the lock follows, up to the first call that
   * raises, and success means nothing raised and the write reported
   * success.
   */
  lemma WriteTempLimitProperties(t: Trace, id: int, limit: int)
    requires t.online
    ensures var (t1, (ok, note)) := WriteTempLimitSpec(t, id, limit);
      && (note == UnlockFailed <==> At(t, 0).Done? && At(t, 0).result != 0)
      && (note == UnlockFailed ==> t1 == t.(log := t.log + [Unlock(id)]))
      && (note != UnlockFailed ==> Tried(t, TempLimitCmds(id, Write(id, TEMPERATURE_LIMIT_ADDRESS, 1, [limit])), t1, note == Exception))
      && (ok <==> Succeeded(At(t, 0)) && Succeeded(At(t, 1)) && !At(t, 2).Raised?)
      && (ok ==> note == DeviceReported)
  {
    TempLimitCalls(t, id, Write(id, TEMPERATURE_LIMIT_ADDRESS, 1, [limit]));
    var (t1, unlock) := Issue(t, Unlock(id));
    var (t2, reply) := Issue(t1, Write(id, TEMPERATURE_LIMIT_ADDRESS, 1, [limit]));
    AtShift(t, [Unlock(id)], 0);
    AtShift(t, [Unlock(id), Write(id, TEMPERATURE_LIMIT_ADDRESS, 1, [limit])], 0);
  }

  // ---------------------------------------------------------------------
  // Demo mode

  /**
   * Without hardware (connect_hardware failed and the server carries on)
   * there is no packet handler: every helper's first SDK call raises inside
   * its `try`, nothing is sent, and each helper returns its exception
   * result.
   */
  lemma ServerOffline(t: Trace, id: int, address: int, length: int, d: WriteData,
                      positionPid: seq<int>, speedPid: seq<int>, torque: Option<int>, limit: int)
    requires !t.online
    ensures StatusSpec(t, id) == (t, Blank(id).(error := true))
    ensures FirmwareSpec(t, id) == (t, BlankFirmware(id).(error := true))
    ensures ServerCore.ReadMemorySpec(t, id, address, length) == (t, ([], -1, Exception))
    ensures ServerCore.WriteMemorySpec(t, id, address, d) == (t, (false, Exception))
    ensures ReadPidSpec(t, id) == (t, BlankPid(id).(error := true))
    ensures WritePidSpec(t, id, positionPid, speedPid, torque) == (t, (false, Exception))
    ensures ReadTempLimitSpec(t, id) == (t, (None, false, Exception))
    ensures WriteTempLimitSpec(t, id, limit) == (t, (false, Exception))
  {
  }
}
