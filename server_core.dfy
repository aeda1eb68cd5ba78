/**
 * The synchronous servo helpers shared, line for line, by the two WebSocket
 * servers (the Seeed RoboCore Studio server and the final FTServo web
 * server): scanning, the status and firmware snapshots, raw memory access,
 * the PID parameters and the temperature limit.  Each helper runs its SDK
 * calls one after another inside one `try`, so the first call that raises
 * ends it; the functions below follow that code step by step, and the
 * lemmas describe what each one sends and reports in terms of the servo's
 * answers.
 */
module ServerCore {
  import opened Wrappers
  import opened Bus
  import opened DataParser
  import opened ScriptOps

  // Register addresses the servers use (they differ from the memory map's).
  const FW_MAJOR_ADDRESS := 0
  const FW_MINOR_ADDRESS := 1
  const FW_PATCH_ADDRESS := 3
  const HW_VERSION_ADDRESS := 4
  const TEMPERATURE_LIMIT_ADDRESS := 13
  const POSITION_P_ADDRESS := 21
  const POSITION_D_ADDRESS := 22
  const POSITION_I_ADDRESS := 23
  const STARTUP_TORQUE_ADDRESS := 24
  const SPEED_P_ADDRESS := 37
  const SPEED_I_ADDRESS := 39
  const VOLTAGE_ADDRESS := 62
  const TEMPERATURE_ADDRESS := 63
  const CURRENT_ADDRESS := 65

  /**
   * Calls made one after another inside one `try`: t1 extends t by the
   * first m of cmds, where the calls before the last one sent did not
   * raise, and either the last one sent raised or all of cmds were sent.
   */
  ghost predicate Tried(t: Trace, cmds: seq<Cmd>, t1: Trace, raised: bool)
  {
    && |t.log| <= |t1.log| <= |t.log| + |cmds|
    && t1 == t.(log := t.log + cmds[..|t1.log| - |t.log|])
    && (forall k :: 0 <= k < |t1.log| - |t.log| - 1 ==> !At(t, k).Raised?)
    && (raised <==> |t1.log| > |t.log| && At(t, |t1.log| - |t.log| - 1).Raised?)
    && (!raised ==> |t1.log| == |t.log| + |cmds|)
  }

  lemma TriedNone(t: Trace)
    ensures Tried(t, [], t, false)
  {
    assert t.log + [] == t.log;
  }

  lemma TriedOne(t: Trace, c: Cmd)
    requires t.online
    ensures Tried(t, [c], Issue(t, c).0, Issue(t, c).1.Raised?)
  {
    assert [c][..1] == [c];
  }

  /** Calls that did not raise, followed by more calls. */
  lemma TriedThen(t: Trace, a: seq<Cmd>, t1: Trace, b: seq<Cmd>, t2: Trace, raised: bool)
    requires Tried(t, a, t1, false) && Tried(t1, b, t2, raised)
    ensures Tried(t, a + b, t2, raised)
  {
    var n := |t2.log| - |t1.log|;
    assert t2.log == t.log + a + b[..n];
    assert (a + b)[..|a| + n] == a + b[..n];
    forall k | 0 <= k < |a| + n - 1 ensures !At(t, k).Raised? {
      if k >= |a| {
        assert At(t1, k - |a|) == At(t, k);
      }
    }
    if n > 0 {
      assert At(t1, n - 1) == At(t, |a| + n - 1);
    }
  }

  /** A raise ends the sequence: the calls after it are never made. */
  lemma TriedStop(t: Trace, a: seq<Cmd>, t1: Trace, b: seq<Cmd>)
    requires Tried(t, a, t1, true)
    ensures Tried(t, a + b, t1, true)
  {
    var m := |t1.log| - |t.log|;
    assert (a + b)[..m] == a[..m];
  }

  /** `data[0]` when the read reported success and returned at least one byte. */
  function FirstByte(r: Reply): (v: Option<int>)
    ensures v.Some? <==> Succeeded(r) && |r.data| > 0
    ensures v.Some? ==> v.value == r.data[0] && 0 <= v.value < 256
  {
    if Succeeded(r) && |r.data| > 0 then Some(r.data[0]) else None
  }

  /**
   * `lo | (hi << 8)`, minus 65536 from 32768 on, when the read reported
   * success and returned at least two bytes: the signed little-endian
   * decoding of the first two bytes.
   */
  function Signed16(r: Reply): (v: Option<int>)
    ensures v.Some? <==> Succeeded(r) && |r.data| >= 2
    ensures v.Some? ==> v.value == BytesToInt(r.data[..2], true) && -32768 <= v.value < 32768
  {
    if Succeeded(r) && |r.data| >= 2 then
      assert r.data[..2] == [r.data[0], r.data[1]];
      Some(SignedWord(r.data[0], r.data[1]))
    else None
  }

  /** `lo | (hi << 8)`, minus 65536 from 32768 on. */
  function SignedWord(lo: Byte, hi: Byte): (v: int)
    ensures -32768 <= v < 32768
    ensures v == BytesToInt([lo, hi], true)
  {
    assert Unsigned([lo, hi]) == lo + 256 * hi by {
      assert [lo, hi][1..][1..] == [];
    }
    var u: int := lo + 256 * hi;
    if u >= 32768 then u - 65536 else u
  }

  /** The reported value (position, speed, model number) when the call reported success. */
  function ValueOf(r: Reply): (v: Option<int>)
    ensures v.Some? <==> Succeeded(r)
    ensures v.Some? ==> v.value == r.value
  {
    if Succeeded(r) then Some(r.value) else None
  }

  // ---------------------------------------------------------------------
  // get_servo_status

  /** The status dict; voltage is the raw byte, in tenths of a volt. */
  datatype Status = Status(
    id: int, connected: bool, modelNumber: Option<int>,
    position: Option<int>, speed: Option<int>, temperature: Option<int>,
    voltage: Option<int>, current: Option<int>, error: bool)

  function Blank(id: int): (s: Status)
  {
    Status(id, false, None, None, None, None, None, None, false)
  }

  /** The calls get_servo_status makes when nothing goes wrong. */
  function StatusCmds(id: int): (r: seq<Cmd>)
  {
    [Ping(id), ReadPos(id), ReadSpeed(id), Read(id, TEMPERATURE_ADDRESS, 1),
     Read(id, VOLTAGE_ADDRESS, 1), Read(id, CURRENT_ADDRESS, 2)]
  }

  /** Position and speed, the first two reads after a successful ping. */
  function MotionReads(t: Trace, s: Status): (r: (Trace, Status))
  {
    var (t1, pos) := Issue(t, ReadPos(s.id));
    if pos.Raised? then (t1, s.(error := true)) else
    var s1 := s.(position := ValueOf(pos));
    var (t2, spd) := Issue(t1, ReadSpeed(s.id));
    if spd.Raised? then (t2, s1.(error := true)) else
    (t2, s1.(speed := ValueOf(spd)))
  }

  /** Temperature, voltage and current, the three register reads that follow. */
  function SensorReads(t: Trace, s: Status): (r: (Trace, Status))
  {
    var (t1, temp) := Issue(t, Read(s.id, TEMPERATURE_ADDRESS, 1));
    if temp.Raised? then (t1, s.(error := true)) else
    var s1 := s.(temperature := FirstByte(temp));
    var (t2, volt) := Issue(t1, Read(s.id, VOLTAGE_ADDRESS, 1));
    if volt.Raised? then (t2, s1.(error := true)) else
    var s2 := s1.(voltage := FirstByte(volt));
    var (t3, cur) := Issue(t2, Read(s.id, CURRENT_ADDRESS, 2));
    if cur.Raised? then (t3, s2.(error := true)) else
    (t3, s2.(current := Signed16(cur)))
  }

  /** The five reads after a successful ping, from the given partial status on. */
  function StatusReads(t: Trace, s: Status): (r: (Trace, Status))
  {
    var (t1, s1) := MotionReads(t, s);
    if s1.error then (t1, s1) else SensorReads(t1, s1)
  }

  /** get_servo_status; the timestamp comes from the clock and is not modelled. */
  function StatusSpec(t: Trace, id: int): (r: (Trace, Status))
  {
    var (t1, ping) := Issue(t, Ping(id));
    if ping.Raised? then (t1, Blank(id).(error := true))
    else if ping.result != 0 then (t1, Blank(id))
    else StatusReads(t1, Blank(id).(connected := true, modelNumber := Some(ping.value)))
  }

  /** The field a read fills, when that read was made and did not raise. */
  function Field(t: Trace, made: int, k: nat, decode: Reply -> Option<int>): Option<int>
  {
    if k < made && !At(t, k).Raised? then decode(At(t, k)) else None
  }

  /** A field read after the calls cmds, seen from before them. */
  lemma FieldShift(t: Trace, cmds: seq<Cmd>, made: int, k: nat, decode: Reply -> Option<int>)
    ensures Field(t.(log := t.log + cmds), made, k, decode) == Field(t, |cmds| + made, |cmds| + k, decode)
  {
    AtShift(t, cmds, k);
  }

  lemma MotionReadsProperties(t: Trace, s: Status)
    requires t.online && !s.error && s.position == s.speed == None
    ensures var (t1, s1) := MotionReads(t, s);
      var m := |t1.log| - |t.log|;
      && Tried(t, [ReadPos(s.id), ReadSpeed(s.id)], t1, s1.error)
      && s1 == s.(position := s1.position, speed := s1.speed, error := s1.error)
      && s1.position == Field(t, m, 0, ValueOf)
      && s1.speed == Field(t, m, 1, ValueOf)
  {
    var cmds := [ReadPos(s.id), ReadSpeed(s.id)];
    var (t1, pos) := Issue(t, ReadPos(s.id));
    TriedOne(t, ReadPos(s.id));
    if !pos.Raised? {
      var (t2, spd) := Issue(t1, ReadSpeed(s.id));
      TriedOne(t1, ReadSpeed(s.id));
      TriedThen(t, [ReadPos(s.id)], t1, [ReadSpeed(s.id)], t2, spd.Raised?);
      AtShift(t, [ReadPos(s.id)], 0);
    } else {
      TriedStop(t, [ReadPos(s.id)], t1, [ReadSpeed(s.id)]);
    }
  }

  lemma SensorReadsProperties(t: Trace, s: Status)
    requires t.online && !s.error && s.temperature == s.voltage == s.current == None
    ensures var (t1, s1) := SensorReads(t, s);
      var m := |t1.log| - |t.log|;
      && Tried(t, StatusCmds(s.id)[3..], t1, s1.error)
      && s1 == s.(temperature := s1.temperature, voltage := s1.voltage, current := s1.current, error := s1.error)
      && s1.temperature == Field(t, m, 0, FirstByte)
      && s1.voltage == Field(t, m, 1, FirstByte)
      && s1.current == Field(t, m, 2, Signed16)
  {
    SensorReadsTried(t, s);
    SensorReadsFields(t, s);
  }

  lemma SensorReadsTried(t: Trace, s: Status)
    requires t.online && !s.error
    ensures var (t1, s1) := SensorReads(t, s);
      Tried(t, StatusCmds(s.id)[3..], t1, s1.error)
  {
    var id := s.id;
    var cmds := StatusCmds(id)[3..];
    var (t1, temp) := Issue(t, cmds[0]);
    TriedOne(t, cmds[0]);
    if !temp.Raised? {
      var (t2, volt) := Issue(t1, cmds[1]);
      TriedOne(t1, cmds[1]);
      TriedThen(t, [cmds[0]], t1, [cmds[1]], t2, volt.Raised?);
      if !volt.Raised? {
        var (t3, cur) := Issue(t2, cmds[2]);
        TriedOne(t2, cmds[2]);
        TriedThen(t, [cmds[0], cmds[1]], t2, [cmds[2]], t3, cur.Raised?);
        assert [cmds[0], cmds[1]] + [cmds[2]] == cmds;
      } else {
        TriedStop(t, [cmds[0], cmds[1]], t2, [cmds[2]]);
        assert [cmds[0], cmds[1]] + [cmds[2]] == cmds;
      }
    } else {
      TriedStop(t, [cmds[0]], t1, cmds[1..]);
      assert [cmds[0]] + cmds[1..] == cmds;
    }
  }

  lemma SensorReadsFields(t: Trace, s: Status)
    requires t.online && s.temperature == s.voltage == s.current == None
    ensures var (t1, s1) := SensorReads(t, s);
      var m := |t1.log| - |t.log|;
      && s1 == s.(temperature := s1.temperature, voltage := s1.voltage, current := s1.current, error := s1.error)
      && s1.temperature == Field(t, m, 0, FirstByte)
      && s1.voltage == Field(t, m, 1, FirstByte)
      && s1.current == Field(t, m, 2, Signed16)
  {
    var (t1, temp) := Issue(t, Read(s.id, TEMPERATURE_ADDRESS, 1));
    assert temp == At(t, 0);
    if !temp.Raised? {
      var (t2, volt) := Issue(t1, Read(s.id, VOLTAGE_ADDRESS, 1));
      assert volt == At(t, 1);
      if !volt.Raised? {
        var (t3, cur) := Issue(t2, Read(s.id, CURRENT_ADDRESS, 2));
        assert cur == At(t, 2);
      }
    }
  }

  /**
   * The reads run in order inside the `try`: the first one that raises
   * stops the rest and marks the error; every field read before that holds
   * its decoded answer (temperature and voltage the first byte, current
   * the signed 16-bit value of two bytes) and every later field stays
   * empty.
   */
  lemma StatusReadsCalls(t: Trace, s: Status)
    requires t.online && !s.error
    requires s.position == s.speed == s.temperature == s.voltage == s.current == None
    ensures var (t1, s1) := StatusReads(t, s);
      && Tried(t, StatusCmds(s.id)[1..], t1, s1.error)
      && s1.id == s.id && s1.connected == s.connected && s1.modelNumber == s.modelNumber
  {
    var cmds := StatusCmds(s.id)[1..];
    MotionReadsProperties(t, s);
    var (t1, s1) := MotionReads(t, s);
    assert cmds[..2] == [ReadPos(s.id), ReadSpeed(s.id)];
    if !s1.error {
      SensorReadsTried(t1, s1);
      SensorReadsFields(t1, s1);
      var (t2, s2) := SensorReads(t1, s1);
      TriedThen(t, cmds[..2], t1, StatusCmds(s.id)[3..], t2, s2.error);
      assert cmds[..2] + StatusCmds(s.id)[3..] == cmds;
    } else {
      TriedStop(t, cmds[..2], t1, cmds[2..]);
      assert cmds[..2] + cmds[2..] == cmds;
    }
  }

  lemma StatusReadsFields(t: Trace, s: Status)
    requires t.online && !s.error
    requires s.position == s.speed == s.temperature == s.voltage == s.current == None
    ensures var (t1, s1) := StatusReads(t, s);
      var m := |t1.log| - |t.log|;
      && s1.position == Field(t, m, 0, ValueOf)
      && s1.speed == Field(t, m, 1, ValueOf)
      && s1.temperature == Field(t, m, 2, FirstByte)
      && s1.voltage == Field(t, m, 3, FirstByte)
      && s1.current == Field(t, m, 4, Signed16)
  {
    MotionReadsProperties(t, s);
    var (t1, s1) := MotionReads(t, s);
    if !s1.error {
      SensorReadsProperties(t1, s1);
      var (t2, s2) := SensorReads(t1, s1);
      var cmds := [ReadPos(s.id), ReadSpeed(s.id)];
      assert t1 == t.(log := t.log + cmds);
      var m := |t2.log| - |t1.log|;
      FieldShift(t, cmds, m, 0, FirstByte);
      FieldShift(t, cmds, m, 1, FirstByte);
      FieldShift(t, cmds, m, 2, Signed16);
    }
  }

  /**
   * get_servo_status: when the ping does not report success, nothing else
   * is read and the status says not connected (with the error mark when the
   * ping raised); otherwise the status is connected, carries the model
   * number, and the reads follow as StatusReadsCalls and StatusReadsFields say.
   */
  lemma StatusProperties(t: Trace, id: int)
    requires t.online
    ensures var (t1, s) := StatusSpec(t, id);
      && s.id == id
      && (s.connected <==> Succeeded(At(t, 0)))
      && (!s.connected ==>
            t1 == t.(log := t.log + [Ping(id)])
            && s == Blank(id).(error := At(t, 0).Raised?))
      && (s.connected ==>
            var m := |t1.log| - |t.log|;
            && Tried(t, StatusCmds(id), t1, s.error)
            && s.modelNumber == Some(At(t, 0).value)
            && s.position == Field(t, m, 1, ValueOf)
            && s.current == Field(t, m, 5, Signed16))
  {
    var (t1, ping) := Issue(t, Ping(id));
    if Succeeded(ping) {
      var s0 := Blank(id).(connected := true, modelNumber := Some(ping.value));
      StatusReadsCalls(t1, s0);
      StatusReadsFields(t1, s0);
      TriedOne(t, Ping(id));
      var (t2, s) := StatusReads(t1, s0);
      TriedThen(t, [Ping(id)], t1, StatusCmds(id)[1..], t2, s.error);
      assert [Ping(id)] + StatusCmds(id)[1..] == StatusCmds(id);
      var m := |t2.log| - |t.log|;
      AtShift(t, [Ping(id)], 0);
      AtShift(t, [Ping(id)], 4);
      assert Field(t1, m - 1, 0, ValueOf) == Field(t, m, 1, ValueOf);
      assert Field(t1, m - 1, 4, Signed16) == Field(t, m, 5, Signed16);
    }
  }

  // ---------------------------------------------------------------------
  // get_firmware_info

  /** The firmware dict: one byte from each of addresses 0, 1, 3 and twice from 4. */
  datatype Firmware = Firmware(
    id: int, fwMajor: Option<int>, fwMinor: Option<int>, fwPatch: Option<int>,
    hwMajor: Option<int>, hwMinor: Option<int>, error: bool)

  function BlankFirmware(id: int): (f: Firmware)
  {
    Firmware(id, None, None, None, None, None, false)
  }

  /** The calls get_firmware_info makes when nothing raises. */
  function FirmwareCmds(id: int): (r: seq<Cmd>)
  {
    [Read(id, FW_MAJOR_ADDRESS, 1), Read(id, FW_MINOR_ADDRESS, 1), Read(id, FW_PATCH_ADDRESS, 1),
     Read(id, HW_VERSION_ADDRESS, 1), Read(id, HW_VERSION_ADDRESS, 1)]
  }

  /** The three firmware version bytes. */
  function VersionReads(t: Trace, f: Firmware): (r: (Trace, Firmware))
  {
    var (t1, major) := Issue(t, Read(f.id, FW_MAJOR_ADDRESS, 1));
    if major.Raised? then (t1, f.(error := true)) else
    var f1 := f.(fwMajor := FirstByte(major));
    var (t2, minor) := Issue(t1, Read(f.id, FW_MINOR_ADDRESS, 1));
    if minor.Raised? then (t2, f1.(error := true)) else
    var f2 := f1.(fwMinor := FirstByte(minor));
    var (t3, patch) := Issue(t2, Read(f.id, FW_PATCH_ADDRESS, 1));
    if patch.Raised? then (t3, f2.(error := true)) else
    (t3, f2.(fwPatch := FirstByte(patch)))
  }

  /** The two hardware version bytes, both read from address 4. */
  function HardwareReads(t: Trace, f: Firmware): (r: (Trace, Firmware))
  {
    var (t1, major) := Issue(t, Read(f.id, HW_VERSION_ADDRESS, 1));
    if major.Raised? then (t1, f.(error := true)) else
    var f1 := f.(hwMajor := FirstByte(major));
    var (t2, minor) := Issue(t1, Read(f.id, HW_VERSION_ADDRESS, 1));
    if minor.Raised? then (t2, f1.(error := true)) else
    (t2, f1.(hwMinor := FirstByte(minor)))
  }

  /** get_firmware_info. */
  function FirmwareSpec(t: Trace, id: int): (r: (Trace, Firmware))
  {
    var (t1, f1) := VersionReads(t, BlankFirmware(id));
    if f1.error then (t1, f1) else HardwareReads(t1, f1)
  }

  lemma VersionReadsProperties(t: Trace, f: Firmware)
    requires t.online && !f.error && f.fwMajor == f.fwMinor == f.fwPatch == None
    ensures var (t1, f1) := VersionReads(t, f);
      var m := |t1.log| - |t.log|;
      && Tried(t, FirmwareCmds(f.id)[..3], t1, f1.error)
      && f1 == f.(fwMajor := f1.fwMajor, fwMinor := f1.fwMinor, fwPatch := f1.fwPatch, error := f1.error)
      && f1.fwMajor == Field(t, m, 0, FirstByte)
      && f1.fwMinor == Field(t, m, 1, FirstByte)
      && f1.fwPatch == Field(t, m, 2, FirstByte)
  {
    var cmds := FirmwareCmds(f.id)[..3];
    var (t1, major) := Issue(t, cmds[0]);
    TriedOne(t, cmds[0]);
    if !major.Raised? {
      var (t2, minor) := Issue(t1, cmds[1]);
      TriedOne(t1, cmds[1]);
      TriedThen(t, [cmds[0]], t1, [cmds[1]], t2, minor.Raised?);
      AtShift(t, [cmds[0]], 0);
      if !minor.Raised? {
        var (t3, patch) := Issue(t2, cmds[2]);
        TriedOne(t2, cmds[2]);
        TriedThen(t, [cmds[0], cmds[1]], t2, [cmds[2]], t3, patch.Raised?);
        assert [cmds[0], cmds[1]] + [cmds[2]] == cmds;
        AtShift(t, [cmds[0], cmds[1]], 0);
      } else {
        TriedStop(t, [cmds[0], cmds[1]], t2, [cmds[2]]);
        assert [cmds[0], cmds[1]] + [cmds[2]] == cmds;
      }
    } else {
      TriedStop(t, [cmds[0]], t1, cmds[1..]);
      assert [cmds[0]] + cmds[1..] == cmds;
    }
  }

  lemma HardwareReadsProperties(t: Trace, f: Firmware)
    requires t.online && !f.error && f.hwMajor == f.hwMinor == None
    ensures var (t1, f1) := HardwareReads(t, f);
      var m := |t1.log| - |t.log|;
      && Tried(t, FirmwareCmds(f.id)[3..], t1, f1.error)
      && f1 == f.(hwMajor := f1.hwMajor, hwMinor := f1.hwMinor, error := f1.error)
      && f1.hwMajor == Field(t, m, 0, FirstByte)
      && f1.hwMinor == Field(t, m, 1, FirstByte)
  {
    var cmds := FirmwareCmds(f.id)[3..];
    var (t1, major) := Issue(t, cmds[0]);
    TriedOne(t, cmds[0]);
    if !major.Raised? {
      var (t2, minor) := Issue(t1, cmds[1]);
      TriedOne(t1, cmds[1]);
      TriedThen(t, [cmds[0]], t1, [cmds[1]], t2, minor.Raised?);
      assert [cmds[0]] + [cmds[1]] == cmds;
      AtShift(t, [cmds[0]], 0);
    } else {
      TriedStop(t, [cmds[0]], t1, [cmds[1]]);
      assert [cmds[0]] + [cmds[1]] == cmds;
    }
  }

  /**
   * get_firmware_info reads addresses 0, 1, 3, 4 and 4 again, one byte
   * each, inside one `try`: the first read that raises stops the rest and
   * marks the error, and every field holds the first byte its own read
   * returned, or nothing when that read failed, raised or never happened.
   */
  lemma FirmwareProperties(t: Trace, id: int)
    requires t.online
    ensures var (t1, f) := FirmwareSpec(t, id);
      var m := |t1.log| - |t.log|;
      && f.id == id
      && Tried(t, FirmwareCmds(id), t1, f.error)
      && f.fwMajor == Field(t, m, 0, FirstByte)
      && f.fwMinor == Field(t, m, 1, FirstByte)
      && f.fwPatch == Field(t, m, 2, FirstByte)
      && f.hwMajor == Field(t, m, 3, FirstByte)
      && f.hwMinor == Field(t, m, 4, FirstByte)
  {
    var cmds := FirmwareCmds(id);
    VersionReadsProperties(t, BlankFirmware(id));
    var (t1, f1) := VersionReads(t, BlankFirmware(id));
    if !f1.error {
      HardwareReadsProperties(t1, f1);
      var (t2, f2) := HardwareReads(t1, f1);
      TriedThen(t, cmds[..3], t1, cmds[3..], t2, f2.error);
      assert cmds[..3] + cmds[3..] == cmds;
      var m := |t2.log| - |t1.log|;
      FieldShift(t, cmds[..3], m, 0, FirstByte);
      FieldShift(t, cmds[..3], m, 1, FirstByte);
    } else {
      TriedStop(t, cmds[..3], t1, cmds[3..]);
      assert cmds[..3] + cmds[3..] == cmds;
    }
  }

  /**
   * Both hardware fields come from the same one-byte read of address 4:
   * whenever both reads succeed and the register answers both alike, the
   * two fields are equal.
   */
  lemma HardwareFieldsAgree(t: Trace, id: int)
    requires t.online
    requires At(t, 3) == At(t, 4)
    ensures FirmwareCmds(id)[3] == FirmwareCmds(id)[4] == Read(id, HW_VERSION_ADDRESS, 1)
    ensures var f := FirmwareSpec(t, id).1;
      f.hwMajor.Some? && f.hwMinor.Some? ==> f.hwMajor == f.hwMinor
  {
    FirmwareProperties(t, id);
  }

  // ---------------------------------------------------------------------
  // read_memory_direct and write_memory_direct

  /** The second element of the servers' replies that is not a result code. */
  datatype Note =
    | Quiet            // None
    | DeviceReported   // the SDK's own error value, passed on
    | UnlockFailed     // "Failed to unlock EEPROM"
    | Exception        // str(e) of an exception caught by the helper

  /** read_memory_direct: the bytes read, the result code, and the note. */
  function ReadMemorySpec(t: Trace, id: int, address: int, length: int): (r: (Trace, (seq<Byte>, int, Note)))
  {
    var (t1, reply) := Issue(t, Read(id, address, length));
    if reply.Raised? then (t1, ([], -1, Exception))
    else if reply.result == 0 && |reply.data| > 0 then (t1, (reply.data, reply.result, DeviceReported))
    else (t1, ([], reply.result, DeviceReported))
  }

  /**
   * One read is sent.  The bytes come back only when the read reported
   * success and returned some, and then they are exactly what the servo
   * returned; otherwise the bytes are empty and the code is the read's
   * result, or -1 with an exception note when the read raised.
   */
  lemma ReadMemoryProperties(t: Trace, id: int, address: int, length: int)
    requires t.online
    ensures var (t1, (data, result, note)) := ReadMemorySpec(t, id, address, length);
      && t1 == t.(log := t.log + [Read(id, address, length)])
      && (data != [] <==> Succeeded(At(t, 0)) && At(t, 0).data != [])
      && (data != [] ==> data == At(t, 0).data && result == 0)
      && (note == Exception <==> At(t, 0).Raised?)
      && (note == Exception ==> result == -1 && data == [])
      && (note != Exception ==> result == At(t, 0).result)
  {
  }

  /** `str.isspace` on the ASCII characters: space, \t \n \v \f \r and the separators 0x1c..0x1f. */
  predicate IsSpace(c: char)
  {
    c as int == 32 || 9 <= c as int <= 13 || 28 <= c as int <= 31
  }

  predicate NoSpace(w: string)
  {
    forall k :: 0 <= k < |w| ==> !IsSpace(w[k])
  }

  /** The length of the run of non-space characters that s starts with. */
  function TokenLength(s: string): (n: nat)
    ensures n <= |s| && NoSpace(s[..n]) && (n < |s| ==> IsSpace(s[n]))
  {
    if s == [] || IsSpace(s[0]) then 0
    else
      var n := 1 + TokenLength(s[1..]);
      assert s[..n] == [s[0]] + s[1..][..n - 1];
      n
  }

  /** `str.split()`: the maximal runs of non-space characters, in order. */
  function Words(s: string): (r: seq<string>)
    ensures forall k :: 0 <= k < |r| ==> r[k] != [] && NoSpace(r[k])
    decreases |s|
  {
    if s == [] then []
    else if IsSpace(s[0]) then Words(s[1..])
    else
      var n := TokenLength(s);
      [s[..n]] + Words(s[n..])
  }

  /** `" ".join(words)`. */
  function Join(words: seq<string>): (r: string)
  {
    if words == [] then ""
    else if |words| == 1 then words[0]
    else words[0] + " " + Join(words[1..])
  }

  lemma TokenLengthOf(w: string, rest: string)
    requires w != [] && NoSpace(w) && (rest == [] || IsSpace(rest[0]))
    ensures TokenLength(w + rest) == |w|
    decreases |w|
  {
    if |w| > 1 {
      assert (w + rest)[1..] == w[1..] + rest;
      TokenLengthOf(w[1..], rest);
    } else {
      assert (w + rest)[1..] == rest;
    }
  }

  /** A word followed by a space or the end is split off as the first word. */
  lemma WordsCons(w: string, rest: string)
    requires w != [] && NoSpace(w) && (rest == [] || IsSpace(rest[0]))
    ensures Words(w + rest) == [w] + Words(rest)
  {
    var s := w + rest;
    TokenLengthOf(w, rest);
    assert s[..|w|] == w;
    assert s[|w|..] == rest;
  }

  /** A leading space is skipped. */
  lemma WordsSpace(s: string)
    ensures Words(" " + s) == Words(s)
  {
    assert (" " + s)[1..] == s;
  }

  /** Splitting on whitespace undoes joining with single spaces. */
  lemma {:induction false} WordsOfJoin(words: seq<string>)
    requires forall k :: 0 <= k < |words| ==> words[k] != [] && NoSpace(words[k])
    ensures Words(Join(words)) == words
  {
    if |words| == 1 {
      var w := words[0];
      assert Join(words) == w;
      WordsCons(w, "");
      assert w + "" == w;
    } else if words != [] {
      var w, tail := words[0], Join(words[1..]);
      var rest := " " + tail;
      assert Join(words) == w + rest;
      WordsCons(w, rest);
      WordsSpace(tail);
      WordsOfJoin(words[1..]);
      assert words == [w] + words[1..];
    }
  }

  function HexDigit(c: char): (d: Option<int>)
    ensures d.Some? ==> 0 <= d.value < 16
  {
    if '0' <= c <= '9' then Some(c as int - '0' as int)
    else if 'a' <= c <= 'f' then Some(c as int - 'a' as int + 10)
    else if 'A' <= c <= 'F' then Some(c as int - 'A' as int + 10)
    else None
  }

  /** The value of a non-empty string of hex digits, most significant first. */
  function HexDigits(s: string): (r: Option<nat>)
    ensures r.Some? <==> s != [] && forall k :: 0 <= k < |s| ==> HexDigit(s[k]).Some?
  {
    if s == [] then None
    else
      var last := HexDigit(s[|s| - 1]);
      if last.None? then None
      else if |s| == 1 then Some(last.value)
      else
        var high := HexDigits(s[..|s| - 1]);
        if high.None? then None else Some(16 * high.value + last.value)
  }

  /** `int(word, 16)`: an optional sign, an optional 0x or 0X prefix, then hex digits. */
  function ParseHex(word: string): (r: Option<int>)
  {
    var sign := if word != [] && (word[0] == '-' || word[0] == '+') then 1 else 0;
    var body := word[sign..];
    var digits := if |body| >= 2 && body[0] == '0' && (body[1] == 'x' || body[1] == 'X') then body[2..] else body;
    var v := HexDigits(digits);
    if v.None? then None
    else if sign == 1 && word[0] == '-' then Some(0 - v.value)
    else Some(v.value)
  }

  /** `[int(b, 16) for b in words]`: None as soon as one word is not a hex number. */
  function ParseHexList(words: seq<string>): (r: Option<seq<int>>)
    ensures r.Some? ==> |r.value| == |words|
    ensures r.Some? ==> forall k :: 0 <= k < |words| ==> ParseHex(words[k]) == Some(r.value[k])
  {
    if words == [] then Some([])
    else
      var head := ParseHex(words[0]);
      var tail := ParseHexList(words[1..]);
      if head.None? || tail.None? then None else Some([head.value] + tail.value)
  }

  /** A byte as two lower-case hex digits, as a client would type it. */
  function Hex2(b: Byte): (w: string)
  {
    var digits := "0123456789abcdef";
    [digits[b / 16], digits[b % 16]]
  }

  lemma HexDigitOf(n: int)
    requires 0 <= n < 16
    ensures HexDigit("0123456789abcdef"[n]) == Some(n)
  {
  }

  /** Two hex digits read back as the byte they spell. */
  lemma ParseHex2(b: Byte)
    ensures Hex2(b) != [] && NoSpace(Hex2(b))
    ensures ParseHex(Hex2(b)) == Some(b)
  {
    var w := Hex2(b);
    HexDigitOf(b / 16);
    HexDigitOf(b % 16);
    assert w[..1] == [w[0]];
    assert HexDigits(w) == Some(16 * (b / 16) + b % 16);
  }

  /** The bytes as a space-separated hex dump, "0a ff 10". */
  function HexDump(bytes: seq<Byte>): (r: seq<string>)
    ensures |r| == |bytes| && forall k :: 0 <= k < |bytes| ==> r[k] == Hex2(bytes[k])
  {
    seq(|bytes|, k requires 0 <= k < |bytes| => Hex2(bytes[k]))
  }

  /** The data argument of write_memory_direct, by Python type. */
  datatype WriteData =
    | HexText(text: string)      // str: whitespace-separated hex bytes
    | ByteString(bytes: seq<Byte>)
    | IntList(items: seq<int>)
    | Scalar(value: int)         // anything else, wrapped as [int(data)]

  /** The list write_memory_direct sends, or None when the text does not parse. */
  function WriteList(d: WriteData): (r: Option<seq<int>>)
  {
    match d
    case HexText(text) => ParseHexList(Words(text))
    case ByteString(bytes) => Some(bytes)
    case IntList(items) => Some(items)
    case Scalar(value) => Some([value])
  }

  /** A hex dump typed into the client comes back as the bytes it shows. */
  lemma {:induction false} HexDumpRoundTrip(bytes: seq<Byte>)
    ensures WriteList(HexText(Join(HexDump(bytes)))) == Some(bytes)
  {
    var words := HexDump(bytes);
    forall k | 0 <= k < |words| ensures words[k] != [] && NoSpace(words[k]) {
      ParseHex2(bytes[k]);
    }
    WordsOfJoin(words);
    ParseHexListOf(bytes);
  }

  lemma {:induction false} ParseHexListOf(bytes: seq<Byte>)
    ensures ParseHexList(HexDump(bytes)) == Some(bytes)
  {
    if bytes != [] {
      ParseHex2(bytes[0]);
      ParseHexListOf(bytes[1..]);
      assert HexDump(bytes)[1..] == HexDump(bytes[1..]);
      assert bytes == [bytes[0]] + bytes[1..];
    }
  }

  /** write_memory_direct: (result == 0, error), or (False, message) when anything raised. */
  function WriteMemorySpec(t: Trace, id: int, address: int, d: WriteData): (r: (Trace, (bool, Note)))
  {
    var data := WriteList(d);
    if data.None? then (t, (false, Exception))
    else
      var (t1, reply) := Issue(t, Write(id, address, |data.value|, data.value));
      if reply.Raised? then (t1, (false, Exception)) else (t1, (reply.result == 0, DeviceReported))
  }

  /**
   * Text that does not parse sends nothing and fails with an exception
   * note; otherwise exactly one write of the whole list, with its length,
   * is sent, and the call succeeds exactly when that write reported success.
   */
  lemma WriteMemoryProperties(t: Trace, id: int, address: int, d: WriteData)
    requires t.online
    ensures var (t1, (ok, note)) := WriteMemorySpec(t, id, address, d);
      && (WriteList(d).None? ==> t1 == t && !ok && note == Exception)
      && (WriteList(d).Some? ==>
            var data := WriteList(d).value;
            && t1 == t.(log := t.log + [Write(id, address, |data|, data)])
            && (ok <==> Succeeded(At(t, 0)))
            && (note == Exception <==> At(t, 0).Raised?))
  {
  }
}
