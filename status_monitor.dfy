/**
 * modules/status_monitor.py: temperature, voltage, current and hardware
 * error read-outs of one servo, the complete status record built from them,
 * and the system health report that classifies every servo a scan finds.
 */
module StatusMonitor {
  import opened Wrappers
  import opened DataParser
  import opened Bus
  import opened Connection
  import Settings
  import MemoryMap

  // ---------------------------------------------------------------------------
  // Hardware error bits

  /** The six conditions the hardware error status register reports. */
  datatype HwError = InputVoltage | AngleSensor | Overheat | Overload | Electronic | Overcurrent

  /** The condition of each of bits 0..5, lowest bit first. */
  const ERROR_KINDS: seq<HwError> := [InputVoltage, AngleSensor, Overheat, Overload, Electronic, Overcurrent]

  /** The bit that reports e. */
  function KindBit(e: HwError): (k: nat)
    ensures k < |ERROR_KINDS| && ERROR_KINDS[k] == e
  {
    match e
    case InputVoltage => 0
    case AngleSensor => 1
    case Overheat => 2
    case Overload => 3
    case Electronic => 4
    case Overcurrent => 5
  }

  /**
   * Python's `s >> k`: floor division by 2, k times.  Dafny's `/` rounds
   * toward minus infinity for a positive divisor, as Python's does.
   */
  function Shr(s: int, k: nat): int
    decreases k
  {
    if k == 0 then s else Shr(s / 2, k - 1)
  }

  /** Python's `s & (1 << k) != 0`. */
  predicate BitSet(s: int, k: nat)
  {
    Shr(s, k) % 2 == 1
  }

  /** The condition bit k of s reports, if it is set. */
  function BitError(s: int, k: nat): seq<HwError>
    requires k < 6
  {
    if BitSet(s, k) then [ERROR_KINDS[k]] else []
  }

  /** The conditions reported by bits k..5 of s, in bit order. */
  function ErrorsFrom(s: int, k: nat): seq<HwError>
    requires k <= 6
    decreases 6 - k
  {
    if k == 6 then [] else BitError(s, k) + ErrorsFrom(s, k + 1)
  }

  /** What _parse_hardware_errors returns for error_status s. */
  function HardwareErrors(s: int): seq<HwError>
  {
    ErrorsFrom(s, 0)
  }

  /** The number of one bits among bits 0..n-1 of x. */
  function Popcount(x: int, n: nat): nat
    decreases n
  {
    if n == 0 then 0 else x % 2 + Popcount(x / 2, n - 1)
  }

  lemma {:induction false} ErrorsFromMembers(s: int, k: nat, e: HwError)
    requires k <= 6
    ensures e in ErrorsFrom(s, k) <==> k <= KindBit(e) && BitSet(s, KindBit(e))
    decreases 6 - k
  {
    if k < 6 {
      ErrorsFromMembers(s, k + 1, e);
      var rest := ErrorsFrom(s, k + 1);
      assert ErrorsFrom(s, k) == BitError(s, k) + rest;
      assert e in ErrorsFrom(s, k) <==> e in BitError(s, k) || e in rest;
      assert e in BitError(s, k) <==> KindBit(e) == k && BitSet(s, k);
    }
  }

  lemma {:induction false} ErrorsFromAscending(s: int, k: nat)
    requires k <= 6
    ensures forall e :: e in ErrorsFrom(s, k) ==> k <= KindBit(e)
    ensures forall i, j :: 0 <= i < j < |ErrorsFrom(s, k)| ==>
      KindBit(ErrorsFrom(s, k)[i]) < KindBit(ErrorsFrom(s, k)[j])
    decreases 6 - k
  {
    if k < 6 {
      ErrorsFromAscending(s, k + 1);
      assert KindBit(ERROR_KINDS[k]) == k;
      forall e | e in ErrorsFrom(s, k) ensures k <= KindBit(e) {
        ErrorsFromMembers(s, k, e);
      }
    }
  }

  lemma {:induction false} ShrStep(s: int, k: nat)
    ensures Shr(s, k) / 2 == Shr(s, k + 1)
    decreases k
  {
    if k > 0 {
      ShrStep(s / 2, k - 1);
    }
  }

  /** Shifting right by k is dividing by 2^k, so bit k is the mask 1 << k. */
  lemma {:induction false} ShrDivides(s: int, k: nat)
    ensures Shr(s, k) == s / Settings.Pow2(k)
    decreases k
  {
    if k > 0 {
      ShrDivides(s / 2, k - 1);
      DivDiv(s, 2, Settings.Pow2(k - 1));
    }
  }

  lemma {:induction false} ErrorsFromCount(s: int, k: nat)
    requires k <= 6
    ensures |ErrorsFrom(s, k)| == Popcount(Shr(s, k), 6 - k)
    decreases 6 - k
  {
    if k < 6 {
      ErrorsFromCount(s, k + 1);
      ShrStep(s, k);
    }
  }

  /** x mod 2c has the same lowest bit as x, and halving it is halving x mod c. */
  lemma ModEven(x: int, c: int)
    requires c > 0
    ensures (x % (2 * c)) % 2 == x % 2
    ensures (x % (2 * c)) / 2 == (x / 2) % c
  {
    DivDiv(x, 2, c);
    DivModUnique(x % (2 * c), 2, (x / 2) % c, x % 2);
  }

  /** Reducing mod 2^n keeps bits 0..n-1. */
  lemma {:induction false} MaskKeepsBit(s: int, n: nat, k: nat)
    requires k < n
    ensures Shr(s % Settings.Pow2(n), k) % 2 == Shr(s, k) % 2
    decreases k
  {
    ModEven(s, Settings.Pow2(n - 1));
    if k > 0 {
      MaskKeepsBit(s / 2, n - 1, k - 1);
    }
  }

  lemma {:induction false} ErrorsFromMask(s: int, k: nat)
    requires k <= 6
    ensures ErrorsFrom(s, k) == ErrorsFrom(s % 64, k)
    decreases 6 - k
  {
    if k < 6 {
      ErrorsFromMask(s, k + 1);
      assert Settings.Pow2(6) == 64;
      MaskKeepsBit(s, 6, k);
    }
  }

  /**
   * _parse_hardware_errors reports each of the six conditions exactly when
   * its bit (0x01, 0x02, ..., 0x20) is set.
   */
  lemma HardwareErrorsMembers(s: int)
    ensures forall k :: 0 <= k < 6 ==> (ERROR_KINDS[k] in HardwareErrors(s) <==> BitSet(s, k))
  {
    var z: nat := 0;
    assert HardwareErrors(s) == ErrorsFrom(s, z);
    forall k | 0 <= k < 6
      ensures ERROR_KINDS[k] in HardwareErrors(s) <==> BitSet(s, k)
    {
      KindBitInverse(k);
      ErrorsFromMembers(s, z, ERROR_KINDS[k]);
    }
  }

  lemma KindBitInverse(k: nat)
    requires k < |ERROR_KINDS|
    ensures KindBit(ERROR_KINDS[k]) == k
  {
  }

  /** The conditions come in ascending bit order, so none is reported twice. */
  lemma HardwareErrorsAscending(s: int)
    ensures forall i, j :: 0 <= i < j < |HardwareErrors(s)| ==>
      KindBit(HardwareErrors(s)[i]) < KindBit(HardwareErrors(s)[j])
  {
    ErrorsFromAscending(s, 0);
  }

  /**
   * Bits above 0x20 are ignored: the report depends on s & 0x3F only, has
   * popcount(s & 0x3F) entries, and is empty for a clear status.
   */
  lemma HardwareErrorsMask(s: int)
    ensures HardwareErrors(s) == HardwareErrors(s % 64)
    ensures |HardwareErrors(s)| == Popcount(s % 64, 6)
    ensures s % 64 == 0 ==> HardwareErrors(s) == []
  {
    var z: nat, six: nat := 0, 6;
    ErrorsFromMask(s, z);
    ErrorsFromCount(s % 64, z);
    assert Shr(s % 64, z) == s % 64;
    if s % 64 == 0 {
      PopcountZero(six);
    }
  }

  lemma {:induction false} PopcountZero(n: nat)
    ensures Popcount(0, n) == 0
  {
    if n > 0 {
      PopcountZero(n - 1);
    }
  }

  lemma Assoc(a: seq<HwError>, b: seq<HwError>, c: seq<HwError>)
    ensures a + (b + c) == (a + b) + c
  {
  }

  /** One bit test more of the straight-line parse of `whole`. */
  lemma ErrorsStep(s: int, k: nat, errors: seq<HwError>, whole: seq<HwError>)
    requires k < 6 && errors + ErrorsFrom(s, k) == whole
    ensures BitSet(s, k) ==> (errors + [ERROR_KINDS[k]]) + ErrorsFrom(s, k + 1) == whole
    ensures !BitSet(s, k) ==> errors + ErrorsFrom(s, k + 1) == whole
  {
    var rest := ErrorsFrom(s, k + 1);
    assert ErrorsFrom(s, k) == BitError(s, k) + rest;
    if BitSet(s, k) {
      assert BitError(s, k) == [ERROR_KINDS[k]];
      Assoc(errors, [ERROR_KINDS[k]], rest);
    } else {
      assert BitError(s, k) == [];
      assert [] + rest == rest;
    }
  }

  /** Bit k is the one the ERRBIT_* mask of the same position selects. */
  lemma BitsAreErrBits(s: int, k: nat)
    requires k < 6
    ensures BitSet(s, k) <==> (s / Settings.ERRBITS[k]) % 2 == 1
  {
    Settings.ErrorBitsAreBits();
    ShrDivides(s, k);
  }

  // ---------------------------------------------------------------------------
  // Single read-outs: (value, result); the error text is not modelled

  /** read_temperature: one byte at PRESENT_TEMPERATURE, unsigned. */
  function ReadTemperatureSpec(t: Trace, id: int): (Trace, (Option<int>, int))
  {
    var (t1, (data, result)) := ReadMemorySpec(t, id, MemoryMap.PRESENT_TEMPERATURE, 1);
    (t1, (if result == Settings.COMM_SUCCESS && data != [] then Some(ParseTemperature(data)) else None, result))
  }

  /**
   * read_temperature_limit: unlock, one byte at address 13, lock.  A direct
   * handler call that raises (also on a missing handler) gives (None, -1).
   */
  function ReadTemperatureLimitSpec(t: Trace, id: int): (Trace, (Option<int>, int))
  {
    var (t1, unlock) := Issue(t, Unlock(id));
    if unlock.Raised? then (t1, (None, -1))
    else
      var (t2, (data, result)) := ReadMemorySpec(t1, id, 13, 1);
      var (t3, lock) := Issue(t2, Lock(id));
      if lock.Raised? then (t3, (None, -1))
      else (t3, (if result == Settings.COMM_SUCCESS && data != [] then Some(ParseTemperature(data)) else None, result))
  }

  /** read_voltage: one byte at PRESENT_VOLTAGE, in tenths of a volt. */
  function ReadVoltageSpec(t: Trace, id: int): (Trace, (Option<int>, int))
  {
    var (t1, (data, result)) := ReadMemorySpec(t, id, MemoryMap.PRESENT_VOLTAGE, 1);
    (t1, (if result == Settings.COMM_SUCCESS && data != [] then Some(ParseVoltage(data)) else None, result))
  }

  /** read_current: two bytes at PRESENT_CURRENT_L, signed, only when both came back. */
  function ReadCurrentSpec(t: Trace, id: int): (Trace, (Option<int>, int))
  {
    var (t1, (data, result)) := ReadMemorySpec(t, id, MemoryMap.PRESENT_CURRENT_L, 2);
    (t1, (if result == Settings.COMM_SUCCESS && |data| >= 2 then Some(ParseCurrent(data)) else None, result))
  }

  /** read_hardware_error_status: one byte at HARDWARE_ERROR_STATUS, unsigned. */
  function ReadHardwareErrorStatusSpec(t: Trace, id: int): (Trace, (Option<int>, int))
  {
    var (t1, (data, result)) := ReadMemorySpec(t, id, MemoryMap.HARDWARE_ERROR_STATUS, 1);
    (t1, (if result == Settings.COMM_SUCCESS && data != [] then Some(BytesToInt(data, false)) else None, result))
  }

  /**
   * read_temperature reads one byte at PRESENT_TEMPERATURE and reports its
   * unsigned value exactly when the read succeeded with data.
   */
  lemma ReadTemperatureSequence(t: Trace, id: int)
    ensures var (t1, (temperature, result)) := ReadTemperatureSpec(t, id);
      && (!t.online ==> t1 == t && temperature == None && result == Settings.ERROR_OPERATION_FAILED)
      && (t.online ==> t1.log == t.log + [Read(id, MemoryMap.PRESENT_TEMPERATURE, 1)])
      && (t.online ==> result == ResultOf(At(t, 0)))
      && (temperature.Some? <==> t.online && Succeeded(At(t, 0)) && At(t, 0).data != [])
      && (temperature.Some? ==> temperature.value == Unsigned(At(t, 0).data))
      && (temperature.Some? && |At(t, 0).data| == 1 ==> 0 <= temperature.value < 256)
  {
  }

  /**
   * read_temperature_limit issues Unlock, Read(13, 1) and Lock in that
   * order whatever their result codes; only a call that raises stops it.
   */
  lemma ReadTemperatureLimitSequence(t: Trace, id: int)
    ensures var (t1, (limit, result)) := ReadTemperatureLimitSpec(t, id);
      && (!t.online ==> t1 == t && limit == None && result == -1)
      && (t.online && At(t, 0).Raised? ==> t1.log == t.log + [Unlock(id)] && limit == None && result == -1)
      && (t.online && At(t, 0).Done? ==> t1.log == t.log + [Unlock(id), Read(id, 13, 1), Lock(id)])
      && (t.online && At(t, 0).Done? && At(t, 2).Raised? ==> limit == None && result == -1)
      && (t.online && At(t, 0).Done? && At(t, 2).Done? ==>
            result == ResultOf(At(t, 1))
            && (limit.Some? <==> Succeeded(At(t, 1)) && At(t, 1).data != [])
            && (limit.Some? ==> limit.value == Unsigned(At(t, 1).data)))
  {
    if t.online && At(t, 0).Done? {
      var (t1, _) := Issue(t, Unlock(id));
      assert At(t1, 0) == At(t, 1);
      var (t2, _) := ReadMemorySpec(t1, id, 13, 1);
      assert At(t2, 0) == At(t, 2);
    }
  }

  /** read_current reports a signed 16-bit value only when at least two bytes came back. */
  lemma ReadCurrentSequence(t: Trace, id: int)
    ensures var (t1, (current, result)) := ReadCurrentSpec(t, id);
      && (!t.online ==> t1 == t && current == None && result == Settings.ERROR_OPERATION_FAILED)
      && (t.online ==> t1.log == t.log + [Read(id, MemoryMap.PRESENT_CURRENT_L, 2)])
      && (t.online ==> result == ResultOf(At(t, 0)))
      && (current.Some? <==> t.online && Succeeded(At(t, 0)) && |At(t, 0).data| >= 2)
      && (current.Some? ==> current.value == BytesToInt(At(t, 0).data, true))
      && (current.Some? && |At(t, 0).data| == 2 ==> -32768 <= current.value < 32768)
  {
  }

  /** read_voltage and read_hardware_error_status read one byte each and report it unsigned. */
  lemma ReadVoltageAndErrorStatusSequence(t: Trace, id: int)
    ensures var (t1, (voltage, result)) := ReadVoltageSpec(t, id);
      && (t.online ==> t1.log == t.log + [Read(id, MemoryMap.PRESENT_VOLTAGE, 1)])
      && (voltage.Some? <==> t.online && Succeeded(At(t, 0)) && At(t, 0).data != [])
      && (voltage.Some? ==> voltage.value == Unsigned(At(t, 0).data))
    ensures var (t1, (status, result)) := ReadHardwareErrorStatusSpec(t, id);
      && (t.online ==> t1.log == t.log + [Read(id, MemoryMap.HARDWARE_ERROR_STATUS, 1)])
      && (status.Some? <==> t.online && Succeeded(At(t, 0)) && At(t, 0).data != [])
      && (status.Some? ==> status.value == Unsigned(At(t, 0).data))
  {
  }

  // ---------------------------------------------------------------------------
  // get_complete_status

  /** temp_warning_level. */
  datatype TempLevel = Normal | Caution | Warning | Critical

  function LevelRank(l: TempLevel): nat
  {
    match l
    case Normal => 0
    case Caution => 1
    case Warning => 2
    case Critical => 3
  }

  /**
   * The level of the usage ratio temperature / limit against 0.9, 0.8 and
   * 0.6 (a limit of 0 or less gives the ratio 0), compared exactly.
   */
  function LevelOf(temperature: int, limit: int): TempLevel
  {
    if limit <= 0 then Normal
    else if 10 * temperature >= 9 * limit then Critical
    else if 10 * temperature >= 8 * limit then Warning
    else if 10 * temperature >= 6 * limit then Caution
    else Normal
  }

  /**
   * The level never falls as the temperature rises; a servo at or over its
   * limit is critical, and one with no positive limit is normal.
   */
  lemma LevelOfProperties(t1: int, t2: int, limit: int)
    ensures t1 <= t2 ==> LevelRank(LevelOf(t1, limit)) <= LevelRank(LevelOf(t2, limit))
    ensures 0 < limit <= t1 ==> LevelOf(t1, limit) == Critical
    ensures limit <= 0 ==> LevelOf(t1, limit) == Normal
    ensures 0 <= 10 * t1 < 6 * limit ==> LevelOf(t1, limit) == Normal
  {
  }

  /**
   * The status dictionary: None is an absent key or a None value; failed
   * is the 'error' key an exception inside the try sets.
   */
  datatype CompleteStatus = CompleteStatus(
    id: int,
    position: Option<int>, speed: Option<int>,
    temperature: Option<int>, temperatureLimit: Option<int>, tempLevel: Option<TempLevel>,
    voltage: Option<int>, current: Option<int>,
    hardwareError: Option<int>, errors: seq<HwError>,
    syncStatus: Option<bool>,
    failed: bool)

  function EmptyStatus(id: int): CompleteStatus
  {
    CompleteStatus(id, None, None, None, None, None, None, None, None, [], None, false)
  }

  /** ReadPos and ReadSpeed through the handler directly, when it has them; a raise aborts. */
  function BasicStage(t: Trace, s: CompleteStatus): (Trace, CompleteStatus)
  {
    if s.failed then (t, s)
    else
      var (t1, s1) :=
        if !Has(t, t.caps.readPos) then (t, s)
        else
          var (t1, reply) := Issue(t, ReadPos(s.id));
          if reply.Raised? then (t1, s.(failed := true))
          else (t1, if reply.result == Settings.COMM_SUCCESS then s.(position := Some(reply.value)) else s);
      if s1.failed || !Has(t1, t1.caps.readSpeed) then (t1, s1)
      else
        var (t2, reply) := Issue(t1, ReadSpeed(s.id));
        if reply.Raised? then (t2, s1.(failed := true))
        else (t2, if reply.result == Settings.COMM_SUCCESS then s1.(speed := Some(reply.value)) else s1)
  }

  /**
   * Temperature, its limit and the warning level.  With a truthy
   * temperature and a limit read as None, `None > 0` raises and aborts.
   */
  function TemperatureStage(t: Trace, s: CompleteStatus): (Trace, CompleteStatus)
  {
    if s.failed then (t, s)
    else
      var (t1, (temperature, r1)) := ReadTemperatureSpec(t, s.id);
      var s1 := if r1 == Settings.COMM_SUCCESS then s.(temperature := temperature) else s;
      var (t2, (limit, r2)) := ReadTemperatureLimitSpec(t1, s.id);
      if r2 != Settings.COMM_SUCCESS then (t2, s1)
      else
        var s2 := s1.(temperatureLimit := limit);
        if temperature.None? || temperature.value == 0 then (t2, s2)
        else if limit.None? then (t2, s2.(failed := true))
        else (t2, s2.(tempLevel := Some(LevelOf(temperature.value, limit.value))))
  }

  /** Voltage and current. */
  function ElectricalStage(t: Trace, s: CompleteStatus): (Trace, CompleteStatus)
  {
    if s.failed then (t, s)
    else
      var (t1, (voltage, r1)) := ReadVoltageSpec(t, s.id);
      var s1 := if r1 == Settings.COMM_SUCCESS then s.(voltage := voltage) else s;
      var (t2, (current, r2)) := ReadCurrentSpec(t1, s.id);
      (t2, if r2 == Settings.COMM_SUCCESS then s1.(current := current) else s1)
  }

  /**
   * Hardware error status and the sync flag.  A status read as None with
   * result 0 makes `None & 0x01` raise and aborts.
   */
  function ErrorStage(t: Trace, s: CompleteStatus): (Trace, CompleteStatus)
  {
    if s.failed then (t, s)
    else
      var (t1, (hw, r1)) := ReadHardwareErrorStatusSpec(t, s.id);
      if r1 == Settings.COMM_SUCCESS && hw.None? then (t1, s.(hardwareError := hw, failed := true))
      else
        var s1 := if r1 == Settings.COMM_SUCCESS then s.(hardwareError := hw, errors := HardwareErrors(hw.value)) else s;
        var (t2, (sync, r2)) := ReadMemorySpec(t1, s.id, MemoryMap.SYNC_WRITE_FLAG, 1);
        (t2, if r2 == Settings.COMM_SUCCESS && sync != [] then s1.(syncStatus := Some(sync[0] != 0)) else s1)
  }

  /** get_complete_status. */
  function CompleteStatusSpec(t: Trace, id: int): (Trace, CompleteStatus)
  {
    var (t1, s1) := BasicStage(t, EmptyStatus(id));
    var (t2, s2) := TemperatureStage(t1, s1);
    var (t3, s3) := ElectricalStage(t2, s2);
    ErrorStage(t3, s3)
  }

  /** What every stage keeps: the oracle and the handler. */
  ghost predicate StageKeeps(t: Trace, r: (Trace, CompleteStatus))
  {
    r.0.answer == t.answer && r.0.online == t.online && r.0.caps == t.caps
  }

  /** The handler reads change only the position, the speed and the failure flag. */
  lemma BasicStageFrame(t: Trace, s: CompleteStatus)
    ensures var r := BasicStage(t, s);
      StageKeeps(t, r) && (s.failed ==> r == (t, s)) && r.1.(position := s.position, speed := s.speed, failed := s.failed) == s
  {
  }

  /**
   * The temperature stage changes only the temperature fields and the flag;
   * a warning level it sets is the level of a positive temperature and the
   * limit it read.
   */
  lemma TemperatureStageFrame(t: Trace, s: CompleteStatus)
    requires s.tempLevel.None?
    ensures var r := TemperatureStage(t, s);
      && StageKeeps(t, r) && (s.failed ==> r == (t, s))
      && r.1.(temperature := s.temperature, temperatureLimit := s.temperatureLimit, tempLevel := s.tempLevel, failed := s.failed) == s
      && (r.1.tempLevel.Some? ==>
            r.1.temperature.Some? && r.1.temperature.value > 0 && r.1.temperatureLimit.Some?
            && r.1.tempLevel.value == LevelOf(r.1.temperature.value, r.1.temperatureLimit.value))
  {
    var (t1, _) := ReadTemperatureSpec(t, s.id);
    var (t2, _) := ReadTemperatureLimitSpec(t1, s.id);
  }

  /** The electrical stage changes only the voltage and the current. */
  lemma ElectricalStageFrame(t: Trace, s: CompleteStatus)
    ensures var r := ElectricalStage(t, s);
      StageKeeps(t, r) && (s.failed ==> r == (t, s)) && r.1.(voltage := s.voltage, current := s.current) == s
  {
    var (t1, _) := ReadVoltageSpec(t, s.id);
    var (t2, _) := ReadCurrentSpec(t1, s.id);
  }

  /**
   * The error stage changes only the error fields, the sync flag and the
   * failure flag; the error list it fills in decodes the status it read.
   */
  lemma ErrorStageFrame(t: Trace, s: CompleteStatus)
    requires s.hardwareError.None? && s.errors == []
    ensures var r := ErrorStage(t, s);
      && StageKeeps(t, r) && (s.failed ==> r == (t, s))
      && r.1.(hardwareError := s.hardwareError, errors := s.errors, syncStatus := s.syncStatus, failed := s.failed) == s
      && (r.1.errors != [] ==> r.1.hardwareError.Some?)
      && (r.1.hardwareError.Some? ==> r.1.errors == HardwareErrors(r.1.hardwareError.value))
  {
    var (t1, _) := ReadHardwareErrorStatusSpec(t, s.id);
  }

  /**
   * get_complete_status: a warning level is present only with a positive
   * temperature and a limit and is the level of their ratio; the error list
   * decodes the hardware error status it was read from (empty when none
   * was); and with no handler nothing is sent and nothing is filled in.
   */
  lemma CompleteStatusProperties(t: Trace, id: int)
    ensures var (t1, s) := CompleteStatusSpec(t, id);
      && t1.answer == t.answer && t1.online == t.online && t1.caps == t.caps && s.id == id
      && (s.tempLevel.Some? ==>
            s.temperature.Some? && s.temperature.value > 0 && s.temperatureLimit.Some?
            && s.tempLevel.value == LevelOf(s.temperature.value, s.temperatureLimit.value))
      && (s.errors != [] ==> s.hardwareError.Some?)
      && (s.hardwareError.Some? ==> s.errors == HardwareErrors(s.hardwareError.value))
    ensures !t.online ==> CompleteStatusSpec(t, id) == (t, EmptyStatus(id))
  {
    var s0 := EmptyStatus(id);
    var (t1, s1) := BasicStage(t, s0);
    BasicStageFrame(t, s0);
    var (t2, s2) := TemperatureStage(t1, s1);
    TemperatureStageFrame(t1, s1);
    var (t3, s3) := ElectricalStage(t2, s2);
    ElectricalStageFrame(t2, s2);
    ErrorStageFrame(t3, s3);
    if !t.online {
      var (u1, _) := ReadTemperatureSpec(t1, id);
      var (u3, _) := ReadVoltageSpec(t2, id);
      var (u4, _) := ReadCurrentSpec(u3, id);
      var (u5, _) := ReadHardwareErrorStatusSpec(t3, id);
    }
  }

  // ---------------------------------------------------------------------------
  // get_system_health_report

  datatype Health = HealthyServo | WarningServo | CriticalServo

  function HealthRank(h: Health): nat
  {
    match h
    case HealthyServo => 0
    case WarningServo => 1
    case CriticalServo => 2
  }

  /** The health evaluation of one servo from its warning level and error list. */
  function Classify(level: TempLevel, errors: seq<HwError>): Health
  {
    if level == Critical || errors != [] then CriticalServo
    else if level == Warning then WarningServo
    else HealthyServo
  }

  /**
   * A hardware error makes a servo critical whatever its temperature; a
   * caution level still counts as healthy; and a higher level never gives
   * a better health.
   */
  lemma ClassifyProperties(l1: TempLevel, l2: TempLevel, errors: seq<HwError>)
    ensures errors != [] ==> Classify(l1, errors) == CriticalServo
    ensures Classify(Caution, []) == HealthyServo && Classify(Normal, []) == HealthyServo
    ensures LevelRank(l1) <= LevelRank(l2) ==> HealthRank(Classify(l1, errors)) <= HealthRank(Classify(l2, errors))
  {
  }

  /** One entry of a servo's issue list. */
  datatype HealthIssue = HardwareIssue(error: HwError) | TemperatureIssue(temperature: int, limit: int)

  datatype ServoDetail = ServoDetail(id: int, modelNumber: Option<int>, health: Health, issues: seq<HealthIssue>)

  function HardwareIssues(errors: seq<HwError>): (r: seq<HealthIssue>)
    ensures |r| == |errors| && forall k :: 0 <= k < |errors| ==> r[k] == HardwareIssue(errors[k])
  {
    seq(|errors|, k requires 0 <= k < |errors| => HardwareIssue(errors[k]))
  }

  /** The servo_detail entry of a scanned servo with the given status. */
  function DetailOf(servo: ServoInfo, status: CompleteStatus): ServoDetail
  {
    var level := if status.tempLevel.Some? then status.tempLevel.value else Normal;
    var temperatureIssue :=
      if level != Normal && status.temperature.Some? && status.temperature.value != 0
         && status.temperatureLimit.Some? && status.temperatureLimit.value != 0
      then [TemperatureIssue(status.temperature.value, status.temperatureLimit.value)]
      else [];
    ServoDetail(servo.id, servo.modelNumber, Classify(level, status.errors), HardwareIssues(status.errors) + temperatureIssue)
  }

  /** The loop's get_complete_status calls over the first n scanned servos, in order. */
  function StatusesUpTo(t: Trace, servos: seq<ServoInfo>, n: nat): (r: (Trace, seq<CompleteStatus>))
    requires n <= |servos|
    ensures |r.1| == n
  {
    if n == 0 then (t, [])
    else
      var (t1, statuses) := StatusesUpTo(t, servos, n - 1);
      var (t2, status) := CompleteStatusSpec(t1, servos[n - 1].id);
      (t2, statuses + [status])
  }

  /** The servo_details list: one entry per scanned servo with its status. */
  function Details(servos: seq<ServoInfo>, statuses: seq<CompleteStatus>): (r: seq<ServoDetail>)
    requires |statuses| == |servos|
    ensures |r| == |servos| && forall k :: 0 <= k < |servos| ==> r[k] == DetailOf(servos[k], statuses[k])
  {
    seq(|servos|, k requires 0 <= k < |servos| => DetailOf(servos[k], statuses[k]))
  }

  /** Extending the scanned prefix by one servo adds that servo's detail. */
  lemma DetailsSnoc(servos: seq<ServoInfo>, statuses: seq<CompleteStatus>, status: CompleteStatus)
    requires |statuses| < |servos|
    ensures Details(servos[..|statuses| + 1], statuses + [status])
      == Details(servos[..|statuses|], statuses) + [DetailOf(servos[|statuses|], status)]
  {
    var n := |statuses|;
    var l, r := Details(servos[..n + 1], statuses + [status]), Details(servos[..n], statuses) + [DetailOf(servos[n], status)];
    forall k | 0 <= k < |l|
      ensures l[k] == r[k]
    {
      if k < n {
        assert (statuses + [status])[k] == statuses[k];
      }
    }
  }

  /**
   * The traces between successive get_complete_status calls: traces[k] is
   * the handler before the k-th servo is read, statuses[k] what was read.
   */
  ghost predicate StatusChain(t: Trace, servos: seq<ServoInfo>, traces: seq<Trace>, statuses: seq<CompleteStatus>, n: nat)
  {
    && n <= |servos| && |traces| == n + 1 && |statuses| == n && traces[0] == t
    && forall k {:trigger CompleteStatusSpec(traces[k], servos[k].id)} :: 0 <= k < n ==>
         (traces[k + 1], statuses[k]) == CompleteStatusSpec(traces[k], servos[k].id)
  }

  lemma {:induction false} StatusChainUpTo(t: Trace, servos: seq<ServoInfo>, traces: seq<Trace>, statuses: seq<CompleteStatus>, n: nat)
    requires StatusChain(t, servos, traces, statuses, n)
    ensures StatusesUpTo(t, servos, n) == (traces[n], statuses)
  {
    if n > 0 {
      var traces', statuses' := traces[..n], statuses[..n - 1];
      forall k | 0 <= k < n - 1
        ensures (traces'[k + 1], statuses'[k]) == CompleteStatusSpec(traces'[k], servos[k].id)
      {
        assert (traces[k + 1], statuses[k]) == CompleteStatusSpec(traces[k], servos[k].id);
      }
      StatusChainUpTo(t, servos, traces', statuses', n - 1);
      assert (traces[n], statuses[n - 1]) == CompleteStatusSpec(traces[n - 1], servos[n - 1].id);
      assert statuses == statuses' + [statuses[n - 1]];
    }
  }

  function CountHealth(details: seq<ServoDetail>, h: Health): nat
  {
    if details == [] then 0
    else CountHealth(details[..|details| - 1], h) + (if details[|details| - 1].health == h then 1 else 0)
  }

  lemma CountHealthSnoc(details: seq<ServoDetail>, d: ServoDetail, h: Health)
    ensures CountHealth(details + [d], h) == CountHealth(details, h) + (if d.health == h then 1 else 0)
  {
    assert (details + [d])[..|details|] == details;
  }

  datatype Report = Report(total: nat, healthy: nat, warning: nat, critical: nat, details: seq<ServoDetail>)

  /** The servos scan_servos looks for with its default arguments. */
  const REPORT_FIRST_ID: int := 1
  const REPORT_LAST_ID: int := 20

  /** get_system_health_report; the timestamp is not modelled. */
  function HealthReportSpec(t: Trace): (Trace, Report)
  {
    var (t1, servos) := ScanServosSpec(t, REPORT_FIRST_ID, REPORT_LAST_ID);
    var (t2, statuses) := StatusesUpTo(t1, servos, |servos|);
    var details := Details(servos, statuses);
    (t2, Report(|servos|, CountHealth(details, HealthyServo), CountHealth(details, WarningServo),
      CountHealth(details, CriticalServo), details))
  }

  lemma {:induction false} CountHealthSum(details: seq<ServoDetail>)
    ensures CountHealth(details, HealthyServo) + CountHealth(details, WarningServo)
      + CountHealth(details, CriticalServo) == |details|
  {
    if details != [] {
      CountHealthSum(details[..|details| - 1]);
    }
  }

  /**
   * get_system_health_report: one detail per scanned servo, in scan order,
   * and exactly one of the three counters is raised for each, so
   * healthy + warning + critical == total_servos.
   */
  lemma HealthReportCounts(t: Trace)
    ensures var r := HealthReportSpec(t).1;
      var servos := ScanServosSpec(t, REPORT_FIRST_ID, REPORT_LAST_ID).1;
      && r.healthy + r.warning + r.critical == r.total
      && |r.details| == r.total == |servos|
      && forall k :: 0 <= k < r.total ==>
           r.details[k].id == servos[k].id && r.details[k].modelNumber == servos[k].modelNumber
  {
    var (t1, servos) := ScanServosSpec(t, REPORT_FIRST_ID, REPORT_LAST_ID);
    var (t2, statuses) := StatusesUpTo(t1, servos, |servos|);
    CountHealthSum(Details(servos, statuses));
  }

  // ---------------------------------------------------------------------------
  // The monitor object

  /** A registered monitor callback, identified opaquely. */
  type CallbackId = nat

  class StatusMonitor {
    const connection: ConnectionManager
    var isMonitoring: bool
    var callbacks: seq<CallbackId>

    constructor (connection: ConnectionManager)
      ensures this.connection == connection && !isMonitoring && callbacks == []
    {
      this.connection := connection;
      isMonitoring := false;
      callbacks := [];
    }

    /** _parse_hardware_errors. */
    method ParseHardwareErrors(errorStatus: int) returns (errors: seq<HwError>)
      ensures errors == HardwareErrors(errorStatus)
    {
      // k is the bit index tested next, and errors + ErrorsFrom(errorStatus, k) == whole.
      ghost var k: nat := 0;
      ghost var whole := ErrorsFrom(errorStatus, k);
      assert whole == HardwareErrors(errorStatus);
      errors := [];
      assert [] + ErrorsFrom(errorStatus, k) == whole;
      ErrorsStep(errorStatus, k, errors, whole);
      if BitSet(errorStatus, 0) {
        errors := errors + [InputVoltage];
      }
      k := k + 1;
      ErrorsStep(errorStatus, k, errors, whole);
      if BitSet(errorStatus, 1) {
        errors := errors + [AngleSensor];
      }
      k := k + 1;
      ErrorsStep(errorStatus, k, errors, whole);
      if BitSet(errorStatus, 2) {
        errors := errors + [Overheat];
      }
      k := k + 1;
      ErrorsStep(errorStatus, k, errors, whole);
      if BitSet(errorStatus, 3) {
        errors := errors + [Overload];
      }
      k := k + 1;
      ErrorsStep(errorStatus, k, errors, whole);
      if BitSet(errorStatus, 4) {
        errors := errors + [Electronic];
      }
      k := k + 1;
      ErrorsStep(errorStatus, k, errors, whole);
      if BitSet(errorStatus, 5) {
        errors := errors + [Overcurrent];
      }
      k := k + 1;
      assert errors + ErrorsFrom(errorStatus, k) == whole;
      assert errors + [] == errors;
    }

    method ReadTemperature(id: int) returns (temperature: Option<int>, result: int)
      requires connection.Valid()
      modifies connection.bus
      ensures (connection.State(), (temperature, result)) == ReadTemperatureSpec(old(connection.State()), id)
    {
      var data;
      data, result := connection.ReadMemory(id, MemoryMap.PRESENT_TEMPERATURE, 1);
      temperature := if result == Settings.COMM_SUCCESS && data != [] then Some(ParseTemperature(data)) else None;
    }

    method ReadTemperatureLimit(id: int) returns (limit: Option<int>, result: int)
      requires connection.Valid()
      modifies connection.bus
      ensures (connection.State(), (limit, result)) == ReadTemperatureLimitSpec(old(connection.State()), id)
    {
      var unlock := connection.Call(Unlock(id));
      if unlock.Raised? {
        return None, -1;
      }
      var data;
      data, result := connection.ReadMemory(id, 13, 1);
      var lock := connection.Call(Lock(id));
      if lock.Raised? {
        return None, -1;
      }
      limit := if result == Settings.COMM_SUCCESS && data != [] then Some(ParseTemperature(data)) else None;
    }

    method ReadVoltage(id: int) returns (voltage: Option<int>, result: int)
      requires connection.Valid()
      modifies connection.bus
      ensures (connection.State(), (voltage, result)) == ReadVoltageSpec(old(connection.State()), id)
    {
      var data;
      data, result := connection.ReadMemory(id, MemoryMap.PRESENT_VOLTAGE, 1);
      voltage := if result == Settings.COMM_SUCCESS && data != [] then Some(ParseVoltage(data)) else None;
    }

    method ReadCurrent(id: int) returns (current: Option<int>, result: int)
      requires connection.Valid()
      modifies connection.bus
      ensures (connection.State(), (current, result)) == ReadCurrentSpec(old(connection.State()), id)
    {
      var data;
      data, result := connection.ReadMemory(id, MemoryMap.PRESENT_CURRENT_L, 2);
      current := if result == Settings.COMM_SUCCESS && |data| >= 2 then Some(ParseCurrent(data)) else None;
    }

    method ReadHardwareErrorStatus(id: int) returns (status: Option<int>, result: int)
      requires connection.Valid()
      modifies connection.bus
      ensures (connection.State(), (status, result)) == ReadHardwareErrorStatusSpec(old(connection.State()), id)
    {
      var data;
      data, result := connection.ReadMemory(id, MemoryMap.HARDWARE_ERROR_STATUS, 1);
      status := if result == Settings.COMM_SUCCESS && data != [] then Some(BytesToInt(data, false)) else None;
    }

    /** The position and speed part of get_complete_status. */
    method ReadBasicStatus(s: CompleteStatus) returns (status: CompleteStatus)
      requires connection.Valid()
      modifies connection.bus
      ensures (connection.State(), status) == BasicStage(old(connection.State()), s)
    {
      status := s;
      if status.failed {
        return;
      }
      if connection.isConnected && connection.bus.caps.readPos {
        var reply := connection.Call(ReadPos(s.id));
        if reply.Raised? {
          status := status.(failed := true);
          return;
        } else if reply.result == Settings.COMM_SUCCESS {
          status := status.(position := Some(reply.value));
        }
      }
      if connection.isConnected && connection.bus.caps.readSpeed {
        var reply := connection.Call(ReadSpeed(s.id));
        if reply.Raised? {
          status := status.(failed := true);
        } else if reply.result == Settings.COMM_SUCCESS {
          status := status.(speed := Some(reply.value));
        }
      }
    }

    /** The temperature part of get_complete_status. */
    method ReadTemperatureStatus(s: CompleteStatus) returns (status: CompleteStatus)
      requires connection.Valid()
      modifies connection.bus
      ensures (connection.State(), status) == TemperatureStage(old(connection.State()), s)
    {
      status := s;
      if status.failed {
        return;
      }
      var temperature, r1 := ReadTemperature(s.id);
      if r1 == Settings.COMM_SUCCESS {
        status := status.(temperature := temperature);
      }
      var limit, r2 := ReadTemperatureLimit(s.id);
      if r2 == Settings.COMM_SUCCESS {
        status := status.(temperatureLimit := limit);
        if temperature.Some? && temperature.value != 0 {
          if limit.None? {
            status := status.(failed := true);
            return;
          }
          status := status.(tempLevel := Some(LevelOf(temperature.value, limit.value)));
        }
      }
    }

    /** The voltage and current part of get_complete_status. */
    method ReadElectricalStatus(s: CompleteStatus) returns (status: CompleteStatus)
      requires connection.Valid()
      modifies connection.bus
      ensures (connection.State(), status) == ElectricalStage(old(connection.State()), s)
    {
      status := s;
      if status.failed {
        return;
      }
      var voltage, r1 := ReadVoltage(s.id);
      if r1 == Settings.COMM_SUCCESS {
        status := status.(voltage := voltage);
      }
      var current, r2 := ReadCurrent(s.id);
      if r2 == Settings.COMM_SUCCESS {
        status := status.(current := current);
      }
    }

    /** The hardware error and sync part of get_complete_status. */
    method ReadErrorStatus(s: CompleteStatus) returns (status: CompleteStatus)
      requires connection.Valid()
      modifies connection.bus
      ensures (connection.State(), status) == ErrorStage(old(connection.State()), s)
    {
      status := s;
      if status.failed {
        return;
      }
      var hw, r1 := ReadHardwareErrorStatus(s.id);
      if r1 == Settings.COMM_SUCCESS {
        status := status.(hardwareError := hw);
        if hw.None? {
          status := status.(failed := true);
          return;
        }
        var errors := ParseHardwareErrors(hw.value);
        status := status.(errors := errors);
      }
      var sync, r2 := connection.ReadMemory(s.id, MemoryMap.SYNC_WRITE_FLAG, 1);
      if r2 == Settings.COMM_SUCCESS && sync != [] {
        status := status.(syncStatus := Some(sync[0] != 0));
      }
    }

    /** get_complete_status; the timestamp is not modelled. */
    method GetCompleteStatus(id: int) returns (status: CompleteStatus)
      requires connection.Valid()
      modifies connection.bus
      ensures (connection.State(), status) == CompleteStatusSpec(old(connection.State()), id)
    {
      status := ReadBasicStatus(EmptyStatus(id));
      status := ReadTemperatureStatus(status);
      status := ReadElectricalStatus(status);
      status := ReadErrorStatus(status);
    }

    /** One get_complete_status call of the report loop, extending the chain by one servo. */
    method NextStatus(servos: seq<ServoInfo>, i: nat, ghost t: Trace, ghost traces: seq<Trace>, ghost statuses: seq<CompleteStatus>)
      returns (status: CompleteStatus)
      requires connection.Valid() && i < |servos|
      requires StatusChain(t, servos, traces, statuses, i) && connection.State() == traces[i]
      modifies connection.bus
      ensures StatusChain(t, servos, traces + [connection.State()], statuses + [status], i + 1)
    {
      status := GetCompleteStatus(servos[i].id);
      ghost var traces', statuses' := traces + [connection.State()], statuses + [status];
      forall k | 0 <= k < i + 1
        ensures (traces'[k + 1], statuses'[k]) == CompleteStatusSpec(traces'[k], servos[k].id)
      {
        if k < i {
          assert (traces[k + 1], statuses[k]) == CompleteStatusSpec(traces[k], servos[k].id);
        }
      }
    }

    /**
     * The loop of get_system_health_report: the complete status and the
     * detail of every scanned servo, in order, and the health counts.
     */
    method CollectDetails(servos: seq<ServoInfo>) returns (details: seq<ServoDetail>, healthy: nat, warning: nat, critical: nat)
      requires connection.Valid()
      modifies connection.bus
      ensures var (t, statuses) := StatusesUpTo(old(connection.State()), servos, |servos|);
        && connection.State() == t
        && details == Details(servos, statuses)
      ensures healthy == CountHealth(details, HealthyServo)
      ensures warning == CountHealth(details, WarningServo)
      ensures critical == CountHealth(details, CriticalServo)
    {
      ghost var traces: seq<Trace> := [connection.State()];
      ghost var statuses: seq<CompleteStatus> := [];
      details := [];
      healthy, warning, critical := 0, 0, 0;
      var i := 0;
      while i < |servos|
        invariant 0 <= i <= |servos|
        invariant connection.Valid()
        invariant StatusChain(old(connection.State()), servos, traces, statuses, i)
        invariant connection.State() == traces[i]
        invariant details == Details(servos[..i], statuses)
        invariant healthy == CountHealth(details, HealthyServo)
        invariant warning == CountHealth(details, WarningServo)
        invariant critical == CountHealth(details, CriticalServo)
      {
        var status := NextStatus(servos, i, old(connection.State()), traces, statuses);
        var detail := DetailOf(servos[i], status);
        healthy := healthy + (if detail.health == HealthyServo then 1 else 0);
        warning := warning + (if detail.health == WarningServo then 1 else 0);
        critical := critical + (if detail.health == CriticalServo then 1 else 0);
        DetailsSnoc(servos, statuses, status);
        CountHealthSnoc(details, detail, HealthyServo);
        CountHealthSnoc(details, detail, WarningServo);
        CountHealthSnoc(details, detail, CriticalServo);
        details := details + [detail];
        statuses := statuses + [status];
        traces := traces + [connection.State()];
        i := i + 1;
      }
      assert servos[..i] == servos;
      StatusChainUpTo(old(connection.State()), servos, traces, statuses, i);
    }

    /** get_system_health_report; the timestamp is not modelled. */
    method GetSystemHealthReport() returns (report: Report)
      requires connection.Valid()
      modifies connection.bus
      ensures (connection.State(), report) == HealthReportSpec(old(connection.State()))
    {
      var servos := connection.ScanServos(REPORT_FIRST_ID, REPORT_LAST_ID);
      var details, healthy, warning, critical := CollectDetails(servos);
      report := Report(|servos|, healthy, warning, critical, details);
    }

    /** start_continuous_monitoring: the thread it starts is not modelled. */
    method StartContinuousMonitoring(callback: Option<CallbackId>)
      modifies this
      ensures old(isMonitoring) ==> isMonitoring && callbacks == old(callbacks)
      ensures !old(isMonitoring) ==>
        isMonitoring && callbacks == old(callbacks) + (if callback.Some? then [callback.value] else [])
    {
      if isMonitoring {
        return;
      }
      isMonitoring := true;
      if callback.Some? {
        callbacks := callbacks + [callback.value];
      }
    }

    /** stop_continuous_monitoring. */
    method StopContinuousMonitoring()
      modifies this
      ensures !isMonitoring && callbacks == old(callbacks)
    {
      if !isMonitoring {
        return;
      }
      isMonitoring := false;
    }

    /** add_monitor_callback. */
    method AddMonitorCallback(callback: CallbackId)
      modifies this
      ensures callbacks == old(callbacks) + [callback] && isMonitoring == old(isMonitoring)
    {
      callbacks := callbacks + [callback];
    }
  }
}
