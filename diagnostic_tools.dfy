/**
 * The diagnostic tools on top of the connection manager: the firmware and
 * hardware version bytes, and a full diagnostic read of the key status
 * registers of one servo.
 */
module DiagnosticTools {
  import opened Wrappers
  import opened DataParser
  import opened Bus
  import opened Connection
  import MemoryMap

  /** The version_info dictionary. The 'error' entry is not modelled: with reply data modelled as bytes, no read it guards raises. */
  datatype VersionInfo = VersionInfo(
    servoId: int,
    firmwareMajor: Option<int>,
    firmwareMinor: Option<int>,
    hardwareMajor: Option<int>,
    hardwareMinor: Option<int>)

  /** The value stored for a successful one-byte read: the unsigned decode of the data, if any came back. */
  function ReadValue(reply: Reply, signed: bool): (r: Option<int>)
    ensures r.Some? <==> Succeeded(reply) && reply.data != []
    ensures r.Some? && !signed ==> 0 <= r.value < Pow256(|reply.data|)
    ensures r.Some? && signed ==> -HalfRange(|reply.data|) <= r.value < HalfRange(|reply.data|)
  {
    if Succeeded(reply) && reply.data != [] then Some(BytesToInt(reply.data, signed)) else None
  }

  /** One read_memory of a version byte; its field is set only when result == 0 and data came back. */
  function VersionField(t: Trace, id: int, address: int): (Trace, Option<int>)
  {
    var (t1, (data, result)) := ReadMemorySpec(t, id, address, 1);
    (t1, if result == 0 && data != [] then Some(BytesToInt(data, false)) else None)
  }

  /** get_firmware_version: firmware major/minor at 0 and 1, hardware major/minor at 3 and 4. */
  function FirmwareVersionSpec(t: Trace, id: int): (Trace, VersionInfo)
  {
    var (t1, fwMajor) := VersionField(t, id, MemoryMap.FIRMWARE_MAJOR_VERSION);
    var (t2, fwMinor) := VersionField(t1, id, MemoryMap.FIRMWARE_MINOR_VERSION);
    var (t3, hwMajor) := VersionField(t2, id, MemoryMap.SERVO_MAJOR_VERSION);
    var (t4, hwMinor) := VersionField(t3, id, MemoryMap.SERVO_MINOR_VERSION);
    (t4, VersionInfo(id, fwMajor, fwMinor, hwMajor, hwMinor))
  }

  /** A version field is the unsigned value of the reply and is absent exactly when the read failed or was empty. */
  lemma VersionFieldProperties(t: Trace, id: int, address: int)
    ensures var (t1, v) := VersionField(t, id, address);
      && (!t.online ==> t1 == t && v == None)
      && (t.online ==> t1 == t.(log := t.log + [Read(id, address, 1)]) && v == ReadValue(At(t, 0), false))
  {
  }

  /**
   * get_firmware_version reads addresses 0, 1, 3 and 4, one byte each, in
   * that order; each field is None exactly when its read failed or
   * returned no data.
   */
  lemma FirmwareVersionProperties(t: Trace, id: int)
    ensures var (t1, info) := FirmwareVersionSpec(t, id);
      && info.servoId == id
      && t1.answer == t.answer && t1.online == t.online && t1.caps == t.caps
      && (!t.online ==> t1 == t && info == VersionInfo(id, None, None, None, None))
      && (t.online ==> t1.log == t.log + [Read(id, 0, 1), Read(id, 1, 1), Read(id, 3, 1), Read(id, 4, 1)])
      && (t.online ==>
            && info.firmwareMajor == ReadValue(At(t, 0), false)
            && info.firmwareMinor == ReadValue(At(t, 1), false)
            && info.hardwareMajor == ReadValue(At(t, 2), false)
            && info.hardwareMinor == ReadValue(At(t, 3), false))
  {
    var (t1, _) := VersionField(t, id, 0);
    var (t2, _) := VersionField(t1, id, 1);
    var (t3, _) := VersionField(t2, id, 3);
    VersionFieldProperties(t, id, 0);
    VersionFieldProperties(t1, id, 1);
    VersionFieldProperties(t2, id, 3);
    VersionFieldProperties(t3, id, 4);
    if t.online {
      assert At(t1, 0) == At(t, 1) && At(t2, 0) == At(t, 2) && At(t3, 0) == At(t, 3);
    }
  }

  // ---------------------------------------------------------------------------
  // Full diagnostics

  /** The names of the key status registers (the hardware_status keys). */
  datatype Register = Position | Speed | Voltage | Temperature | Current | HardwareErrorStatus | MovingStatus

  /** One entry of key_addresses: (address, length, name). */
  datatype KeyRegister = KeyRegister(address: int, length: int, name: Register)

  /** An entry of the diagnostics' errors list; the message texts are not modelled. */
  datatype DiagError = ConnectionFailed | ReadFailed(name: Register)

  datatype Diagnostics = Diagnostics(
    servoId: int,
    firmwareVersion: VersionInfo,
    hardwareStatus: map<Register, int>,
    errors: seq<DiagError>)

  const KEY_ADDRESSES: seq<KeyRegister> := [
    KeyRegister(MemoryMap.PRESENT_POSITION_L, 2, Position),
    KeyRegister(MemoryMap.PRESENT_SPEED_L, 2, Speed),
    KeyRegister(MemoryMap.PRESENT_VOLTAGE, 1, Voltage),
    KeyRegister(MemoryMap.PRESENT_TEMPERATURE, 1, Temperature),
    KeyRegister(MemoryMap.PRESENT_CURRENT_L, 2, Current),
    KeyRegister(MemoryMap.HARDWARE_ERROR_STATUS, 1, HardwareErrorStatus),
    KeyRegister(MemoryMap.MOVING_STATUS, 1, MovingStatus)
  ]

  predicate DistinctNames(keys: seq<KeyRegister>)
  {
    forall i, j :: 0 <= i < j < |keys| ==> keys[i].name != keys[j].name
  }

  lemma KeyAddressesDistinct()
    ensures DistinctNames(KEY_ADDRESSES) && |KEY_ADDRESSES| == 7
  {
  }

  /** The read commands of the loop over keys. */
  function KeyReads(id: int, keys: seq<KeyRegister>): (r: seq<Cmd>)
    ensures |r| == |keys|
    ensures forall j :: 0 <= j < |keys| ==> r[j] == Read(id, keys[j].address, keys[j].length)
  {
    if keys == [] then []
    else KeyReads(id, keys[..|keys| - 1]) + [Read(id, keys[|keys| - 1].address, keys[|keys| - 1].length)]
  }

  /** One pass of the key loop: a value for a successful, non-empty read, otherwise an error entry. */
  function ReadKey(t: Trace, id: int, key: KeyRegister, status: map<Register, int>, errors: seq<DiagError>)
    : (Trace, map<Register, int>, seq<DiagError>)
  {
    var (t1, (data, result)) := ReadMemorySpec(t, id, key.address, key.length);
    if result == 0 && data != [] then
      var value := if key.length == 1 then BytesToInt(data, false) else BytesToInt(data, true);
      (t1, status[key.name := value], errors)
    else (t1, status, errors + [ReadFailed(key.name)])
  }

  /** The loop over keys, in list order: (trace, hardware_status, errors). */
  function ReadKeys(t: Trace, id: int, keys: seq<KeyRegister>): (Trace, map<Register, int>, seq<DiagError>)
  {
    if keys == [] then (t, map[], [])
    else
      var (t1, status, errors) := ReadKeys(t, id, keys[..|keys| - 1]);
      ReadKey(t1, id, keys[|keys| - 1], status, errors)
  }

  /** Every name in hardware_status and every error belongs to one of the keys read. */
  lemma {:induction false} ReadKeysNames(t: Trace, id: int, keys: seq<KeyRegister>)
    ensures var (t1, status, errors) := ReadKeys(t, id, keys);
      && (forall name :: name in status ==> exists j :: 0 <= j < |keys| && keys[j].name == name)
      && (forall e :: e in errors ==> e.ReadFailed? && exists j :: 0 <= j < |keys| && keys[j].name == e.name)
  {
    if keys != [] {
      var n := |keys| - 1;
      var init := keys[..n];
      ReadKeysNames(t, id, init);
      var (t1, status, errors) := ReadKeys(t, id, init);
      var (t2, status2, errors2) := ReadKey(t1, id, keys[n], status, errors);
      forall e | e in errors2
        ensures e.ReadFailed? && exists j :: 0 <= j < |keys| && keys[j].name == e.name
      {
        if e in errors {
          var j :| 0 <= j < |init| && init[j].name == e.name;
          assert keys[j] == init[j];
        } else {
          assert keys[n].name == e.name;
        }
      }
      forall name | name in status2
        ensures exists j :: 0 <= j < |keys| && keys[j].name == name
      {
        if name in status {
          var j :| 0 <= j < |init| && init[j].name == name;
          assert keys[j] == init[j];
        } else {
          assert keys[n].name == name;
        }
      }
    }
  }

  /** With the handler present the loop reads every key once, in list order. */
  lemma {:induction false} ReadKeysLog(t: Trace, id: int, keys: seq<KeyRegister>)
    requires t.online
    ensures ReadKeys(t, id, keys).0 == t.(log := t.log + KeyReads(id, keys))
  {
    if keys != [] {
      var n := |keys| - 1;
      ReadKeysLog(t, id, keys[..n]);
      assert KeyReads(id, keys) == KeyReads(id, keys[..n]) + [Read(id, keys[n].address, keys[n].length)];
    }
  }

  /** One pass settles one new key: it adds either a status entry or an error. */
  lemma ReadKeyCount(t: Trace, id: int, key: KeyRegister, status: map<Register, int>, errors: seq<DiagError>)
    requires key.name !in status
    ensures var (t1, status1, errors1) := ReadKey(t, id, key, status, errors);
      |status1| + |errors1| == |status| + |errors| + 1
  {
  }

  /** Distinct names: every key lands either in hardware_status or in errors, never both. */
  lemma {:induction false} ReadKeysCount(t: Trace, id: int, keys: seq<KeyRegister>)
    requires DistinctNames(keys)
    ensures var (t1, status, errors) := ReadKeys(t, id, keys);
      |status| + |errors| == |keys|
  {
    if keys != [] {
      var n := |keys| - 1;
      var init, key := keys[..n], keys[n];
      assert DistinctNames(init) by {
        forall i, j | 0 <= i < j < |init| ensures init[i].name != init[j].name {
          assert init[i] == keys[i] && init[j] == keys[j];
        }
      }
      ReadKeysCount(t, id, init);
      ReadKeysNames(t, id, init);
      forall j | 0 <= j < n
        ensures init[j].name != key.name
      {
        assert init[j] == keys[j];
      }
      var (t1, status, errors) := ReadKeys(t, id, init);
      assert key.name !in status;
      ReadKeyCount(t1, id, key, status, errors);
      assert ReadKeys(t, id, keys) == ReadKey(t1, id, key, status, errors);
    }
  }

  /** One pass keeps what earlier passes stored for any other name and settles exactly the key it reads. */
  lemma ReadKeyStep(t: Trace, id: int, key: KeyRegister, status: map<Register, int>, errors: seq<DiagError>, name: Register)
    requires t.online
    ensures var (t1, status1, errors1) := ReadKey(t, id, key, status, errors);
      var v := ReadValue(At(t, 0), key.length != 1);
      && (v.Some? ==> key.name in status1 && status1[key.name] == v.value)
      && (v.None? ==> status1 == status && ReadFailed(key.name) in errors1)
      && (name != key.name ==> (name in status1 <==> name in status))
      && (name != key.name && name in status ==> status1[name] == status[name])
      && (ReadFailed(name) in errors ==> ReadFailed(name) in errors1)
  {
  }

  /**
   * Key by key, with the handler present: a key whose reply succeeded with
   * data gets its decoded value (unsigned for one byte, signed otherwise).
   */
  lemma {:induction false} ReadKeysStored(t: Trace, id: int, keys: seq<KeyRegister>)
    requires t.online && DistinctNames(keys)
    ensures var (t1, status, errors) := ReadKeys(t, id, keys);
      forall j :: 0 <= j < |keys| && ReadValue(At(t, j), keys[j].length != 1).Some? ==>
        keys[j].name in status && status[keys[j].name] == ReadValue(At(t, j), keys[j].length != 1).value
  {
    if keys != [] {
      var n := |keys| - 1;
      var init, key := keys[..n], keys[n];
      assert DistinctNames(init) by {
        forall i, j | 0 <= i < j < |init| ensures init[i].name != init[j].name {
          assert init[i] == keys[i] && init[j] == keys[j];
        }
      }
      ReadKeysStored(t, id, init);
      ReadKeysLog(t, id, init);
      var (t1, status, errors) := ReadKeys(t, id, init);
      assert At(t1, 0) == At(t, n);
      var (t2, status2, errors2) := ReadKey(t1, id, key, status, errors);
      forall j | 0 <= j < |keys| && ReadValue(At(t, j), keys[j].length != 1).Some?
        ensures keys[j].name in status2 && status2[keys[j].name] == ReadValue(At(t, j), keys[j].length != 1).value
      {
        ReadKeyStep(t1, id, key, status, errors, keys[j].name);
        if j < n {
          assert keys[j] == init[j] && init[j].name != key.name;
        }
      }
    }
  }

  /** A name that no key carries never enters hardware_status. */
  lemma {:induction false} ReadKeysAbsent(t: Trace, id: int, keys: seq<KeyRegister>, name: Register)
    requires forall j :: 0 <= j < |keys| ==> keys[j].name != name
    ensures name !in ReadKeys(t, id, keys).1
  {
    if keys != [] {
      var n := |keys| - 1;
      var init := keys[..n];
      assert forall j :: 0 <= j < |init| ==> init[j] == keys[j];
      ReadKeysAbsent(t, id, init, name);
    }
  }

  /** Key by key, with the handler present: every other key is left out of hardware_status and has an error entry. */
  lemma {:induction false} ReadKeysFailed(t: Trace, id: int, keys: seq<KeyRegister>)
    requires t.online && DistinctNames(keys)
    ensures var (t1, status, errors) := ReadKeys(t, id, keys);
      forall j :: 0 <= j < |keys| && ReadValue(At(t, j), keys[j].length != 1).None? ==>
        keys[j].name !in status && ReadFailed(keys[j].name) in errors
  {
    if keys != [] {
      var n := |keys| - 1;
      var init, key := keys[..n], keys[n];
      assert DistinctNames(init) by {
        forall i, j | 0 <= i < j < |init| ensures init[i].name != init[j].name {
          assert init[i] == keys[i] && init[j] == keys[j];
        }
      }
      ReadKeysFailed(t, id, init);
      ReadKeysLog(t, id, init);
      var (t1, status, errors) := ReadKeys(t, id, init);
      assert At(t1, 0) == At(t, n);
      assert key.name !in status by {
        forall j | 0 <= j < n
          ensures init[j].name != key.name
        {
          assert init[j] == keys[j];
        }
        ReadKeysAbsent(t, id, init, key.name);
      }
      var (t2, status2, errors2) := ReadKey(t1, id, key, status, errors);
      forall j | 0 <= j < |keys| && ReadValue(At(t, j), keys[j].length != 1).None?
        ensures keys[j].name !in status2 && ReadFailed(keys[j].name) in errors2
      {
        ReadKeyStep(t1, id, key, status, errors, keys[j].name);
        if j < n {
          assert keys[j] == init[j] && init[j].name != key.name;
        }
      }
    }
  }

  /** Without a handler every read fails: hardware_status stays empty and every key gets an error, in order. */
  lemma {:induction false} ReadKeysOffline(t: Trace, id: int, keys: seq<KeyRegister>)
    requires !t.online
    ensures var (t1, status, errors) := ReadKeys(t, id, keys);
      && t1 == t && status == map[] && |errors| == |keys|
      && forall j :: 0 <= j < |keys| ==> errors[j] == ReadFailed(keys[j].name)
  {
    if keys != [] {
      var n := |keys| - 1;
      var init := keys[..n];
      ReadKeysOffline(t, id, init);
      var (t1, status, errors) := ReadKeys(t, id, init);
      assert ReadKeys(t, id, keys) == (t, map[], errors + [ReadFailed(keys[n].name)]);
      forall j | 0 <= j < n
        ensures init[j] == keys[j]
      {
      }
    }
  }

  /**
   * get_full_diagnostics; the timestamp and the always-empty
   * memory_status and performance_metrics are not modelled.
   */
  function FullDiagnosticsSpec(t: Trace, id: int): (Trace, Diagnostics)
  {
    var (t1, version) := FirmwareVersionSpec(t, id);
    var (t2, (model, result)) := PingSpec(t1, id);
    if result != 0 then (t2, Diagnostics(id, version, map[], [ConnectionFailed]))
    else
      var (t3, status, errors) := ReadKeys(t2, id, KEY_ADDRESSES);
      (t3, Diagnostics(id, version, status, errors))
  }

  /**
   * get_full_diagnostics reads the version first and then pings.  A failed
   * ping records exactly one error and nothing else; otherwise the seven
   * key registers are read in list order and every one of them ends up
   * either in hardware_status or as one error.
   */
  lemma FullDiagnosticsProperties(t: Trace, id: int)
    ensures var (t1, version) := FirmwareVersionSpec(t, id);
      var ping := t1.answer(|t1.log|);
      var (t3, d) := FullDiagnosticsSpec(t, id);
      && d.servoId == id && d.firmwareVersion == version
      && (!(t.online && Succeeded(ping)) ==> d.hardwareStatus == map[] && d.errors == [ConnectionFailed])
      && (!t.online ==> t3 == t)
      && (t.online && !Succeeded(ping) ==> t3 == t1.(log := t1.log + [Ping(id)]))
      && (t.online && Succeeded(ping) ==>
            && t3 == t1.(log := t1.log + [Ping(id)] + KeyReads(id, KEY_ADDRESSES))
            && |d.hardwareStatus| + |d.errors| == 7
            && ConnectionFailed !in d.errors)
  {
    FirmwareVersionProperties(t, id);
    var (t1, version) := FirmwareVersionSpec(t, id);
    var (t2, _) := PingSpec(t1, id);
    if t.online && Succeeded(t1.answer(|t1.log|)) {
      KeyAddressesDistinct();
      ReadKeysLog(t2, id, KEY_ADDRESSES);
      ReadKeysCount(t2, id, KEY_ADDRESSES);
      ReadKeysNames(t2, id, KEY_ADDRESSES);
    }
  }

  lemma PrefixStep<T>(s: seq<T>, i: nat)
    requires i < |s|
    ensures s[..i + 1][..i] == s[..i] && s[..i + 1][i] == s[i] && |s[..i + 1]| == i + 1
  {
  }

  /** The diagnostic tools object: it only holds the connection manager. */
  class DiagnosticTools {
    const connection: ConnectionManager

    constructor (connection: ConnectionManager)
      ensures this.connection == connection
    {
      this.connection := connection;
    }

    /** get_firmware_version. */
    method GetFirmwareVersion(id: int) returns (info: VersionInfo)
      requires connection.Valid()
      modifies connection.bus
      ensures (connection.State(), info) == FirmwareVersionSpec(old(connection.State()), id)
    {
      info := VersionInfo(id, None, None, None, None);
      var data, result := connection.ReadMemory(id, MemoryMap.FIRMWARE_MAJOR_VERSION, 1);
      if result == 0 && data != [] {
        info := info.(firmwareMajor := Some(BytesToInt(data, false)));
      }
      data, result := connection.ReadMemory(id, MemoryMap.FIRMWARE_MINOR_VERSION, 1);
      if result == 0 && data != [] {
        info := info.(firmwareMinor := Some(BytesToInt(data, false)));
      }
      data, result := connection.ReadMemory(id, MemoryMap.SERVO_MAJOR_VERSION, 1);
      if result == 0 && data != [] {
        info := info.(hardwareMajor := Some(BytesToInt(data, false)));
      }
      data, result := connection.ReadMemory(id, MemoryMap.SERVO_MINOR_VERSION, 1);
      if result == 0 && data != [] {
        info := info.(hardwareMinor := Some(BytesToInt(data, false)));
      }
    }

    /** The loop of get_full_diagnostics over key_addresses. */
    method ReadKeyRegisters(id: int) returns (status: map<Register, int>, errors: seq<DiagError>)
      requires connection.Valid()
      modifies connection.bus
      ensures (connection.State(), status, errors) == ReadKeys(old(connection.State()), id, KEY_ADDRESSES)
    {
      ghost var t0 := connection.State();
      status, errors := map[], [];
      var i := 0;
      while i < |KEY_ADDRESSES|
        invariant 0 <= i <= |KEY_ADDRESSES|
        invariant connection.Valid()
        invariant (connection.State(), status, errors) == ReadKeys(t0, id, KEY_ADDRESSES[..i])
      {
        var key := KEY_ADDRESSES[i];
        PrefixStep(KEY_ADDRESSES, i);
        var data, result := connection.ReadMemory(id, key.address, key.length);
        if result == 0 && data != [] {
          var value;
          if key.length == 1 {
            value := BytesToInt(data, false);
          } else {
            value := BytesToInt(data, true);
          }
          status := status[key.name := value];
        } else {
          errors := errors + [ReadFailed(key.name)];
        }
        i := i + 1;
      }
      assert KEY_ADDRESSES[..i] == KEY_ADDRESSES;
    }

    /** get_full_diagnostics. */
    method GetFullDiagnostics(id: int) returns (d: Diagnostics)
      requires connection.Valid()
      modifies connection.bus
      ensures (connection.State(), d) == FullDiagnosticsSpec(old(connection.State()), id)
    {
      var version := GetFirmwareVersion(id);
      var model, result := connection.Ping(id);
      if result != 0 {
        d := Diagnostics(id, version, map[], [ConnectionFailed]);
        return;
      }
      var status, errors := ReadKeyRegisters(id);
      d := Diagnostics(id, version, status, errors);
    }
  }
}
