# Seeed RoboController servo toolkit, modelled in Dafny

This project models the part of the Seeed RoboController (FTServo) toolkit
that can be checked without hardware. That part is everything that sits on
top of the vendor servo SDK's packet handler:

- the little-endian byte codec, the register table and the memory-map
  parser;
- the communication constants;
- the connection manager;
- the control modules (basic control, PID, safety, hardware configuration,
  status monitoring, diagnostics);
- the stand-alone calibration and test scripts;
- the ID-change worker of the factory GUI;
- the synchronous servo helpers of the two WebSocket servers.

The SDK itself is abstract. `Bus.Handler` records every call it is given
(ping, register read and write, EEPROM unlock and lock, position moves,
torque enable). It takes the reply to its k-th call from an oracle:
either an exception, or a communication result with a value and the bytes
read.

A step-by-step operation of the source becomes a `method`. Its `ensures`
ties the handler's new log and the method's result to a function of the
handler state before the call. Lemmas about those functions state what the
source promises:

- which calls are sent, in which order;
- where a sequence stops early;
- whether the EEPROM is locked again;
- how results are counted and decoded.

Pure code (the codec, the tables, the error-bit decoding) becomes
functions, and lemmas relate each one to an independent reference
definition or to its inverse.

## Model

| member | source | states |
|---|---|---|
| DataParser.BytesToInt | utils/data_parser.py:17-47 | empty data gives 0; unsigned is the little-endian sum of b[i]·256^i; signed lies in [−2^(8n−1), 2^(8n−1)) and differs from the unsigned value by a multiple of 256^n |
| DataParser.HighBit | utils/data_parser.py:43-45 | the last byte has bit 0x80 set exactly when the unsigned value is in the upper half of [0, 256^n), so the sign extension subtracts 256^n exactly for the negative values |
| DataParser.BytesToIntFallback | utils/data_parser.py:38-47 | the manual OR-and-shift loop with sign extension computes BytesToInt |
| DataParser.UnsignedLeBytes | utils/data_parser.py:70-73 | the shift-and-mask encoding of n bytes holds value mod 256^n |
| DataParser.LeBytesAt | utils/data_parser.py:71-72 | byte i of the encoding is (v >> 8i) & 0xFF |
| DataParser.LeBytes | utils/data_parser.py:69-72 | the manual fallback's encoding has exactly n bytes |
| DataParser.LeBytesUnsigned | utils/data_parser.py:17-73 | encoding the unsigned value of a byte string gives the bytes back |
| DataParser.IntToBytes | utils/data_parser.py:50-73 | the intended int_to_bytes: exactly `length` bytes holding value mod 256^length |
| DataParser.IntToBytesFallback | utils/data_parser.py:69-73 | the bytearray loop computes IntToBytes |
| DataParser.IntToBytesAsWritten | utils/data_parser.py:62-73 | int_to_bytes as written: no result (an exception) exactly for a negative length and a value that does not fit one byte; a value that fits the chosen struct format gives that format's width, otherwise `length` bytes |
| DataParser.IntToBytesAgrees | utils/data_parser.py:62-67 | for lengths 1, 2 and 4 the code as written equals IntToBytes |
| DataParser.IntToBytesShortResult | utils/data_parser.py:62-67 | for any other length and a value that fits one byte, the code returns one byte, not `length` |
| DataParser.IntToBytesFiveInThree | utils/data_parser.py:62-67 | int_to_bytes(5, 3) returns one byte [5], while [5, 0, 0] was asked for |
| DataParser.RoundTripUnsigned | utils/data_parser.py:17-73 | an unsigned value below 256^n encodes to n bytes that decode back to it |
| DataParser.RoundTripSigned | utils/data_parser.py:17-73 | a two's-complement value of n ≥ 1 bytes encodes and decodes back to itself |
| DataParser.EncodeDecoded | utils/data_parser.py:17-73 | decoding a byte string, signed or not, and encoding it at its length gives the bytes back |
| DataParser.ParsePosition | utils/data_parser.py:76-78 | a signed decode: of two bytes it lies in int16 and is congruent to the unsigned value mod 65536 |
| DataParser.ParseSpeed | utils/data_parser.py:81-83 | a signed decode, as ParsePosition |
| DataParser.ParseCurrent | utils/data_parser.py:86-88 | a signed decode, as ParsePosition |
| DataParser.ParseTorque | utils/data_parser.py:91-93 | a signed decode, as ParsePosition |
| DataParser.ParseTemperature | utils/data_parser.py:101-103 | an unsigned decode in [0, 256^n); one byte is that byte |
| DataParser.ParseVoltage | utils/data_parser.py:96-98 | the unsigned decode (in tenths of a volt) lies in [0, 256^n); one byte is that byte |
| DataParser.ParseValue | utils/data_parser.py:141-154 | no value exactly for empty data; one byte unsigned; two or four bytes signed; any other length the raw bytes |
| DataParser.NewRegisterValue | utils/data_parser.py:134-138 | keeps address and data, parses the value, and takes the table name exactly when no non-empty name is given |
| DataParser.FindRegion | utils/data_parser.py:229-232 | a region is found exactly when one from index i on holds the address, and the name returned is such a region's |
| DataParser.GetRegionInfo | utils/data_parser.py:227-232 | a name exactly when some region holds the address, and then that region's name |
| DataParser.RegionsDisjoint | utils/data_parser.py:195-202 | every region has start ≤ end and no two regions share an address, so the name found is unique |
| DataParser.RegionCoverage | utils/data_parser.py:195-202 | exactly the addresses 0..69 and 80..86 have a region |
| DataParser.RegionValuesExact | utils/data_parser.py:217-221 | every value in a region's list is the register value of a dump address inside the region, every dump address inside the region has one, and the addresses ascend |
| DataParser.RegionNamesDistinct | utils/data_parser.py:195-202 | the six region names differ, so no entry overwrites another |
| DataParser.DumpSpecKeys | utils/data_parser.py:214-223 | the result's keys are exactly the region names |
| DataParser.DumpSpecValue | utils/data_parser.py:216-223 | each region name maps to that region's values |
| DataParser.DumpSpecEntries | utils/data_parser.py:204-225 | parse_memory_dump returns one entry per region name, holding that region's values |
| DataParser.ParseMemoryDump | utils/data_parser.py:204-225 | the nested loops compute that result |
| DataParser.CollectRegion | utils/data_parser.py:217-221 | the inner loop over range(start, end + 1) returns exactly the region values RegionValues describes, and nothing for end < start |
| Settings.BaudrateKeys | config/settings.py:24-36 | the baud-rate table has exactly the indices 0..7, and index 0 is the default rate of 1000000 |
| Settings.BaudratesDecreasing | config/settings.py:27-36 | a higher index always means a strictly lower rate |
| Settings.ProtocolNamed | config/settings.py:39-46 | each protocol handler is found under exactly its own name, "hls", "scscl" or "sms_sts" |
| Settings.DefaultsInRange | config/settings.py:53-103 | the centre position, the temperature limit, the voltage window, the default PID gains and the startup torque all lie within their ranges; the voltage window is non-empty |
| Settings.ErrorBitsAreBits | config/settings.py:199-204 | the six hardware error bits are the single bits 2^0..2^5, ascending and below 0x40 |
| Settings.ErrorCodesDistinct | config/settings.py:191-210 | the communication codes and the application error codes are pairwise distinct, strictly descending from COMM_SUCCESS |
| MemoryMap.RegionsWellFormed | config/memory_map.py:104-142 | each region of the register map has start ≤ end, no address lies in two regions, and 18..20 lie in none |
| MemoryMap.NameKeys | config/memory_map.py:147-224 | an address has a name exactly when it is 0, 1, 3..69 or 80..86 |
| MemoryMap.GetAddressOfName | config/memory_map.py:147-237 | every named address is found again by get_address from its name |
| MemoryMap.GetAddressSound | config/memory_map.py:232-237 | whatever get_address returns is the address that carries that name |
| MemoryMap.GetAddressNone | config/memory_map.py:232-237 | get_address finds nothing exactly when no address carries the name |
| MemoryMap.IntToDecimal | config/memory_map.py:229 | the decimal text of an integer: a leading '-' exactly for negatives, then digits whose value is the magnitude |
| MemoryMap.NatToDecimal | config/memory_map.py:229 | the decimal digits of a natural number: at least one digit and no leading zero |
| MemoryMap.DecimalRoundTrip | config/memory_map.py:229 | reading back the decimal digits of n gives n |
| MemoryMap.IntToDecimalInjective | config/memory_map.py:229 | different integers have different decimal texts |
| MemoryMap.GetName | config/memory_map.py:227-229 | the table name of a named address; otherwise "UNKNOWN_" followed by the address in decimal |
| MemoryMap.GetNameInjective | config/memory_map.py:147-229 | two addresses with the same get_name are equal, since no table name starts with "UNKNOWN_" |
| MemoryMap.GetAddressOfGetName | config/memory_map.py:147-237 | get_address(get_name(a)) is a for a named address and nothing for an unnamed one |
| MemoryMap.ConstantsNamed | config/memory_map.py:12-101 | every MemoryMap constant is the address the name table gives its own name |
| MemoryMap.HighFollowsLow | config/memory_map.py:24-92 | for every two-byte register, the _H address is the _L address plus one |
| Connection.ConnectSpec | core/connection_manager.py:55-90 | connected exactly when the port opens, the baud rate is set and the protocol name is known, and then the port is open and the handler is that protocol's; a failed open, a failed baud rate or an unknown protocol leave a closed port and no handler; an exception leaves neither |
| Connection.ConnectionManager.constructor | core/connection_manager.py:18-38 | an empty port name or a zero baud rate falls back to the defaults; the manager starts disconnected with no port and no handler |
| Connection.ConnectionManager.Connect | core/connection_manager.py:40-90 | already connected: true and nothing changes; otherwise the new state and the result are ConnectSpec's |
| Connection.ConnectionManager.Disconnect | core/connection_manager.py:92-99 | afterwards disconnected; if it was connected, port and handler are dropped, otherwise they are kept |
| Connection.ConnectionManager.Cleanup | core/connection_manager.py:101-110 | port and handler are dropped and the connected flag is untouched |
| Connection.ConnectionManager.ResetConnection | core/connection_manager.py:221-226 | after disconnect, the state is the one a fresh connect with the default protocol gives |
| Connection.ConnectionManager.GetConnectionStatus | core/connection_manager.py:212-219 | reports the connected flag and the handler's protocol |
| Connection.PingSpec | core/connection_manager.py:112-130 | without a handler nothing is sent and the result is ERROR_OPERATION_FAILED; otherwise exactly one ping is sent, its model and result are returned, and an exception gives ERROR_OPERATION_FAILED; the result is success exactly when the ping succeeded |
| Connection.ConnectionManager.Ping | core/connection_manager.py:112-130 | the handler's new log and the result are PingSpec's |
| Connection.ReadMemorySpec | core/connection_manager.py:132-152 | without a handler nothing is sent; otherwise one readTxRx, whose data and result are returned; an exception gives no data and ERROR_OPERATION_FAILED |
| Connection.ConnectionManager.ReadMemory | core/connection_manager.py:132-152 | the new log and the result are ReadMemorySpec's |
| Connection.WriteMemorySpec | core/connection_manager.py:154-175 | without a handler nothing is sent; otherwise one writeTxRx, whose result is returned; an exception gives ERROR_OPERATION_FAILED |
| Connection.ConnectionManager.WriteMemory | core/connection_manager.py:154-175 | the new log and the result are WriteMemorySpec's |
| Connection.IdRange | core/connection_manager.py:195 | range(lo, hi): hi − lo ids from lo upward, none when hi ≤ lo |
| Connection.ScanUpToLog | core/connection_manager.py:195-198 | the scan loop pings every id of the range once, in ascending order, and sends nothing else |
| Connection.ScanUpToFound | core/connection_manager.py:195-207 | the servos found ascend, lie in the range, each answered its ping with COMM_SUCCESS and reports that ping's model number, and an id is found exactly when its ping succeeded |
| Connection.ScanServosProperties | core/connection_manager.py:177-210 | not connected: nothing sent and nothing found; connected: ids start..end pinged in order and an id is found exactly when its ping succeeded |
| Connection.ConnectionManager.ScanServos | core/connection_manager.py:177-210 | the loop's new log and found list are ScanServosSpec's |
| BasicControl.WritePositionCommands | modules/basic_control.py:29-67 | a position, speed or acceleration out of range sends nothing and gives ERROR_INVALID_PARAMETER; otherwise one command is sent (WritePosEx with MAX_TORQUE when the handler has it, else the two position bytes at GOAL_POSITION_L) and the result is COMM_SUCCESS exactly when that command succeeded; without a handler nothing is sent and the result is ERROR_OPERATION_FAILED |
| BasicControl.WritePositionBytes | modules/basic_control.py:62-63 | a position in 0..4095 is written as two bytes that decode back to it |
| BasicControl.WriteSpeedCommands | modules/basic_control.py:95-117 | a speed of magnitude above MAX_SPEED sends nothing and gives ERROR_INVALID_PARAMETER; otherwise one two-byte write at GOAL_SPEED_L whose signed value is the speed |
| BasicControl.EnableTorqueCommands | modules/basic_control.py:145-162 | one one-byte write of 1 or 0 at TORQUE_ENABLE; without a handler nothing is sent and the result is ERROR_OPERATION_FAILED |
| BasicControl.SetTorqueLimitCommands | modules/basic_control.py:164-184 | a limit outside 0..2047 sends nothing and gives ERROR_INVALID_PARAMETER; otherwise one two-byte write at TORQUE_LIMIT_L whose unsigned value is the limit |
| BasicControl.StopServoCommands | modules/basic_control.py:222-243 | one position read; a failed read returns its result and sends nothing more; a successful one commands the position just read with speed and acceleration 0 |
| BasicControl.GetServoStatusOffline | modules/basic_control.py:245-305 | a failed ping gives the disconnected status after that ping alone; the status says connected exactly when the ping succeeded |
| BasicControl.MultiServoKeys | modules/basic_control.py:307-328 | the result has an entry for exactly the ids in the configuration list |
| BasicControl.MultiServoValues | modules/basic_control.py:319-326 | the entry for an id is the write_position result of the last configuration naming it (missing fields defaulting to CENTER_POSITION, 100, 50), sent on the trace left by every earlier configuration |
| BasicControl.MultiServoDefaults | modules/basic_control.py:319-326 | a configuration with only an id moves to the centre 2048 with speed 100 and acceleration 50, which are in range |
| BasicControl.BasicControl.WritePosition | modules/basic_control.py:29-67 | the handler's new log and the result are those of the write_position specification |
| BasicControl.BasicControl.ReadPosition | modules/basic_control.py:69-93 | ReadPos when the handler has it (an exception gives no position and ERROR_OPERATION_FAILED), else a two-byte read of PRESENT_POSITION_L decoded as signed only on success with data |
| BasicControl.BasicControl.ReadSpeed | modules/basic_control.py:119-143 | as ReadPosition, with ReadSpeed and PRESENT_SPEED_L |
| BasicControl.BasicControl.WriteSpeed | modules/basic_control.py:95-117 | the new log and result are the write_speed specification's |
| BasicControl.BasicControl.EnableTorque | modules/basic_control.py:145-162 | the new log and result are the enable_torque specification's |
| BasicControl.BasicControl.SetTorqueLimit | modules/basic_control.py:164-184 | the new log and result are the set_torque_limit specification's |
| BasicControl.BasicControl.StopServo | modules/basic_control.py:222-243 | the new log and result are the stop_servo specification's; a successful read without a position gives ERROR_OPERATION_FAILED |
| BasicControl.BasicControl.GetServoStatus | modules/basic_control.py:245-305 | after a successful ping: position, speed, voltage, temperature and moving flag, each kept only when its own read succeeded |
| BasicControl.BasicControl.MultiServoControl | modules/basic_control.py:307-328 | the loop's new log and result map are those of the configurations applied in order, a later entry for an id replacing an earlier one |
| PidController.WritePositionPidRejects | modules/pid_controller.py:79-85 | the call sends nothing and gives ERROR_INVALID_PARAMETER exactly when some gain is outside 0..255 |
| PidController.WritePositionPidSequence | modules/pid_controller.py:87-114 | Unlock, then P@21, I@23, D@22, then Lock; the first non-zero result among unlock and the three writes is returned at once and no Lock follows; after three good writes Lock is sent and the result is 0 whatever Lock returned, unless Lock raised |
| PidController.WritePositionPidOffline | modules/pid_controller.py:87-114 | with no handler, valid gains give ERROR_OPERATION_FAILED and nothing is sent |
| PidController.WriteSpeedPidSequence | modules/pid_controller.py:164-194 | P outside 0..255 or I outside int16 sends nothing and gives ERROR_INVALID_PARAMETER; with no handler ERROR_OPERATION_FAILED; a failing unlock, P write or I write is returned at once with the log ending at that command and no Lock; when all three succeed the log is Unlock, P@41, the two signed bytes of I @44, Lock, and the result is 0 exactly when the Lock did not raise; I's bytes decode back to I |
| PidController.WriteStartupTorqueSequence | modules/pid_controller.py:236-259 | a value outside 0..255 sends nothing; with no handler ERROR_OPERATION_FAILED and nothing sent; a failed unlock returns its result with nothing else sent; after a good unlock, the write @24 is always followed by Lock, and the write's result is returned, or ERROR_OPERATION_FAILED when the Lock raised |
| PidController.ReadPositionPidSequence | modules/pid_controller.py:38-64 | with no handler, or a raising unlock, (None, −1) after at most the Unlock; a raising Lock gives (None, −1); otherwise Unlock, reads @21, @23, @22, Lock, and gains exactly when all three reads succeeded with data, then result 0 and [P, I, D] the unsigned bytes read; every failure −1 |
| PidController.ReadSpeedPidSequence | modules/pid_controller.py:126-150 | the same exception paths; otherwise Unlock, read @41, two-byte read @44, Lock; gains exactly when both succeeded with enough data, then result 0 and [P, I] the unsigned P byte and the signed decode of the first two I bytes, a 16-bit value; every failure −1 |
| PidController.ReadStartupTorqueSequence | modules/pid_controller.py:206-223 | a raising unlock or Lock gives (None, −1); otherwise Unlock, read @24, Lock, the read's result is returned, and a value exactly when the read succeeded with data, the unsigned byte read |
| PidController.SetPidParamsAttempts | modules/pid_controller.py:277-300 | one attempt for each component that is present and correctly sized, the others skipped; with nothing supplied nothing is sent; the position attempt is write_position_pid's result |
| PidController.PIDController.ReadPositionPid | modules/pid_controller.py:28-64 | the new log and result are those of the read_position_pid specification |
| PidController.PIDController.WritePositionPid | modules/pid_controller.py:66-114 | the new log and result are those of the write_position_pid specification |
| PidController.PIDController.ReadSpeedPid | modules/pid_controller.py:116-150 | the new log and result are those of the read_speed_pid specification |
| PidController.PIDController.WriteSpeedPid | modules/pid_controller.py:152-194 | the new log and result are those of the write_speed_pid specification |
| PidController.PIDController.ReadStartupTorque | modules/pid_controller.py:196-223 | the new log and result are those of the read_startup_torque specification |
| PidController.PIDController.WriteStartupTorque | modules/pid_controller.py:225-259 | the new log and result are those of the write_startup_torque specification |
| PidController.PIDController.SetPidParams | modules/pid_controller.py:261-300 | the log is the attempts' log, and the result is true exactly when every attempt returned 0 |
| SafetyManager.TemperatureLimitSequence | modules/safety_manager.py:39-61 | a limit outside 0..100 sends nothing and gives ERROR_INVALID_PARAMETER; with no handler ERROR_OPERATION_FAILED and nothing sent; a failed unlock returns its result with nothing else sent; otherwise Write(13, [limit]) is always followed by Lock, and the write's result is returned, or ERROR_OPERATION_FAILED when the Lock raised |
| SafetyManager.VoltageLimitsSequence | modules/safety_manager.py:79-107 | either value outside 50..250 tenths sends nothing; with no handler ERROR_OPERATION_FAILED; a failed unlock returns its result with nothing else sent; otherwise max@14 and min@15 are both written, then Lock; a raising Lock gives ERROR_OPERATION_FAILED; else the result is 0 exactly when both writes gave 0, the max write's result when it is non-zero and the min write's otherwise |
| SafetyManager.VoltageOrderUnchecked | modules/safety_manager.py:79-95 | for every in-range pair with the minimum above the maximum, after a good unlock both values are written as given, and ERROR_INVALID_PARAMETER comes back only if a write itself reported it |
| SafetyManager.ConfigureSafetyAttemptsCount | modules/safety_manager.py:123-139 | one attempt for a present temperature limit and one for a voltage range of exactly two values, nothing sent when neither is present; the temperature attempt is configure_temperature_limit's result |
| SafetyManager.SafetyManager.ConfigureTemperatureLimit | modules/safety_manager.py:28-61 | the new log and result are those of the configure_temperature_limit specification |
| SafetyManager.SafetyManager.ConfigureVoltageLimits | modules/safety_manager.py:63-107 | the new log and result are those of the configure_voltage_limits specification, with both voltages given in tenths of a volt |
| SafetyManager.SafetyManager.ConfigureSafety | modules/safety_manager.py:109-139 | the log is the attempts' log and the result is true exactly when every attempt returned 0 |
| HardwareConfig.SetServoIdSequence | modules/hardware_config.py:39-61 | new_id outside 1..253 sends nothing and gives ERROR_INVALID_PARAMETER, and only then; with no handler ERROR_OPERATION_FAILED and nothing sent; a failed unlock of current_id returns its result with nothing else sent; otherwise Write(current_id, 5, [new_id]) then Lock(current_id), returning the write's result, or ERROR_OPERATION_FAILED when the Lock raised |
| HardwareConfig.SetServoIdAnyCurrent | modules/hardware_config.py:39-44 | current_id is not validated: any current id gets the unlock |
| HardwareConfig.ReadServoIdValue | modules/hardware_config.py:73-81 | one one-byte read at address 5; a value exactly when it succeeded with data, and then the unsigned byte |
| HardwareConfig.HardwareConfig.SetServoId | modules/hardware_config.py:28-61 | the new log and result are those of the set_servo_id specification |
| HardwareConfig.HardwareConfig.ReadServoId | modules/hardware_config.py:63-81 | the new log and result are those of the read_servo_id specification |
| StatusMonitor.KindBit | modules/status_monitor.py:356-367 | each hardware error kind has the bit position of its message in the ordered kind list |
| StatusMonitor.HardwareErrorsMembers | modules/status_monitor.py:352-369 | the message for bit k (k < 6) is reported exactly when bit k of the status is set |
| StatusMonitor.HardwareErrorsAscending | modules/status_monitor.py:356-367 | the messages come in ascending bit order, so there are no duplicates |
| StatusMonitor.ErrorsFromAscending | modules/status_monitor.py:356-367 | the bit tests from bit k on give messages for bits k and above only, in strictly ascending bit order |
| StatusMonitor.ErrorsFromMask | modules/status_monitor.py:356-367 | only the low six bits of the status matter |
| StatusMonitor.HardwareErrorsMask | modules/status_monitor.py:352-369 | bits from 0x40 up are ignored, the number of messages is the popcount of status & 0x3F, and a status with no low bit set gives no message |
| StatusMonitor.BitsAreErrBits | modules/status_monitor.py:356-367 | the bit tested for kind k is the settings' ERRBIT of index k |
| StatusMonitor.ErrorsFromMembers | modules/status_monitor.py:356-367 | from bit k on, a kind is reported exactly when its bit is at least k and set |
| StatusMonitor.ErrorsFromCount | modules/status_monitor.py:356-367 | from bit k on, the number of messages is the popcount of the remaining bits |
| StatusMonitor.StatusMonitor.ParseHardwareErrors | modules/status_monitor.py:352-369 | the six bit tests append exactly the messages of HardwareErrors, in order |
| StatusMonitor.ReadTemperatureSequence | modules/status_monitor.py:35-55 | one one-byte read at PRESENT_TEMPERATURE (64) and its result; a value exactly when it succeeded with data, the unsigned value, below 256 for one byte; no handler: nothing sent and ERROR_OPERATION_FAILED |
| StatusMonitor.ReadTemperatureLimitSequence | modules/status_monitor.py:57-84 | Unlock, Read(13, 1), Lock, none of whose results stops the sequence; an exception (no handler, a raising unlock or lock) gives no value and −1; otherwise the read's result, and a value exactly when it succeeded with data |
| StatusMonitor.ReadCurrentSequence | modules/status_monitor.py:107-126 | one two-byte read at PRESENT_CURRENT_L; a value exactly when it succeeded with at least two bytes, the signed decode, within int16 for two bytes |
| StatusMonitor.ReadVoltageAndErrorStatusSequence | modules/status_monitor.py:86-147 | one one-byte read at PRESENT_VOLTAGE, or at HARDWARE_ERROR_STATUS; a value exactly when it succeeded with data, the unsigned value |
| StatusMonitor.LevelOfProperties | modules/status_monitor.py:189-201 | the warning level never falls as the temperature rises; a temperature at or over a positive limit is critical; a limit of 0 or less gives normal; below 60 % of the limit is normal |
| StatusMonitor.BasicStageFrame | modules/status_monitor.py:168-177 | the ReadPos/ReadSpeed stage changes only position and speed, keeps the oracle, and does nothing after an exception |
| StatusMonitor.TemperatureStageFrame | modules/status_monitor.py:180-201 | the temperature stage changes only temperature, limit and level; a level is set only for a non-zero temperature with a limit, and is the level of their ratio |
| StatusMonitor.ElectricalStageFrame | modules/status_monitor.py:203-211 | the voltage and current stage changes only those two fields |
| StatusMonitor.ErrorStageFrame | modules/status_monitor.py:213-222 | the error stage changes only the hardware error, the error list and the sync flag; an error list is present only with a hardware error, and is its decoding |
| StatusMonitor.StatusMonitor.ReadBasicStatus | modules/status_monitor.py:168-177 | the position and speed reads and the status they give are those of the basic stage |
| StatusMonitor.StatusMonitor.ReadTemperatureStatus | modules/status_monitor.py:180-201 | the temperature reads and the status they give are those of the temperature stage |
| StatusMonitor.StatusMonitor.ReadElectricalStatus | modules/status_monitor.py:203-211 | the voltage and current reads and the status they give are those of the electrical stage |
| StatusMonitor.StatusMonitor.ReadErrorStatus | modules/status_monitor.py:213-222 | the error-status read and the status it gives are those of the error stage |
| StatusMonitor.StatusMonitor.constructor | modules/status_monitor.py:20-33 | bound to its connection, not monitoring and with no callbacks |
| StatusMonitor.CompleteStatusProperties | modules/status_monitor.py:149-228 | get_complete_status keeps the id; any level agrees with the temperature and limit; the errors are the decoding of the hardware error read; no handler gives the empty status with nothing sent |
| StatusMonitor.ClassifyProperties | modules/status_monitor.py:400-411 | any hardware error makes the servo critical; caution and normal without errors are healthy; a higher level never gives a better health |
| StatusMonitor.HardwareIssues | modules/status_monitor.py:413-414 | one issue per hardware error, in order |
| StatusMonitor.Details | modules/status_monitor.py:388-422 | one detail per scanned servo, in scan order, each from that servo's status |
| StatusMonitor.CountHealthSum | modules/status_monitor.py:403-411 | each detail is counted in exactly one of healthy, warning and critical |
| StatusMonitor.HealthReportCounts | modules/status_monitor.py:371-428 | the report's healthy + warning + critical equals the total, which is the number of servos the scan of ids 1..20 found, and the details carry those servos' ids and model numbers in order |
| StatusMonitor.StatusMonitor.ReadTemperature | modules/status_monitor.py:35-55 | the new log and result are those of the read_temperature specification |
| StatusMonitor.StatusMonitor.ReadTemperatureLimit | modules/status_monitor.py:57-84 | the new log and result are those of the read_temperature_limit specification |
| StatusMonitor.StatusMonitor.ReadVoltage | modules/status_monitor.py:86-105 | the new log and result are those of the read_voltage specification (raw tenths of a volt) |
| StatusMonitor.StatusMonitor.ReadCurrent | modules/status_monitor.py:107-126 | the new log and result are those of the read_current specification |
| StatusMonitor.StatusMonitor.ReadHardwareErrorStatus | modules/status_monitor.py:128-147 | the new log and result are those of the read_hardware_error_status specification |
| StatusMonitor.StatusMonitor.GetCompleteStatus | modules/status_monitor.py:149-228 | the four stages run in order and give the get_complete_status specification's log and status |
| StatusMonitor.StatusMonitor.CollectDetails | modules/status_monitor.py:388-422 | the loop's log and details are those of the statuses taken in scan order, and the three counters count the details of each health |
| StatusMonitor.StatusMonitor.GetSystemHealthReport | modules/status_monitor.py:371-428 | the new log and report are those of the health report specification |
| StatusMonitor.StatusMonitor.StartContinuousMonitoring | modules/status_monitor.py:291-315 | already monitoring: nothing changes; otherwise monitoring starts and a given callback is appended |
| StatusMonitor.StatusMonitor.StopContinuousMonitoring | modules/status_monitor.py:317-326 | monitoring stops and the callbacks stay |
| StatusMonitor.StatusMonitor.AddMonitorCallback | modules/status_monitor.py:348-350 | the callback is appended and the monitoring flag is unchanged |
| DiagnosticTools.ReadValue | modules/diagnostic_tools.py:113-118 | a value exactly when the read succeeded with data; unsigned values lie in [0, 256^n), signed ones in the two's-complement range of n bytes |
| DiagnosticTools.VersionFieldProperties | modules/diagnostic_tools.py:49-64 | one one-byte read at the address, decoded only when it succeeded with data; no handler: nothing sent and no value |
| DiagnosticTools.FirmwareVersionProperties | modules/diagnostic_tools.py:28-70 | reads addresses 0, 1, 3, 4 in order into firmware major/minor and hardware major/minor, each None exactly when its read failed or gave no data |
| DiagnosticTools.KeyAddressesDistinct | modules/diagnostic_tools.py:100-108 | the seven key registers have distinct names |
| DiagnosticTools.KeyReads | modules/diagnostic_tools.py:110-112 | one read per key register, with its address and length, in list order |
| DiagnosticTools.ReadKeysNames | modules/diagnostic_tools.py:110-122 | the hardware status only holds key register names, and every error names a key register |
| DiagnosticTools.ReadKeysLog | modules/diagnostic_tools.py:110-112 | the loop sends exactly the key reads, in order |
| DiagnosticTools.ReadKeyStep | modules/diagnostic_tools.py:111-122 | a successful read stores its decoded value (unsigned for one byte, signed otherwise) under its name; a failed one adds an error for that name; other entries and earlier errors stay |
| DiagnosticTools.ReadKeysCount | modules/diagnostic_tools.py:110-122 | with distinct names, stored entries plus errors equal the number of key registers |
| DiagnosticTools.ReadKeysStored | modules/diagnostic_tools.py:113-118 | every register whose read succeeded with data has its decoded value in the hardware status |
| DiagnosticTools.ReadKeysFailed | modules/diagnostic_tools.py:119-122 | every register whose read failed is missing from the hardware status and has an error |
| DiagnosticTools.ReadKeysOffline | modules/diagnostic_tools.py:110-122 | without a handler nothing is sent, nothing is stored and there is one error per register, in order |
| DiagnosticTools.FullDiagnosticsProperties | modules/diagnostic_tools.py:72-128 | the firmware version comes first; a failed ping records exactly one connection error and an empty hardware status; otherwise the seven reads follow the ping, and stored entries plus errors are 7 |
| DiagnosticTools.DiagnosticTools.GetFirmwareVersion | modules/diagnostic_tools.py:28-70 | the new log and version record are those of the get_firmware_version specification |
| DiagnosticTools.DiagnosticTools.ReadKeyRegisters | modules/diagnostic_tools.py:99-122 | the loop's new log, status map and error list are those of the key-register fold |
| DiagnosticTools.DiagnosticTools.GetFullDiagnostics | modules/diagnostic_tools.py:72-128 | the new log and diagnostics are those of the get_full_diagnostics specification |
| ScriptOps.PingEach | servo_middle_calibration.py:130-152 | the trace keeps its oracle, online flag and capabilities; no more IDs are found than were pinged |
| ScriptOps.PingEachLog | servo_middle_calibration.py:137-150 | the scan sends exactly one ping per candidate ID, in order |
| ScriptOps.PingEachFound | servo_middle_calibration.py:140-146 | an ID is reported found exactly when one of its pings was answered with success |
| ScriptOps.PingEachAscending | servo_middle_calibration.py:137-150 | scanning an ascending ID list reports found IDs in ascending order, each taken from the list |
| ScriptOps.ScanOneToSix | servo_remote_control.py:90-120 | scanning IDs 1..6 pings each once, yields an ascending subset of 1..6, and ID k is found exactly when the k-th ping succeeded |
| ScriptOps.Cmds | servo_disable.py:52-60 | one command per ID, the k-th built from the k-th ID |
| ScriptOps.Successes | servo_disable.py:55-57 | the success count over m replies never exceeds m |
| ScriptOps.RaisedBeforeExists | servo_disable.py:46-68 | "an exception was raised among the first m commands" holds exactly when some reply before m is an exception |
| ScriptOps.NoRaiseAll | servo_disable.py:46-68 | "no exception in [lo, hi)" holds exactly when no reply in that range is an exception |
| ScriptOps.CountEach | servo_disable.py:52-60 | the count is at most the number of IDs; at most one command per ID is appended and nothing else in the trace changes |
| ScriptOps.CountEachProperties | servo_disable.py:52-60 | the commands sent are the per-ID commands for a prefix of the ID list, and the whole list when no exception aborts the loop |
| ScriptOps.CountEachRaised | servo_disable.py:66-68 | an exception is reported exactly when one occurred; when it aborts the loop it is the reply to the last command sent and the first exception |
| ScriptOps.CountEachCount | servo_disable.py:55-57 | the count is the number of successful replies among the commands sent |
| ScriptOps.AbortingCount | servo_disable.py:46-68 | in a loop that one exception ends: a prefix of the commands is sent, no exception is reported exactly when none of the |ids| replies raised, and then all commands were sent and the count is their successes |
| ScriptOps.ReadEach | servo_middle_calibration.py:178-200 | the trace keeps its oracle and flags; at most one read per ID is appended |
| ScriptOps.ReadEachTrace | servo_center_test.py:52-58 | reading every position sends the same commands and raises the same way as sending one ReadPos per ID |
| ScriptOps.ReadEachPositions | servo_center_test.py:52-58 | for distinct IDs, the dictionary holds exactly the IDs among those read whose read succeeded, each with the value read |
| ScriptOps.AbortingRead | servo_center_test.py:46-58 | in a loop that one exception ends: a prefix of the reads is sent, none raised exactly when all were sent, and the dictionary holds the successful reads |
| ScriptOps.CountEachAfterAbort | servo_disable.py:66-68 | once an exception ends the loop, the remaining IDs get no command and the result is fixed |
| ScriptOps.ReadEachAfterAbort | servo_center_test.py:102-104 | once an exception ends the read loop, the remaining IDs are not read |
| ScriptOps.PingLoop | servo_middle_calibration.py:137-150 | the loop appends one ping per ID and returns the found IDs as PingEach states |
| ScriptOps.CountLoop | servo_disable.py:52-60 | the loop's commands, count and exception flag are those of CountEach |
| ScriptOps.ReadLoop | servo_center_test.py:52-58 | the loop's reads, dictionary and exception flag are those of ReadEach |
| ScriptOps.CalibrateMiddle | servo_quick_calibration.py:69-89 | a servo is counted calibrated only when no exception occurred |
| ScriptOps.CalibrateMiddleProperties | servo_quick_calibration.py:69-89 | unlock first and stop if it fails; then write 128 to address 40; then lock (also after a failed write); calibrated exactly when the write succeeded and the lock did not raise |
| ScriptOps.CalibrateMiddleCount | servo_quick_calibration.py:69-89 | one calibration adds one to the completed-calibration tally of the log (a non-raising Lock right after a calibration write answered COMM_SUCCESS) exactly when it reports the servo calibrated, and nothing otherwise |
| ScriptOps.CalibrateEachCount | servo_quick_calibration.py:65-89 | the count of a calibration pass, aborting or not, equals the number of completed calibrations its commands record in the log |
| ScriptOps.CalibrateEach | servo_quick_calibration.py:66-89 | the calibrated count is at most the number of IDs and the trace keeps its oracle and flags |
| ScriptOps.CalibrateEachCommands | servo_quick_calibration.py:66-89 | the earlier log is kept and every command appended is an unlock, the calibrate write or a lock for one of the IDs |
| ScriptOps.CalibrateEachAfterAbort | servo_quick_calibration.py:95-97 | once an exception ends the calibration loop, the remaining IDs get no command |
| ScriptOps.CalibrateStep | servo_quick_calibration.py:69-89 | one servo's unlock, write and lock, as CalibrateMiddle states |
| ScriptOps.CalibrateLoop | servo_quick_calibration.py:66-89 | the loop's commands, count and exception flag are those of CalibrateEach |
| ScriptOps.Insert | servo_middle_calibration.py:263 | inserting grows the list by one |
| ScriptOps.InsertMultiset | servo_middle_calibration.py:263 | inserting adds exactly that element to the multiset of elements |
| ScriptOps.InsertElements | servo_middle_calibration.py:263 | inserting brings in no element other than the one inserted |
| ScriptOps.InsertSorted | servo_middle_calibration.py:263 | inserting into a sorted list keeps it sorted |
| ScriptOps.Sort | servo_middle_calibration.py:263 | sorting keeps the length |
| ScriptOps.SortProperties | servo_middle_calibration.py:263 | Python's sorted(): the result is ascending and a permutation of the input |
| MotorDisable.QuickMotorDisableProperties | servo_disable.py:30-70 | no port or no baud rate: nothing sent and False; otherwise torque-off (0 to address 40) for IDs 1..6 in order, a prefix when an exception aborts; True exactly when no exception occurred, and then all six were sent and the count is their successes |
| MotorDisable.QuickMotorDisable | servo_disable.py:30-70 | the commands sent, the result and the count are those of the specification |
| QuickCalibration.QuickMiddleCalibrationDisablePhase | servo_quick_calibration.py:36-60 | no port or no baud rate: nothing sent and False; otherwise torque-off for IDs 1..6 in order, the disabled count being their successes when the run completes |
| QuickCalibration.QuickMiddleCalibrationCalibratePhase | servo_quick_calibration.py:62-97 | the calibration pass starts only when the six disable commands raised nothing and sends only unlock/calibrate/lock commands for IDs 1..6; calibrated_count is the number of servos of the pass whose unlock and write succeeded and whose lock did not raise, at most 6; the run returns True exactly when no exception occurred in either pass |
| QuickCalibration.QuickMiddleCalibration | servo_quick_calibration.py:31-99 | the commands sent and the outcome are those of the specification |
| CenterTest.Difference | servo_center_test.py:89-95 | a movement exists exactly for IDs read both before and after, and equals final minus initial position |
| CenterTest.DifferenceUpdate | servo_center_test.py:91-92 | recording one more final position adds its movement only when the ID was read before |
| CenterTest.MovementsAreDifferences | servo_center_test.py:89-96 | the final read pass sends the reads of ReadEach and yields the movements of the final positions against the initial ones |
| CenterTest.QuickMiddleTestLog | servo_center_test.py:30-109 | no port or no baud rate: nothing sent and False; a successful run reads all, enables all, moves all to 2047 and reads all again; True exactly when none of the 4·n replies raised |
| CenterTest.ReadAll | servo_center_test.py:52-53 | the read pass for IDs 1..6 is the six ReadPos commands |
| CenterTest.EnableAll | servo_center_test.py:64-65 | the enable pass writes 1 to address 40 for IDs 1..6 |
| CenterTest.MoveAll | servo_center_test.py:77-78 | the move pass sends position 2047, speed 1000, acceleration 50 to IDs 1..6 |
| CenterTest.QuickMiddleTestCommands | servo_center_test.py:46-100 | for IDs 1..6 the successful run sends the 24 commands of the four passes; True exactly when none of the 24 raised |
| CenterTest.QuickMiddleTestCounts | servo_center_test.py:52-83 | a successful run keeps the initial positions of the successful reads and counts the successful enables and moves |
| CenterTest.QuickMiddleTestMovements | servo_center_test.py:87-96 | a successful run's movements are the differences between the final reads and the initial positions |
| CenterTest.MovementLoop | servo_center_test.py:89-96 | the final read loop's reads, movements and exception flag are those of the specification |
| CenterTest.QuickMiddleTest | servo_center_test.py:30-109 | the commands sent and the outcome are those of the specification |
| MiddleCalibration.AscendingDistinct | servo_middle_calibration.py:93 | an ascending ID list has no repeated ID |
| MiddleCalibration.DisableAllServosProperties | servo_middle_calibration.py:154-176 | torque-off (0 to address 40) is sent to every listed servo in order, each exception only skipping its own servo; the count is the number of successful writes |
| MiddleCalibration.ReadServoPositionsProperties | servo_middle_calibration.py:178-200 | one ReadPos per listed servo in order; for distinct IDs the dictionary holds exactly the servos whose read succeeded, with the value read |
| MiddleCalibration.SortMembers | servo_middle_calibration.py:281 | sorted() keeps exactly the servos of the list |
| MiddleCalibration.CalibrationSequence | servo_middle_calibration.py:208-242 | per servo, in order: unlock, write 128 to address 40, lock |
| MiddleCalibration.CalibrateEachSucceeds | servo_middle_calibration.py:279-286 | when every reply succeeds, each servo gets the full unlock/calibrate/lock sequence and all are counted |
| MiddleCalibration.CalibrateMiddleValuesProperties | servo_middle_calibration.py:248-286 | declined confirmation: nothing sent and 0; otherwise only unlock/calibrate/lock commands for listed servos, in sorted order; the count is the number of servos whose unlock and calibration write succeeded and whose lock did not raise, at most one per servo, and all of them when every reply succeeds |
| MiddleCalibration.CenterServoSpec | servo_middle_calibration.py:288-314 | centering one servo keeps the trace's oracle and flags |
| MiddleCalibration.CenterServoProperties | servo_middle_calibration.py:288-314 | torque-on (1 to address 40) first and stop with False if it fails; otherwise move to 2048 at speed 1000, acceleration 50; True exactly when the move succeeded |
| MiddleCalibration.CenterServoCount | servo_middle_calibration.py:288-314 | one centring adds one to the log's tally of successful moves exactly when it returns True |
| MiddleCalibration.CenterEachCount | servo_middle_calibration.py:344-347 | the count of a centring pass equals the number of its moves that answered COMM_SUCCESS |
| MiddleCalibration.CenterEach | servo_middle_calibration.py:341-347 | the centred count is at most the number of servos |
| MiddleCalibration.CenterEachCommands | servo_middle_calibration.py:341-347 | the earlier log is kept and every command appended is a torque-on or a move to the centre for a listed servo |
| MiddleCalibration.CenterSequence | servo_middle_calibration.py:294-305 | per servo, in order: torque-on, then the move to 2048 |
| MiddleCalibration.CenterEachSucceeds | servo_middle_calibration.py:341-347 | when every reply succeeds, each servo gets torque-on and the centre move and all are counted |
| MiddleCalibration.CenterAllServosProperties | servo_middle_calibration.py:316-350 | declined confirmation: nothing sent and 0; otherwise only centring commands for listed servos, in sorted order; the count is the number of moves to 2048 that answered COMM_SUCCESS, one per servo whose torque-on and move succeeded, and all of them when every reply succeeds |
| MiddleCalibration.MiddleValueCalibrator.constructor | servo_middle_calibration.py:86-93 | baud rate 1000000 and servo IDs 1..6 |
| MiddleCalibration.MiddleValueCalibrator.ScanServos | servo_middle_calibration.py:130-152 | the pings sent and IDs found are those of PingEach over IDs 1..6 |
| MiddleCalibration.MiddleValueCalibrator.DisableAllServos | servo_middle_calibration.py:154-176 | commands and count are those of CountEach with per-servo exception handling |
| MiddleCalibration.MiddleValueCalibrator.ReadServoPositions | servo_middle_calibration.py:178-200 | reads and dictionary are those of ReadEach with per-servo exception handling |
| MiddleCalibration.MiddleValueCalibrator.WriteMiddleOffset | servo_middle_calibration.py:202-246 | commands and result are those of the unlock/calibrate/lock step |
| MiddleCalibration.MiddleValueCalibrator.CalibrateMiddleValues | servo_middle_calibration.py:248-286 | commands and count are those of the specification |
| MiddleCalibration.MiddleValueCalibrator.CenterServo | servo_middle_calibration.py:288-314 | commands and result are those of the specification |
| MiddleCalibration.MiddleValueCalibrator.CenterAllServos | servo_middle_calibration.py:316-350 | commands and count are those of the specification |
| RemoteControl.ScanServosProperties | servo_remote_control.py:90-120 | both ports are pinged once per ID 1..6; each reports an ascending list holding exactly the IDs whose ping succeeded on that port |
| RemoteControl.ReadServoAngleProperties | servo_remote_control.py:122-130 | one ReadPos on the master port; a position exactly when the read succeeded, and then the value read |
| RemoteControl.WriteServoAngleProperties | servo_remote_control.py:132-138 | one move on the slave at speed 3000 and acceleration 100; True exactly when it succeeded, an exception giving False |
| RemoteControl.TorqueOn | servo_remote_control.py:140-155 | the slave trace keeps its oracle and flags |
| RemoteControl.TorqueOnProperties | servo_remote_control.py:140-155 | the slave port only receives pings and torque-on writes for the IDs, and every successful ping is followed at once by torque-on (1 to address 40) for that ID |
| RemoteControl.SyncMoves | servo_remote_control.py:181-189 | one move for each successful master read |
| RemoteControl.SyncMovesCopyReads | servo_remote_control.py:183-187 | every move sent to the slave carries an ID and the position read for it from the master, at speed 3000 and acceleration 100 |
| RemoteControl.SyncEach | servo_remote_control.py:181-189 | the sync count is at most the number of IDs; both traces keep their oracles and flags |
| RemoteControl.SyncEachMaster | servo_remote_control.py:181-183 | one sync round reads every ID on the master, in order |
| RemoteControl.SyncEachSlave | servo_remote_control.py:185-189 | the slave receives exactly the moves for the successful reads, and the count is the number of those moves that succeeded |
| RemoteControl.SyncEachProperties | servo_remote_control.py:181-189 | a round sends all master reads, the matching slave moves, and syncs no more servos than were read successfully |
| RemoteControl.SyncRoundsQueryMaster | servo_remote_control.py:164-189 | the master port is only ever read or pinged, never written |
| RemoteControl.RunStarts | servo_remote_control.py:227-250 | control starts exactly when some master ping succeeded; otherwise only the two scans are sent |
| RemoteControl.RunQueriesMaster | servo_remote_control.py:164-166 | over the whole run the master port is read only |
| RemoteControl.UltraFastRemoteControl.constructor | servo_remote_control.py:27-39 | baud rate 1000000, servo IDs 1..6, not running, two distinct port handlers |
| RemoteControl.UltraFastRemoteControl.ScanServos | servo_remote_control.py:90-120 | each port's pings and found IDs are those of PingEach |
| RemoteControl.UltraFastRemoteControl.ReadServoAngle | servo_remote_control.py:122-130 | the read sent and the result are those of the specification |
| RemoteControl.UltraFastRemoteControl.WriteServoAngle | servo_remote_control.py:132-138 | the move sent and the result are those of the specification |
| RemoteControl.UltraFastRemoteControl.SetSlaveTorqueOn | servo_remote_control.py:140-155 | the slave's commands are those of TorqueOn |
| RemoteControl.UltraFastRemoteControl.SyncOnce | servo_remote_control.py:181-189 | both ports' commands and the count are those of SyncEach |
| RemoteControl.UltraFastRemoteControl.RunUltraFastControl | servo_remote_control.py:157-208 | torque-on on the slave, then the given number of sync rounds; running is set |
| RemoteControl.UltraFastRemoteControl.Run | servo_remote_control.py:227-256 | both ports' commands and the start decision are those of the specification |
| FactoryTool.ScanServosProperties | factory_calibration_tool.py:207-231 | not connected: nothing sent and no servos; connected: one ping per ID 1..9, and an ascending list holding exactly the IDs whose ping succeeded (an exception counts as absent) |
| FactoryTool.ExecuteIdChangeProperties | factory_calibration_tool.py:297-363 | not connected: nothing sent and False; otherwise ping old ID, unlock, write the new ID at address 5, ping new ID, lock new ID, stopping at the first step that fails; True exactly when all five were sent, the new ID answered and the lock raised nothing (a failed lock still gives True) |
| FactoryTool.Changes | factory_calibration_tool.py:414-430 | the added IDs are those in the new scan and not the old, the removed ones those in the old and not the new, and no ID is both |
| FactoryTool.ChangesApply | factory_calibration_tool.py:414-430 | applying the added and removed sets to the old list gives exactly the IDs of the new scan |
| FactoryTool.RemoveFirstMultiset | factory_calibration_tool.py:764-765 | list.remove drops one occurrence of the ID and keeps all other elements |
| FactoryTool.UpdatedCounts | factory_calibration_tool.py:764-767 | on a list without repeats, after the edit the new ID occurs once, the old ID is gone (unless it is the new one) and every other ID keeps its count |
| FactoryTool.AfterIdChangeProperties | factory_calibration_tool.py:757-768 | after a successful change the list is sorted, has no repeats, and holds exactly the old servos minus the old ID plus the new ID |
| FactoryTool.DistinctSingle | factory_calibration_tool.py:764-768 | "no two positions hold the same ID" is the same as "every ID occurs at most once" |
| FactoryTool.DistinctCount | factory_calibration_tool.py:764-768 | in a list without repeats an ID occurs at most once |
| FactoryTool.ButtonsAfterIdChange | factory_calibration_tool.py:679-687 | after changing a listed ID to a different one, the new ID's button is disabled, the old ID's button is enabled, and every other button keeps its state |
| FactoryTool.ServoWorker.constructor | factory_calibration_tool.py:147-166 | baud rate 1000000, an empty servo list and scanning not paused |
| FactoryTool.ServoWorker.PingServo | factory_calibration_tool.py:207-219 | the ping sent and the result are those of the specification |
| FactoryTool.ServoWorker.ScanServos | factory_calibration_tool.py:221-231 | the pings sent and the IDs found are those of the specification |
| FactoryTool.ServoWorker.ExecuteIdChange | factory_calibration_tool.py:297-363 | the commands sent and the result are those of the specification |
| FactoryTool.ServoWorker.ScanPass | factory_calibration_tool.py:400-436 | disconnected or paused: nothing sent and no update; otherwise one scan, and the list is replaced and an update reported with its added and removed IDs exactly when the scan differs from the current list |
| FactoryTool.ServoPanel.constructor | factory_calibration_tool.py:473-480 | the panel is bound to its worker and port identifier |
| FactoryTool.ServoPanel.UpdateButtonStates | factory_calibration_tool.py:679-687 | button i+1 of 6 is enabled exactly when connected, some servo is listed and ID i+1 is not listed |
| FactoryTool.ServoPanel.OnIdChanged | factory_calibration_tool.py:744-770 | only a success on this panel's port edits the worker's list, to the sorted list with the old ID replaced by the new; anything else leaves it unchanged |
| ServerCore.TriedNone | seeed_robocore_server.py:112-152 | an empty run of calls sends nothing and raises nothing |
| ServerCore.TriedOne | seeed_robocore_server.py:112-152 | one call inside the `try` sends that command and raises exactly when its reply raised |
| ServerCore.TriedThen | seeed_robocore_server.py:112-152 | calls run one after another: a run that did not raise followed by another is one run of both |
| ServerCore.TriedStop | seeed_robocore_server.py:149-150 | once a call raises, the calls after it in the same `try` are not sent |
| ServerCore.FirstByte | seeed_robocore_server.py:132-134 | a value exactly when the read succeeded and returned data, and then its first byte |
| ServerCore.Signed16 | seeed_robocore_server.py:142-147 | a value exactly when the read succeeded with at least two bytes, and then the little-endian word read as signed 16-bit |
| ServerCore.SignedWord | seeed_robocore_server.py:144-146 | low byte or-ed with the high byte shifted left 8, minus 65536 from 32768 up, is the two's-complement value of the two bytes, in [-32768, 32768) |
| ServerCore.ValueOf | seeed_robocore_server.py:122-129 | a value exactly when the SDK read reported success, and then the value it returned |
| ServerCore.MotionReadsProperties | seeed_robocore_server.py:121-129 | position then speed are read in order, stopping at an exception; each field is filled from its read when that read was made and succeeded, and no other field changes |
| ServerCore.SensorReadsProperties | seeed_robocore_server.py:131-147 | temperature (63, one byte), voltage (62, one byte) and current (65, two bytes, signed) are read in order, stopping at an exception; each field is its decoded read or None |
| ServerCore.StatusReadsCalls | seeed_robocore_server.py:121-147 | the five reads after the ping are sent as one `try` run, and id, connected and model number are untouched |
| ServerCore.StatusReadsFields | seeed_robocore_server.py:121-147 | position, speed, temperature, voltage and current are each the decoded value of their own read, or None when it was not made, raised or failed |
| ServerCore.StatusProperties | seeed_robocore_server.py:99-152 | connected exactly when the ping succeeded; otherwise only the ping is sent and every field is None, with an error exactly when the ping raised; when connected the model number is the ping's value and the five reads follow |
| ServerCore.VersionReadsProperties | seeed_robocore_server.py:166-178 | firmware major, minor and patch are read at addresses 0, 1, 3 in order, each its first byte or None |
| ServerCore.HardwareReadsProperties | seeed_robocore_server.py:180-187 | hardware major and minor are both read at address 4, each its first byte or None |
| ServerCore.FirmwareProperties | seeed_robocore_server.py:154-192 | the five version reads are sent in order as one `try` run, and each version field is the first byte of its own read or None |
| ServerCore.HardwareFieldsAgree | seeed_robocore_server.py:180-187 | both hardware fields read the same register 4, so when the servo answers both reads alike they hold the same value |
| ServerCore.ReadMemoryProperties | seeed_robocore_server.py:194-208 | one read is sent; the bytes are returned exactly when it succeeded with data, with result 0; an exception gives empty bytes and -1; otherwise the read's own result code |
| ServerCore.TokenLength | seeed_robocore_server.py:215 | the leading run of non-space characters, ended by a space or the end of the text |
| ServerCore.Words | seeed_robocore_server.py:215 | str.split(): every word is non-empty and contains no space |
| ServerCore.TokenLengthOf | seeed_robocore_server.py:215 | a word followed by a space or the end is read as exactly that word |
| ServerCore.WordsCons | seeed_robocore_server.py:215 | a word followed by a space or the end of the text is split off as the first word |
| ServerCore.WordsSpace | seeed_robocore_server.py:215 | a leading space does not change the split |
| ServerCore.WordsOfJoin | seeed_robocore_server.py:215 | splitting words joined by single spaces gives the words back |
| ServerCore.HexDigit | seeed_robocore_server.py:215 | a hex digit has a value in 0..15 |
| ServerCore.HexDigits | seeed_robocore_server.py:215 | a digit string parses exactly when it is non-empty and every character is a hex digit |
| ServerCore.ParseHexList | seeed_robocore_server.py:215 | the list comprehension yields one number per word, each that word parsed with base 16 |
| ServerCore.HexDigitOf | seeed_robocore_server.py:215 | each digit character stands for its own value |
| ServerCore.ParseHex2 | seeed_robocore_server.py:215 | a byte written as two hex digits is one word that parses back to the byte |
| ServerCore.HexDump | seeed_robocore_server.py:215 | one two-digit word per byte |
| ServerCore.HexDumpRoundTrip | seeed_robocore_server.py:213-215 | a hex dump given as the data text is written back as exactly the dumped bytes |
| ServerCore.ParseHexListOf | seeed_robocore_server.py:215 | parsing each word of a hex dump gives the bytes |
| ServerCore.WriteMemoryProperties | seeed_robocore_server.py:210-225 | text that does not parse sends nothing and gives False with an exception note; otherwise one write of the whole list, True exactly when it succeeded, an exception note exactly when it raised |
| ServerEeprom.GainReads | seeed_robocore_server.py:241-244 | reading position gains keeps the servo ID |
| ServerEeprom.GainReadsAfterError | seeed_robocore_server.py:266-267 | once a gain read raises, the remaining gain reads are not made |
| ServerEeprom.GainReadsProperties | seeed_robocore_server.py:241-244 | the position gains are read at 21 (P), 22 (D), 23 (I) in that order as one `try` run; each gain is the first byte of its own read or None, and no other field changes |
| ServerEeprom.SpeedReadsProperties | seeed_robocore_server.py:246-261 | speed P (37, one byte), speed I (39, two bytes, signed) and startup torque (24, one byte) are read in order; each is its decoded read or None |
| ServerEeprom.PidReadsCalls | seeed_robocore_server.py:240-261 | the six parameter reads are sent in order as one `try` run |
| ServerEeprom.PidReadsFields | seeed_robocore_server.py:240-261 | each of the six parameters is the decoded value of its own read, or None when the read was not made, raised or failed |
| ServerEeprom.ReadPidCalls | seeed_robocore_server.py:227-269 | unlock (its result ignored), the six reads and the lock are sent in order, stopping at the first exception |
| ServerEeprom.ReadPidFields | seeed_robocore_server.py:227-269 | each parameter is decoded from the read after the unlock that belongs to it |
| ServerEeprom.SpeedIBytes | seeed_robocore_server.py:297-299 | the speed I value is sent as two bytes, each in 0..255 |
| ServerEeprom.SpeedIRoundTrip | seeed_robocore_server.py:297-299 | the two bytes written for speed I, decoded as read_pid_params decodes them, read back as the same value modulo 65536, and exactly for values in the signed 16-bit range |
| ServerEeprom.WritesProperties | seeed_robocore_server.py:284-308 | the writes are sent one after another until one raises; when none raises the result is True exactly when it was True before and every write succeeded |
| ServerEeprom.WritesConcat | seeed_robocore_server.py:281-308 | two groups of writes in a row behave as the first group and then, unless it raised, the second group |
| ServerEeprom.WritePidCalls | seeed_robocore_server.py:271-316 | an unlock that answers with a failure code sends nothing more and gives "Failed to unlock EEPROM"; otherwise the unlock, the requested writes and the lock are one `try` run, with an exception note exactly when a call raised |
| ServerEeprom.WritePidResult | seeed_robocore_server.py:279-313 | True exactly when nothing raised or failed to unlock and every parameter write succeeded; a failed lock does not matter |
| ServerEeprom.Poke | seeed_robocore_server.py:221 | a write stores its bytes at consecutive addresses and leaves every other register alone |
| ServerEeprom.ApplyConcat | seeed_robocore_server.py:281-308 | applying two groups of writes is applying one after the other |
| ServerEeprom.PositionWritesStore | seeed_robocore_server.py:282-286 | with three gains, P ends at 21, D at 22 and I at 23; otherwise (and outside 21..23) nothing changes |
| ServerEeprom.SpeedWritesStore | seeed_robocore_server.py:292-299 | with two gains, P ends at 37 and addresses 39-40 hold bytes that read back as I (modulo 65536); otherwise nothing changes |
| ServerEeprom.WritePidStore | seeed_robocore_server.py:271-313 | after all requested writes each given parameter is stored at its register; every register not written keeps its value: 21..23 without three position gains, 37, 39 and 40 without two speed gains, 24 without a torque, and all others always |
| ServerEeprom.ServerOffline | seeed_robocore_server.py:692-697 | without hardware every helper's first SDK call raises inside its try: nothing is sent and each returns its exception result (status, firmware and PID dictionaries marked error, ([], -1) for a read, False for the writes, no limit); no code produces the "simulated data" the warning announces |
| ServerEeprom.TempLimitCalls | seeed_robocore_server.py:318-357 | unlock, then the access, then lock, each sent only when the one before did not raise |
| ServerEeprom.ReadTempLimitProperties | seeed_robocore_server.py:318-338 | an unlock failure code gives "Failed to unlock EEPROM" after the unlock alone; the limit is returned, with True, exactly when the unlock succeeded, the read at 13 succeeded with data and the lock did not raise, and it is that byte |
| ServerEeprom.WriteTempLimitProperties | seeed_robocore_server.py:340-357 | an unlock failure code gives "Failed to unlock EEPROM" after the unlock alone; otherwise unlock, write of the limit at 13 and lock; True exactly when unlock and write succeeded and the lock did not raise |
| ServerHelpers.View | seeed_robocore_server.py:34-35 | the trace shows the handler's command log and whether the packet handler is connected |
| ServerHelpers.Call | seeed_robocore_server.py:83 | one SDK call appends its command and returns the servo's answer to it |
| ServerHelpers.ScanServos | seeed_robocore_server.py:76-97 | the pings sent and the servos found are those of the connection manager's scan specification over the ID range |
| ServerHelpers.GetServoStatus | seeed_robocore_server.py:99-152 | the calls sent and the status are those of the status specification |
| ServerHelpers.GetFirmwareInfo | seeed_robocore_server.py:154-192 | the calls sent and the version fields are those of the firmware specification |
| ServerHelpers.ReadMemoryDirect | seeed_robocore_server.py:194-208 | the read sent and the bytes, code and note are those of the specification |
| ServerHelpers.WriteMemoryDirect | seeed_robocore_server.py:210-225 | the write sent and the result are those of the specification |
| ServerHelpers.ReadPidParams | seeed_robocore_server.py:227-269 | the calls sent and the parameters are those of the specification |
| ServerHelpers.WritePidParams | seeed_robocore_server.py:271-316 | the calls sent and the result are those of the specification |
| ServerHelpers.WritePositionPid | seeed_robocore_server.py:282-289 | the position gain writes sent and the running success flag are those of the write fold |
| ServerHelpers.WriteSpeedPid | seeed_robocore_server.py:292-302 | the speed gain writes sent and the running success flag are those of the write fold |
| ServerHelpers.WriteStartupTorque | seeed_robocore_server.py:305-308 | the startup torque write, when one is given, and the running success flag are those of the write fold |
| ServerHelpers.ReadTemperatureLimit | seeed_robocore_server.py:318-338 | the calls sent and the result are those of the specification |
| ServerHelpers.WriteTemperatureLimit | seeed_robocore_server.py:340-357 | the calls sent and the result are those of the specification |
| RoboServer.SeeedRoboCoreServer.constructor | seeed_robocore_server.py:28-42 | keeps port name, baud rate and WebSocket port; no port or packet handler yet and not connected |
| RoboServer.SeeedRoboCoreServer.ConnectHardware | seeed_robocore_server.py:44-67 | True exactly when the port opened and the baud rate was set; the port stays open only when opening succeeded and setting the baud rate did not fail; connected and a packet handler exactly after success |
| RoboServer.SeeedRoboCoreServer.DisconnectHardware | seeed_robocore_server.py:69-74 | with a port handler: the port is closed and the server is no longer connected; without one nothing changes |
| RoboServer.SeeedRoboCoreServer.ScanServos | seeed_robocore_server.py:76-97 | as the shared scan helper |
| RoboServer.SeeedRoboCoreServer.GetServoStatus | seeed_robocore_server.py:99-152 | as the status specification |
| RoboServer.SeeedRoboCoreServer.GetFirmwareInfo | seeed_robocore_server.py:154-192 | as the firmware specification |
| RoboServer.SeeedRoboCoreServer.ReadMemoryDirect | seeed_robocore_server.py:194-208 | as the raw read specification |
| RoboServer.SeeedRoboCoreServer.WriteMemoryDirect | seeed_robocore_server.py:210-225 | as the raw write specification |
| RoboServer.SeeedRoboCoreServer.ReadPidParams | seeed_robocore_server.py:227-269 | as the PID read specification |
| RoboServer.SeeedRoboCoreServer.WritePidParams | seeed_robocore_server.py:271-316 | as the PID write specification |
| RoboServer.SeeedRoboCoreServer.ReadTemperatureLimit | seeed_robocore_server.py:318-338 | as the temperature-limit read specification |
| RoboServer.SeeedRoboCoreServer.WriteTemperatureLimit | seeed_robocore_server.py:340-357 | as the temperature-limit write specification |
| WebServer.FTServoWebServer.constructor | final_web_server.py:27-36 | keeps port name, baud rate and WebSocket port; no port or packet handler yet and not connected |
| WebServer.FTServoWebServer.ConnectHardware | final_web_server.py:38-61 | True exactly when the port opened and the baud rate was set; the port stays open only when opening succeeded and setting the baud rate did not fail; connected and a packet handler exactly after success |
| WebServer.FTServoWebServer.DisconnectHardware | final_web_server.py:63-68 | with a port handler: the port is closed and the server is no longer connected; without one nothing changes |
| WebServer.FTServoWebServer.ScanServos | final_web_server.py:70-84 | as the shared scan helper |
| WebServer.FTServoWebServer.GetServoStatus | final_web_server.py:86-139 | as the status specification |
| WebServer.FTServoWebServer.GetFirmwareInfo | final_web_server.py:141-178 | as the firmware specification |
| WebServer.FTServoWebServer.ReadMemoryDirect | final_web_server.py:180-194 | as the raw read specification |
| WebServer.FTServoWebServer.WriteMemoryDirect | final_web_server.py:196-211 | as the raw write specification |
| WebServer.FTServoWebServer.ReadPidParams | final_web_server.py:213-255 | as the PID read specification |
| WebServer.FTServoWebServer.WritePidParams | final_web_server.py:257-302 | as the PID write specification |
| WebServer.FTServoWebServer.ReadTemperatureLimit | final_web_server.py:304-324 | as the temperature-limit read specification |
| WebServer.FTServoWebServer.WriteTemperatureLimit | final_web_server.py:326-343 | as the temperature-limit write specification |

## Left out

- The vendor SDK (`PortHandler`, `sms_sts`, `hls`) is not part of this model. Its frame layout, checksum, timeouts and port I/O are replaced by the abstract handler and its reply oracle.
- Opening the port, setting the baud rate and recognising the protocol are given to the connect operations as `Outcome` parameters (succeeds, fails, raises), because they are port I/O.
- Retries are not modelled, because the configured retry counts are never used by the code.
- Every `time.sleep`, `time.time()` timestamp and the remote-control 10 ms pacing are left out, because time has no effect on which commands are sent.
- The `move_to_position` operation of basic control is left out, because its loop polls the clock until a timeout.
- The status monitor's `monitor_temperature` and `_monitoring_loop` are left out, because they depend on the clock and on a thread. Starting and stopping monitoring is modelled only as the change to the monitoring flags and callback list.
- Floating point: voltages stay in raw tenths of a volt instead of being divided by 10.0. `configure_voltage_limits` takes integer tenths. The temperature-ratio warning levels are compared exactly with integer cross-multiplication. Degree conversions and all `format_*` functions are left out.
- Error messages and `str(e)` texts are modelled as codes or as a `Note` value (device-reported, unlock failed, exception, quiet), because only their presence matters to the logic.
- The PID controller's `get_pid_summary` is left out, because it only repackages the three read operations into a dictionary.
- The PID controller's `reset_pid_to_default` is left out, because it indexes the default dictionaries by position and so always raises `KeyError`.
- `configure_safety` has an `overload_settings` argument that is not modelled, because the code never uses it.
- The missing `Tuple` import in `modules/status_monitor.py` is ignored: the function bodies are modelled as written.
- The connection manager's `__enter__` and `__exit__` are left out. Leaving the context is `Disconnect`, which is modelled.
- The factory GUI is left out: widgets, styles, signals, message boxes, the ID-change queue thread, `pause_scanning` set by that thread, and the launching of the scripts as subprocesses. `ScanPass` models one pass of the scanner loop. `OnIdChanged` and `UpdateButtonStates` model the state the panel keeps.
- `run_scanner`'s reconnection back-off and consecutive-failure counter are left out, because they only decide when to wait and retry.
- `RemoteControl.UltraFastRemoteControl.RunUltraFastControl`: the endless `while self.running` loop is modelled as a given number of rounds, because it only ends on an interrupt.
- The asyncio WebSocket parts of both servers (`handle_client`, `handle_message`, `broadcast`), their banners and `main` are left out, because they are concurrency and message routing around the synchronous helpers that are modelled.
- Interactive `input()` confirmations become boolean parameters. `run_interactive_calibration`, `run_full_calibration`, argparse and the scripts' `main` blocks are left out.
- `ServerCore.ParseHex`: Python's `int(x, 16)` also accepts underscores between digits and surrounding whitespace. The model accepts only an optional sign, an optional `0x` prefix and hex digits.
- `ServerCore.Words`: `str.split()` is modelled for ASCII whitespace only, not for the other Unicode space characters.
- The `write_pid_params` gain lists are given as sequences, and `None` is the empty sequence; both skip the group, as in the source.
- `ServerEeprom.Apply`: the register model of the server writes ignores the servo ID, so it describes one servo's registers.
- Every reply's data is modelled as a byte string, as the `Optional[bytes]` result of `read_memory` (core/connection_manager.py:132) declares. The vendor SDK's `readTxRx` is not part of this model and may hand back a list instead; `bytes_to_int` on a list of one, two or four items would then raise `TypeError` from `struct.unpack`, which `except struct.error` does not catch, so the caller's own exception path would be taken. That outcome is not modelled.
- `read_memory_direct` converting data that is neither a list nor bytes through `str(...).encode()` is left out: with data modelled as bytes that branch is never reached.
- Logging, printing, `utils/logger.py`, `setup.py`, serial-port discovery and port auto-selection are left out.
- The register value's `_format_value` and `__str__` and the memory-map parser's `format_memory_table` are left out, because they only format text.

## Findings

| source | as written | input that shows it | evidently intended | confidence | as-written member | corrected member |
|---|---|---|---|---|---|---|
| utils/data_parser.py:62-67 | a length other than 2 or 4 gets the one-byte `b`/`B` struct format, so when the value fits one byte `struct.pack` returns one byte whatever length was asked for | `int_to_bytes(5, 3)` returns `b'\x05'` | `length` little-endian bytes of the value modulo 256^length, as the manual fallback builds them | not executed | DataParser.IntToBytesAsWritten, DataParser.IntToBytesFiveInThree | DataParser.IntToBytes |
