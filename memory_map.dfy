/**
 * The servo's register table (config/memory_map.py): the address constants,
 * the documented memory regions and the address/name dictionary with its two
 * lookups.
 */
module MemoryMap {
  import opened Wrappers

  // ---------------------------------------------------------------------------
  // MemoryMap: register addresses

  const FIRMWARE_MAJOR_VERSION: int := 0
  const FIRMWARE_MINOR_VERSION: int := 1
  const SERVO_MAJOR_VERSION: int := 3
  const SERVO_MINOR_VERSION: int := 4

  const ID: int := 5
  const BAUD_RATE: int := 6
  const RESERVED: int := 7
  const STATUS_RETURN_LEVEL: int := 8

  const MIN_POSITION_LIMIT_L: int := 9
  const MIN_POSITION_LIMIT_H: int := 10
  const MAX_POSITION_LIMIT_L: int := 11
  const MAX_POSITION_LIMIT_H: int := 12
  const MAX_TEMPERATURE_LIMIT: int := 13
  const MAX_INPUT_VOLTAGE: int := 14
  const MIN_INPUT_VOLTAGE: int := 15
  const MAX_TORQUE_LIMIT_L: int := 16
  const MAX_TORQUE_LIMIT_H: int := 17

  const SETUP_BYTE: int := 18
  const PROTECTION_SWITCH: int := 19
  const LED_ALARM_CONDITION: int := 20
  const POSITION_P_GAIN: int := 21
  const POSITION_D_GAIN: int := 22
  const POSITION_I_GAIN: int := 23
  const STARTUP_TORQUE: int := 24
  const MAX_CURRENT_L: int := 25
  const MAX_CURRENT_H: int := 26
  const CW_DEAD_ZONE: int := 27
  const CCW_DEAD_ZONE: int := 28
  const OVERLOAD_CURRENT_L: int := 29
  const OVERLOAD_CURRENT_H: int := 30
  const ANGLE_RESOLUTION: int := 31
  const POSITION_OFFSET_L: int := 32
  const POSITION_OFFSET_H: int := 33
  const WORK_MODE: int := 34
  const PROTECTION_TORQUE_L: int := 35
  const PROTECTION_TORQUE_H: int := 36
  const OVERLOAD_PROTECTION_TIME_L: int := 37
  const OVERLOAD_PROTECTION_TIME_H: int := 38
  const OVERLOAD_TORQUE_L: int := 39
  const OVERLOAD_TORQUE_H: int := 40
  const SPEED_P_GAIN: int := 41
  const OVERCURRENT_PROTECTION_TIME_L: int := 42
  const OVERCURRENT_PROTECTION_TIME_H: int := 43
  const SPEED_I_GAIN_L: int := 44
  const SPEED_I_GAIN_H: int := 45

  const TORQUE_ENABLE: int := 46
  const TARGET_ACCELERATION: int := 47
  const GOAL_POSITION_L: int := 48
  const GOAL_POSITION_H: int := 49
  const GOAL_PWM_L: int := 50
  const GOAL_PWM_H: int := 51
  const GOAL_SPEED_L: int := 52
  const GOAL_SPEED_H: int := 53
  const TORQUE_LIMIT_L: int := 54
  const TORQUE_LIMIT_H: int := 55
  const LOCK: int := 56

  const PRESENT_POSITION_L: int := 57
  const PRESENT_POSITION_H: int := 58
  const PRESENT_SPEED_L: int := 59
  const PRESENT_SPEED_H: int := 60
  const PRESENT_PWM_L: int := 61
  const PRESENT_PWM_H: int := 62
  const PRESENT_VOLTAGE: int := 63
  const PRESENT_TEMPERATURE: int := 64
  const SYNC_WRITE_FLAG: int := 65
  const HARDWARE_ERROR_STATUS: int := 66
  const MOVING_STATUS: int := 67
  const PRESENT_CURRENT_L: int := 68
  const PRESENT_CURRENT_H: int := 69

  const MOTION_THRESHOLD: int := 80
  const DT_S: int := 81
  const V_K: int := 82
  const V_MIN: int := 83
  const V_MAX: int := 84
  const A_MAX: int := 85
  const K_ACC: int := 86

  // ---------------------------------------------------------------------------
  // MemoryRegions

  datatype Range = Range(start: int, end: int)

  const EPROM_READONLY := Range(0, 4)
  const EPROM_CONFIG := Range(5, 17)
  const EPROM_PID := Range(21, 45)
  const SRAM_CONTROL := Range(46, 56)
  const SRAM_STATUS := Range(57, 69)
  const DEFAULT_PARAMS := Range(80, 86)

  const REGIONS: seq<Range> := [EPROM_READONLY, EPROM_CONFIG, EPROM_PID, SRAM_CONTROL, SRAM_STATUS, DEFAULT_PARAMS]

  predicate Covers(g: Range, address: int)
  {
    g.start <= address <= g.end
  }

  /** Each region is non-empty, no address lies in two, and 18..20 lie in none. */
  lemma RegionsWellFormed(address: int)
    ensures forall i :: 0 <= i < |REGIONS| ==> REGIONS[i].start <= REGIONS[i].end
    ensures forall i, j :: 0 <= i < j < |REGIONS| ==> !(Covers(REGIONS[i], address) && Covers(REGIONS[j], address))
    ensures 18 <= address <= 20 ==> forall i :: 0 <= i < |REGIONS| ==> !Covers(REGIONS[i], address)
  {
  }

  // ---------------------------------------------------------------------------
  // AddressNames
  // ---------------------------------------------------------------------------

  /** AddressNames.NAMES as a partial map from address to name. */
  function Name(address: int): Option<string>
  {
    match address
    case 0 => Some("FIRMWARE_MAJOR_VERSION")
    case 1 => Some("FIRMWARE_MINOR_VERSION")
    case 3 => Some("SERVO_MAJOR_VERSION")
    case 4 => Some("SERVO_MINOR_VERSION")
    case 5 => Some("ID")
    case 6 => Some("BAUD_RATE")
    case 7 => Some("RESERVED")
    case 8 => Some("STATUS_RETURN_LEVEL")
    case 9 => Some("MIN_POSITION_LIMIT_L")
    case 10 => Some("MIN_POSITION_LIMIT_H")
    case 11 => Some("MAX_POSITION_LIMIT_L")
    case 12 => Some("MAX_POSITION_LIMIT_H")
    case 13 => Some("MAX_TEMPERATURE_LIMIT")
    case 14 => Some("MAX_INPUT_VOLTAGE")
    case 15 => Some("MIN_INPUT_VOLTAGE")
    case 16 => Some("MAX_TORQUE_LIMIT_L")
    case 17 => Some("MAX_TORQUE_LIMIT_H")
    case 18 => Some("SETUP_BYTE")
    case 19 => Some("PROTECTION_SWITCH")
    case 20 => Some("LED_ALARM_CONDITION")
    case 21 => Some("POSITION_P_GAIN")
    case 22 => Some("POSITION_D_GAIN")
    case 23 => Some("POSITION_I_GAIN")
    case 24 => Some("STARTUP_TORQUE")
    case 25 => Some("MAX_CURRENT_L")
    case 26 => Some("MAX_CURRENT_H")
    case 27 => Some("CW_DEAD_ZONE")
    case 28 => Some("CCW_DEAD_ZONE")
    case 29 => Some("OVERLOAD_CURRENT_L")
    case 30 => Some("OVERLOAD_CURRENT_H")
    case 31 => Some("ANGLE_RESOLUTION")
    case 32 => Some("POSITION_OFFSET_L")
    case 33 => Some("POSITION_OFFSET_H")
    case 34 => Some("WORK_MODE")
    case 35 => Some("PROTECTION_TORQUE_L")
    case 36 => Some("PROTECTION_TORQUE_H")
    case 37 => Some("OVERLOAD_PROTECTION_TIME_L")
    case 38 => Some("OVERLOAD_PROTECTION_TIME_H")
    case 39 => Some("OVERLOAD_TORQUE_L")
    case 40 => Some("OVERLOAD_TORQUE_H")
    case 41 => Some("SPEED_P_GAIN")
    case 42 => Some("OVERCURRENT_PROTECTION_TIME_L")
    case 43 => Some("OVERCURRENT_PROTECTION_TIME_H")
    case 44 => Some("SPEED_I_GAIN_L")
    case 45 => Some("SPEED_I_GAIN_H")
    case 46 => Some("TORQUE_ENABLE")
    case 47 => Some("TARGET_ACCELERATION")
    case 48 => Some("GOAL_POSITION_L")
    case 49 => Some("GOAL_POSITION_H")
    case 50 => Some("GOAL_PWM_L")
    case 51 => Some("GOAL_PWM_H")
    case 52 => Some("GOAL_SPEED_L")
    case 53 => Some("GOAL_SPEED_H")
    case 54 => Some("TORQUE_LIMIT_L")
    case 55 => Some("TORQUE_LIMIT_H")
    case 56 => Some("LOCK")
    case 57 => Some("PRESENT_POSITION_L")
    case 58 => Some("PRESENT_POSITION_H")
    case 59 => Some("PRESENT_SPEED_L")
    case 60 => Some("PRESENT_SPEED_H")
    case 61 => Some("PRESENT_PWM_L")
    case 62 => Some("PRESENT_PWM_H")
    case 63 => Some("PRESENT_VOLTAGE")
    case 64 => Some("PRESENT_TEMPERATURE")
    case 65 => Some("SYNC_WRITE_FLAG")
    case 66 => Some("HARDWARE_ERROR_STATUS")
    case 67 => Some("MOVING_STATUS")
    case 68 => Some("PRESENT_CURRENT_L")
    case 69 => Some("PRESENT_CURRENT_H")
    case 80 => Some("MOTION_THRESHOLD")
    case 81 => Some("DT_S")
    case 82 => Some("V_K")
    case 83 => Some("V_MIN")
    case 84 => Some("V_MAX")
    case 85 => Some("A_MAX")
    case 86 => Some("K_ACC")
    case _ => None
  }

  /** The dictionary's keys: 0, 1, 3..69 and 80..86; 2 and 70..79 have no name. */
  lemma NameKeys(address: int)
    ensures Name(address).Some? <==> address == 0 || address == 1 || 3 <= address <= 69 || 80 <= address <= 86
  {
    if address < 0 {
      NameKeysNegative(address);
    } else if address <= 20 {
      NameKeysBelow21(address);
    } else if address <= 45 {
      NameKeysBelow46(address);
    } else if address <= 86 {
      NameKeysFrom46(address);
    } else {
      NameKeysAbove86(address);
    }
  }

  lemma NameKeysNegative(address: int)
    requires address < 0
    ensures Name(address).None?
  {
  }

  lemma NameKeysAbove86(address: int)
    requires address > 86
    ensures Name(address).None?
  {
  }

  lemma NameKeysBelow21(address: int)
    requires 0 <= address <= 20
    ensures Name(address).Some? <==> address != 2
  {
  }

  lemma NameKeysBelow46(address: int)
    requires 21 <= address <= 45
    ensures Name(address).Some?
  {
  }

  lemma NameKeysFrom46(address: int)
    requires 46 <= address <= 86
    ensures Name(address).Some? <==> !(70 <= address <= 79)
  {
  }

  /**
   * AddressNames.get_address: the first dictionary entry, in insertion order,
   * whose name equals the argument.  The length and character tests before
   * each string comparison are implied by it; they only let a mismatch be
   * seen without comparing whole strings.
   */
  function GetAddress(name: string): (r: Option<int>)
  {
    if |name| == 22 && name[0] == 'F' && name[10] == 'A' && name == "FIRMWARE_MAJOR_VERSION" then Some(0) else
    if |name| == 22 && name[0] == 'F' && name == "FIRMWARE_MINOR_VERSION" then Some(1) else
    if |name| == 19 && name[0] == 'S' && name[7] == 'A' && name == "SERVO_MAJOR_VERSION" then Some(3) else
    if |name| == 19 && name[0] == 'S' && name[1] == 'E' && name == "SERVO_MINOR_VERSION" then Some(4) else
    if |name| == 2 && name[0] == 'I' && name == "ID" then Some(5) else
    if |name| == 9 && name[0] == 'B' && name == "BAUD_RATE" then Some(6) else
    if |name| == 8 && name[0] == 'R' && name == "RESERVED" then Some(7) else
    if |name| == 19 && name[0] == 'S' && name == "STATUS_RETURN_LEVEL" then Some(8) else
    if |name| == 20 && name[0] == 'M' && name[1] == 'I' && name[19] == 'L' && name == "MIN_POSITION_LIMIT_L" then Some(9) else
    if |name| == 20 && name[0] == 'M' && name[1] == 'I' && name == "MIN_POSITION_LIMIT_H" then Some(10) else
    if |name| == 20 && name[0] == 'M' && name[19] == 'L' && name == "MAX_POSITION_LIMIT_L" then Some(11) else
    if |name| == 20 && name[0] == 'M' && name == "MAX_POSITION_LIMIT_H" then Some(12) else
    if |name| == 21 && name[0] == 'M' && name == "MAX_TEMPERATURE_LIMIT" then Some(13) else
    if |name| == 17 && name[0] == 'M' && name[1] == 'A' && name == "MAX_INPUT_VOLTAGE" then Some(14) else
    if |name| == 17 && name[0] == 'M' && name == "MIN_INPUT_VOLTAGE" then Some(15) else
    if |name| == 18 && name[0] == 'M' && name[17] == 'L' && name == "MAX_TORQUE_LIMIT_L" then Some(16) else
    if |name| == 18 && name[0] == 'M' && name == "MAX_TORQUE_LIMIT_H" then Some(17) else
    if |name| == 10 && name[0] == 'S' && name == "SETUP_BYTE" then Some(18) else
    if |name| == 17 && name[0] == 'P' && name[2] == 'O' && name == "PROTECTION_SWITCH" then Some(19) else
    if |name| == 19 && name[0] == 'L' && name == "LED_ALARM_CONDITION" then Some(20) else
    if |name| == 15 && name[0] == 'P' && name[1] == 'O' && name[9] == 'P' && name == "POSITION_P_GAIN" then Some(21) else
    if |name| == 15 && name[0] == 'P' && name[9] == 'D' && name == "POSITION_D_GAIN" then Some(22) else
    if |name| == 15 && name[0] == 'P' && name[1] == 'O' && name == "POSITION_I_GAIN" then Some(23) else
    if |name| == 14 && name[0] == 'S' && name[1] == 'T' && name == "STARTUP_TORQUE" then Some(24) else
    if |name| == 13 && name[0] == 'M' && name[12] == 'L' && name == "MAX_CURRENT_L" then Some(25) else
    if |name| == 13 && name[0] == 'M' && name[1] == 'A' && name == "MAX_CURRENT_H" then Some(26) else
    if |name| == 12 && name[0] == 'C' && name == "CW_DEAD_ZONE" then Some(27) else
    if |name| == 13 && name[0] == 'C' && name == "CCW_DEAD_ZONE" then Some(28) else
    if |name| == 18 && name[0] == 'O' && name[17] == 'L' && name == "OVERLOAD_CURRENT_L" then Some(29) else
    if |name| == 18 && name[0] == 'O' && name == "OVERLOAD_CURRENT_H" then Some(30) else
    if |name| == 16 && name[0] == 'A' && name == "ANGLE_RESOLUTION" then Some(31) else
    if |name| == 17 && name[0] == 'P' && name[1] == 'O' && name[16] == 'L' && name == "POSITION_OFFSET_L" then Some(32) else
    if |name| == 17 && name[0] == 'P' && name[1] == 'O' && name == "POSITION_OFFSET_H" then Some(33) else
    if |name| == 9 && name[0] == 'W' && name == "WORK_MODE" then Some(34) else
    if |name| == 19 && name[0] == 'P' && name[18] == 'L' && name == "PROTECTION_TORQUE_L" then Some(35) else
    if |name| == 19 && name[0] == 'P' && name[2] == 'O' && name == "PROTECTION_TORQUE_H" then Some(36) else
    if |name| == 26 && name[0] == 'O' && name[25] == 'L' && name == "OVERLOAD_PROTECTION_TIME_L" then Some(37) else
    if |name| == 26 && name[0] == 'O' && name == "OVERLOAD_PROTECTION_TIME_H" then Some(38) else
    if |name| == 17 && name[0] == 'O' && name[16] == 'L' && name == "OVERLOAD_TORQUE_L" then Some(39) else
    if |name| == 17 && name[0] == 'O' && name == "OVERLOAD_TORQUE_H" then Some(40) else
    if |name| == 12 && name[0] == 'S' && name == "SPEED_P_GAIN" then Some(41) else
    if |name| == 29 && name[0] == 'O' && name[28] == 'L' && name == "OVERCURRENT_PROTECTION_TIME_L" then Some(42) else
    if |name| == 29 && name[0] == 'O' && name == "OVERCURRENT_PROTECTION_TIME_H" then Some(43) else
    if |name| == 14 && name[0] == 'S' && name[13] == 'L' && name == "SPEED_I_GAIN_L" then Some(44) else
    if |name| == 14 && name[0] == 'S' && name == "SPEED_I_GAIN_H" then Some(45) else
    if |name| == 13 && name[0] == 'T' && name == "TORQUE_ENABLE" then Some(46) else
    if |name| == 19 && name[0] == 'T' && name == "TARGET_ACCELERATION" then Some(47) else
    if |name| == 15 && name[0] == 'G' && name[14] == 'L' && name == "GOAL_POSITION_L" then Some(48) else
    if |name| == 15 && name[0] == 'G' && name == "GOAL_POSITION_H" then Some(49) else
    if |name| == 10 && name[0] == 'G' && name[9] == 'L' && name == "GOAL_PWM_L" then Some(50) else
    if |name| == 10 && name[0] == 'G' && name == "GOAL_PWM_H" then Some(51) else
    if |name| == 12 && name[0] == 'G' && name[11] == 'L' && name == "GOAL_SPEED_L" then Some(52) else
    if |name| == 12 && name[0] == 'G' && name == "GOAL_SPEED_H" then Some(53) else
    if |name| == 14 && name[0] == 'T' && name[13] == 'L' && name == "TORQUE_LIMIT_L" then Some(54) else
    if |name| == 14 && name[0] == 'T' && name == "TORQUE_LIMIT_H" then Some(55) else
    if |name| == 4 && name[0] == 'L' && name == "LOCK" then Some(56) else
    if |name| == 18 && name[0] == 'P' && name[17] == 'L' && name == "PRESENT_POSITION_L" then Some(57) else
    if |name| == 18 && name[0] == 'P' && name == "PRESENT_POSITION_H" then Some(58) else
    if |name| == 15 && name[0] == 'P' && name[14] == 'L' && name == "PRESENT_SPEED_L" then Some(59) else
    if |name| == 15 && name[0] == 'P' && name[8] == 'S' && name == "PRESENT_SPEED_H" then Some(60) else
    if |name| == 13 && name[0] == 'P' && name[12] == 'L' && name == "PRESENT_PWM_L" then Some(61) else
    if |name| == 13 && name[0] == 'P' && name == "PRESENT_PWM_H" then Some(62) else
    if |name| == 15 && name[0] == 'P' && name == "PRESENT_VOLTAGE" then Some(63) else
    if |name| == 19 && name[0] == 'P' && name == "PRESENT_TEMPERATURE" then Some(64) else
    if |name| == 15 && name[0] == 'S' && name == "SYNC_WRITE_FLAG" then Some(65) else
    if |name| == 21 && name[0] == 'H' && name == "HARDWARE_ERROR_STATUS" then Some(66) else
    if |name| == 13 && name[0] == 'M' && name == "MOVING_STATUS" then Some(67) else
    if |name| == 17 && name[0] == 'P' && name[16] == 'L' && name == "PRESENT_CURRENT_L" then Some(68) else
    if |name| == 17 && name[0] == 'P' && name == "PRESENT_CURRENT_H" then Some(69) else
    if |name| == 16 && name[0] == 'M' && name == "MOTION_THRESHOLD" then Some(80) else
    if |name| == 4 && name[0] == 'D' && name == "DT_S" then Some(81) else
    if |name| == 3 && name[0] == 'V' && name == "V_K" then Some(82) else
    if |name| == 5 && name[0] == 'V' && name[3] == 'I' && name == "V_MIN" then Some(83) else
    if |name| == 5 && name[0] == 'V' && name == "V_MAX" then Some(84) else
    if |name| == 5 && name[0] == 'A' && name == "A_MAX" then Some(85) else
    if |name| == 5 && name[0] == 'K' && name == "K_ACC" then Some(86) else
    None
  }

  // One lemma per dictionary entry: the constant's entry carries its own
  // identifier, and get_address finds it.

  lemma EntryFirmwareMajorVersion()
    ensures Name(FIRMWARE_MAJOR_VERSION) == Some("FIRMWARE_MAJOR_VERSION") && GetAddress("FIRMWARE_MAJOR_VERSION") == Some(FIRMWARE_MAJOR_VERSION)
  {
  }

  lemma EntryFirmwareMinorVersion()
    ensures Name(FIRMWARE_MINOR_VERSION) == Some("FIRMWARE_MINOR_VERSION") && GetAddress("FIRMWARE_MINOR_VERSION") == Some(FIRMWARE_MINOR_VERSION)
  {
  }

  lemma EntryServoMajorVersion()
    ensures Name(SERVO_MAJOR_VERSION) == Some("SERVO_MAJOR_VERSION") && GetAddress("SERVO_MAJOR_VERSION") == Some(SERVO_MAJOR_VERSION)
  {
  }

  lemma EntryServoMinorVersion()
    ensures Name(SERVO_MINOR_VERSION) == Some("SERVO_MINOR_VERSION") && GetAddress("SERVO_MINOR_VERSION") == Some(SERVO_MINOR_VERSION)
  {
  }

  lemma EntryId()
    ensures Name(ID) == Some("ID") && GetAddress("ID") == Some(ID)
  {
  }

  lemma EntryBaudRate()
    ensures Name(BAUD_RATE) == Some("BAUD_RATE") && GetAddress("BAUD_RATE") == Some(BAUD_RATE)
  {
  }

  lemma EntryReserved()
    ensures Name(RESERVED) == Some("RESERVED") && GetAddress("RESERVED") == Some(RESERVED)
  {
  }

  lemma EntryStatusReturnLevel()
    ensures Name(STATUS_RETURN_LEVEL) == Some("STATUS_RETURN_LEVEL") && GetAddress("STATUS_RETURN_LEVEL") == Some(STATUS_RETURN_LEVEL)
  {
  }

  lemma EntryMinPositionLimitL()
    ensures Name(MIN_POSITION_LIMIT_L) == Some("MIN_POSITION_LIMIT_L") && GetAddress("MIN_POSITION_LIMIT_L") == Some(MIN_POSITION_LIMIT_L)
  {
  }

  lemma EntryMinPositionLimitH()
    ensures Name(MIN_POSITION_LIMIT_H) == Some("MIN_POSITION_LIMIT_H") && GetAddress("MIN_POSITION_LIMIT_H") == Some(MIN_POSITION_LIMIT_H)
  {
  }

  lemma EntryMaxPositionLimitL()
    ensures Name(MAX_POSITION_LIMIT_L) == Some("MAX_POSITION_LIMIT_L") && GetAddress("MAX_POSITION_LIMIT_L") == Some(MAX_POSITION_LIMIT_L)
  {
  }

  lemma EntryMaxPositionLimitH()
    ensures Name(MAX_POSITION_LIMIT_H) == Some("MAX_POSITION_LIMIT_H") && GetAddress("MAX_POSITION_LIMIT_H") == Some(MAX_POSITION_LIMIT_H)
  {
  }

  lemma EntryMaxTemperatureLimit()
    ensures Name(MAX_TEMPERATURE_LIMIT) == Some("MAX_TEMPERATURE_LIMIT") && GetAddress("MAX_TEMPERATURE_LIMIT") == Some(MAX_TEMPERATURE_LIMIT)
  {
  }

  lemma EntryMaxInputVoltage()
    ensures Name(MAX_INPUT_VOLTAGE) == Some("MAX_INPUT_VOLTAGE") && GetAddress("MAX_INPUT_VOLTAGE") == Some(MAX_INPUT_VOLTAGE)
  {
  }

  lemma EntryMinInputVoltage()
    ensures Name(MIN_INPUT_VOLTAGE) == Some("MIN_INPUT_VOLTAGE") && GetAddress("MIN_INPUT_VOLTAGE") == Some(MIN_INPUT_VOLTAGE)
  {
  }

  lemma EntryMaxTorqueLimitL()
    ensures Name(MAX_TORQUE_LIMIT_L) == Some("MAX_TORQUE_LIMIT_L") && GetAddress("MAX_TORQUE_LIMIT_L") == Some(MAX_TORQUE_LIMIT_L)
  {
  }

  lemma EntryMaxTorqueLimitH()
    ensures Name(MAX_TORQUE_LIMIT_H) == Some("MAX_TORQUE_LIMIT_H") && GetAddress("MAX_TORQUE_LIMIT_H") == Some(MAX_TORQUE_LIMIT_H)
  {
  }

  lemma EntrySetupByte()
    ensures Name(SETUP_BYTE) == Some("SETUP_BYTE") && GetAddress("SETUP_BYTE") == Some(SETUP_BYTE)
  {
  }

  lemma EntryProtectionSwitch()
    ensures Name(PROTECTION_SWITCH) == Some("PROTECTION_SWITCH") && GetAddress("PROTECTION_SWITCH") == Some(PROTECTION_SWITCH)
  {
  }

  lemma EntryLedAlarmCondition()
    ensures Name(LED_ALARM_CONDITION) == Some("LED_ALARM_CONDITION") && GetAddress("LED_ALARM_CONDITION") == Some(LED_ALARM_CONDITION)
  {
  }

  lemma EntryPositionPGain()
    ensures Name(POSITION_P_GAIN) == Some("POSITION_P_GAIN") && GetAddress("POSITION_P_GAIN") == Some(POSITION_P_GAIN)
  {
  }

  lemma EntryPositionDGain()
    ensures Name(POSITION_D_GAIN) == Some("POSITION_D_GAIN") && GetAddress("POSITION_D_GAIN") == Some(POSITION_D_GAIN)
  {
  }

  lemma EntryPositionIGain()
    ensures Name(POSITION_I_GAIN) == Some("POSITION_I_GAIN") && GetAddress("POSITION_I_GAIN") == Some(POSITION_I_GAIN)
  {
  }

  lemma EntryStartupTorque()
    ensures Name(STARTUP_TORQUE) == Some("STARTUP_TORQUE") && GetAddress("STARTUP_TORQUE") == Some(STARTUP_TORQUE)
  {
  }

  lemma EntryMaxCurrentL()
    ensures Name(MAX_CURRENT_L) == Some("MAX_CURRENT_L") && GetAddress("MAX_CURRENT_L") == Some(MAX_CURRENT_L)
  {
  }

  lemma EntryMaxCurrentH()
    ensures Name(MAX_CURRENT_H) == Some("MAX_CURRENT_H") && GetAddress("MAX_CURRENT_H") == Some(MAX_CURRENT_H)
  {
  }

  lemma EntryCwDeadZone()
    ensures Name(CW_DEAD_ZONE) == Some("CW_DEAD_ZONE") && GetAddress("CW_DEAD_ZONE") == Some(CW_DEAD_ZONE)
  {
  }

  lemma EntryCcwDeadZone()
    ensures Name(CCW_DEAD_ZONE) == Some("CCW_DEAD_ZONE") && GetAddress("CCW_DEAD_ZONE") == Some(CCW_DEAD_ZONE)
  {
  }

  lemma EntryOverloadCurrentL()
    ensures Name(OVERLOAD_CURRENT_L) == Some("OVERLOAD_CURRENT_L") && GetAddress("OVERLOAD_CURRENT_L") == Some(OVERLOAD_CURRENT_L)
  {
  }

  lemma EntryOverloadCurrentH()
    ensures Name(OVERLOAD_CURRENT_H) == Some("OVERLOAD_CURRENT_H") && GetAddress("OVERLOAD_CURRENT_H") == Some(OVERLOAD_CURRENT_H)
  {
  }

  lemma EntryAngleResolution()
    ensures Name(ANGLE_RESOLUTION) == Some("ANGLE_RESOLUTION") && GetAddress("ANGLE_RESOLUTION") == Some(ANGLE_RESOLUTION)
  {
  }

  lemma EntryPositionOffsetL()
    ensures Name(POSITION_OFFSET_L) == Some("POSITION_OFFSET_L") && GetAddress("POSITION_OFFSET_L") == Some(POSITION_OFFSET_L)
  {
  }

  lemma EntryPositionOffsetH()
    ensures Name(POSITION_OFFSET_H) == Some("POSITION_OFFSET_H") && GetAddress("POSITION_OFFSET_H") == Some(POSITION_OFFSET_H)
  {
  }

  lemma EntryWorkMode()
    ensures Name(WORK_MODE) == Some("WORK_MODE") && GetAddress("WORK_MODE") == Some(WORK_MODE)
  {
  }

  lemma EntryProtectionTorqueL()
    ensures Name(PROTECTION_TORQUE_L) == Some("PROTECTION_TORQUE_L") && GetAddress("PROTECTION_TORQUE_L") == Some(PROTECTION_TORQUE_L)
  {
  }

  lemma EntryProtectionTorqueH()
    ensures Name(PROTECTION_TORQUE_H) == Some("PROTECTION_TORQUE_H") && GetAddress("PROTECTION_TORQUE_H") == Some(PROTECTION_TORQUE_H)
  {
  }

  lemma EntryOverloadProtectionTimeL()
    ensures Name(OVERLOAD_PROTECTION_TIME_L) == Some("OVERLOAD_PROTECTION_TIME_L") && GetAddress("OVERLOAD_PROTECTION_TIME_L") == Some(OVERLOAD_PROTECTION_TIME_L)
  {
  }

  lemma EntryOverloadProtectionTimeH()
    ensures Name(OVERLOAD_PROTECTION_TIME_H) == Some("OVERLOAD_PROTECTION_TIME_H") && GetAddress("OVERLOAD_PROTECTION_TIME_H") == Some(OVERLOAD_PROTECTION_TIME_H)
  {
  }

  lemma EntryOverloadTorqueL()
    ensures Name(OVERLOAD_TORQUE_L) == Some("OVERLOAD_TORQUE_L") && GetAddress("OVERLOAD_TORQUE_L") == Some(OVERLOAD_TORQUE_L)
  {
  }

  lemma EntryOverloadTorqueH()
    ensures Name(OVERLOAD_TORQUE_H) == Some("OVERLOAD_TORQUE_H") && GetAddress("OVERLOAD_TORQUE_H") == Some(OVERLOAD_TORQUE_H)
  {
  }

  lemma EntrySpeedPGain()
    ensures Name(SPEED_P_GAIN) == Some("SPEED_P_GAIN") && GetAddress("SPEED_P_GAIN") == Some(SPEED_P_GAIN)
  {
  }

  lemma EntryOvercurrentProtectionTimeL()
    ensures Name(OVERCURRENT_PROTECTION_TIME_L) == Some("OVERCURRENT_PROTECTION_TIME_L") && GetAddress("OVERCURRENT_PROTECTION_TIME_L") == Some(OVERCURRENT_PROTECTION_TIME_L)
  {
  }

  lemma EntryOvercurrentProtectionTimeH()
    ensures Name(OVERCURRENT_PROTECTION_TIME_H) == Some("OVERCURRENT_PROTECTION_TIME_H") && GetAddress("OVERCURRENT_PROTECTION_TIME_H") == Some(OVERCURRENT_PROTECTION_TIME_H)
  {
  }

  lemma EntrySpeedIGainL()
    ensures Name(SPEED_I_GAIN_L) == Some("SPEED_I_GAIN_L") && GetAddress("SPEED_I_GAIN_L") == Some(SPEED_I_GAIN_L)
  {
  }

  lemma EntrySpeedIGainH()
    ensures Name(SPEED_I_GAIN_H) == Some("SPEED_I_GAIN_H") && GetAddress("SPEED_I_GAIN_H") == Some(SPEED_I_GAIN_H)
  {
  }

  lemma EntryTorqueEnable()
    ensures Name(TORQUE_ENABLE) == Some("TORQUE_ENABLE") && GetAddress("TORQUE_ENABLE") == Some(TORQUE_ENABLE)
  {
  }

  lemma EntryTargetAcceleration()
    ensures Name(TARGET_ACCELERATION) == Some("TARGET_ACCELERATION") && GetAddress("TARGET_ACCELERATION") == Some(TARGET_ACCELERATION)
  {
  }

  lemma EntryGoalPositionL()
    ensures Name(GOAL_POSITION_L) == Some("GOAL_POSITION_L") && GetAddress("GOAL_POSITION_L") == Some(GOAL_POSITION_L)
  {
  }

  lemma EntryGoalPositionH()
    ensures Name(GOAL_POSITION_H) == Some("GOAL_POSITION_H") && GetAddress("GOAL_POSITION_H") == Some(GOAL_POSITION_H)
  {
  }

  lemma EntryGoalPwmL()
    ensures Name(GOAL_PWM_L) == Some("GOAL_PWM_L") && GetAddress("GOAL_PWM_L") == Some(GOAL_PWM_L)
  {
  }

  lemma EntryGoalPwmH()
    ensures Name(GOAL_PWM_H) == Some("GOAL_PWM_H") && GetAddress("GOAL_PWM_H") == Some(GOAL_PWM_H)
  {
  }

  lemma EntryGoalSpeedL()
    ensures Name(GOAL_SPEED_L) == Some("GOAL_SPEED_L") && GetAddress("GOAL_SPEED_L") == Some(GOAL_SPEED_L)
  {
  }

  lemma EntryGoalSpeedH()
    ensures Name(GOAL_SPEED_H) == Some("GOAL_SPEED_H") && GetAddress("GOAL_SPEED_H") == Some(GOAL_SPEED_H)
  {
  }

  lemma EntryTorqueLimitL()
    ensures Name(TORQUE_LIMIT_L) == Some("TORQUE_LIMIT_L") && GetAddress("TORQUE_LIMIT_L") == Some(TORQUE_LIMIT_L)
  {
  }

  lemma EntryTorqueLimitH()
    ensures Name(TORQUE_LIMIT_H) == Some("TORQUE_LIMIT_H") && GetAddress("TORQUE_LIMIT_H") == Some(TORQUE_LIMIT_H)
  {
  }

  lemma EntryLock()
    ensures Name(LOCK) == Some("LOCK") && GetAddress("LOCK") == Some(LOCK)
  {
  }

  lemma EntryPresentPositionL()
    ensures Name(PRESENT_POSITION_L) == Some("PRESENT_POSITION_L") && GetAddress("PRESENT_POSITION_L") == Some(PRESENT_POSITION_L)
  {
  }

  lemma EntryPresentPositionH()
    ensures Name(PRESENT_POSITION_H) == Some("PRESENT_POSITION_H") && GetAddress("PRESENT_POSITION_H") == Some(PRESENT_POSITION_H)
  {
  }

  lemma EntryPresentSpeedL()
    ensures Name(PRESENT_SPEED_L) == Some("PRESENT_SPEED_L") && GetAddress("PRESENT_SPEED_L") == Some(PRESENT_SPEED_L)
  {
  }

  lemma EntryPresentSpeedH()
    ensures Name(PRESENT_SPEED_H) == Some("PRESENT_SPEED_H") && GetAddress("PRESENT_SPEED_H") == Some(PRESENT_SPEED_H)
  {
  }

  lemma EntryPresentPwmL()
    ensures Name(PRESENT_PWM_L) == Some("PRESENT_PWM_L") && GetAddress("PRESENT_PWM_L") == Some(PRESENT_PWM_L)
  {
  }

  lemma EntryPresentPwmH()
    ensures Name(PRESENT_PWM_H) == Some("PRESENT_PWM_H") && GetAddress("PRESENT_PWM_H") == Some(PRESENT_PWM_H)
  {
  }

  lemma EntryPresentVoltage()
    ensures Name(PRESENT_VOLTAGE) == Some("PRESENT_VOLTAGE") && GetAddress("PRESENT_VOLTAGE") == Some(PRESENT_VOLTAGE)
  {
  }

  lemma EntryPresentTemperature()
    ensures Name(PRESENT_TEMPERATURE) == Some("PRESENT_TEMPERATURE") && GetAddress("PRESENT_TEMPERATURE") == Some(PRESENT_TEMPERATURE)
  {
  }

  lemma EntrySyncWriteFlag()
    ensures Name(SYNC_WRITE_FLAG) == Some("SYNC_WRITE_FLAG") && GetAddress("SYNC_WRITE_FLAG") == Some(SYNC_WRITE_FLAG)
  {
  }

  lemma EntryHardwareErrorStatus()
    ensures Name(HARDWARE_ERROR_STATUS) == Some("HARDWARE_ERROR_STATUS") && GetAddress("HARDWARE_ERROR_STATUS") == Some(HARDWARE_ERROR_STATUS)
  {
  }

  lemma EntryMovingStatus()
    ensures Name(MOVING_STATUS) == Some("MOVING_STATUS") && GetAddress("MOVING_STATUS") == Some(MOVING_STATUS)
  {
  }

  lemma EntryPresentCurrentL()
    ensures Name(PRESENT_CURRENT_L) == Some("PRESENT_CURRENT_L") && GetAddress("PRESENT_CURRENT_L") == Some(PRESENT_CURRENT_L)
  {
  }

  lemma EntryPresentCurrentH()
    ensures Name(PRESENT_CURRENT_H) == Some("PRESENT_CURRENT_H") && GetAddress("PRESENT_CURRENT_H") == Some(PRESENT_CURRENT_H)
  {
  }

  lemma EntryMotionThreshold()
    ensures Name(MOTION_THRESHOLD) == Some("MOTION_THRESHOLD") && GetAddress("MOTION_THRESHOLD") == Some(MOTION_THRESHOLD)
  {
  }

  lemma EntryDtS()
    ensures Name(DT_S) == Some("DT_S") && GetAddress("DT_S") == Some(DT_S)
  {
  }

  lemma EntryVK()
    ensures Name(V_K) == Some("V_K") && GetAddress("V_K") == Some(V_K)
  {
  }

  lemma EntryVMin()
    ensures Name(V_MIN) == Some("V_MIN") && GetAddress("V_MIN") == Some(V_MIN)
  {
  }

  lemma EntryVMax()
    ensures Name(V_MAX) == Some("V_MAX") && GetAddress("V_MAX") == Some(V_MAX)
  {
  }

  lemma EntryAMax()
    ensures Name(A_MAX) == Some("A_MAX") && GetAddress("A_MAX") == Some(A_MAX)
  {
  }

  lemma EntryKAcc()
    ensures Name(K_ACC) == Some("K_ACC") && GetAddress("K_ACC") == Some(K_ACC)
  {
  }

  lemma GetAddressOfName0To8(address: int)
    requires 0 <= address <= 8 && Name(address).Some?
    ensures GetAddress(Name(address).value) == Some(address)
  {
    if address == 0 {
      EntryFirmwareMajorVersion();
    } else if address == 1 {
      EntryFirmwareMinorVersion();
    } else if address == 3 {
      EntryServoMajorVersion();
    } else if address == 4 {
      EntryServoMinorVersion();
    } else if address == 5 {
      EntryId();
    } else if address == 6 {
      EntryBaudRate();
    } else if address == 7 {
      EntryReserved();
    } else if address == 8 {
      EntryStatusReturnLevel();
    }
  }

  lemma GetAddressOfName9To16(address: int)
    requires 9 <= address <= 16 && Name(address).Some?
    ensures GetAddress(Name(address).value) == Some(address)
  {
    if address == 9 {
      EntryMinPositionLimitL();
    } else if address == 10 {
      EntryMinPositionLimitH();
    } else if address == 11 {
      EntryMaxPositionLimitL();
    } else if address == 12 {
      EntryMaxPositionLimitH();
    } else if address == 13 {
      EntryMaxTemperatureLimit();
    } else if address == 14 {
      EntryMaxInputVoltage();
    } else if address == 15 {
      EntryMinInputVoltage();
    } else if address == 16 {
      EntryMaxTorqueLimitL();
    }
  }

  lemma GetAddressOfName17To24(address: int)
    requires 17 <= address <= 24 && Name(address).Some?
    ensures GetAddress(Name(address).value) == Some(address)
  {
    if address == 17 {
      EntryMaxTorqueLimitH();
    } else if address == 18 {
      EntrySetupByte();
    } else if address == 19 {
      EntryProtectionSwitch();
    } else if address == 20 {
      EntryLedAlarmCondition();
    } else if address == 21 {
      EntryPositionPGain();
    } else if address == 22 {
      EntryPositionDGain();
    } else if address == 23 {
      EntryPositionIGain();
    } else if address == 24 {
      EntryStartupTorque();
    }
  }

  lemma GetAddressOfName25To32(address: int)
    requires 25 <= address <= 32 && Name(address).Some?
    ensures GetAddress(Name(address).value) == Some(address)
  {
    if address == 25 {
      EntryMaxCurrentL();
    } else if address == 26 {
      EntryMaxCurrentH();
    } else if address == 27 {
      EntryCwDeadZone();
    } else if address == 28 {
      EntryCcwDeadZone();
    } else if address == 29 {
      EntryOverloadCurrentL();
    } else if address == 30 {
      EntryOverloadCurrentH();
    } else if address == 31 {
      EntryAngleResolution();
    } else if address == 32 {
      EntryPositionOffsetL();
    }
  }

  lemma GetAddressOfName33To40(address: int)
    requires 33 <= address <= 40 && Name(address).Some?
    ensures GetAddress(Name(address).value) == Some(address)
  {
    if address == 33 {
      EntryPositionOffsetH();
    } else if address == 34 {
      EntryWorkMode();
    } else if address == 35 {
      EntryProtectionTorqueL();
    } else if address == 36 {
      EntryProtectionTorqueH();
    } else if address == 37 {
      EntryOverloadProtectionTimeL();
    } else if address == 38 {
      EntryOverloadProtectionTimeH();
    } else if address == 39 {
      EntryOverloadTorqueL();
    } else if address == 40 {
      EntryOverloadTorqueH();
    }
  }

  lemma GetAddressOfName41To48(address: int)
    requires 41 <= address <= 48 && Name(address).Some?
    ensures GetAddress(Name(address).value) == Some(address)
  {
    if address == 41 {
      EntrySpeedPGain();
    } else if address == 42 {
      EntryOvercurrentProtectionTimeL();
    } else if address == 43 {
      EntryOvercurrentProtectionTimeH();
    } else if address == 44 {
      EntrySpeedIGainL();
    } else if address == 45 {
      EntrySpeedIGainH();
    } else if address == 46 {
      EntryTorqueEnable();
    } else if address == 47 {
      EntryTargetAcceleration();
    } else if address == 48 {
      EntryGoalPositionL();
    }
  }

  lemma GetAddressOfName49To56(address: int)
    requires 49 <= address <= 56 && Name(address).Some?
    ensures GetAddress(Name(address).value) == Some(address)
  {
    if address == 49 {
      EntryGoalPositionH();
    } else if address == 50 {
      EntryGoalPwmL();
    } else if address == 51 {
      EntryGoalPwmH();
    } else if address == 52 {
      EntryGoalSpeedL();
    } else if address == 53 {
      EntryGoalSpeedH();
    } else if address == 54 {
      EntryTorqueLimitL();
    } else if address == 55 {
      EntryTorqueLimitH();
    } else if address == 56 {
      EntryLock();
    }
  }

  lemma GetAddressOfName57To64(address: int)
    requires 57 <= address <= 64 && Name(address).Some?
    ensures GetAddress(Name(address).value) == Some(address)
  {
    if address == 57 {
      EntryPresentPositionL();
    } else if address == 58 {
      EntryPresentPositionH();
    } else if address == 59 {
      EntryPresentSpeedL();
    } else if address == 60 {
      EntryPresentSpeedH();
    } else if address == 61 {
      EntryPresentPwmL();
    } else if address == 62 {
      EntryPresentPwmH();
    } else if address == 63 {
      EntryPresentVoltage();
    } else if address == 64 {
      EntryPresentTemperature();
    }
  }

  lemma GetAddressOfName65To82(address: int)
    requires 65 <= address <= 82 && Name(address).Some?
    ensures GetAddress(Name(address).value) == Some(address)
  {
    if address == 65 {
      EntrySyncWriteFlag();
    } else if address == 66 {
      EntryHardwareErrorStatus();
    } else if address == 67 {
      EntryMovingStatus();
    } else if address == 68 {
      EntryPresentCurrentL();
    } else if address == 69 {
      EntryPresentCurrentH();
    } else if address == 80 {
      EntryMotionThreshold();
    } else if address == 81 {
      EntryDtS();
    } else if address == 82 {
      EntryVK();
    }
  }

  lemma GetAddressOfName83To86(address: int)
    requires 83 <= address <= 86 && Name(address).Some?
    ensures GetAddress(Name(address).value) == Some(address)
  {
    if address == 83 {
      EntryVMin();
    } else if address == 84 {
      EntryVMax();
    } else if address == 85 {
      EntryAMax();
    } else if address == 86 {
      EntryKAcc();
    }
  }

  /** Names are pairwise distinct: looking up the name of a key gives that key back. */
  lemma GetAddressOfName(address: int)
    requires Name(address).Some?
    ensures GetAddress(Name(address).value) == Some(address)
  {
    NameKeys(address);
    if address <= 8 {
      GetAddressOfName0To8(address);
    } else if address <= 16 {
      GetAddressOfName9To16(address);
    } else if address <= 24 {
      GetAddressOfName17To24(address);
    } else if address <= 32 {
      GetAddressOfName25To32(address);
    } else if address <= 40 {
      GetAddressOfName33To40(address);
    } else if address <= 48 {
      GetAddressOfName41To48(address);
    } else if address <= 56 {
      GetAddressOfName49To56(address);
    } else if address <= 64 {
      GetAddressOfName57To64(address);
    } else if address <= 82 {
      GetAddressOfName65To82(address);
    } else {
      GetAddressOfName83To86(address);
    }
  }

  /** Whatever get_address returns is a key whose name is the argument. */
  lemma GetAddressSound(name: string)
    ensures GetAddress(name).Some? ==> Name(GetAddress(name).value) == Some(name)
  {
    if 2 <= |name| <= 9 {
      GetAddressSoundLength2To9(name);
    } else if 10 <= |name| <= 12 {
      GetAddressSoundLength10To12(name);
    } else if |name| == 13 {
      GetAddressSoundLength13(name);
    } else if |name| == 14 {
      GetAddressSoundLength14(name);
    } else if |name| == 15 {
      GetAddressSoundLength15(name);
    } else if |name| == 16 {
      GetAddressSoundLength16(name);
    } else if |name| == 17 {
      GetAddressSoundLength17(name);
    } else if |name| == 18 {
      GetAddressSoundLength18(name);
    } else if |name| == 19 {
      GetAddressSoundLength19(name);
    } else if 20 <= |name| <= 29 {
      GetAddressSoundLength20To29(name);
    }
  }

  lemma GetAddressSoundLength2To9(name: string)
    requires 2 <= |name| <= 9
    ensures GetAddress(name).Some? ==> Name(GetAddress(name).value) == Some(name)
  {
  }

  lemma GetAddressSoundLength10To12(name: string)
    requires 10 <= |name| <= 12
    ensures GetAddress(name).Some? ==> Name(GetAddress(name).value) == Some(name)
  {
  }

  lemma GetAddressSoundLength13(name: string)
    requires |name| == 13
    ensures GetAddress(name).Some? ==> Name(GetAddress(name).value) == Some(name)
  {
  }

  lemma GetAddressSoundLength14(name: string)
    requires |name| == 14
    ensures GetAddress(name).Some? ==> Name(GetAddress(name).value) == Some(name)
  {
  }

  lemma GetAddressSoundLength15(name: string)
    requires |name| == 15
    ensures GetAddress(name).Some? ==> Name(GetAddress(name).value) == Some(name)
  {
  }

  lemma GetAddressSoundLength16(name: string)
    requires |name| == 16
    ensures GetAddress(name).Some? ==> Name(GetAddress(name).value) == Some(name)
  {
  }

  lemma GetAddressSoundLength17(name: string)
    requires |name| == 17
    ensures GetAddress(name).Some? ==> Name(GetAddress(name).value) == Some(name)
  {
  }

  lemma GetAddressSoundLength18(name: string)
    requires |name| == 18
    ensures GetAddress(name).Some? ==> Name(GetAddress(name).value) == Some(name)
  {
  }

  lemma GetAddressSoundLength19(name: string)
    requires |name| == 19
    ensures GetAddress(name).Some? ==> Name(GetAddress(name).value) == Some(name)
  {
  }

  lemma GetAddressSoundLength20To29(name: string)
    requires 20 <= |name| <= 29
    ensures GetAddress(name).Some? ==> Name(GetAddress(name).value) == Some(name)
  {
  }

  /** get_address returns None exactly for the strings that are no key's name. */
  lemma GetAddressNone(name: string)
    ensures GetAddress(name).None? <==> forall a :: Name(a) != Some(name)
  {
    GetAddressSound(name);
    if exists a :: Name(a) == Some(name) {
      var a :| Name(a) == Some(name);
      GetAddressOfName(a);
    }
  }

  // ---------------------------------------------------------------------------
  // Decimal rendering for f'UNKNOWN_{address}'

  predicate IsDigit(c: char)
  {
    '0' <= c <= '9'
  }

  predicate AllDigits(s: string)
  {
    forall i :: 0 <= i < |s| ==> IsDigit(s[i])
  }

  function DigitChar(d: int): (c: char)
    requires 0 <= d < 10
    ensures IsDigit(c) && c as int - '0' as int == d
  {
    ('0' as int + d) as char
  }

  /** Python's str() of a natural number: its decimal digits, most significant first. */
  function NatToDecimal(n: nat): (r: string)
    ensures |r| >= 1 && AllDigits(r)
    ensures n >= 10 ==> r[0] != '0'
  {
    if n < 10 then [DigitChar(n)] else NatToDecimal(n / 10) + [DigitChar(n % 10)]
  }

  /** The number a string of decimal digits denotes. */
  function DecimalValue(s: string): nat
    requires AllDigits(s)
  {
    if s == [] then 0 else 10 * DecimalValue(s[..|s| - 1]) + (s[|s| - 1] as int - '0' as int)
  }

  /** Reading back the rendered digits gives the number. */
  lemma {:induction false} DecimalRoundTrip(n: nat)
    ensures DecimalValue(NatToDecimal(n)) == n
  {
    if n >= 10 {
      var s := NatToDecimal(n);
      assert s[..|s| - 1] == NatToDecimal(n / 10);
      DecimalRoundTrip(n / 10);
    }
  }

  /** Python's str() of an integer: a minus sign before the digits of a negative number. */
  function IntToDecimal(a: int): (r: string)
    ensures |r| >= 1
    ensures a < 0 <==> r[0] == '-'
    ensures a >= 0 ==> AllDigits(r) && DecimalValue(r) == a
    ensures a < 0 ==> AllDigits(r[1..]) && DecimalValue(r[1..]) == -a
  {
    if a < 0 then
      DecimalRoundTrip(-a);
      assert ("-" + NatToDecimal(-a))[1..] == NatToDecimal(-a);
      "-" + NatToDecimal(-a)
    else
      DecimalRoundTrip(a);
      NatToDecimal(a)
  }

  /** Distinct integers render differently. */
  lemma IntToDecimalInjective(a: int, b: int)
    requires IntToDecimal(a) == IntToDecimal(b)
    ensures a == b
  {
  }

  /** AddressNames.get_name: the table name, or "UNKNOWN_" followed by the address. */
  function GetName(address: int): (r: string)
    ensures Name(address).Some? ==> r == Name(address).value
    ensures Name(address).None? ==> |r| > 8 && r[..8] == "UNKNOWN_" && r[8..] == IntToDecimal(address)
  {
    if Name(address).Some? then Name(address).value else "UNKNOWN_" + IntToDecimal(address)
  }

  /** Different addresses never share a name, whether from the table or generated. */
  lemma GetNameInjective(a: int, b: int)
    requires GetName(a) == GetName(b)
    ensures a == b
  {
    if Name(a).Some? && Name(b).Some? {
      GetAddressOfName(a);
      GetAddressOfName(b);
    } else if Name(a).Some? || Name(b).Some? {
      GetAddressOfGetName(a);
      GetAddressOfGetName(b);
    } else {
      assert GetName(a)[8..] == GetName(b)[8..];
      IntToDecimalInjective(a, b);
    }
  }

  /** get_address inverts get_name on the table's keys and finds nothing for the generated names. */
  lemma GetAddressOfGetName(address: int)
    ensures Name(address).Some? ==> GetAddress(GetName(address)) == Some(address)
    ensures Name(address).None? ==> GetAddress(GetName(address)) == None
  {
    if Name(address).Some? {
      GetAddressOfName(address);
    } else {
      var s := GetName(address);
      assert s[0] == s[..8][0] == 'U';
    }
  }
  /** Every address constant is the key of the table entry bearing its own identifier. */
  lemma ConstantsNamed()
    ensures Name(FIRMWARE_MAJOR_VERSION) == Some("FIRMWARE_MAJOR_VERSION")
    ensures Name(FIRMWARE_MINOR_VERSION) == Some("FIRMWARE_MINOR_VERSION")
    ensures Name(SERVO_MAJOR_VERSION) == Some("SERVO_MAJOR_VERSION")
    ensures Name(SERVO_MINOR_VERSION) == Some("SERVO_MINOR_VERSION")
    ensures Name(ID) == Some("ID")
    ensures Name(BAUD_RATE) == Some("BAUD_RATE")
    ensures Name(RESERVED) == Some("RESERVED")
    ensures Name(STATUS_RETURN_LEVEL) == Some("STATUS_RETURN_LEVEL")
    ensures Name(MIN_POSITION_LIMIT_L) == Some("MIN_POSITION_LIMIT_L")
    ensures Name(MIN_POSITION_LIMIT_H) == Some("MIN_POSITION_LIMIT_H")
    ensures Name(MAX_POSITION_LIMIT_L) == Some("MAX_POSITION_LIMIT_L")
    ensures Name(MAX_POSITION_LIMIT_H) == Some("MAX_POSITION_LIMIT_H")
    ensures Name(MAX_TEMPERATURE_LIMIT) == Some("MAX_TEMPERATURE_LIMIT")
    ensures Name(MAX_INPUT_VOLTAGE) == Some("MAX_INPUT_VOLTAGE")
    ensures Name(MIN_INPUT_VOLTAGE) == Some("MIN_INPUT_VOLTAGE")
    ensures Name(MAX_TORQUE_LIMIT_L) == Some("MAX_TORQUE_LIMIT_L")
    ensures Name(MAX_TORQUE_LIMIT_H) == Some("MAX_TORQUE_LIMIT_H")
    ensures Name(SETUP_BYTE) == Some("SETUP_BYTE")
    ensures Name(PROTECTION_SWITCH) == Some("PROTECTION_SWITCH")
    ensures Name(LED_ALARM_CONDITION) == Some("LED_ALARM_CONDITION")
    ensures Name(POSITION_P_GAIN) == Some("POSITION_P_GAIN")
    ensures Name(POSITION_D_GAIN) == Some("POSITION_D_GAIN")
    ensures Name(POSITION_I_GAIN) == Some("POSITION_I_GAIN")
    ensures Name(STARTUP_TORQUE) == Some("STARTUP_TORQUE")
    ensures Name(MAX_CURRENT_L) == Some("MAX_CURRENT_L")
    ensures Name(MAX_CURRENT_H) == Some("MAX_CURRENT_H")
    ensures Name(CW_DEAD_ZONE) == Some("CW_DEAD_ZONE")
    ensures Name(CCW_DEAD_ZONE) == Some("CCW_DEAD_ZONE")
    ensures Name(OVERLOAD_CURRENT_L) == Some("OVERLOAD_CURRENT_L")
    ensures Name(OVERLOAD_CURRENT_H) == Some("OVERLOAD_CURRENT_H")
    ensures Name(ANGLE_RESOLUTION) == Some("ANGLE_RESOLUTION")
    ensures Name(POSITION_OFFSET_L) == Some("POSITION_OFFSET_L")
    ensures Name(POSITION_OFFSET_H) == Some("POSITION_OFFSET_H")
    ensures Name(WORK_MODE) == Some("WORK_MODE")
    ensures Name(PROTECTION_TORQUE_L) == Some("PROTECTION_TORQUE_L")
    ensures Name(PROTECTION_TORQUE_H) == Some("PROTECTION_TORQUE_H")
    ensures Name(OVERLOAD_PROTECTION_TIME_L) == Some("OVERLOAD_PROTECTION_TIME_L")
    ensures Name(OVERLOAD_PROTECTION_TIME_H) == Some("OVERLOAD_PROTECTION_TIME_H")
    ensures Name(OVERLOAD_TORQUE_L) == Some("OVERLOAD_TORQUE_L")
    ensures Name(OVERLOAD_TORQUE_H) == Some("OVERLOAD_TORQUE_H")
    ensures Name(SPEED_P_GAIN) == Some("SPEED_P_GAIN")
    ensures Name(OVERCURRENT_PROTECTION_TIME_L) == Some("OVERCURRENT_PROTECTION_TIME_L")
    ensures Name(OVERCURRENT_PROTECTION_TIME_H) == Some("OVERCURRENT_PROTECTION_TIME_H")
    ensures Name(SPEED_I_GAIN_L) == Some("SPEED_I_GAIN_L")
    ensures Name(SPEED_I_GAIN_H) == Some("SPEED_I_GAIN_H")
    ensures Name(TORQUE_ENABLE) == Some("TORQUE_ENABLE")
    ensures Name(TARGET_ACCELERATION) == Some("TARGET_ACCELERATION")
    ensures Name(GOAL_POSITION_L) == Some("GOAL_POSITION_L")
    ensures Name(GOAL_POSITION_H) == Some("GOAL_POSITION_H")
    ensures Name(GOAL_PWM_L) == Some("GOAL_PWM_L")
    ensures Name(GOAL_PWM_H) == Some("GOAL_PWM_H")
    ensures Name(GOAL_SPEED_L) == Some("GOAL_SPEED_L")
    ensures Name(GOAL_SPEED_H) == Some("GOAL_SPEED_H")
    ensures Name(TORQUE_LIMIT_L) == Some("TORQUE_LIMIT_L")
    ensures Name(TORQUE_LIMIT_H) == Some("TORQUE_LIMIT_H")
    ensures Name(LOCK) == Some("LOCK")
    ensures Name(PRESENT_POSITION_L) == Some("PRESENT_POSITION_L")
    ensures Name(PRESENT_POSITION_H) == Some("PRESENT_POSITION_H")
    ensures Name(PRESENT_SPEED_L) == Some("PRESENT_SPEED_L")
    ensures Name(PRESENT_SPEED_H) == Some("PRESENT_SPEED_H")
    ensures Name(PRESENT_PWM_L) == Some("PRESENT_PWM_L")
    ensures Name(PRESENT_PWM_H) == Some("PRESENT_PWM_H")
    ensures Name(PRESENT_VOLTAGE) == Some("PRESENT_VOLTAGE")
    ensures Name(PRESENT_TEMPERATURE) == Some("PRESENT_TEMPERATURE")
    ensures Name(SYNC_WRITE_FLAG) == Some("SYNC_WRITE_FLAG")
    ensures Name(HARDWARE_ERROR_STATUS) == Some("HARDWARE_ERROR_STATUS")
    ensures Name(MOVING_STATUS) == Some("MOVING_STATUS")
    ensures Name(PRESENT_CURRENT_L) == Some("PRESENT_CURRENT_L")
    ensures Name(PRESENT_CURRENT_H) == Some("PRESENT_CURRENT_H")
    ensures Name(MOTION_THRESHOLD) == Some("MOTION_THRESHOLD")
    ensures Name(DT_S) == Some("DT_S")
    ensures Name(V_K) == Some("V_K")
    ensures Name(V_MIN) == Some("V_MIN")
    ensures Name(V_MAX) == Some("V_MAX")
    ensures Name(A_MAX) == Some("A_MAX")
    ensures Name(K_ACC) == Some("K_ACC")
  {
    ConstantsNamedFirmwareInfo();
    ConstantsNamedBasicConfig();
    ConstantsNamedMotionLimits();
    ConstantsNamedAdvancedControl();
    ConstantsNamedRealtimeControl();
    ConstantsNamedStatusFeedback();
    ConstantsNamedDefaultParams();
  }

  lemma ConstantsNamedFirmwareInfo()
    ensures Name(FIRMWARE_MAJOR_VERSION) == Some("FIRMWARE_MAJOR_VERSION")
    ensures Name(FIRMWARE_MINOR_VERSION) == Some("FIRMWARE_MINOR_VERSION")
    ensures Name(SERVO_MAJOR_VERSION) == Some("SERVO_MAJOR_VERSION")
    ensures Name(SERVO_MINOR_VERSION) == Some("SERVO_MINOR_VERSION")
  {
    EntryFirmwareMajorVersion();
    EntryFirmwareMinorVersion();
    EntryServoMajorVersion();
    EntryServoMinorVersion();
  }

  lemma ConstantsNamedBasicConfig()
    ensures Name(ID) == Some("ID")
    ensures Name(BAUD_RATE) == Some("BAUD_RATE")
    ensures Name(RESERVED) == Some("RESERVED")
    ensures Name(STATUS_RETURN_LEVEL) == Some("STATUS_RETURN_LEVEL")
  {
    EntryId();
    EntryBaudRate();
    EntryReserved();
    EntryStatusReturnLevel();
  }

  lemma ConstantsNamedMotionLimits()
    ensures Name(MIN_POSITION_LIMIT_L) == Some("MIN_POSITION_LIMIT_L")
    ensures Name(MIN_POSITION_LIMIT_H) == Some("MIN_POSITION_LIMIT_H")
    ensures Name(MAX_POSITION_LIMIT_L) == Some("MAX_POSITION_LIMIT_L")
    ensures Name(MAX_POSITION_LIMIT_H) == Some("MAX_POSITION_LIMIT_H")
    ensures Name(MAX_TEMPERATURE_LIMIT) == Some("MAX_TEMPERATURE_LIMIT")
    ensures Name(MAX_INPUT_VOLTAGE) == Some("MAX_INPUT_VOLTAGE")
    ensures Name(MIN_INPUT_VOLTAGE) == Some("MIN_INPUT_VOLTAGE")
    ensures Name(MAX_TORQUE_LIMIT_L) == Some("MAX_TORQUE_LIMIT_L")
    ensures Name(MAX_TORQUE_LIMIT_H) == Some("MAX_TORQUE_LIMIT_H")
  {
    EntryMinPositionLimitL();
    EntryMinPositionLimitH();
    EntryMaxPositionLimitL();
    EntryMaxPositionLimitH();
    EntryMaxTemperatureLimit();
    EntryMaxInputVoltage();
    EntryMinInputVoltage();
    EntryMaxTorqueLimitL();
    EntryMaxTorqueLimitH();
  }

  lemma ConstantsNamedAdvancedControl()
    ensures Name(SETUP_BYTE) == Some("SETUP_BYTE")
    ensures Name(PROTECTION_SWITCH) == Some("PROTECTION_SWITCH")
    ensures Name(LED_ALARM_CONDITION) == Some("LED_ALARM_CONDITION")
    ensures Name(POSITION_P_GAIN) == Some("POSITION_P_GAIN")
    ensures Name(POSITION_D_GAIN) == Some("POSITION_D_GAIN")
    ensures Name(POSITION_I_GAIN) == Some("POSITION_I_GAIN")
    ensures Name(STARTUP_TORQUE) == Some("STARTUP_TORQUE")
    ensures Name(MAX_CURRENT_L) == Some("MAX_CURRENT_L")
    ensures Name(MAX_CURRENT_H) == Some("MAX_CURRENT_H")
    ensures Name(CW_DEAD_ZONE) == Some("CW_DEAD_ZONE")
    ensures Name(CCW_DEAD_ZONE) == Some("CCW_DEAD_ZONE")
    ensures Name(OVERLOAD_CURRENT_L) == Some("OVERLOAD_CURRENT_L")
    ensures Name(OVERLOAD_CURRENT_H) == Some("OVERLOAD_CURRENT_H")
    ensures Name(ANGLE_RESOLUTION) == Some("ANGLE_RESOLUTION")
    ensures Name(POSITION_OFFSET_L) == Some("POSITION_OFFSET_L")
    ensures Name(POSITION_OFFSET_H) == Some("POSITION_OFFSET_H")
    ensures Name(WORK_MODE) == Some("WORK_MODE")
    ensures Name(PROTECTION_TORQUE_L) == Some("PROTECTION_TORQUE_L")
    ensures Name(PROTECTION_TORQUE_H) == Some("PROTECTION_TORQUE_H")
    ensures Name(OVERLOAD_PROTECTION_TIME_L) == Some("OVERLOAD_PROTECTION_TIME_L")
    ensures Name(OVERLOAD_PROTECTION_TIME_H) == Some("OVERLOAD_PROTECTION_TIME_H")
    ensures Name(OVERLOAD_TORQUE_L) == Some("OVERLOAD_TORQUE_L")
    ensures Name(OVERLOAD_TORQUE_H) == Some("OVERLOAD_TORQUE_H")
    ensures Name(SPEED_P_GAIN) == Some("SPEED_P_GAIN")
    ensures Name(OVERCURRENT_PROTECTION_TIME_L) == Some("OVERCURRENT_PROTECTION_TIME_L")
    ensures Name(OVERCURRENT_PROTECTION_TIME_H) == Some("OVERCURRENT_PROTECTION_TIME_H")
    ensures Name(SPEED_I_GAIN_L) == Some("SPEED_I_GAIN_L")
    ensures Name(SPEED_I_GAIN_H) == Some("SPEED_I_GAIN_H")
  {
    EntrySetupByte();
    EntryProtectionSwitch();
    EntryLedAlarmCondition();
    EntryPositionPGain();
    EntryPositionDGain();
    EntryPositionIGain();
    EntryStartupTorque();
    EntryMaxCurrentL();
    EntryMaxCurrentH();
    EntryCwDeadZone();
    EntryCcwDeadZone();
    EntryOverloadCurrentL();
    EntryOverloadCurrentH();
    EntryAngleResolution();
    EntryPositionOffsetL();
    EntryPositionOffsetH();
    EntryWorkMode();
    EntryProtectionTorqueL();
    EntryProtectionTorqueH();
    EntryOverloadProtectionTimeL();
    EntryOverloadProtectionTimeH();
    EntryOverloadTorqueL();
    EntryOverloadTorqueH();
    EntrySpeedPGain();
    EntryOvercurrentProtectionTimeL();
    EntryOvercurrentProtectionTimeH();
    EntrySpeedIGainL();
    EntrySpeedIGainH();
  }

  lemma ConstantsNamedRealtimeControl()
    ensures Name(TORQUE_ENABLE) == Some("TORQUE_ENABLE")
    ensures Name(TARGET_ACCELERATION) == Some("TARGET_ACCELERATION")
    ensures Name(GOAL_POSITION_L) == Some("GOAL_POSITION_L")
    ensures Name(GOAL_POSITION_H) == Some("GOAL_POSITION_H")
    ensures Name(GOAL_PWM_L) == Some("GOAL_PWM_L")
    ensures Name(GOAL_PWM_H) == Some("GOAL_PWM_H")
    ensures Name(GOAL_SPEED_L) == Some("GOAL_SPEED_L")
    ensures Name(GOAL_SPEED_H) == Some("GOAL_SPEED_H")
    ensures Name(TORQUE_LIMIT_L) == Some("TORQUE_LIMIT_L")
    ensures Name(TORQUE_LIMIT_H) == Some("TORQUE_LIMIT_H")
    ensures Name(LOCK) == Some("LOCK")
  {
    EntryTorqueEnable();
    EntryTargetAcceleration();
    EntryGoalPositionL();
    EntryGoalPositionH();
    EntryGoalPwmL();
    EntryGoalPwmH();
    EntryGoalSpeedL();
    EntryGoalSpeedH();
    EntryTorqueLimitL();
    EntryTorqueLimitH();
    EntryLock();
  }

  lemma ConstantsNamedStatusFeedback()
    ensures Name(PRESENT_POSITION_L) == Some("PRESENT_POSITION_L")
    ensures Name(PRESENT_POSITION_H) == Some("PRESENT_POSITION_H")
    ensures Name(PRESENT_SPEED_L) == Some("PRESENT_SPEED_L")
    ensures Name(PRESENT_SPEED_H) == Some("PRESENT_SPEED_H")
    ensures Name(PRESENT_PWM_L) == Some("PRESENT_PWM_L")
    ensures Name(PRESENT_PWM_H) == Some("PRESENT_PWM_H")
    ensures Name(PRESENT_VOLTAGE) == Some("PRESENT_VOLTAGE")
    ensures Name(PRESENT_TEMPERATURE) == Some("PRESENT_TEMPERATURE")
    ensures Name(SYNC_WRITE_FLAG) == Some("SYNC_WRITE_FLAG")
    ensures Name(HARDWARE_ERROR_STATUS) == Some("HARDWARE_ERROR_STATUS")
    ensures Name(MOVING_STATUS) == Some("MOVING_STATUS")
    ensures Name(PRESENT_CURRENT_L) == Some("PRESENT_CURRENT_L")
    ensures Name(PRESENT_CURRENT_H) == Some("PRESENT_CURRENT_H")
  {
    EntryPresentPositionL();
    EntryPresentPositionH();
    EntryPresentSpeedL();
    EntryPresentSpeedH();
    EntryPresentPwmL();
    EntryPresentPwmH();
    EntryPresentVoltage();
    EntryPresentTemperature();
    EntrySyncWriteFlag();
    EntryHardwareErrorStatus();
    EntryMovingStatus();
    EntryPresentCurrentL();
    EntryPresentCurrentH();
  }

  lemma ConstantsNamedDefaultParams()
    ensures Name(MOTION_THRESHOLD) == Some("MOTION_THRESHOLD")
    ensures Name(DT_S) == Some("DT_S")
    ensures Name(V_K) == Some("V_K")
    ensures Name(V_MIN) == Some("V_MIN")
    ensures Name(V_MAX) == Some("V_MAX")
    ensures Name(A_MAX) == Some("A_MAX")
    ensures Name(K_ACC) == Some("K_ACC")
  {
    EntryMotionThreshold();
    EntryDtS();
    EntryVK();
    EntryVMin();
    EntryVMax();
    EntryAMax();
    EntryKAcc();
  }

  /** Every high-byte register directly follows its low-byte partner. */
  lemma HighFollowsLow()
    ensures MIN_POSITION_LIMIT_H == MIN_POSITION_LIMIT_L + 1
    ensures MAX_POSITION_LIMIT_H == MAX_POSITION_LIMIT_L + 1
    ensures MAX_TORQUE_LIMIT_H == MAX_TORQUE_LIMIT_L + 1
    ensures MAX_CURRENT_H == MAX_CURRENT_L + 1
    ensures OVERLOAD_CURRENT_H == OVERLOAD_CURRENT_L + 1
    ensures POSITION_OFFSET_H == POSITION_OFFSET_L + 1
    ensures PROTECTION_TORQUE_H == PROTECTION_TORQUE_L + 1
    ensures OVERLOAD_PROTECTION_TIME_H == OVERLOAD_PROTECTION_TIME_L + 1
    ensures OVERLOAD_TORQUE_H == OVERLOAD_TORQUE_L + 1
    ensures OVERCURRENT_PROTECTION_TIME_H == OVERCURRENT_PROTECTION_TIME_L + 1
    ensures SPEED_I_GAIN_H == SPEED_I_GAIN_L + 1
    ensures GOAL_POSITION_H == GOAL_POSITION_L + 1
    ensures GOAL_PWM_H == GOAL_PWM_L + 1
    ensures GOAL_SPEED_H == GOAL_SPEED_L + 1
    ensures TORQUE_LIMIT_H == TORQUE_LIMIT_L + 1
    ensures PRESENT_POSITION_H == PRESENT_POSITION_L + 1
    ensures PRESENT_SPEED_H == PRESENT_SPEED_L + 1
    ensures PRESENT_PWM_H == PRESENT_PWM_L + 1
    ensures PRESENT_CURRENT_H == PRESENT_CURRENT_L + 1
  {
  }
}
