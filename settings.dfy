/**
 * Global configuration constants (config/settings.py): supported baud
 * rates and protocols, the servo and PID value ranges with their defaults,
 * and the error codes every other module returns.
 */
module Settings {
  import opened Wrappers

  // ---------------------------------------------------------------------------
  // CommunicationConfig

  const DEFAULT_BAUDRATE: int := 1000000

  /** CommunicationConfig.BAUDRATES: baud-rate index to bits per second. */
  function Baudrate(index: int): Option<int>
  {
    match index
    case 0 => Some(1000000)
    case 1 => Some(500000)
    case 2 => Some(250000)
    case 3 => Some(128000)
    case 4 => Some(115200)
    case 5 => Some(76800)
    case 6 => Some(57600)
    case 7 => Some(38400)
    case _ => None
  }

  /** The table has exactly the indices 0..7, and index 0 is the default rate. */
  lemma BaudrateKeys(index: int)
    ensures Baudrate(index).Some? <==> 0 <= index <= 7
    ensures Baudrate(0) == Some(DEFAULT_BAUDRATE)
  {
  }

  /** Rates strictly decrease with the index. */
  lemma BaudratesDecreasing(i: int, j: int)
    requires 0 <= i < j <= 7
    ensures Baudrate(i).value > Baudrate(j).value
  {
  }

  /** The SDK packet handler classes of CommunicationConfig.PROTOCOLS. */
  datatype Protocol = Hls | Scscl | SmsSts

  /** CommunicationConfig.PROTOCOLS lookup by name. */
  function ProtocolNamed(name: string): (r: Option<Protocol>)
    ensures r == Some(Hls) <==> name == "hls"
    ensures r == Some(Scscl) <==> name == "scscl"
    ensures r == Some(SmsSts) <==> name == "sms_sts"
  {
    if name == "hls" then Some(Hls)
    else if name == "scscl" then Some(Scscl)
    else if name == "sms_sts" then Some(SmsSts)
    else None
  }

  const DEFAULT_PROTOCOL: string := "hls"

  // ---------------------------------------------------------------------------
  // ServoConfig

  const MIN_POSITION: int := 0
  const MAX_POSITION: int := 4095
  const CENTER_POSITION: int := 2048
  const MIN_SPEED: int := 0
  const MAX_SPEED: int := 2047
  const MIN_ACCELERATION: int := 0
  const MAX_ACCELERATION: int := 255
  const MIN_TORQUE: int := 0
  const MAX_TORQUE: int := 2047
  const MIN_TEMPERATURE: int := 0
  const MAX_TEMPERATURE: int := 100
  const DEFAULT_TEMP_LIMIT: int := 80
  /** Voltages in tenths of a volt. */
  const MIN_VOLTAGE: int := 50
  const MAX_VOLTAGE: int := 150
  const DEFAULT_VOLTAGE_MIN: int := 60
  const DEFAULT_VOLTAGE_MAX: int := 140

  // ---------------------------------------------------------------------------
  // PIDConfig

  const MIN_PID_GAIN: int := 0
  const MAX_PID_GAIN: int := 255

  datatype PositionPid = PositionPid(p: int, i: int, d: int)
  datatype SpeedPid = SpeedPid(p: int, i: int)

  const DEFAULT_POSITION_PID := PositionPid(32, 0, 32)
  const DEFAULT_SPEED_PID := SpeedPid(10, 200)

  const DEFAULT_STARTUP_TORQUE: int := 16
  const MIN_STARTUP_TORQUE: int := 0
  const MAX_STARTUP_TORQUE: int := 255

  predicate InRange(v: int, lo: int, hi: int)
  {
    lo <= v <= hi
  }

  /** The defaults lie inside the ranges the validators enforce. */
  lemma DefaultsInRange()
    ensures InRange(CENTER_POSITION, MIN_POSITION, MAX_POSITION)
    ensures InRange(DEFAULT_TEMP_LIMIT, MIN_TEMPERATURE, MAX_TEMPERATURE)
    ensures DEFAULT_VOLTAGE_MIN < DEFAULT_VOLTAGE_MAX
    ensures InRange(DEFAULT_VOLTAGE_MIN, MIN_VOLTAGE, MAX_VOLTAGE)
    ensures InRange(DEFAULT_VOLTAGE_MAX, MIN_VOLTAGE, MAX_VOLTAGE)
    ensures InRange(DEFAULT_POSITION_PID.p, MIN_PID_GAIN, MAX_PID_GAIN)
    ensures InRange(DEFAULT_POSITION_PID.i, MIN_PID_GAIN, MAX_PID_GAIN)
    ensures InRange(DEFAULT_POSITION_PID.d, MIN_PID_GAIN, MAX_PID_GAIN)
    ensures InRange(DEFAULT_SPEED_PID.p, MIN_PID_GAIN, MAX_PID_GAIN)
    ensures InRange(DEFAULT_SPEED_PID.i, MIN_PID_GAIN, MAX_PID_GAIN)
    ensures InRange(DEFAULT_STARTUP_TORQUE, MIN_STARTUP_TORQUE, MAX_STARTUP_TORQUE)
  {
  }

  // ---------------------------------------------------------------------------
  // ErrorCodes

  const COMM_SUCCESS: int := 0
  const COMM_PORT_BUSY: int := -1
  const COMM_TX_FAIL: int := -2
  const COMM_RX_FAIL: int := -3
  const COMM_RX_TIMEOUT: int := -4
  const COMM_RX_CORRUPT: int := -5

  const ERRBIT_VOLTAGE: int := 1
  const ERRBIT_ANGLE: int := 2
  const ERRBIT_OVERHEAT: int := 4
  const ERRBIT_OVERLOAD: int := 8
  const ERRBIT_OVERELE: int := 16
  const ERRBIT_OVERCURRENT: int := 32

  const ERROR_SERVO_NOT_FOUND: int := -100
  const ERROR_INVALID_PARAMETER: int := -101
  const ERROR_OPERATION_FAILED: int := -102
  const ERROR_PERMISSION_DENIED: int := -103

  /** The hardware error bits, lowest first. */
  const ERRBITS: seq<int> := [ERRBIT_VOLTAGE, ERRBIT_ANGLE, ERRBIT_OVERHEAT, ERRBIT_OVERLOAD, ERRBIT_OVERELE, ERRBIT_OVERCURRENT]

  function Pow2(k: nat): (r: int)
    ensures r >= 1
  {
    if k == 0 then 1 else 2 * Pow2(k - 1)
  }

  /** ERRBIT_* are the single bits 0x01..0x20, so they are distinct and below 0x40. */
  lemma ErrorBitsAreBits()
    ensures forall k :: 0 <= k < |ERRBITS| ==> ERRBITS[k] == Pow2(k)
    ensures forall j, k :: 0 <= j < k < |ERRBITS| ==> ERRBITS[j] < ERRBITS[k] < 0x40
  {
    assert Pow2(5) == 32;
  }

  /** The result codes and the application error codes are pairwise distinct. */
  lemma ErrorCodesDistinct()
    ensures forall j, k :: 0 <= j < k < |RESULT_CODES| ==> RESULT_CODES[j] > RESULT_CODES[k]
  {
  }

  /** Every code a command can return, from success down to ERROR_PERMISSION_DENIED. */
  const RESULT_CODES: seq<int> := [
    COMM_SUCCESS, COMM_PORT_BUSY, COMM_TX_FAIL, COMM_RX_FAIL, COMM_RX_TIMEOUT, COMM_RX_CORRUPT,
    ERROR_SERVO_NOT_FOUND, ERROR_INVALID_PARAMETER, ERROR_OPERATION_FAILED, ERROR_PERMISSION_DENIED
  ]
}
