/** Types and constants of the stepper-motor interface header
    (bleprph/components/stepper_motor/include/stepper_motor.h):
    the fixed-width integer types of the motor structure, the command and
    status enumerations that fix the wire numbering, the calibration
    constants, and the ESP-IDF error codes the motor API returns. */
module MotorTypes {

  /** int16_t, uint16_t and uint8_t as value ranges of int. */
  type Int16 = x: int | -0x8000 <= x < 0x8000
  type UInt16 = x: int | 0 <= x < 0x1_0000
  type UInt8 = x: int | 0 <= x < 0x100

  datatype Option<T> = None | Some(value: T)

  /** Conversion of an int to int16_t. C leaves out-of-range conversions
      implementation-defined; the ESP32 toolchain reduces modulo 2^16. The
      two ensures clauses together determine the result uniquely. */
  function ToInt16(x: int): (r: Int16)
    ensures (r - x) % 0x1_0000 == 0
    ensures -0x8000 <= x < 0x8000 ==> r == x
  {
    var m := x % 0x1_0000;
    if m < 0x8000 then m else m - 0x1_0000
  }

  /** Conversion of an int to uint16_t: reduction modulo 2^16. */
  function ToUInt16(x: int): (r: UInt16)
    ensures (r - x) % 0x1_0000 == 0
    ensures 0 <= x < 0x1_0000 ==> r == x
  {
    x % 0x1_0000
  }

  /** A speed travels as uint16_t -> int16_t (the queue message parameter)
      -> uint16_t (the speed field); no value is lost on the way. */
  lemma SpeedSurvivesQueueParameter(v: UInt16)
    ensures ToUInt16(ToInt16(v)) == v
  {
  }

  /** motor_command_t. */
  datatype MotorCommand =
    | Stop
    | MoveAbsolute
    | MoveRelative
    | Home
    | SetSpeed
    | Enable
    | Disable
    | Calibrate

  /** The enumerator values: STOP = 0 and each following one counts up. */
  function CommandCode(c: MotorCommand): (code: UInt8)
    ensures code < 8
    ensures code == 0 <==> c == Stop
    ensures code == 7 <==> c == Calibrate
  {
    match c
    case Stop => 0
    case MoveAbsolute => 1
    case MoveRelative => 2
    case Home => 3
    case SetSpeed => 4
    case Enable => 5
    case Disable => 6
    case Calibrate => 7
  }

  /** The enumerator a byte names, if any. */
  function CommandFromCode(code: int): (r: Option<MotorCommand>)
    ensures r.Some? <==> 0 <= code < 8
    ensures r.Some? ==> CommandCode(r.value) == code
  {
    if code == 0 then Some(Stop)
    else if code == 1 then Some(MoveAbsolute)
    else if code == 2 then Some(MoveRelative)
    else if code == 3 then Some(Home)
    else if code == 4 then Some(SetSpeed)
    else if code == 5 then Some(Enable)
    else if code == 6 then Some(Disable)
    else if code == 7 then Some(Calibrate)
    else None
  }

  /** The numbering is a bijection between the eight commands and 0..7. */
  lemma CommandCodeRoundTrip(c: MotorCommand)
    ensures CommandFromCode(CommandCode(c)) == Some(c)
  {
  }

  /** motor_status_t. */
  datatype MotorStatus = Idle | Moving | Error | Disabled

  /** The enumerator values: IDLE = 0, MOVING = 1, ERROR = 2, DISABLED = 3. */
  function StatusCode(st: MotorStatus): (code: UInt8)
    ensures code < 4
    ensures code == 0 <==> st == Idle
  {
    match st
    case Idle => 0
    case Moving => 1
    case Error => 2
    case Disabled => 3
  }

  function StatusFromCode(code: int): (r: Option<MotorStatus>)
    ensures r.Some? <==> 0 <= code < 4
    ensures r.Some? ==> StatusCode(r.value) == code
  {
    if code == 0 then Some(Idle)
    else if code == 1 then Some(Moving)
    else if code == 2 then Some(Error)
    else if code == 3 then Some(Disabled)
    else None
  }

  lemma StatusCodeRoundTrip(st: MotorStatus)
    ensures StatusFromCode(StatusCode(st)) == Some(st)
  {
  }

  /** Calibration of the linear actuator. */
  const StepsPerRevolution: int := 200
  const Microsteps: int := 1
  const ThreadPitchMm: real := 2.0
  const StepsPerMm: real := (StepsPerRevolution * Microsteps) as real / ThreadPitchMm
  const StrokeLengthMm: int := 30

  /** max_position as stepper_motor_init computes it: the product of stroke
      length and steps per millimetre, truncated to int16_t. */
  function CalibratedMaxPosition(strokeMm: nat, stepsPerMm: real): (r: int)
    requires 0.0 <= stepsPerMm
    ensures r as real <= strokeMm as real * stepsPerMm < r as real + 1.0
  {
    (strokeMm as real * stepsPerMm).Floor
  }

  /** With this header's constants the stroke is 3000 steps. */
  lemma MaxPositionIs3000()
    ensures StepsPerMm == 100.0
    ensures CalibratedMaxPosition(StrokeLengthMm, StepsPerMm) == 3000
  {
  }

  /** The copy of the driver under bleprph/main is built against that
      directory's own header: a 90 mm stroke at 2.22 steps per millimetre,
      199.8 steps, truncated to a travel of 199 steps. */
  lemma MainBuildMaxPositionIs199()
    ensures CalibratedMaxPosition(90, 2.22) == 199
  {
  }

  /** esp_err_t values returned by the motor API. */
  datatype EspErr = EspOk | EspErrInvalidArg | EspErrInvalidState | EspErrTimeout | EspErrNoMem
}
