/** The GATT access handlers of bleprph/components/ble_peripheral/src/gatt_svr.c
    that reach the motor and the LEDs: the motor service (position, command,
    status and speed characteristics) and the LED service, over the
    module's state: the motor pointer, the four LED states and the four LED
    characteristic handles. What a handler answers, or which motor
    operation it invokes, is stated with the codec of WireCodec and the
    motor API of StepperMotor. */
module GattServer {
  import opened MotorTypes
  import opened MotorControl
  import opened WireCodec
  import opened StepperMotor

  /** ble_gatt_access_ctxt's op. */
  datatype AccessOp = ReadChr | WriteChr | ReadDsc | WriteDsc

  /** The characteristic of the motor service a handle belongs to. */
  datatype MotorAttribute = PositionChr | CommandChr | StatusChr | SpeedChr | OtherAttr

  /** A handler's answer: 0 with the bytes a read appends (none for a
      write), or an ATT error. */
  datatype AccessResult = Done(response: seq<Byte>) | Rejected(error: AttError)

  /** The queue message the API procedure behind a call submits, with the
      absolute target clamped as stepper_motor_move_to_position does;
      ENABLE and DISABLE act directly and queue nothing. */
  function QueuedMessage(call: MotorCall, lo: Int16, hi: Int16): (r: Option<Message>)
    requires lo <= hi
    ensures r.None? <==> call.CallEnable? || call.CallDisable?
    ensures r.Some? ==> r.value.command == CallCommand(call) && WellFormed(r.value, lo, hi)
  {
    match call
    case CallStop => Some(Message(Stop, 0))
    case CallMoveToPosition(p) => Some(Message(MoveAbsolute, Clamp(p, lo, hi)))
    case CallMoveRelative(d) => Some(Message(MoveRelative, d))
    case CallHome => Some(Message(Home, 0))
    case CallSetSpeed(v) => Some(Message(SetSpeed, ToInt16(v)))
    case CallEnable => None
    case CallDisable => None
  }

  /** The first position of h among the handles, or -1. */
  function FirstIndex(handles: seq<UInt16>, h: int): (i: int)
    ensures -1 <= i < |handles|
    ensures i == -1 <==> h !in handles
    ensures 0 <= i ==> handles[i] == h && h !in handles[..i]
    decreases |handles|
  {
    if handles == [] then -1
    else if handles[0] == h then 0
    else
      var j := FirstIndex(handles[1..], h);
      assert handles[1..][..j + 1] == handles[..j + 2][1..];
      if j == -1 then -1 else j + 1
  }

  class Server {
    /** g_motor: NULL until gatt_svr_set_motor. */
    var motor: Motor?
    /** led_states. */
    const ledStates: array<UInt8>
    /** led_handles, as the BLE host assigned them at registration. */
    const ledHandles: seq<UInt16>

    ghost predicate Valid()
      reads this, motor
    {
      && ledStates.Length == 4
      && |ledHandles| == 4
      && (motor != null ==> motor.Valid())
    }

    /** The module's static state at start-up. */
    constructor (handles: seq<UInt16>)
      requires |handles| == 4
      ensures Valid() && fresh(ledStates)
      ensures motor == null && ledHandles == handles && ledStates[..] == [0, 0, 0, 0]
    {
      motor := null;
      ledHandles := handles;
      ledStates := new UInt8[4](_ => 0);
    }

    /** gatt_svr_set_motor. */
    method SetMotor(m: Motor?)
      requires Valid()
      requires m != null ==> m.Valid()
      modifies this`motor
      ensures motor == m && Valid()
    {
      motor := m;
    }

    /** led_gpio_init: when the pin configuration fails its error is returned
        and nothing changes; otherwise every LED state is cleared. */
    method LedGpioInit(configResult: EspErr) returns (err: EspErr)
      requires Valid()
      modifies ledStates
      ensures err == configResult
      ensures err != EspOk ==> ledStates[..] == old(ledStates[..])
      ensures err == EspOk ==> ledStates[..] == [0, 0, 0, 0]
    {
      if configResult != EspOk {
        return configResult;
      }
      for i := 0 to 4
        invariant forall k :: 0 <= k < i ==> ledStates[k] == 0
      {
        ledStates[i] := 0;
      }
      err := EspOk;
    }

    /** led_control: only an index 0..3 changes a state, and only its own. */
    method LedControl(index: int, state: UInt8)
      requires Valid()
      modifies ledStates
      ensures 0 <= index < 4 ==> ledStates[..] == old(ledStates[..])[index := state]
      ensures !(0 <= index < 4) ==> ledStates[..] == old(ledStates[..])
    {
      if 0 <= index < 4 {
        ledStates[index] := state;
      }
    }

    /** The handle search at the top of led_svc_access. */
    method FindLedIndex(attrHandle: int) returns (index: int)
      requires Valid()
      ensures index == FirstIndex(ledHandles, attrHandle)
    {
      index := -1;
      var i := 0;
      while i < 4
        invariant 0 <= i <= 4
        invariant attrHandle !in ledHandles[..i]
      {
        if attrHandle == ledHandles[i] {
          index := i;
          break;
        }
        i := i + 1;
      }
      assert index == -1 ==> ledHandles[..4] == ledHandles;
    }

    /** led_svc_access: an unknown handle is refused with
        BLE_ATT_ERR_UNLIKELY; a read answers the LED's state byte; a write
        of exactly one byte sets it; anything else is refused. */
    method LedAccess(attrHandle: int, op: AccessOp, data: seq<Byte>) returns (r: AccessResult)
      requires Valid()
      modifies ledStates
      ensures Valid()
      ensures var i := FirstIndex(ledHandles, attrHandle);
        if i == -1 || op.ReadDsc? || op.WriteDsc? then
          r == Rejected(Unlikely) && ledStates[..] == old(ledStates[..])
        else if op.ReadChr? then
          r == Done([old(ledStates[i])]) && ledStates[..] == old(ledStates[..])
        else if GattWrite(data, 1, 1).Err? then
          r == Rejected(InvalidAttrValueLen) && ledStates[..] == old(ledStates[..])
        else
          r == Done([]) && ledStates[..] == old(ledStates[..])[i := data[0]]
    {
      var i := FindLedIndex(attrHandle);
      if i == -1 {
        return Rejected(Unlikely);
      }
      match op {
        case ReadChr =>
          r := Done([ledStates[i]]);
        case WriteChr =>
          match GattWrite(data, 1, 1) {
            case Err(e) =>
              r := Rejected(e);
            case Ok(bytes) =>
              LedControl(i, bytes[0]);
              r := Done([]);
          }
        case _ =>
          r := Rejected(Unlikely);
      }
    }

    /** Nothing observable changed. */
    twostate predicate NothingChanged()
      requires old(motor) == motor
      reads this, motor, ledStates
    {
      && ledStates[..] == old(ledStates[..])
      && (motor != null ==> unchanged(motor))
    }

    /** The effect of the motor operation a decoded command invokes: a
        queued command is submitted (its result is ignored), ENABLE also
        lights LED2 and DISABLE turns it off. */
    twostate predicate Performed(call: MotorCall)
      requires old(motor) == motor && motor != null && ledStates.Length == 4
      requires old(motor.minPosition <= motor.maxPosition)
      reads this, motor, ledStates
    {
      match QueuedMessage(call, old(motor.minPosition), old(motor.maxPosition))
      case Some(msg) =>
        motor.Enqueued(msg) && ledStates[..] == old(ledStates[..])
      case None =>
        && motor.queue == old(motor.queue) && motor.queueCreated == old(motor.queueCreated)
        && (call.CallEnable? ==>
              motor.State() == old(motor.State()).(enabled := true)
              && ledStates[..] == old(ledStates[..])[1 := 1])
        && (call.CallDisable? ==>
              motor.State() == old(motor.State()).(enabled := false, coils := AllOff, isMoving := false)
              && ledStates[..] == old(ledStates[..])[1 := 0])
    }

    /** Carry out a decoded command through the motor API. */
    method Perform(call: MotorCall)
      requires Valid() && motor != null
      modifies motor, ledStates
      ensures Valid()
      ensures Performed(call)
    {
      match call {
        case CallStop =>
          var _ := StopMotor(motor);
        case CallMoveToPosition(p) =>
          var _ := MoveToPosition(motor, p);
        case CallMoveRelative(d) =>
          var _ := MoveRelativeSteps(motor, d);
        case CallHome =>
          var _ := HomeMotor(motor);
        case CallSetSpeed(v) =>
          var _ := SetMotorSpeed(motor, v);
        case CallEnable =>
          LedControl(1, 1);
          var _ := EnableMotor(motor);
        case CallDisable =>
          LedControl(1, 0);
          var _ := DisableMotor(motor);
      }
    }

    /** The position read: the motor position on the app's scale, as two
        little-endian bytes. */
    function PositionReading(): (r: seq<Byte>)
      requires motor != null
      reads this, motor
      ensures |r| == 2 && DecodeInt16(r[0], r[1]) == AppFromMotor(motor.State().currentPosition)
    {
      Int16RoundTrip(AppFromMotor(GetPosition(motor)));
      EncodeInt16(AppFromMotor(GetPosition(motor)))
    }

    /** The status read. */
    function StatusReading(fault: bool): (r: seq<Byte>)
      requires motor != null
      reads this, motor
      ensures DecodeStatusFrame(r) == Some((StatusOf(motor.State(), fault), motor.State().currentPosition, fault))
    {
      StatusFrameRoundTrip(GetStatus(motor, fault), GetPosition(motor), IsFault(motor, fault));
      EncodeStatusFrame(GetStatus(motor, fault), GetPosition(motor), IsFault(motor, fault))
    }

    /** The speed read: speed_delay_ms as two little-endian bytes. */
    function SpeedReading(): (r: seq<Byte>)
      requires motor != null
      reads this, motor
      ensures |r| == 2 && DecodeUInt16(r[0], r[1]) == motor.State().speedDelayMs
    {
      EncodeUInt16(motor.speedDelayMs)
    }

    /** What motor_svc_access does for one access, given the level of the
        fault line: with no motor set, BLE_ATT_ERR_UNLIKELY and nothing
        else; a position write of two bytes submits the app position times
        20 as an absolute move; a command write decodes and performs the
        command; a speed write of two bytes submits the speed; the reads
        answer their frames; every other access is refused with
        BLE_ATT_ERR_UNLIKELY. A refused write changes nothing. */
    twostate predicate Accessed(attr: MotorAttribute, op: AccessOp, data: seq<Byte>, fault: bool, r: AccessResult)
      requires old(motor) == motor && ledStates.Length == 4
      requires motor != null ==> old(motor.minPosition <= motor.maxPosition)
      reads this, motor, ledStates
    {
      if motor == null then
        r == Rejected(Unlikely) && NothingChanged()
      else match (attr, op)
        case (PositionChr, ReadChr) =>
          r == Done(old(PositionReading())) && NothingChanged()
        case (PositionChr, WriteChr) =>
          (match GattWrite(data, 2, 2)
           case Err(e) => r == Rejected(e) && NothingChanged()
           case Ok(bytes) =>
             r == Done([]) && Performed(CallMoveToPosition(MotorFromApp(DecodeInt16(bytes[0], bytes[1])))))
        case (CommandChr, WriteChr) =>
          (match DecodeCommandFrame(data)
           case Err(e) => r == Rejected(e) && NothingChanged()
           case Ok(call) => r == Done([]) && Performed(call))
        case (StatusChr, ReadChr) =>
          r == Done(old(StatusReading(fault))) && NothingChanged()
        case (SpeedChr, ReadChr) =>
          r == Done(old(SpeedReading())) && NothingChanged()
        case (SpeedChr, WriteChr) =>
          (match GattWrite(data, 2, 2)
           case Err(e) => r == Rejected(e) && NothingChanged()
           case Ok(bytes) => r == Done([]) && Performed(CallSetSpeed(DecodeUInt16(bytes[0], bytes[1]))))
        case _ =>
          r == Rejected(Unlikely) && NothingChanged()
    }

    /** motor_svc_access. */
    method MotorAccess(attr: MotorAttribute, op: AccessOp, data: seq<Byte>, fault: bool) returns (r: AccessResult)
      requires Valid()
      modifies motor, ledStates
      ensures Valid()
      ensures Accessed(attr, op, data, fault, r)
    {
      if motor == null {
        return Rejected(Unlikely);
      }
      match (attr, op) {
        case (PositionChr, ReadChr) =>
          r := Done(PositionReading());
        case (PositionChr, WriteChr) =>
          match GattWrite(data, 2, 2) {
            case Err(e) =>
              r := Rejected(e);
            case Ok(bytes) =>
              var appPosition := DecodeInt16(bytes[0], bytes[1]);
              Perform(CallMoveToPosition(MotorFromApp(appPosition)));
              r := Done([]);
          }
        case (CommandChr, WriteChr) =>
          match DecodeCommandFrame(data) {
            case Err(e) =>
              r := Rejected(e);
            case Ok(call) =>
              Perform(call);
              r := Done([]);
          }
        case (StatusChr, ReadChr) =>
          r := Done(StatusReading(fault));
        case (SpeedChr, ReadChr) =>
          r := Done(SpeedReading());
        case (SpeedChr, WriteChr) =>
          match GattWrite(data, 2, 2) {
            case Err(e) =>
              r := Rejected(e);
            case Ok(bytes) =>
              Perform(CallSetSpeed(DecodeUInt16(bytes[0], bytes[1])));
              r := Done([]);
          }
        case _ =>
          r := Rejected(Unlikely);
      }
    }
  }
}
