/** The stepper-motor driver of bleprph/components/stepper_motor/src/stepper_motor.c
    (bleprph/main/stepper_motor.c is a byte-identical copy): the motor
    structure and the module's command queue as one object, the API
    procedures that take a possibly-null motor pointer, and one iteration
    of the control task. Every state change is proved to be the one the
    functions of MotorControl describe. */
module StepperMotor {
  import opened MotorTypes
  import opened MotorControl

  /** xQueueCreate(10, sizeof(motor_cmd_msg_t)). */
  const QueueCapacity: nat := 10

  /** stepper_motor_t, together with the command queue that
      stepper_motor_init creates for it. */
  class Motor {
    var currentPosition: Int16
    var targetPosition: Int16
    var speedDelayMs: UInt16
    var maxPosition: Int16
    var minPosition: Int16
    var currentStep: UInt8
    var isMoving: bool
    var direction: bool
    /** Level of the driver's sleep pin: true = awake. */
    var enabled: bool
    /** Levels last written to AIN1, AIN2, BIN1, BIN2. */
    ghost var coils: CoilPattern
    /** Whether the queue handle is non-NULL. */
    var queueCreated: bool
    /** The queued messages, oldest first. */
    var queue: seq<Message>

    ghost function State(): MotorState
      reads this
    {
      MotorState(currentPosition, targetPosition, speedDelayMs, maxPosition, minPosition,
                 currentStep, isMoving, direction, enabled, coils)
    }

    ghost predicate Valid()
      reads this
    {
      && Invariant(State())
      && |queue| <= QueueCapacity
      && (!queueCreated ==> queue == [])
      && forall i :: 0 <= i < |queue| ==> WellFormed(queue[i], minPosition, maxPosition)
    }

    /** The statically allocated structure before stepper_motor_init: pins
        assigned, every state field zero, no queue yet. */
    constructor ()
      ensures Valid()
      ensures currentPosition == targetPosition == maxPosition == minPosition == 0
      ensures speedDelayMs == 0 && currentStep == 0 && !isMoving && !direction
      ensures !enabled && coils == AllOff && !queueCreated && queue == []
    {
      currentPosition, targetPosition, speedDelayMs := 0, 0, 0;
      maxPosition, minPosition, currentStep := 0, 0, 0;
      isMoving, direction, enabled := false, false, false;
      coils := AllOff;
      queueCreated, queue := false, [];
    }

    /** xQueueSend: append to the back unless the queue is full. */
    method Send(msg: Message) returns (sent: bool)
      requires Valid() && queueCreated
      requires WellFormed(msg, minPosition, maxPosition)
      modifies this`queue
      ensures Valid()
      ensures sent <==> |old(queue)| < QueueCapacity
      ensures queue == if sent then old(queue) + [msg] else old(queue)
    {
      sent := |queue| < QueueCapacity;
      if sent {
        queue := queue + [msg];
      }
    }

    /** A submission's effect: msg goes to the back of the queue when the
        queue exists and has room; otherwise the queue is left unchanged.
        The motor state never changes. */
    twostate predicate Enqueued(msg: Message)
      reads this
    {
      && State() == old(State())
      && queueCreated == old(queueCreated)
      && queue == if old(queueCreated) && |old(queue)| < QueueCapacity then old(queue) + [msg] else old(queue)
    }

    /** A submission and its result: with no queue, ESP_ERR_INVALID_STATE;
        with a full queue, ESP_ERR_TIMEOUT; otherwise ESP_OK. */
    twostate predicate Submitted(msg: Message, err: EspErr)
      reads this
    {
      && Enqueued(msg)
      && err == if !old(queueCreated) then EspErrInvalidState
                else if |old(queue)| < QueueCapacity then EspOk
                else EspErrTimeout
    }

    /** xQueueReceive: take the oldest message, if any. */
    method Receive() returns (received: Option<Message>)
      requires Valid()
      modifies this`queue
      ensures Valid()
      ensures received == if old(queue) == [] then None else Some(old(queue)[0])
      ensures queue == if old(queue) == [] then [] else old(queue)[1..]
      ensures received.Some? ==> WellFormed(received.value, minPosition, maxPosition)
    {
      if queue == [] {
        received := None;
      } else {
        received := Some(queue[0]);
        queue := queue[1..];
      }
    }

    /** motor_stop_pins. */
    method StopPins()
      modifies this`coils
      ensures coils == AllOff
    {
      coils := AllOff;
    }

    /** The switch on a received command in stepper_motor_task. */
    method ApplyCommand(msg: Message)
      requires Valid()
      requires WellFormed(msg, minPosition, maxPosition)
      modifies this
      ensures Valid()
      ensures State() == ApplyMessage(old(State()), msg)
      ensures queue == old(queue) && queueCreated == old(queueCreated)
    {
      match msg.command {
        case Stop =>
          isMoving := false;
          StopPins();
        case MoveAbsolute =>
          targetPosition := msg.parameter;
          isMoving := true;
        case MoveRelative =>
          targetPosition := RelativeTargetAsWritten(currentPosition, msg.parameter, minPosition, maxPosition) as Int16;
          isMoving := true;
        case Home =>
          targetPosition := 0;
          isMoving := true;
        case SetSpeed =>
          speedDelayMs := ToUInt16(msg.parameter);
        case Enable =>
          var _ := EnableMotor(this);
        case Disable =>
          var _ := DisableMotor(this);
        case Calibrate =>
      }
    }

    /** The rest of one iteration of stepper_motor_task's loop after the
        command: the fault check, then one step toward the target, or the
        de-energising of an idle motor. */
    method ExecuteStep(fault: bool)
      requires Valid()
      modifies this
      ensures Valid()
      ensures queue == old(queue) && queueCreated == old(queueCreated)
      ensures State() == ControlStep(old(State()), fault)
    {
      if fault {
        isMoving := false;
        StopPins();
        return;
      }
      if isMoving && currentPosition != targetPosition {
        if currentPosition < targetPosition {
          direction := true;
          currentStep := (currentStep + 1) % 4;
          currentPosition := currentPosition + 1;
        } else {
          direction := false;
          currentStep := (currentStep + 3) % 4;
          currentPosition := currentPosition - 1;
        }
        coils := StepSequence(currentStep);
        if currentPosition == targetPosition {
          isMoving := false;
          StopPins();
        }
      } else if !isMoving {
        StopPins();
      }
    }

    /** One iteration of stepper_motor_task's loop, with the level of the
        fault line as an input and the delays left out. */
    method Tick(fault: bool)
      requires Valid()
      modifies this
      ensures Valid()
      ensures queue == if old(queue) == [] then [] else old(queue)[1..]
      ensures queueCreated == old(queueCreated)
      ensures State() == TickSpec(old(State()), if old(queue) == [] then None else Some(old(queue)[0]), fault)
    {
      var received := Receive();
      if received.Some? {
        ApplyCommand(received.value);
      }
      ExecuteStep(fault);
    }
  }

  /** stepper_motor_init on a present structure: the state setup, the stop
      of the coils, then the queue (whose allocation may fail) and the
      control task (whose creation may fail). max_position is the build's
      calibration. */
  method Init(m: Motor?, maxPosition: Int16, queueAllocated: bool, taskCreated: bool) returns (err: EspErr)
    requires 0 <= maxPosition
    modifies m
    ensures m == null ==> err == EspErrInvalidArg
    ensures m != null ==> m.Valid() && m.State() == InitialState(maxPosition)
    ensures m != null ==> m.queueCreated == queueAllocated && m.queue == []
    ensures m != null ==> err == (if queueAllocated && taskCreated then EspOk else EspErrNoMem)
  {
    if m == null {
      return EspErrInvalidArg;
    }
    m.currentPosition, m.targetPosition, m.speedDelayMs := 0, 0, 10;
    m.maxPosition, m.minPosition, m.currentStep := maxPosition, 0, 0;
    m.isMoving, m.direction := false, true;
    m.enabled := true;
    m.StopPins();
    m.queueCreated, m.queue := queueAllocated, [];
    if !queueAllocated {
      return EspErrNoMem;
    }
    err := if taskCreated then EspOk else EspErrNoMem;
  }

  /** The common tail of the five submit procedures. */
  method Submit(m: Motor?, msg: Message) returns (err: EspErr)
    requires m != null ==> m.Valid() && WellFormed(msg, m.minPosition, m.maxPosition)
    modifies m
    ensures m == null ==> err == EspErrInvalidState
    ensures m != null ==> m.Valid() && m.Submitted(msg, err)
  {
    if m == null || !m.queueCreated {
      return EspErrInvalidState;
    }
    var sent := m.Send(msg);
    err := if sent then EspOk else EspErrTimeout;
  }

  /** stepper_motor_move_to_position: the absolute target is clamped into
      the limits before it is queued. */
  method MoveToPosition(m: Motor?, position: Int16) returns (err: EspErr)
    requires m != null ==> m.Valid()
    modifies m
    ensures m == null ==> err == EspErrInvalidState
    ensures m != null ==> m.Valid()
    ensures m != null ==>
      m.Submitted(Message(MoveAbsolute, Clamp(position, m.minPosition, m.maxPosition) as Int16), err)
  {
    if m == null {
      return EspErrInvalidState;
    }
    var p := position;
    if p > m.maxPosition { p := m.maxPosition; }
    if p < m.minPosition { p := m.minPosition; }
    err := Submit(m, Message(MoveAbsolute, p));
  }

  /** stepper_motor_move_relative: the step count is queued as given. */
  method MoveRelativeSteps(m: Motor?, steps: Int16) returns (err: EspErr)
    requires m != null ==> m.Valid()
    modifies m
    ensures m == null ==> err == EspErrInvalidState
    ensures m != null ==> m.Valid() && m.Submitted(Message(MoveRelative, steps), err)
  {
    err := Submit(m, Message(MoveRelative, steps));
  }

  /** stepper_motor_home. */
  method HomeMotor(m: Motor?) returns (err: EspErr)
    requires m != null ==> m.Valid()
    modifies m
    ensures m == null ==> err == EspErrInvalidState
    ensures m != null ==> m.Valid() && m.Submitted(Message(Home, 0), err)
  {
    err := Submit(m, Message(Home, 0));
  }

  /** stepper_motor_stop: queued like any other command, so it takes effect
      at the control task's next iteration. */
  method StopMotor(m: Motor?) returns (err: EspErr)
    requires m != null ==> m.Valid()
    modifies m
    ensures m == null ==> err == EspErrInvalidState
    ensures m != null ==> m.Valid() && m.Submitted(Message(Stop, 0), err)
  {
    err := Submit(m, Message(Stop, 0));
  }

  /** stepper_motor_set_speed: the uint16_t delay is stored in the int16_t
      message parameter; no bound is enforced. */
  method SetMotorSpeed(m: Motor?, speedDelayMs: UInt16) returns (err: EspErr)
    requires m != null ==> m.Valid()
    modifies m
    ensures m == null ==> err == EspErrInvalidState
    ensures m != null ==> m.Valid() && m.Submitted(Message(SetSpeed, ToInt16(speedDelayMs)), err)
  {
    err := Submit(m, Message(SetSpeed, ToInt16(speedDelayMs)));
  }

  /** stepper_motor_enable: wakes the driver and nothing else; in particular
      it does not restart motion. */
  method EnableMotor(m: Motor?) returns (err: EspErr)
    requires m != null ==> m.Valid()
    modifies m
    ensures m == null ==> err == EspErrInvalidArg
    ensures m != null ==> err == EspOk && m.Valid()
    ensures m != null ==> m.State() == old(m.State()).(enabled := true)
    ensures m != null ==> m.queue == old(m.queue) && m.queueCreated == old(m.queueCreated)
  {
    if m == null {
      return EspErrInvalidArg;
    }
    m.enabled := true;
    err := EspOk;
  }

  /** stepper_motor_disable: puts the driver to sleep, de-energises the
      coils and clears motion. */
  method DisableMotor(m: Motor?) returns (err: EspErr)
    requires m != null ==> m.Valid()
    modifies m
    ensures m == null ==> err == EspErrInvalidArg
    ensures m != null ==> err == EspOk && m.Valid()
    ensures m != null ==> m.State() == old(m.State()).(enabled := false, coils := AllOff, isMoving := false)
    ensures m != null ==> m.queue == old(m.queue) && m.queueCreated == old(m.queueCreated)
  {
    if m == null {
      return EspErrInvalidArg;
    }
    m.enabled := false;
    m.StopPins();
    m.isMoving := false;
    err := EspOk;
  }

  /** stepper_motor_get_status; `fault` is the level of the fault line
      (asserted = the active-low pin reads 0). A missing motor reads as
      ERROR. */
  function GetStatus(m: Motor?, fault: bool): (st: MotorStatus)
    reads m
    ensures m == null ==> st == Error
    ensures m != null ==> st == StatusOf(m.State(), fault)
  {
    if m == null then Error
    else if fault then Error
    else if !m.enabled then Disabled
    else if m.isMoving then Moving
    else Idle
  }

  /** stepper_motor_get_position: -1 for a missing motor. */
  function GetPosition(m: Motor?): (p: Int16)
    reads m
    ensures m == null ==> p == -1
    ensures m != null ==> p == m.State().currentPosition
  {
    if m == null then -1 else m.currentPosition
  }

  /** stepper_motor_is_fault: a missing motor counts as faulted. The fault
      flag agrees with the status: faulted exactly when the status reads
      ERROR, so bytes 0 and 3 of a status frame built from one reading of
      the line never contradict each other. */
  function IsFault(m: Motor?, fault: bool): (r: bool)
    reads m
    ensures r <==> GetStatus(m, fault) == Error
  {
    m == null || fault
  }
}
