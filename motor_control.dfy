/** The motion controller of bleprph/components/stepper_motor/src/stepper_motor.c
    as functions on a value of its state: the full-step coil table, limit
    clamping, the effect of one dequeued command, the rest of one iteration
    of the control task (fault check, one step, arrival), the status
    projection, and what repeated iterations do. The class in
    stepper_motor.dfy is proved to update its fields exactly as these
    functions say. */
module MotorControl {
  import opened MotorTypes

  /** An index into the coil table. */
  type Phase = x: int | 0 <= x < 4

  /** Levels of the four H-bridge inputs AIN1, AIN2, BIN1, BIN2 (true = 1). */
  datatype CoilPattern = CoilPattern(ain1: bool, ain2: bool, bin1: bool, bin2: bool)

  /** All four inputs low: both windings de-energised. */
  const AllOff := CoilPattern(false, false, false, false)

  /** step_sequence: full-step drive of a two-phase motor. Each row drives
      each H-bridge in exactly one direction. */
  function StepSequence(phase: Phase): (p: CoilPattern)
    ensures p.ain1 != p.ain2 && p.bin1 != p.bin2
  {
    if phase == 0 then CoilPattern(true, false, true, false)
    else if phase == 1 then CoilPattern(false, true, true, false)
    else if phase == 2 then CoilPattern(false, true, false, true)
    else CoilPattern(true, false, false, true)
  }

  /** How many of the two coil pairs (A, B) differ between two patterns. */
  function PairsChanged(p: CoilPattern, q: CoilPattern): nat
  {
    (if p.ain1 != q.ain1 || p.ain2 != q.ain2 then 1 else 0) +
    (if p.bin1 != q.bin1 || p.bin2 != q.bin2 then 1 else 0)
  }

  /** Consecutive rows, cyclically, reverse exactly one winding; so a step
      forward and a step backward each change one coil pair, and no row is
      all-off. */
  lemma AdjacentPhasesChangeOnePair(i: Phase)
    ensures PairsChanged(StepSequence(i), StepSequence((i + 1) % 4)) == 1
    ensures PairsChanged(StepSequence(i), StepSequence((i + 3) % 4)) == 1
    ensures StepSequence(i) != AllOff
  {
  }

  /** The four rows are distinct, so the phase can be read off the coils. */
  lemma StepSequenceInjective(i: Phase, j: Phase)
    ensures StepSequence(i) == StepSequence(j) ==> i == j
  {
  }

  function Dist(a: int, b: int): nat
  {
    if a <= b then b - a else a - b
  }

  /** The limit clamp, in the source's order: first against the maximum,
      then against the minimum. With sensible limits the result is the
      in-range value nearest to the request. */
  function Clamp(p: int, lo: int, hi: int): (r: int)
    ensures lo <= r
    ensures lo <= hi ==> r <= hi
    ensures lo <= p <= hi ==> r == p
    ensures lo <= hi ==> forall q :: lo <= q <= hi ==> Dist(r, p) <= Dist(q, p)
    ensures r == p || r == lo || r == hi
  {
    var q := if p > hi then hi else p;
    if q < lo then lo else q
  }

  /** The fields of stepper_motor_t that the controller reads or writes,
      with `enabled` standing for the level of the driver's sleep pin and
      `coils` for the levels last written to the four bridge inputs. */
  datatype MotorState = MotorState(
    currentPosition: Int16,
    targetPosition: Int16,
    speedDelayMs: UInt16,
    maxPosition: Int16,
    minPosition: Int16,
    currentStep: UInt8,
    isMoving: bool,
    direction: bool,
    enabled: bool,
    coils: CoilPattern)

  /** motor_cmd_msg_t, the element type of the command queue. */
  datatype Message = Message(command: MotorCommand, parameter: Int16)

  /** What the controller keeps true: home lies within the limits, position
      and target lie within them, the phase indexes the coil table, and the
      coils are off or show the current phase's row. */
  ghost predicate Invariant(s: MotorState)
  {
    && s.minPosition <= 0 <= s.maxPosition
    && s.minPosition <= s.currentPosition <= s.maxPosition
    && s.minPosition <= s.targetPosition <= s.maxPosition
    && s.currentStep < 4
    && (s.coils == AllOff || s.coils == StepSequence(s.currentStep))
  }

  /** What the producers guarantee of every queued message: an absolute
      target has already been clamped into the limits. */
  ghost predicate WellFormed(msg: Message, lo: int, hi: int)
  {
    msg.command == MoveAbsolute ==> lo <= msg.parameter <= hi
  }

  /** The state stepper_motor_init establishes (max_position is the
      calibration of the build: 3000 steps, or 199 in the bleprph/main one). */
  function InitialState(maxPosition: Int16): (s: MotorState)
    requires 0 <= maxPosition
    ensures Invariant(s)
    ensures s.currentPosition == s.targetPosition == 0 && !s.isMoving
    ensures s.speedDelayMs == 10 && s.minPosition == 0 && s.currentStep == 0
    ensures s.maxPosition == maxPosition && s.enabled && s.coils == AllOff
  {
    MotorState(0, 0, 10, maxPosition, 0, 0, false, true, true, AllOff)
  }

  /** MOVE_RELATIVE as written: the int sum is stored into the int16_t
      target first and only then clamped, so a sum beyond 32767 wraps to a
      negative value and the clamp sends the motor to the minimum. */
  function RelativeTargetAsWritten(current: Int16, steps: Int16, lo: Int16, hi: Int16): (r: int)
    ensures lo <= r
    ensures lo <= hi ==> r <= hi
    ensures -0x8000 <= current + steps < 0x8000 ==> r == Clamp(current + steps, lo, hi)
  {
    Clamp(ToInt16(current + steps), lo, hi)
  }

  /** With the 3000-step calibration, one step from home plus a relative move
      of +32767 should end at the maximum but, as written, ends at home. */
  lemma RelativeTargetWrapsAround()
    ensures RelativeTargetAsWritten(1, 32767, 0, 3000) == 0
    ensures Clamp(1 + 32767, 0, 3000) == 3000
  {
  }

  /** MOVE_RELATIVE as intended: the requested position, clamped into the
      limits without an intermediate 16-bit wrap. The result is the in-range
      position nearest to current + steps. */
  function RelativeTarget(current: Int16, steps: Int16, lo: Int16, hi: Int16): (r: Int16)
    requires lo <= hi
    ensures lo <= r <= hi
    ensures lo <= current + steps <= hi ==> r == current + steps
    ensures current + steps > hi ==> r == hi
    ensures current + steps < lo ==> r == lo
  {
    Clamp(current + steps, lo, hi)
  }

  /** With the limits the firmware sets up (minimum 0) and a position
      inside them, the as-written target is the intended one exactly when
      the sum fits in int16_t: every overflowing relative move goes wrong. */
  lemma RelativeTargetAsWrittenAgrees(current: Int16, steps: Int16, hi: Int16)
    requires 0 <= current <= hi
    ensures RelativeTargetAsWritten(current, steps, 0, hi) == RelativeTarget(current, steps, 0, hi)
        <==> current + steps < 0x8000
  {
    var sum := current + steps;
    if sum >= 0x8000 {
      assert sum % 0x1_0000 == sum;
      assert ToInt16(sum) == sum - 0x1_0000;
    }
  }

  /** The switch on a received command in the control task. Commands never
      move the motor; each changes only its own fields: STOP and DISABLE
      clear motion and de-energise, the three moves set a target and motion,
      SET_SPEED stores the speed, ENABLE/DISABLE set the driver level, and
      any other command (CALIBRATE) changes nothing. */
  function ApplyMessage(s: MotorState, msg: Message): (r: MotorState)
    requires s.minPosition <= s.maxPosition
    ensures r.currentPosition == s.currentPosition && r.currentStep == s.currentStep
    ensures r.minPosition == s.minPosition && r.maxPosition == s.maxPosition
    ensures r.direction == s.direction
    ensures Invariant(s) && WellFormed(msg, s.minPosition, s.maxPosition) ==> Invariant(r)
    ensures r.targetPosition != s.targetPosition ==> msg.command in {MoveAbsolute, MoveRelative, Home}
    ensures r.speedDelayMs != s.speedDelayMs ==> msg.command == SetSpeed
    ensures r.enabled != s.enabled ==> msg.command in {Enable, Disable}
    ensures r.coils != s.coils ==> r.coils == AllOff && msg.command in {Stop, Disable}
    ensures msg.command in {Stop, Disable} ==> !r.isMoving && r.coils == AllOff
    ensures msg.command in {MoveAbsolute, MoveRelative, Home} ==> r.isMoving
    ensures msg.command !in {Stop, Disable, MoveAbsolute, MoveRelative, Home} ==> r.isMoving == s.isMoving
    ensures msg.command == MoveAbsolute ==> r.targetPosition == msg.parameter
    ensures msg.command == MoveRelative ==>
      r.targetPosition == RelativeTargetAsWritten(s.currentPosition, msg.parameter, s.minPosition, s.maxPosition)
    ensures msg.command == MoveRelative && -0x8000 <= s.currentPosition + msg.parameter < 0x8000 ==>
      r.targetPosition == RelativeTarget(s.currentPosition, msg.parameter, s.minPosition, s.maxPosition)
    ensures msg.command == Home ==> r.targetPosition == 0
    ensures msg.command == SetSpeed ==> r.speedDelayMs == ToUInt16(msg.parameter)
    ensures msg.command == Enable ==> r.enabled
    ensures msg.command == Disable ==> !r.enabled
    ensures msg.command == Calibrate ==> r == s
  {
    match msg.command
    case Stop => s.(isMoving := false, coils := AllOff)
    case MoveAbsolute => s.(targetPosition := msg.parameter, isMoving := true)
    case MoveRelative =>
      s.(targetPosition := RelativeTargetAsWritten(s.currentPosition, msg.parameter, s.minPosition, s.maxPosition) as Int16,
         isMoving := true)
    case Home => s.(targetPosition := 0, isMoving := true)
    case SetSpeed => s.(speedDelayMs := ToUInt16(msg.parameter))
    case Enable => s.(enabled := true)
    case Disable => s.(enabled := false, coils := AllOff, isMoving := false)
    case Calibrate => s
  }

  /** How far the motor still has to go. */
  function Distance(s: MotorState): nat
  {
    Dist(s.currentPosition, s.targetPosition)
  }

  /** The part of one control-task iteration after the command: with the
      fault line asserted, halt and de-energise without moving; otherwise,
      when moving and not at the target, take exactly one step toward it
      (phase +1 forward, +3 backward, modulo 4), show that phase's row on
      the coils, and on arrival stop and de-energise; when not moving,
      de-energise. */
  function ControlStep(s: MotorState, fault: bool): (r: MotorState)
    ensures Invariant(s) ==> Invariant(r)
    ensures r.targetPosition == s.targetPosition && r.speedDelayMs == s.speedDelayMs
    ensures r.minPosition == s.minPosition && r.maxPosition == s.maxPosition && r.enabled == s.enabled
    ensures s.currentStep < 4 ==> r.currentStep < 4
    ensures fault ==> r == s.(isMoving := false, coils := AllOff)
    ensures !fault && s.isMoving && s.currentPosition != s.targetPosition ==>
      && Distance(r) == Distance(s) - 1
      && Dist(r.currentPosition, s.currentPosition) == 1
      && r.direction == (s.currentPosition < s.targetPosition)
      && r.currentStep == (if s.currentPosition < s.targetPosition then s.currentStep + 1 else s.currentStep + 3) % 4
      && (r.isMoving <==> r.currentPosition != r.targetPosition)
      && r.coils == (if r.isMoving then StepSequence(r.currentStep) else AllOff)
    ensures !fault && s.minPosition <= s.currentPosition <= s.maxPosition &&
            s.minPosition <= s.targetPosition <= s.maxPosition ==>
      s.minPosition <= r.currentPosition <= s.maxPosition
    ensures !fault && !s.isMoving ==> r == s.(coils := AllOff)
    ensures !fault && s.isMoving && s.currentPosition == s.targetPosition ==> r == s
  {
    if fault then
      s.(isMoving := false, coils := AllOff)
    else if s.isMoving && s.currentPosition != s.targetPosition then
      var forward := s.currentPosition < s.targetPosition;
      var step := if forward then (s.currentStep + 1) % 4 else (s.currentStep + 3) % 4;
      var pos := if forward then s.currentPosition + 1 else s.currentPosition - 1;
      var arrived := pos == s.targetPosition;
      s.(direction := forward, currentStep := step, currentPosition := pos,
         isMoving := !arrived, coils := if arrived then AllOff else StepSequence(step))
    else if !s.isMoving then
      s.(coils := AllOff)
    else
      s
  }

  /** One whole iteration of the control task: apply the command received,
      if any, then the fault check and the motion step. */
  function TickSpec(s: MotorState, received: Option<Message>, fault: bool): (r: MotorState)
    requires s.minPosition <= s.maxPosition
    ensures Invariant(s) && (received.Some? ==> WellFormed(received.value, s.minPosition, s.maxPosition))
      ==> Invariant(r)
    ensures fault ==> !r.isMoving && r.coils == AllOff && r.currentPosition == s.currentPosition
  {
    var applied := if received.Some? then ApplyMessage(s, received.value) else s;
    ControlStep(applied, fault)
  }

  /** The status projection of stepper_motor_get_status, in its priority
      order: a fault beats a sleeping driver, which beats motion. */
  function StatusOf(s: MotorState, fault: bool): (st: MotorStatus)
    ensures st == Error <==> fault
    ensures st == Disabled <==> !fault && !s.enabled
    ensures st == Moving <==> !fault && s.enabled && s.isMoving
    ensures st == Idle <==> !fault && s.enabled && !s.isMoving
  {
    if fault then Error
    else if !s.enabled then Disabled
    else if s.isMoving then Moving
    else Idle
  }

  /** n iterations of the control task with an empty queue and the fault
      line deasserted. */
  function Run(s: MotorState, n: nat): MotorState
    decreases n
  {
    if n == 0 then s else Run(ControlStep(s, false), n - 1)
  }

  /** Termination of a move: a motor moving toward a different target is
      there, stopped and de-energised, after exactly Distance(s) iterations,
      and not a moment earlier. */
  lemma {:induction false} MoveCompletes(s: MotorState, k: nat)
    requires s.isMoving && s.currentPosition != s.targetPosition
    requires k <= Distance(s)
    ensures Distance(Run(s, k)) == Distance(s) - k
    ensures Run(s, k).targetPosition == s.targetPosition
    ensures k < Distance(s) ==> Run(s, k).isMoving
    ensures k == Distance(s) ==>
      Run(s, k).currentPosition == s.targetPosition && !Run(s, k).isMoving && Run(s, k).coils == AllOff
    decreases k
  {
    if k > 0 {
      var t := ControlStep(s, false);
      if Distance(s) > 1 {
        MoveCompletes(t, k - 1);
      } else {
        assert k == 1 && Run(s, k) == Run(t, 0);
      }
    }
  }

  /** Moving up, the k-th iteration puts the motor k steps higher and the
      phase k places further along 0, 1, 2, 3, 0, ...; the phase never
      skips. */
  lemma {:induction false} ForwardPhases(s: MotorState, k: nat)
    requires s.isMoving && s.currentPosition < s.targetPosition && s.currentStep < 4
    requires k <= s.targetPosition - s.currentPosition
    ensures Run(s, k).currentPosition == s.currentPosition + k
    ensures Run(s, k).currentStep == (s.currentStep + k) % 4
    decreases k
  {
    if k > 0 {
      var t := ControlStep(s, false);
      if k > 1 {
        ForwardPhases(t, k - 1);
        assert Run(s, k) == Run(t, k - 1);
      }
    }
  }

  /** Moving down, the phase runs backward along 0, 3, 2, 1, 0, ... */
  lemma {:induction false} BackwardPhases(s: MotorState, k: nat)
    requires s.isMoving && s.currentPosition > s.targetPosition && s.currentStep < 4
    requires k <= s.currentPosition - s.targetPosition
    ensures Run(s, k).currentPosition == s.currentPosition - k
    ensures Run(s, k).currentStep == (s.currentStep + 3 * k) % 4
    decreases k
  {
    if k > 0 {
      var t := ControlStep(s, false);
      if k > 1 {
        BackwardPhases(t, k - 1);
        assert Run(s, k) == Run(t, k - 1);
      }
    }
  }

  /** A motor that is not moving stays where it is, de-energised, for as
      long as no command arrives: after STOP, after arrival and after a
      fault, motion does not resume by itself. */
  lemma {:induction false} AtRestStaysPut(s: MotorState, n: nat)
    requires !s.isMoving
    requires 0 < n
    ensures Run(s, n) == s.(coils := AllOff)
    decreases n
  {
    if n > 1 {
      AtRestStaysPut(ControlStep(s, false), n - 1);
    }
  }

  /** A motor that is moving but already at its target is left alone by
      every iteration: nothing clears the motion flag. */
  lemma {:induction false} ArrivedMoveStaysMoving(s: MotorState, n: nat)
    requires s.isMoving && s.currentPosition == s.targetPosition
    ensures Run(s, n) == s
    decreases n
  {
    if n > 0 {
      ArrivedMoveStaysMoving(ControlStep(s, false), n - 1);
    }
  }

  /** A move to the position the motor already holds sets the motion flag,
      and no fault-free step clears it: the motor stays put and reports
      MOVING for as long as the fault line stays clear and no command
      arrives. */
  lemma MoveToCurrentPositionReportsMoving(s: MotorState, n: nat)
    requires s.minPosition <= s.currentPosition <= s.maxPosition && s.enabled
    ensures var f := TickSpec(s, Some(Message(MoveAbsolute, s.currentPosition)), false);
      && f.isMoving && f.currentPosition == s.currentPosition
      && Run(f, n) == f
      && StatusOf(Run(f, n), false) == Moving
  {
    var f := TickSpec(s, Some(Message(MoveAbsolute, s.currentPosition)), false);
    ArrivedMoveStaysMoving(f, n);
  }

  /** A fault halts the motor whatever command came with it; once the fault
      line clears the motor still does not move, and reports IDLE (or
      DISABLED if the driver sleeps) with no acknowledgement needed. */
  lemma FaultHaltsUntilCommanded(s: MotorState, received: Option<Message>, n: nat)
    requires s.minPosition <= s.maxPosition
    requires 0 < n
    ensures var f := TickSpec(s, received, true);
      && Run(f, n) == f
      && Run(f, n).currentPosition == s.currentPosition
      && StatusOf(f, true) == Error
      && StatusOf(Run(f, n), false) == (if f.enabled then Idle else Disabled)
  {
    var f := TickSpec(s, received, true);
    AtRestStaysPut(f, n);
  }

  /** End to end: from rest, an absolute move to a different in-range
      position p arrives after exactly Dist(current, p) iterations with a
      clear fault line, the first of which receives the command, and the
      motor then stops. */
  lemma AbsoluteMoveArrives(s: MotorState, p: Int16)
    requires Invariant(s)
    requires s.minPosition <= p <= s.maxPosition && p != s.currentPosition
    ensures var d := Dist(s.currentPosition, p);
      var r := Run(TickSpec(s, Some(Message(MoveAbsolute, p)), false), d - 1);
      r.currentPosition == p && !r.isMoving && r.coils == AllOff
  {
    var a := ApplyMessage(s, Message(MoveAbsolute, p));
    var d := Dist(s.currentPosition, p);
    MoveCompletes(a, d);
    assert Run(a, d) == Run(ControlStep(a, false), d - 1);
  }
}
