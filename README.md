# Stepper-motor firmware of the BLE linear actuator, modelled in Dafny

The firmware drives a two-phase stepper motor through a DRV8833 H-bridge.
A BLE client controls it through GATT characteristics. This project
models the three parts of that firmware that decide what the motor does:

- the driver in `bleprph/components/stepper_motor/src/stepper_motor.c`.
  `bleprph/main/stepper_motor.c` is a byte-identical copy of it, built
  against its own header. The driver covers the motor structure, the
  10-slot command queue, the API procedures that queue commands, and the
  control task. Each task iteration takes at most one command, checks the
  fault line, takes at most one full step toward the target, and stops on
  arrival.
- the interface header `stepper_motor.h`: the integer widths, the command
  and status numbering, and the stroke calibration.
- the GATT access handlers in
  `bleprph/components/ble_peripheral/src/gatt_svr.c`: the length checks,
  the 3-byte command frame, the 4-byte status frame, the little-endian
  position and speed values, the app's 0..100 position scale, and the LED
  service.

The modules are:

- `MotorTypes` (`motor_types.dfy`) holds the header: `int16_t`,
  `uint16_t` and `uint8_t` as ranges, explicit modulo-2^16 conversions,
  the two enumerations and their byte codes, and the calibration.
- `MotorControl` (`motor_control.dfy`) holds the controller as functions
  on a state value:
  - the coil table, the limit clamp, one dequeued command
    (`ApplyMessage`) and the rest of one task iteration (`ControlStep`);
  - the status projection;
  - lemmas about many iterations: a move ends after exactly its distance,
    the phase never skips, a halted motor stays put, and a fault halts the
    motor.
- `StepperMotor` (`stepper_motor.dfy`) holds the driver as imperative
  code:
  - class `Motor` is `stepper_motor_t` together with its command queue;
  - the API procedures take a `Motor?`, so the NULL checks are modelled;
  - `Tick` is one iteration of the task loop.

  Every method's `ensures` ties the new fields to the `MotorControl`
  functions, and each submission to its place at the back of the queue.
- `WireCodec` (`wire_codec.dfy`) holds the byte layouts of the motor
  service, with their round trips.
- `GattServer` (`gatt_server.dfy`) holds class `Server`: the motor pointer
  and the LED states and handles of `gatt_svr.c`. It also holds the two
  access handlers, stated in terms of the codec and the motor API.

Outside inputs are parameters:

- the level of the fault pin (`fault`; asserted means the active-low pin
  reads 0);
- whether the queue allocation and the task creation succeed;
- the result of the LED pin configuration;
- the handles the BLE host assigned.

The `enabled` field stands for the level written to the driver's sleep
pin. The ghost field `coils` stands for the levels last written to AIN1,
AIN2, BIN1 and BIN2.

Some behaviours of the code are easy to miss, and the model keeps them
as written:

- An absolute target is clamped in `stepper_motor_move_to_position`
  before it is queued, not in the task. `Motor.Valid` records that every
  queued absolute target is already within the limits.
- The task never reads the sleep pin, so it steps the motor whether or
  not the driver is awake. ENABLE does not restart a move that DISABLE
  cancelled.
- A move to the current position sets `is_moving`. While the fault line
  stays clear, only the next command or a direct disable clears it
  (`MotorControl.MoveToCurrentPositionReportsMoving`).
- MOVE_RELATIVE stores the sum in the 16-bit target before clamping it.
  The task model keeps that wrap-around; "## Findings" gives the input
  that shows it and the corrected clamp.

## Model

| member | source | states |
|---|---|---|
| MotorTypes.ToInt16 | bleprph/components/ble_peripheral/src/gatt_svr.c:217 | storing an int into an `int16_t` keeps its value modulo 2^16 and leaves in-range values unchanged |
| MotorTypes.ToUInt16 | bleprph/components/stepper_motor/src/stepper_motor.c:307 | storing into a `uint16_t` reduces modulo 2^16 and leaves in-range values unchanged |
| MotorTypes.SpeedSurvivesQueueParameter | bleprph/components/stepper_motor/src/stepper_motor.c:192-195 | a speed stored into the `int16_t` message parameter and read back into `speed_delay_ms` is unchanged, for every `uint16_t` |
| MotorTypes.CommandCode | bleprph/components/stepper_motor/include/stepper_motor.h:21-30 | STOP is 0, CALIBRATE is 7, and all codes lie in 0..7 |
| MotorTypes.CommandFromCode | bleprph/components/stepper_motor/include/stepper_motor.h:21-30 | a byte names a command exactly when it is 0..7, and it names the command with that code |
| MotorTypes.CommandCodeRoundTrip | bleprph/components/stepper_motor/include/stepper_motor.h:21-30 | the command numbering is a bijection onto 0..7 |
| MotorTypes.StatusCode | bleprph/components/stepper_motor/include/stepper_motor.h:33-38 | IDLE is 0, and all codes lie in 0..3 |
| MotorTypes.StatusFromCode | bleprph/components/stepper_motor/include/stepper_motor.h:33-38 | a byte names a status exactly when it is 0..3, and it names the status with that code |
| MotorTypes.StatusCodeRoundTrip | bleprph/components/stepper_motor/include/stepper_motor.h:33-38 | the status numbering is a bijection onto 0..3 |
| MotorTypes.CalibratedMaxPosition | bleprph/components/stepper_motor/src/stepper_motor.c:73 | `max_position` is the stroke times the steps per millimetre, truncated: it lies within one step below the exact product |
| MotorTypes.MaxPositionIs3000 | bleprph/components/stepper_motor/include/stepper_motor.h:14-18 | the header's constants give 100 steps/mm and a travel of 3000 steps |
| MotorTypes.MainBuildMaxPositionIs199 | bleprph/main/stepper_motor.h:14-16 | the build in bleprph/main (90 mm at 2.22 steps/mm) has a travel of 199 steps |
| MotorControl.StepSequence | bleprph/components/stepper_motor/src/stepper_motor.c:10-15 | every row of the full-step table drives each H-bridge in exactly one direction |
| MotorControl.AdjacentPhasesChangeOnePair | bleprph/components/stepper_motor/src/stepper_motor.c:339-348 | a step forward (+1) or backward (+3 mod 4) reverses exactly one winding, and no row is all-off |
| MotorControl.StepSequenceInjective | bleprph/components/stepper_motor/src/stepper_motor.c:10-15 | the four rows are distinct |
| MotorControl.Clamp | bleprph/components/stepper_motor/src/stepper_motor.c:112-114 | the max-then-min clamp lands in the limits, keeps in-range values, is the nearest in-range value, and is the request or one of the limits |
| MotorControl.InitialState | bleprph/components/stepper_motor/src/stepper_motor.c:69-83 | init leaves position and target at 0, not moving, speed 10 ms, min 0, phase 0, driver awake, coils off, and satisfies the controller invariant |
| MotorControl.RelativeTargetAsWritten | bleprph/components/stepper_motor/src/stepper_motor.c:290-295 | the relative target as written (the sum stored into `int16_t`, then clamped) lies in the limits, and equals the clamped sum whenever the sum fits in `int16_t` |
| MotorControl.RelativeTargetAsWrittenAgrees | bleprph/components/stepper_motor/src/stepper_motor.c:289-298 | with minimum 0 and the position in range, the as-written target equals the intended one if and only if the sum fits in `int16_t` |
| MotorControl.RelativeTargetWrapsAround | bleprph/components/stepper_motor/src/stepper_motor.c:290-295 | position 1 plus 32767 steps, with limits 0..3000, gives target 0 as written where 3000 is due |
| MotorControl.RelativeTarget | bleprph/components/stepper_motor/src/stepper_motor.c:289-298 | the intended relative target: the sum when in range, otherwise the limit it overshoots |
| MotorControl.ApplyMessage | bleprph/components/stepper_motor/src/stepper_motor.c:276-322 | each command changes only its own fields and never the position or phase: STOP and DISABLE halt and de-energise; the moves set target and motion, MOVE_RELATIVE with the as-written 16-bit sum, which is the intended clamp whenever the sum fits; SET_SPEED stores the speed; ENABLE and DISABLE set the driver level; CALIBRATE does nothing; the invariant is preserved |
| MotorControl.ControlStep | bleprph/components/stepper_motor/src/stepper_motor.c:325-363 | a fault halts and de-energises without moving; otherwise a moving motor takes exactly one step toward the target with the matching phase, stops and de-energises on arrival, and stays within the limits; an idle motor is de-energised; the invariant is preserved |
| MotorControl.TickSpec | bleprph/components/stepper_motor/src/stepper_motor.c:273-364 | a whole task iteration, the as-written MOVE_RELATIVE included, preserves the invariant for well-formed messages, and under a fault never moves and ends halted with the coils off |
| MotorControl.StatusOf | bleprph/components/stepper_motor/src/stepper_motor.c:230-248 | ERROR if and only if faulted, DISABLED if and only if not faulted and asleep, MOVING if and only if awake and moving, IDLE otherwise |
| MotorControl.MoveCompletes | bleprph/components/stepper_motor/src/stepper_motor.c:335-356 | a move ends after exactly its distance in iterations: still moving before that, then at the target, halted and de-energised |
| MotorControl.ForwardPhases | bleprph/components/stepper_motor/src/stepper_motor.c:337-340 | moving up, after k iterations the motor is k steps higher and the phase has advanced by k mod 4 |
| MotorControl.BackwardPhases | bleprph/components/stepper_motor/src/stepper_motor.c:341-345 | moving down, after k iterations the motor is k steps lower and the phase has gone back by k mod 4 |
| MotorControl.ArrivedMoveStaysMoving | bleprph/components/stepper_motor/src/stepper_motor.c:335-363 | a moving motor already at its target is left unchanged by every iteration |
| MotorControl.MoveToCurrentPositionReportsMoving | bleprph/components/stepper_motor/src/stepper_motor.c:283-287 | a move to the current position leaves the motor in place, reporting MOVING, for as long as the fault line stays clear and no command arrives |
| MotorControl.AtRestStaysPut | bleprph/components/stepper_motor/src/stepper_motor.c:359-363 | a motor that is not moving stays in place and de-energised for any number of iterations |
| MotorControl.FaultHaltsUntilCommanded | bleprph/components/stepper_motor/src/stepper_motor.c:326-332 | a fault halts the motor whatever command arrives with it; ERROR is reported; after the fault clears the motor stays put, reporting IDLE or DISABLED |
| MotorControl.AbsoluteMoveArrives | bleprph/components/stepper_motor/src/stepper_motor.c:283-356 | from any valid state, an absolute move to another in-range position arrives there after exactly the distance in iterations, then stops with the coils off |
| StepperMotor.Motor.constructor | bleprph/components/stepper_motor/include/stepper_motor.h:41-59 | the structure before init: every field zero, no queue, coils off |
| StepperMotor.Motor.Send | bleprph/components/stepper_motor/src/stepper_motor.c:121-124 | a message is appended at the back if and only if fewer than 10 are queued |
| StepperMotor.Motor.Receive | bleprph/components/stepper_motor/src/stepper_motor.c:275 | the oldest message is removed and returned, or nothing when the queue is empty |
| StepperMotor.Motor.StopPins | bleprph/components/stepper_motor/src/stepper_motor.c:37-42 | all four bridge inputs low |
| StepperMotor.Motor.ApplyCommand | bleprph/components/stepper_motor/src/stepper_motor.c:276-322 | the fields change exactly as `ApplyMessage` says; the queue is untouched |
| StepperMotor.Motor.ExecuteStep | bleprph/components/stepper_motor/src/stepper_motor.c:325-363 | the fields change exactly as `ControlStep` says; the queue is untouched |
| StepperMotor.Motor.Tick | bleprph/components/stepper_motor/src/stepper_motor.c:273-364 | one loop iteration consumes the oldest queued command, if any, and moves the state as `TickSpec` says; validity is preserved |
| StepperMotor.Init | bleprph/components/stepper_motor/src/stepper_motor.c:45-104 | NULL gives INVALID_ARG; otherwise the state is `InitialState`, and a failed queue or task allocation gives NO_MEM |
| StepperMotor.Submit | bleprph/components/stepper_motor/src/stepper_motor.c:121-126 | no motor or no queue gives INVALID_STATE; a full queue gives TIMEOUT with nothing queued; otherwise OK with the message at the back; the motor state never changes |
| StepperMotor.MoveToPosition | bleprph/components/stepper_motor/src/stepper_motor.c:107-127 | the clamped absolute target is submitted |
| StepperMotor.MoveRelativeSteps | bleprph/components/stepper_motor/src/stepper_motor.c:130-146 | the step count is submitted unclamped |
| StepperMotor.HomeMotor | bleprph/components/stepper_motor/src/stepper_motor.c:149-165 | HOME with parameter 0 is submitted |
| StepperMotor.StopMotor | bleprph/components/stepper_motor/src/stepper_motor.c:168-184 | STOP is submitted to the queue, not applied directly |
| StepperMotor.SetMotorSpeed | bleprph/components/stepper_motor/src/stepper_motor.c:187-203 | the speed, stored as `int16_t`, is submitted without any bound |
| StepperMotor.EnableMotor | bleprph/components/stepper_motor/src/stepper_motor.c:206-214 | NULL gives INVALID_ARG; otherwise only the driver is woken, and a cancelled move is not restarted |
| StepperMotor.DisableMotor | bleprph/components/stepper_motor/src/stepper_motor.c:217-227 | NULL gives INVALID_ARG; otherwise the driver sleeps, the coils go off and motion is cleared, and nothing else changes |
| StepperMotor.GetStatus | bleprph/components/stepper_motor/src/stepper_motor.c:230-248 | NULL reads as ERROR; otherwise the status projection of the state |
| StepperMotor.GetPosition | bleprph/components/stepper_motor/src/stepper_motor.c:251-256 | NULL reads as -1; otherwise the current position |
| StepperMotor.IsFault | bleprph/components/stepper_motor/src/stepper_motor.c:259-264 | faulted if and only if the status reads ERROR, so the fault byte and the status byte of a status frame agree |
| WireCodec.GattWrite | bleprph/components/ble_peripheral/src/gatt_svr.c:122-135 | a write is accepted if and only if its length is within bounds, and then copied whole; otherwise INVALID_ATTR_VALUE_LEN |
| WireCodec.DecodeInt16 | bleprph/components/ble_peripheral/src/gatt_svr.c:217 | two little-endian bytes give the signed value: `hi*256+lo`, minus 65536 when the high bit is set |
| WireCodec.EncodeInt16 | bleprph/components/ble_peripheral/src/gatt_svr.c:264-265 | an `int16_t` is two bytes |
| WireCodec.Int16RoundTrip | bleprph/components/ble_peripheral/src/gatt_svr.c:264-265 | decoding the low and high bytes of an `int16_t` gives it back |
| WireCodec.BytesRoundTrip | bleprph/components/ble_peripheral/src/gatt_svr.c:217 | encoding a decoded byte pair gives the same bytes |
| WireCodec.DecodeUInt16 | bleprph/components/ble_peripheral/src/gatt_svr.c:280 | the decoded `uint16_t` has the given bytes as its low and high byte |
| WireCodec.EncodeUInt16 | bleprph/components/ble_peripheral/src/gatt_svr.c:274-275 | the two bytes of a `uint16_t` decode to it |
| WireCodec.CallCommand | bleprph/components/ble_peripheral/src/gatt_svr.c:219-249 | no command write reaches CALIBRATE |
| WireCodec.DecodeCommandFrame | bleprph/components/ble_peripheral/src/gatt_svr.c:213-253 | accepted if and only if exactly 3 bytes with opcode below 7; the call has that opcode and the parameter from bytes 1..2, read as unsigned for SET_SPEED; everything else is INVALID_ATTR_VALUE_LEN |
| WireCodec.EncodeCommandFrame | bleprph/components/ble_peripheral/src/gatt_svr.c:213-217 | a frame is 3 bytes starting with the call's opcode |
| WireCodec.CommandFrameRoundTrip | bleprph/components/ble_peripheral/src/gatt_svr.c:213-249 | every call survives encoding and decoding |
| WireCodec.EncodeStatusFrame | bleprph/components/ble_peripheral/src/gatt_svr.c:261-266 | 4 bytes: the status code, the position little-endian, and 1 if and only if faulted |
| WireCodec.StatusFrameRoundTrip | bleprph/components/ble_peripheral/src/gatt_svr.c:261-268 | a status frame decodes to exactly the status, position and fault it encodes |
| WireCodec.TruncDiv | bleprph/components/ble_peripheral/src/gatt_svr.c:189 | C division truncates toward zero: the bounds for non-negative and negative dividends |
| WireCodec.AppFromMotor | bleprph/components/ble_peripheral/src/gatt_svr.c:186-189 | the app position is the motor position divided by 20, truncated toward zero |
| WireCodec.MotorFromApp | bleprph/components/ble_peripheral/src/gatt_svr.c:200 | the motor position is 20 times the app position, modulo 2^16, and exact for app positions up to 1638 in magnitude |
| WireCodec.ScalingRoundTrip | bleprph/components/ble_peripheral/src/gatt_svr.c:186-200 | an app position written and read back is unchanged, for magnitudes up to 1638 |
| WireCodec.AppScaleRange | bleprph/components/ble_peripheral/src/gatt_svr.c:197-200 | app positions 0..100 become motor positions 0..2000 |
| GattServer.QueuedMessage | bleprph/components/ble_peripheral/src/gatt_svr.c:219-249 | every call except ENABLE and DISABLE queues a well-formed message with the call's command |
| GattServer.FirstIndex | bleprph/components/ble_peripheral/src/gatt_svr.c:142-147 | the first position of the handle, or -1 if and only if the handle is absent |
| GattServer.Server.constructor | bleprph/components/ble_peripheral/src/gatt_svr.c:17-23 | no motor set and all four LEDs off |
| GattServer.Server.SetMotor | bleprph/components/ble_peripheral/src/gatt_svr.c:390-393 | the motor pointer is replaced |
| GattServer.Server.LedGpioInit | bleprph/components/ble_peripheral/src/gatt_svr.c:78-101 | a configuration error is returned with nothing changed; otherwise all four LED states are cleared |
| GattServer.Server.LedControl | bleprph/components/ble_peripheral/src/gatt_svr.c:104-110 | only an index 0..3 changes a state, and only its own |
| GattServer.Server.FindLedIndex | bleprph/components/ble_peripheral/src/gatt_svr.c:139-147 | the search loop finds the first matching handle, or -1 |
| GattServer.Server.LedAccess | bleprph/components/ble_peripheral/src/gatt_svr.c:138-170 | an unknown handle or a descriptor access is refused as UNLIKELY; a read returns the state byte; a one-byte write sets that LED; a bad length is refused with nothing changed |
| GattServer.Server.Perform | bleprph/components/ble_peripheral/src/gatt_svr.c:219-249 | the call's message is submitted; ENABLE and DISABLE also switch LED2 on and off |
| GattServer.Server.PositionReading | bleprph/components/ble_peripheral/src/gatt_svr.c:184-191 | the reply decodes to the motor position on the app scale |
| GattServer.Server.StatusReading | bleprph/components/ble_peripheral/src/gatt_svr.c:257-269 | the reply decodes to the status, position and fault of the motor |
| GattServer.Server.SpeedReading | bleprph/components/ble_peripheral/src/gatt_svr.c:272-276 | the reply decodes to `speed_delay_ms` |
| GattServer.Server.MotorAccess | bleprph/components/ble_peripheral/src/gatt_svr.c:173-293 | with no motor, UNLIKELY and no change; each characteristic and operation answers its frame or submits its command; refused writes change nothing; any other access is UNLIKELY |

## Left out

- Timing is left out: the FreeRTOS delays (the step delay, the 100 ms idle wait, the 1 s fault back-off and the flash delays) and the 100 ms and 10 ms queue timeouts. A tick is one loop iteration, so the step rate set by `speed_delay_ms` is not modelled.
- Concurrency is left out. The control task and the BLE host run in parallel; the model runs one call or one iteration at a time. The tearing of unsynchronised reads of the motor fields is not modelled.
- The GPIO layer is left out: pin numbers, `gpio_config` and the electrical effect of pin levels. The sleep pin is modelled as `enabled`, the bridge inputs as `coils`, and the fault pin as a `fault` parameter. A task iteration samples the line once, and so does a status read. The source reads the pin twice in a status read, once in `stepper_motor_get_status` and again in `stepper_motor_is_fault`. A line that changes between those two reads is not modelled. A status read is assumed to return the level last written to the sleep pin (`enabled`), although the sleep pin is configured as an output only.
- `stepper_motor_test_movement` is left out. It is a hardware test routine driven by wall-clock time outside the control task.
- `stepper_motor_calibrate` is declared in the header, but no source file defines it.
- `flash_led` is left out because it only blinks an LED and restores its previous level, so the LED states are unchanged. Logging is left out too.
- A failed `ble_hs_mbuf_to_flat` inside `gatt_svr_write` (BLE_ATT_ERR_UNLIKELY on a length-valid write) is left out. A failed `os_mbuf_append` on a read (BLE_HS_ENOMEM) is left out too. Both come from the BLE host's buffer pool.
- `gatt_svr_init`, service registration and `gatt_svr_register_cb` are left out. They belong to the BLE host, which assigns the handles; the model takes the handles as a parameter.
- `bleprph/main/stepper_motor.h` numbers its statuses differently (a HOMING status at 2 shifts ERROR and DISABLED). The codes modelled are those of the components header. Of that header only the calibration is modelled (`MotorTypes.MainBuildMaxPositionIs199`).
- MotorControl.Run: runs have an empty queue and a clear fault line throughout; mixed sequences of ticks are covered one iteration at a time by `StepperMotor.Motor.Tick`.

## Findings

| source | as written | input that shows it | evidently intended | confidence | as-written member | corrected member |
|---|---|---|---|---|---|---|
| bleprph/components/stepper_motor/src/stepper_motor.c:290-295 | `current_position + parameter` is stored into the `int16_t` target before the clamp, so a sum above 32767 wraps negative and is clamped to the minimum | current position 1, MOVE_RELATIVE +32767, limits 0..3000: target 0 | the target is the sum clamped into the limits (3000 here), as the clamp that follows shows | high, not executed | MotorControl.RelativeTargetAsWritten, MotorControl.RelativeTargetWrapsAround | MotorControl.RelativeTarget |
