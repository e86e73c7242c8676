/** The byte layouts of the motor service in
    bleprph/components/ble_peripheral/src/gatt_svr.c: the length check of
    every write, the 3-byte command frame and its opcode dispatch, the
    4-byte status frame, the 2-byte little-endian position and speed
    values, and the scaling between motor steps and the app's 0..100
    position scale. Multi-byte values are little-endian, the byte order of
    the ESP32. */
module WireCodec {
  import opened MotorTypes

  type Byte = UInt8

  /** The two ATT error codes the motor and LED handlers return. */
  datatype AttError = InvalidAttrValueLen | Unlikely

  datatype Result<T> = Ok(value: T) | Err(error: AttError)

  /** gatt_svr_write: a write whose length lies outside [minLen, maxLen]
      is refused with BLE_ATT_ERR_INVALID_ATTR_VALUE_LEN and nothing is
      copied; otherwise the payload is copied out whole. */
  function GattWrite(data: seq<Byte>, minLen: nat, maxLen: nat): (r: Result<seq<Byte>>)
    ensures r.Ok? <==> minLen <= |data| <= maxLen
    ensures r.Ok? ==> r.value == data
    ensures r.Err? ==> r.error == InvalidAttrValueLen
  {
    if |data| < minLen || |data| > maxLen then Err(InvalidAttrValueLen) else Ok(data)
  }

  /** `x & 0xFF` on a two's-complement int. */
  function LowByte(x: int): Byte
  {
    x % 0x100
  }

  /** `(x >> 8) & 0xFF` with an arithmetic right shift. */
  function HighByte(x: int): Byte
  {
    (x / 0x100) % 0x100
  }

  /** `(hi << 8) | lo` stored into an int16_t: the little-endian signed
      16-bit value of two bytes. */
  function DecodeInt16(lo: Byte, hi: Byte): (r: Int16)
    ensures 0 <= r ==> r == hi as int * 0x100 + lo && hi < 0x80
    ensures r < 0 ==> r == hi as int * 0x100 + lo - 0x1_0000 && 0x80 <= hi
  {
    ToInt16(hi as int * 0x100 + lo)
  }

  /** The two bytes of an int16_t in memory order. */
  function EncodeInt16(x: Int16): (r: seq<Byte>)
    ensures |r| == 2
  {
    [LowByte(x), HighByte(x)]
  }

  /** Decoding the encoded bytes gives the value back. */
  lemma Int16RoundTrip(x: Int16)
    ensures DecodeInt16(EncodeInt16(x)[0], EncodeInt16(x)[1]) == x
  {
    var lo, hi := LowByte(x), HighByte(x);
    if 0 <= x {
      assert hi == x / 0x100;
    } else {
      assert hi == x / 0x100 + 0x100;
    }
    assert hi as int * 0x100 + lo == x || hi as int * 0x100 + lo == x + 0x1_0000;
  }

  /** And every pair of bytes is the encoding of the value it decodes to. */
  lemma BytesRoundTrip(lo: Byte, hi: Byte)
    ensures EncodeInt16(DecodeInt16(lo, hi)) == [lo, hi]
  {
    var x := DecodeInt16(lo, hi);
    if 0 <= x {
      assert x / 0x100 == hi && x % 0x100 == lo;
    } else {
      assert x == (hi as int - 0x100) * 0x100 + lo;
      assert x / 0x100 == hi - 0x100 && x % 0x100 == lo;
    }
  }

  /** A uint16_t from two little-endian bytes, and back. */
  function DecodeUInt16(lo: Byte, hi: Byte): (r: UInt16)
    ensures LowByte(r) == lo && HighByte(r) == hi
  {
    hi as int * 0x100 + lo
  }

  function EncodeUInt16(x: UInt16): (r: seq<Byte>)
    ensures |r| == 2 && DecodeUInt16(r[0], r[1]) == x
  {
    assert HighByte(x) == x / 0x100;
    [LowByte(x), HighByte(x)]
  }

  /** The motor operation a command write invokes, with its argument. */
  datatype MotorCall =
    | CallStop
    | CallMoveToPosition(position: Int16)
    | CallMoveRelative(steps: Int16)
    | CallHome
    | CallSetSpeed(speedDelayMs: UInt16)
    | CallEnable
    | CallDisable

  /** The command enumerator a call corresponds to. */
  function CallCommand(call: MotorCall): (c: MotorCommand)
    ensures c != Calibrate
  {
    match call
    case CallStop => Stop
    case CallMoveToPosition(_) => MoveAbsolute
    case CallMoveRelative(_) => MoveRelative
    case CallHome => Home
    case CallSetSpeed(_) => SetSpeed
    case CallEnable => Enable
    case CallDisable => Disable
  }

  /** The motor-command write: exactly three bytes [opcode][lo][hi], the
      parameter the little-endian signed 16-bit value of lo and hi; opcodes
      0..6 select their motor operation (SET_SPEED reinterprets the
      parameter as uint16_t), and every other opcode, CALIBRATE included, is
      refused with BLE_ATT_ERR_INVALID_ATTR_VALUE_LEN, like a wrong length. */
  function DecodeCommandFrame(data: seq<Byte>): (r: Result<MotorCall>)
    ensures r.Ok? <==> |data| == 3 && data[0] < 7
    ensures r.Err? ==> r.error == InvalidAttrValueLen
    ensures r.Ok? ==> CommandCode(CallCommand(r.value)) == data[0]
    ensures r.Ok? && r.value.CallMoveToPosition? ==> r.value.position == DecodeInt16(data[1], data[2])
    ensures r.Ok? && r.value.CallMoveRelative? ==> r.value.steps == DecodeInt16(data[1], data[2])
    ensures r.Ok? && r.value.CallSetSpeed? ==> r.value.speedDelayMs == DecodeUInt16(data[1], data[2])
  {
    match GattWrite(data, 3, 3)
    case Err(e) => Err(e)
    case Ok(frame) =>
      var parameter := DecodeInt16(frame[1], frame[2]);
      match CommandFromCode(frame[0])
      case Some(Stop) => Ok(CallStop)
      case Some(MoveAbsolute) => Ok(CallMoveToPosition(parameter))
      case Some(MoveRelative) => Ok(CallMoveRelative(parameter))
      case Some(Home) => Ok(CallHome)
      case Some(SetSpeed) => Ok(CallSetSpeed(ToUInt16(parameter)))
      case Some(Enable) => Ok(CallEnable)
      case Some(Disable) => Ok(CallDisable)
      case _ => Err(InvalidAttrValueLen)
  }

  /** The frame a client writes for a call (parameterless calls send 0). */
  function EncodeCommandFrame(call: MotorCall): (r: seq<Byte>)
    ensures |r| == 3 && r[0] == CommandCode(CallCommand(call))
  {
    var opcode := CommandCode(CallCommand(call));
    match call
    case CallMoveToPosition(p) => [opcode] + EncodeInt16(p)
    case CallMoveRelative(d) => [opcode] + EncodeInt16(d)
    case CallSetSpeed(v) => [opcode] + EncodeUInt16(v)
    case _ => [opcode, 0, 0]
  }

  /** Every call survives the trip through its command frame. */
  lemma CommandFrameRoundTrip(call: MotorCall)
    ensures DecodeCommandFrame(EncodeCommandFrame(call)) == Ok(call)
  {
    var frame := EncodeCommandFrame(call);
    match call
    case CallMoveToPosition(p) =>
      Int16RoundTrip(p);
    case CallMoveRelative(d) =>
      Int16RoundTrip(d);
    case CallSetSpeed(v) =>
      assert DecodeUInt16(frame[1], frame[2]) == v;
      assert DecodeInt16(frame[1], frame[2]) == ToInt16(v);
      SpeedSurvivesQueueParameter(v);
    case _ =>
  }

  /** The status read: [status, position low byte, position high byte,
      fault ? 1 : 0]. */
  function EncodeStatusFrame(status: MotorStatus, position: Int16, fault: bool): (r: seq<Byte>)
    ensures |r| == 4 && r[0] == StatusCode(status) && r[3] <= 1
    ensures r[3] == 1 <==> fault
    ensures DecodeInt16(r[1], r[2]) == position
  {
    Int16RoundTrip(position);
    [StatusCode(status), LowByte(position), HighByte(position), if fault then 1 else 0]
  }

  /** The client's reading of a status frame. */
  function DecodeStatusFrame(frame: seq<Byte>): Option<(MotorStatus, Int16, bool)>
  {
    if |frame| != 4 || frame[3] > 1 then None
    else match StatusFromCode(frame[0])
      case None => None
      case Some(st) => Some((st, DecodeInt16(frame[1], frame[2]), frame[3] == 1))
  }

  /** Encoding a status snapshot and decoding it reproduces it exactly. */
  lemma StatusFrameRoundTrip(status: MotorStatus, position: Int16, fault: bool)
    ensures DecodeStatusFrame(EncodeStatusFrame(status, position, fault)) == Some((status, position, fault))
  {
    StatusCodeRoundTrip(status);
  }

  /** C's `/` on int, which truncates toward zero. */
  function TruncDiv(a: int, b: int): (q: int)
    requires 0 < b
    ensures 0 <= a ==> q * b <= a < q * b + b
    ensures a < 0 ==> q * b - b < a <= q * b
  {
    if 0 <= a then a / b else -((-a) / b)
  }

  /** Position read: motor steps to the app scale, `motor_position / 20`. */
  function AppFromMotor(motorPosition: Int16): (app: Int16)
    ensures 0 <= motorPosition ==> 0 <= app && 20 * app <= motorPosition < 20 * app + 20
    ensures motorPosition < 0 ==> app <= 0 && 20 * app - 20 < motorPosition <= 20 * app
  {
    TruncDiv(motorPosition, 20)
  }

  /** Position write: the app scale to motor steps, `app_position * 20`
      stored into an int16_t (exact for |app| <= 1638, wrapped beyond). */
  function MotorFromApp(app: Int16): (motorPosition: Int16)
    ensures -1638 <= app <= 1638 ==> motorPosition == app * 20
    ensures (motorPosition - app * 20) % 0x1_0000 == 0
  {
    ToInt16(app * 20)
  }

  /** The scaling is exact in one direction: an app position written and
      read back is the same position, for the whole 0..100 scale and beyond. */
  lemma ScalingRoundTrip(app: Int16)
    requires -1638 <= app <= 1638
    ensures AppFromMotor(MotorFromApp(app)) == app
  {
    var m := MotorFromApp(app);
    assert m == app * 20;
  }

  /** The app's 0..100 scale covers motor positions 0..2000. */
  lemma AppScaleRange(app: Int16)
    requires 0 <= app <= 100
    ensures 0 <= MotorFromApp(app) <= 2000
    ensures MotorFromApp(app) == 20 * app
  {
  }
}
