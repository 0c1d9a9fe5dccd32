/**
 * The steering-wheel bridge: every timer tick it fills the 8 data bytes of
 * a standard CAN frame with ID 0x60 from the wheel's state (steering, pedals,
 * rpm and gear), hands the frame to the PCAN driver and counts the attempt.
 *
 * The 8-byte data field is a ctypes c_ubyte array: an int stored into it keeps
 * only its low 8 bits. Any exception while reading the wheel state or encoding
 * the steering value is caught, leaving the bytes zeroed before it.
 */
module G920 {
  import opened Wrappers
  import opened Numeric

  /** The one frame identifier that carries wheel data. */
  const TelemetryId: int := 0x60
  /** Data length of every frame sent. */
  const FrameLength: nat := 8

  /**
   * The mapping the wheel controller reports. A key may be missing (None):
   * steering, throttle and brake are read with [] and raise; clutch, rpm and
   * gear are read with .get and default to 0.
   */
  datatype WheelState = WheelState(
    steering: Option<real>, throttle: Option<real>, brake: Option<real>,
    clutch: Option<real>, rpm: Option<real>, gear: Option<real>)

  /** The integer fields of a frame, before they are laid out as bytes. */
  datatype WheelFrame = WheelFrame(steering: int, throttle: int, brake: int, clutch: int, rpm: int, gear: int)

  /** int.to_bytes raises OverflowError for a value that does not fit. */
  datatype EncodeError = Overflow

  function GetOr(o: Option<real>, default: real): real
  {
    if o.Some? then o.value else default
  }

  /** A value stored into a c_ubyte: its low 8 bits. */
  function Ubyte(v: int): (b: int)
    ensures 0 <= b < 0x100
    ensures (b - v) % 0x100 == 0
    ensures 0 <= v < 0x100 ==> b == v
  {
    v % 0x100
  }

  /** A pedal in [0, 1] as int(x * 255). */
  function PedalInt(x: real): (r: int)
    ensures 0.0 <= x <= 1.0 ==> 0 <= r <= 255 && r == (x * 255.0).Floor
    ensures x == 0.0 ==> r == 0
    ensures x == 1.0 ==> r == 255
  {
    TruncToInt(x * 255.0)
  }

  /** The steering in [-1, 1] as int(steering * 32767). */
  function SteeringInt(s: real): (r: int)
    ensures -1.0 <= s <= 1.0 ==> -32767 <= r <= 32767
    ensures s == 1.0 ==> r == 32767
    ensures s == -1.0 ==> r == -32767
  {
    TruncToInt(s * 32767.0)
  }

  /**
   * The sampled frame fields. Masking with & 0xFFFF and & 0xFF on Python's
   * unbounded two's-complement integers is the floored remainder, which is
   * Dafny's % for a positive divisor.
   */
  function Quantize(st: WheelState): (r: Option<WheelFrame>)
    ensures r.Some? <==> st.steering.Some? && st.throttle.Some? && st.brake.Some?
    ensures r.Some? ==> 0 <= r.value.rpm < 0x10000 && 0 <= r.value.gear < 0x100
    ensures r.Some? ==> (r.value.rpm - TruncToInt(GetOr(st.rpm, 0.0))) % 0x10000 == 0
    ensures r.Some? ==> (r.value.gear - TruncToInt(GetOr(st.gear, 0.0))) % 0x100 == 0
  {
    if st.steering.None? || st.throttle.None? || st.brake.None? then None
    else Some(WheelFrame(
      SteeringInt(st.steering.value),
      PedalInt(st.throttle.value),
      PedalInt(st.brake.value),
      PedalInt(GetOr(st.clutch, 0.0)),
      TruncToInt(GetOr(st.rpm, 0.0)) % 0x10000,
      TruncToInt(GetOr(st.gear, 0.0)) % 0x100))
  }

  /** Two's-complement big-endian value of two bytes: int.from_bytes(b, 'big', signed=True). */
  function DecodeInt16BE(hi: int, lo: int): int
  {
    var u := hi * 0x100 + lo;
    if u < 0x8000 then u else u - 0x10000
  }

  /** v.to_bytes(2, byteorder='big', signed=True). */
  function EncodeInt16BE(v: int): (r: Result<seq<int>, EncodeError>)
    ensures r.Success? <==> -0x8000 <= v < 0x8000
    ensures r.Success? ==> |r.value| == 2 && 0 <= r.value[0] < 0x100 && 0 <= r.value[1] < 0x100
    ensures r.Success? ==> DecodeInt16BE(r.value[0], r.value[1]) == v
  {
    if -0x8000 <= v < 0x8000 then
      var u := v % 0x10000;
      Success([u / 0x100, u % 0x100])
    else Failure(Overflow)
  }

  /** Every pair of bytes is the encoding of the value it decodes to. */
  lemma EncodeDecodeInt16BE(hi: int, lo: int)
    requires 0 <= hi < 0x100 && 0 <= lo < 0x100
    ensures EncodeInt16BE(DecodeInt16BE(hi, lo)) == Success([hi, lo])
  {
    var u := hi * 0x100 + lo;
    assert DecodeInt16BE(hi, lo) % 0x10000 == u;
    assert u / 0x100 == hi && u % 0x100 == lo;
  }

  /** v.to_bytes(2, byteorder='big') for a value already masked to 16 bits. */
  function EncodeUint16BE(v: int): (r: seq<int>)
    requires 0 <= v < 0x10000
    ensures |r| == 2 && 0 <= r[0] < 0x100 && 0 <= r[1] < 0x100
    ensures r[0] * 0x100 + r[1] == v
  {
    [v / 0x100, v % 0x100]
  }

  /** The eight data bytes of a sampled frame, or the OverflowError of the steering value. */
  function FrameBytes(f: WheelFrame): (r: Result<seq<int>, EncodeError>)
    requires 0 <= f.rpm < 0x10000
    ensures r.Success? <==> -0x8000 <= f.steering < 0x8000
    ensures r.Success? ==> |r.value| == FrameLength
  {
    match EncodeInt16BE(f.steering)
    case Failure(e) => Failure(e)
    case Success(steeringBytes) =>
      Success(steeringBytes + [Ubyte(f.throttle), Ubyte(f.brake), Ubyte(f.clutch)]
              + EncodeUint16BE(f.rpm) + [Ubyte(f.gear)])
  }

  /** How a receiver reads the eight data bytes back. */
  function DecodeFrame(b: seq<int>): WheelFrame
    requires |b| == FrameLength
  {
    WheelFrame(DecodeInt16BE(b[0], b[1]), b[2], b[3], b[4], b[5] * 0x100 + b[6], b[7])
  }

  /** Frame fields that the byte layout carries without loss. */
  predicate Encodable(f: WheelFrame)
  {
    && -0x8000 <= f.steering < 0x8000
    && 0 <= f.throttle < 0x100 && 0 <= f.brake < 0x100 && 0 <= f.clutch < 0x100
    && 0 <= f.rpm < 0x10000 && 0 <= f.gear < 0x100
  }

  /** Decoding the bytes of an encodable frame gives the frame back. */
  lemma FrameRoundTrip(f: WheelFrame)
    requires Encodable(f)
    ensures FrameBytes(f).Success?
    ensures AllBytes(FrameBytes(f).value)
    ensures DecodeFrame(FrameBytes(f).value) == f
  {
    var b := FrameBytes(f).value;
    var sb := EncodeInt16BE(f.steering).value;
    var rb := EncodeUint16BE(f.rpm);
    assert b[0] == sb[0] && b[1] == sb[1] && b[5] == rb[0] && b[6] == rb[1];
  }

  /** Every eight data bytes are the encoding of the frame they decode to. */
  lemma DecodeEncodeFrame(b: seq<int>)
    requires |b| == FrameLength && AllBytes(b)
    ensures Encodable(DecodeFrame(b))
    ensures FrameBytes(DecodeFrame(b)) == Success(b)
  {
    var f := DecodeFrame(b);
    EncodeDecodeInt16BE(b[0], b[1]);
    var r := b[5] * 0x100 + b[6];
    assert r / 0x100 == b[5] && r % 0x100 == b[6];
    assert EncodeUint16BE(f.rpm) == [b[5], b[6]];
    assert FrameBytes(f).value == b;
  }

  function Zeros(): (z: seq<int>)
    ensures |z| == FrameLength && forall k :: 0 <= k < |z| ==> z[k] == 0
  {
    [0, 0, 0, 0, 0, 0, 0, 0]
  }

  /**
   * The data bytes getMsgBytes leaves for a frame ID. The state is None when
   * reading it from the controller raised. Every failure is caught, and the
   * bytes keep the zeros written first.
   */
  function MsgBytes(hexid: int, state: Option<WheelState>): (r: seq<int>)
    ensures |r| == FrameLength && AllBytes(r)
    ensures hexid != TelemetryId ==> r == Zeros()
  {
    if hexid != TelemetryId || state.None? then Zeros()
    else match Quantize(state.value)
      case None => Zeros()
      case Some(f) =>
        match FrameBytes(f)
        case Failure(_) => Zeros()
        case Success(b) =>
          assert AllBytes(b) by {
            var sb := EncodeInt16BE(f.steering).value;
            var rb := EncodeUint16BE(f.rpm);
            assert b[0] == sb[0] && b[1] == sb[1] && b[5] == rb[0] && b[6] == rb[1];
          }
          b
  }

  /** Wheel readings in their documented ranges, with every required key present. */
  predicate InRange(st: WheelState)
  {
    && st.steering.Some? && -1.0 <= st.steering.value <= 1.0
    && st.throttle.Some? && 0.0 <= st.throttle.value <= 1.0
    && st.brake.Some? && 0.0 <= st.brake.value <= 1.0
    && 0.0 <= GetOr(st.clutch, 0.0) <= 1.0
  }

  /**
   * For readings in range the telemetry frame decodes to the truncated
   * steering, the floored pedals, and rpm and gear modulo 2^16 and 2^8.
   */
  lemma TelemetryRoundTrip(st: WheelState)
    requires InRange(st)
    ensures var f := DecodeFrame(MsgBytes(TelemetryId, Some(st)));
            && f.steering == TruncToInt(st.steering.value * 32767.0)
            && -32767 <= f.steering <= 32767
            && f.throttle == (st.throttle.value * 255.0).Floor
            && f.brake == (st.brake.value * 255.0).Floor
            && f.clutch == (GetOr(st.clutch, 0.0) * 255.0).Floor
            && f.rpm == TruncToInt(GetOr(st.rpm, 0.0)) % 0x10000
            && f.gear == TruncToInt(GetOr(st.gear, 0.0)) % 0x100
  {
    var f := Quantize(st).value;
    assert Encodable(f);
    FrameRoundTrip(f);
  }

  /**
   * A steering value whose scaled integer does not fit 16 signed bits, above
   * or below, makes to_bytes raise; the caught error leaves all eight bytes zero.
   */
  lemma SteeringOverflowSendsZeros(st: WheelState)
    requires st.steering.Some? && st.throttle.Some? && st.brake.Some?
    requires !(-0x8000 <= TruncToInt(st.steering.value * 32767.0) < 0x8000)
    ensures MsgBytes(TelemetryId, Some(st)) == Zeros()
  {
  }

  /** A missing required key raises KeyError; all eight bytes stay zero. */
  lemma MissingKeySendsZeros(st: WheelState)
    requires st.steering.None? || st.throttle.None? || st.brake.None?
    ensures MsgBytes(TelemetryId, Some(st)) == Zeros()
  {
  }

  /**
   * getMsgBytes: zero the first eight bytes, then for ID 0x60 write each of
   * them once from the wheel state. Nothing past index 7 is touched.
   */
  method GetMsgBytes(hexid: int, state: Option<WheelState>, returnBytes: array<int>)
    requires FrameLength <= returnBytes.Length
    modifies returnBytes
    ensures returnBytes[..FrameLength] == MsgBytes(hexid, state)
    ensures returnBytes[FrameLength..] == old(returnBytes[FrameLength..])
  {
    for i := 0 to FrameLength
      invariant forall k :: 0 <= k < i ==> returnBytes[k] == 0
      invariant returnBytes[FrameLength..] == old(returnBytes[FrameLength..])
    {
      returnBytes[i] := 0;
    }
    assert returnBytes[..FrameLength] == Zeros();
    if hexid == TelemetryId && state.Some? {
      var sample := Quantize(state.value);
      if sample.Some? {
        var f := sample.value;
        var steeringBytes := EncodeInt16BE(f.steering);
        if steeringBytes.Success? {
          var rpmBytes := EncodeUint16BE(f.rpm);
          returnBytes[0] := steeringBytes.value[0];
          returnBytes[1] := steeringBytes.value[1];
          returnBytes[2] := Ubyte(f.throttle);
          returnBytes[3] := Ubyte(f.brake);
          returnBytes[4] := Ubyte(f.clutch);
          returnBytes[5] := rpmBytes[0];
          returnBytes[6] := rpmBytes[1];
          returnBytes[7] := Ubyte(f.gear);
          assert returnBytes[..FrameLength] == FrameBytes(f).value;
        }
      }
    }
  }

  /** The PCAN handle split into device type and channel. */
  datatype ChannelName = ChannelName(device: nat, channel: nat)

  /**
   * A handle below 0x100 holds the device in its high nibble and the channel
   * in its low nibble; a larger one holds the channel in its low byte.
   */
  function FormatChannelName(handle: nat): (r: ChannelName)
    ensures handle < 0x100 ==> r.channel < 0x10 && r.device < 0x10 && r.device * 0x10 + r.channel == handle
    ensures 0x100 <= handle ==> r.channel < 0x100 && 0 < r.device && r.device * 0x100 + r.channel == handle
  {
    if handle < 0x100 then ChannelName(handle / 0x10, handle % 0x10)
    else ChannelName(handle / 0x100, handle % 0x100)
  }

  /** The message type flag of the frames sent: standard 11-bit identifiers. */
  datatype MessageType = Standard

  /** A TPCANMsg as handed to the driver. */
  datatype CanMessage = CanMessage(id: int, len: nat, msgType: MessageType, data: seq<int>)

  /** What the PCAN driver's Write reports. */
  datatype WriteStatus = Ok | Error(code: int)

  /** The periodic writer: the configured handle and the number of write attempts. */
  class TimerWrite {
    var pcanHandle: nat
    var sendCounter: int

    constructor (handle: nat)
      ensures pcanHandle == handle && sendCounter == 0
    {
      pcanHandle := handle;
      sendCounter := 0;
    }

    /**
     * Builds the frame for one ID and passes it to the driver; the driver's
     * result is the parameter written.
     */
    method WriteMessage(hexid: int, state: Option<WheelState>, written: WriteStatus)
      returns (msg: CanMessage, status: WriteStatus)
      ensures msg == CanMessage(hexid, FrameLength, Standard, MsgBytes(hexid, state))
      ensures status == written
    {
      var data := new int[FrameLength](_ => 0);
      GetMsgBytes(hexid, state, data);
      msg := CanMessage(hexid, FrameLength, Standard, data[..]);
      status := written;
    }

    /**
     * One timer tick: send the wheel frame and count the attempt, whatever the
     * driver reports; a non-OK status is shown (reported).
     */
    method WriteMessages(state: Option<WheelState>, written: WriteStatus)
      returns (msg: CanMessage, reported: bool)
      modifies this
      ensures sendCounter == old(sendCounter) + 1
      ensures pcanHandle == old(pcanHandle)
      ensures msg == CanMessage(TelemetryId, FrameLength, Standard, MsgBytes(TelemetryId, state))
      ensures reported <==> written != Ok
    {
      var status;
      msg, status := WriteMessage(TelemetryId, state, written);
      sendCounter := sendCounter + 1;
      reported := status != Ok;
    }
  }
}
