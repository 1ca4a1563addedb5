/**
 * The serial wire format of `mpu6050_task`: fixed 4-byte frames
 * `[channel, hi, lo, 0xFF]`, channel 0 for pitch, 1 for roll and 2 for a
 * click, and the bytes one sampling period sends.
 *
 * The host that reads the stream is not part of the firmware; `Parse` is the
 * reading the frame layout prescribes, and serves as the inverse the encoders
 * are proved against.
 */
module Frames {
  import opened CInt
  import opened Wrappers

  const PITCH_CHANNEL: Byte := 0
  const ROLL_CHANNEL: Byte := 1
  const CLICK_CHANNEL: Byte := 2

  /** The argument the firmware passes to end a frame; as a `char` it is the byte 0xFF. */
  const TERMINATOR_ARG := -1
  const TERMINATOR: Byte := 0xFF

  /** Raw Y acceleration magnitude (LSB) above which a click is reported. */
  const CLICK_THRESHOLD := 17000

  /** A frame as the host sees it: channel, value-high and value-low bytes. */
  datatype Frame = Frame(channel: Byte, hi: Byte, lo: Byte)

  predicate ValidChannel(c: int) {
    c == PITCH_CHANNEL || c == ROLL_CHANNEL || c == CLICK_CHANNEL
  }

  /** The terminator is never a channel id. */
  lemma TerminatorIsNoChannel()
    ensures !ValidChannel(LowByte(TERMINATOR_ARG))
  {
  }

  // ---------------------------------------------------------------------
  // Host-side reading of the stream

  /** The value a host reads from a frame: bytes 1 and 2 as a big-endian `int16`. */
  function FrameValue(f: Frame): (v: int) {
    BigEndianInt16(f.hi, f.lo)
  }

  /** The wire bytes of a sequence of frames. */
  function Serialize(frames: seq<Frame>): (s: seq<Byte>)
    ensures |s| == 4 * |frames|
  {
    if frames == [] then []
    else [frames[0].channel, frames[0].hi, frames[0].lo, TERMINATOR] + Serialize(frames[1..])
  }

  /**
   * Reads a stream as consecutive 4-byte frames; fails on a stream whose length
   * is not a multiple of 4, an unknown channel or a missing terminator.
   */
  function Parse(s: seq<Byte>): (r: Option<seq<Frame>>)
    ensures r.Some? ==> |s| == 4 * |r.value|
    decreases |s|
  {
    if s == [] then Some([])
    else if |s| < 4 || !ValidChannel(s[0]) || s[3] != TERMINATOR then None
    else match Parse(s[4..])
      case None => None
      case Some(rest) => Some([Frame(s[0], s[1], s[2])] + rest)
  }

  /** Reading serialized frames gives them back. */
  lemma {:induction false} ParseSerialize(frames: seq<Frame>)
    requires forall i :: 0 <= i < |frames| ==> ValidChannel(frames[i].channel)
    ensures Parse(Serialize(frames)) == Some(frames)
  {
    if frames != [] {
      var s := Serialize(frames);
      assert s[4..] == Serialize(frames[1..]);
      ParseSerialize(frames[1..]);
      assert [frames[0]] + frames[1..] == frames;
    }
  }

  /** A stream that reads as frames is exactly their serialization. */
  lemma {:induction false} SerializeParse(s: seq<Byte>)
    requires Parse(s).Some?
    ensures Serialize(Parse(s).value) == s
  {
    if s != [] {
      SerializeParse(s[4..]);
      var fs := Parse(s).value;
      assert fs[1..] == Parse(s[4..]).value;
      assert s == s[..4] + s[4..];
    }
  }

  /** Two well-framed streams written one after the other read as their frames in order. */
  lemma {:induction false} ParseAppend(a: seq<Byte>, b: seq<Byte>)
    requires Parse(a).Some? && Parse(b).Some?
    ensures Parse(a + b) == Some(Parse(a).value + Parse(b).value)
  {
    if a != [] {
      var fa := Parse(a).value;
      assert |a| >= 4 && ValidChannel(a[0]) && a[3] == TERMINATOR;
      assert (a + b)[..4] == a[..4];
      assert (a + b)[4..] == a[4..] + b;
      ParseAppend(a[4..], b);
      assert fa == [Frame(a[0], a[1], a[2])] + Parse(a[4..]).value;
      var f, ra, fb := Frame(a[0], a[1], a[2]), Parse(a[4..]).value, Parse(b).value;
      assert Parse(a + b) == Some([f] + (ra + fb));
      assert [f] + (ra + fb) == ([f] + ra) + fb;
    } else {
      assert a + b == b;
      assert Parse(a).value + Parse(b).value == Parse(b).value;
    }
  }

  /** Helper: four bytes with a known channel and the terminator read as one frame. */
  lemma ParseOneFrame(s: seq<Byte>)
    requires |s| == 4 && ValidChannel(s[0]) && s[3] == TERMINATOR
    ensures Parse(s) == Some([Frame(s[0], s[1], s[2])])
  {
    assert s != [] && Parse(s[4..]) == Some([]);
    assert [Frame(s[0], s[1], s[2])] + [] == [Frame(s[0], s[1], s[2])];
  }

  // ---------------------------------------------------------------------
  // Axis frames (pitch and roll)

  /** `[channel, (v >> 8) & 0xFF, v & 0xFF, -1]`, each handed to the UART as a `char`. */
  function AxisFrame(channel: Byte, v: int): (f: seq<Byte>)
    ensures |f| == 4 && f[0] == channel && f[3] == TERMINATOR
  {
    [LowByte(channel), LowByte(ShiftRight8(v)), LowByte(v), LowByte(TERMINATOR_ARG)]
  }

  /**
   * An axis frame reads back as one frame on its channel whose value is `v`
   * wrapped to 16 bits, which is `v` itself when `v` fits an `int16_t`.
   */
  lemma {:induction false} AxisFrameRoundTrip(channel: Byte, v: int)
    requires ValidChannel(channel)
    ensures Parse(AxisFrame(channel, v)) == Some([Frame(channel, LowByte(ShiftRight8(v)), LowByte(v))])
    ensures FrameValue(Frame(channel, LowByte(ShiftRight8(v)), LowByte(v))) == ToInt16(v)
    ensures IsInt16(v) ==> FrameValue(Frame(channel, LowByte(ShiftRight8(v)), LowByte(v))) == v
  {
    var hi, lo := LowByte(ShiftRight8(v)), LowByte(v);
    ParseOneFrame(AxisFrame(channel, v));
    SplitJoin(v);
    ToInt16IsBigEndian(hi, lo);
    ToInt16Congruent(ShiftOr(hi, lo), v);
    if IsInt16(v) {
      ToInt16OfInt16(v);
    }
  }

  /** A pitch of 300 is sent negated: -300 is 0xFED4, and the host reads -300 back. */
  lemma AxisFrameExample()
    ensures AxisFrame(PITCH_CHANNEL, 300 * -1) == [0x00, 0xFE, 0xD4, 0xFF]
    ensures Parse(AxisFrame(PITCH_CHANNEL, 300 * -1)) == Some([Frame(PITCH_CHANNEL, 0xFE, 0xD4)])
    ensures FrameValue(Frame(PITCH_CHANNEL, 0xFE, 0xD4)) == -300
  {
    AxisFrameRoundTrip(PITCH_CHANNEL, -300);
  }

  // ---------------------------------------------------------------------
  // Click detection

  /** `acc`: the absolute value of the raw Y acceleration, computed in `int` so 32768 does not overflow. */
  function ClickMagnitude(accelY: int): (acc: int)
    requires IsInt16(accelY)
    ensures 0 <= acc <= 0x8000
    ensures acc == accelY || acc == -accelY
  {
    if accelY < 0 then -1 * accelY else accelY
  }

  /** The strict threshold test `acc > 17000`. */
  predicate IsClick(acc: int) {
    acc > CLICK_THRESHOLD
  }

  /** `[2, 0, (acc >> 8) & 0xFF, -1]`: the magnitude's high byte goes in the low-value slot. */
  function ClickFrame(acc: int): (f: seq<Byte>)
    ensures |f| == 4 && f[0] == CLICK_CHANNEL && f[1] == 0 && f[3] == TERMINATOR
    ensures 0 <= acc < 0x1_0000 ==> f[2] == acc / 0x100
  {
    [LowByte(CLICK_CHANNEL), LowByte(0), LowByte(ShiftRight8(acc)), LowByte(TERMINATOR_ARG)]
  }

  /** The click part of a period: a click frame when the magnitude passes the threshold, else nothing. */
  function ClickOutput(accelY: int): (out: seq<Byte>)
    requires IsInt16(accelY)
    ensures out != [] <==> accelY > CLICK_THRESHOLD || accelY < -CLICK_THRESHOLD
    ensures |out| == 0 || |out| == 4
  {
    var acc := ClickMagnitude(accelY);
    if IsClick(acc) then ClickFrame(acc) else []
  }

  /** The threshold is strict and symmetric: 17000 sends nothing, 17001 and -17001 send a click. */
  lemma ClickBoundary()
    ensures ClickOutput(17000) == [] && ClickOutput(-17000) == []
    ensures ClickOutput(17001) == [2, 0, 66, 0xFF] && ClickOutput(-17001) == [2, 0, 66, 0xFF]
    ensures ClickOutput(INT16_MIN) == [2, 0, 128, 0xFF]
  {
  }

  /**
   * A click frame reads back as one frame on channel 2 with high byte 0 and,
   * as low byte, the magnitude's high byte; for any `int16_t` that clicks that
   * byte lies in 66..128.
   */
  lemma {:induction false} ClickFrameContents(accelY: int)
    requires IsInt16(accelY) && IsClick(ClickMagnitude(accelY))
    ensures var acc := ClickMagnitude(accelY);
      Parse(ClickOutput(accelY)) == Some([Frame(CLICK_CHANNEL, 0, acc / 0x100)])
    ensures 66 <= ClickOutput(accelY)[2] <= 128
  {
    var acc := ClickMagnitude(accelY);
    var f := ClickOutput(accelY);
    assert f[2] == acc / 0x100;
    ParseOneFrame(f);
  }

  // ---------------------------------------------------------------------
  // One sampling period

  /**
   * The bytes one period sends: the pitch frame of `-pitch`, the roll frame of
   * `-roll`, then the click frame if the Y acceleration passes the threshold.
   */
  function PeriodOutput(accelY: int, pitch: int, roll: int): (out: seq<Byte>)
    requires IsInt16(accelY)
    ensures |out| == if IsClick(ClickMagnitude(accelY)) then 12 else 8
  {
    AxisFrame(PITCH_CHANNEL, pitch * -1) + AxisFrame(ROLL_CHANNEL, roll * -1) + ClickOutput(accelY)
  }

  /**
   * What a host reads from one period: exactly a pitch frame carrying `-pitch`,
   * a roll frame carrying `-roll` (both wrapped to 16 bits) and, only when the
   * magnitude passes the threshold, a click frame; nothing else.
   */
  lemma {:induction false} PeriodFrames(accelY: int, pitch: int, roll: int)
    requires IsInt16(accelY)
    ensures Parse(PeriodOutput(accelY, pitch, roll)).Some?
    ensures var fs := Parse(PeriodOutput(accelY, pitch, roll)).value;
      var click := IsClick(ClickMagnitude(accelY));
      && |fs| == (if click then 3 else 2)
      && fs[0].channel == PITCH_CHANNEL && FrameValue(fs[0]) == ToInt16(-pitch)
      && fs[1].channel == ROLL_CHANNEL && FrameValue(fs[1]) == ToInt16(-roll)
      && (click ==> fs[2] == Frame(CLICK_CHANNEL, 0, ClickMagnitude(accelY) / 0x100))
  {
    var px, ry := AxisFrame(PITCH_CHANNEL, pitch * -1), AxisFrame(ROLL_CHANNEL, roll * -1);
    var c := ClickOutput(accelY);
    AxisFrameRoundTrip(PITCH_CHANNEL, pitch * -1);
    AxisFrameRoundTrip(ROLL_CHANNEL, roll * -1);
    if c != [] {
      ClickFrameContents(accelY);
    } else {
      assert Parse(c) == Some([]);
    }
    ParseAppend(ry, c);
    ParseAppend(px, ry + c);
    assert px + ry + c == px + (ry + c);
  }
}
