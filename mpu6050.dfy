/**
 * Register-byte decoding of `mpu6050_read_raw`.  The I2C transfers that fill
 * the byte buffer are not modelled: the bytes the sensor returned are inputs.
 */
module Mpu6050 {
  import opened CInt

  /**
   * One sensor word as the firmware assembles it: `hi << 8 | lo`, stored into
   * an `int16_t`.  It is the big-endian two's-complement reading of the pair.
   */
  function RegisterWord(hi: Byte, lo: Byte): (r: int)
    ensures r == BigEndianInt16(hi, lo)
  {
    ToInt16IsBigEndian(hi, lo);
    ToInt16(ShiftOr(hi, lo))
  }

  /** The word's bytes, split again as the frame encoder does, are the register bytes. */
  lemma {:induction false} RegisterWordBytes(hi: Byte, lo: Byte)
    ensures LowByte(ShiftRight8(RegisterWord(hi, lo))) == hi
    ensures LowByte(RegisterWord(hi, lo)) == lo
  {
    var r := RegisterWord(hi, lo);
    if hi < 0x80 {
      DivModByteUnique(r, hi, lo);
      DivModByteUnique(hi, 0, hi);
    } else {
      DivModByteUnique(r, hi - 0x100, lo);
      DivModByteUnique(hi - 0x100, -1, hi);
    }
  }

  /** Every `int16_t` is the word of its own big-endian bytes. */
  lemma {:induction false} RegisterWordOfBytes(v: int)
    requires IsInt16(v)
    ensures RegisterWord(LowByte(ShiftRight8(v)), LowByte(v)) == v
  {
    var q, lo := v / 0x100, v % 0x100;
    assert v == q * 0x100 + lo;
    if v < 0 {
      assert -0x80 <= q < 0;
      DivModByteUnique(q, -1, q + 0x100);
      assert LowByte(ShiftRight8(v)) == q + 0x100;
    } else {
      assert 0 <= q < 0x80;
      DivModByteUnique(q, 0, q);
      assert LowByte(ShiftRight8(v)) == q;
    }
  }

  /**
   * `mpu6050_read_raw`: decode the accelerometer burst (from register 0x3B),
   * the gyroscope burst (from 0x43) and the two temperature bytes (from 0x41).
   * The firmware writes the results through out-parameters; here they are
   * returned.
   */
  method ReadRaw(accelRegs: seq<Byte>, gyroRegs: seq<Byte>, tempRegs: seq<Byte>)
    returns (accel: seq<int>, gyro: seq<int>, temp: int)
    requires |accelRegs| == 6 && |gyroRegs| == 6 && |tempRegs| == 2
    ensures |accel| == 3 && |gyro| == 3
    ensures forall i :: 0 <= i < 3 ==> accel[i] == BigEndianInt16(accelRegs[2 * i], accelRegs[2 * i + 1])
    ensures forall i :: 0 <= i < 3 ==> gyro[i] == BigEndianInt16(gyroRegs[2 * i], gyroRegs[2 * i + 1])
    ensures temp == BigEndianInt16(tempRegs[0], tempRegs[1])
  {
    var a := new int[3];
    var g := new int[3];

    var buffer := accelRegs;
    for i := 0 to 3
      invariant forall k :: 0 <= k < i ==> a[k] == RegisterWord(buffer[2 * k], buffer[2 * k + 1])
    {
      a[i] := RegisterWord(buffer[i * 2], buffer[i * 2 + 1]);
    }

    buffer := gyroRegs;
    for i := 0 to 3
      invariant forall k :: 0 <= k < 3 ==> a[k] == RegisterWord(accelRegs[2 * k], accelRegs[2 * k + 1])
      invariant forall k :: 0 <= k < i ==> g[k] == RegisterWord(buffer[2 * k], buffer[2 * k + 1])
    {
      g[i] := RegisterWord(buffer[i * 2], buffer[i * 2 + 1]);
    }

    buffer := tempRegs;
    temp := RegisterWord(buffer[0], buffer[1]);
    accel, gyro := a[..], g[..];
  }
}
