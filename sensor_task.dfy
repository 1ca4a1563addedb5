/**
 * The sampling task `mpu6050_task`: each period it reads the sensor, sends a
 * pitch frame and a roll frame, and a click frame when the Y acceleration is
 * large.
 *
 * Per period the inputs are the bytes the sensor returned for the three
 * register bursts and the pitch and roll the orientation filter produced,
 * already cast to `int`; the filter itself is not part of this model.
 */
module SensorTask {
  import opened CInt
  import opened Mpu6050
  import opened Frames
  import opened Wrappers
  import opened Serial

  /** What one period consumes: three register bursts and the cast Euler angles. */
  datatype Sample = Sample(accelRegs: seq<Byte>, gyroRegs: seq<Byte>, tempRegs: seq<Byte>,
                           pitch: int, roll: int)
  {
    /** The bursts are 6, 6 and 2 bytes long, as the firmware's reads are. */
    predicate WellFormed() {
      |accelRegs| == 6 && |gyroRegs| == 6 && |tempRegs| == 2
    }
  }

  predicate AllWellFormed(samples: seq<Sample>) {
    forall i :: 0 <= i < |samples| ==> samples[i].WellFormed()
  }

  /** `acceleration[1]`: the raw Y acceleration, register bytes 2 and 3 of the accelerometer burst. */
  function AccelY(s: Sample): (y: int)
    requires s.WellFormed()
    ensures IsInt16(y)
  {
    RegisterWord(s.accelRegs[2], s.accelRegs[3])
  }

  /** The bytes one period sends for sample `s`. */
  function SampleOutput(s: Sample): (out: seq<Byte>)
    requires s.WellFormed()
    ensures |out| == 8 || |out| == 12
  {
    PeriodOutput(AccelY(s), s.pitch, s.roll)
  }

  /** The bytes a run of periods sends, oldest first. */
  function StreamOutput(samples: seq<Sample>): (out: seq<Byte>)
    requires AllWellFormed(samples)
    ensures 8 * |samples| <= |out| <= 12 * |samples|
  {
    if samples == [] then []
    else StreamOutput(samples[..|samples| - 1]) + SampleOutput(samples[|samples| - 1])
  }

  /** Helper: one more period appends that period's bytes. */
  lemma StreamOutputStep(samples: seq<Sample>, k: int)
    requires AllWellFormed(samples) && 0 <= k < |samples|
    ensures StreamOutput(samples[..k + 1]) == StreamOutput(samples[..k]) + SampleOutput(samples[k])
  {
    assert samples[..k + 1][..k] == samples[..k];
  }

  /**
   * Helper: concatenation regroups.  Stated on its own so that the loop in
   * `Run` does not reason about the period bytes' contents to regroup them.
   */
  lemma AppendAssoc(a: seq<Byte>, b: seq<Byte>, c: seq<Byte>)
    ensures a + b + c == a + (b + c)
  {
  }

  /**
   * However many periods have run, the stream reads as whole frames from its
   * first byte, and each period's frames follow the previous period's.
   */
  lemma {:induction false} StreamParses(samples: seq<Sample>)
    requires AllWellFormed(samples)
    ensures Parse(StreamOutput(samples)).Some?
    ensures samples != [] ==>
      var init, last := samples[..|samples| - 1], samples[|samples| - 1];
      && Parse(StreamOutput(init)).Some? && Parse(SampleOutput(last)).Some?
      && Parse(StreamOutput(samples)).value == Parse(StreamOutput(init)).value + Parse(SampleOutput(last)).value
  {
    if samples != [] {
      var init, last := samples[..|samples| - 1], samples[|samples| - 1];
      StreamParses(init);
      PeriodFrames(AccelY(last), last.pitch, last.roll);
      ParseAppend(StreamOutput(init), SampleOutput(last));
    }
  }

  /**
   * The four `uart_putc_raw` calls of an axis section (`Eixo X`, `Eixo Y`):
   * channel, `(v >> 8) & 0xFF`, `v & 0xFF`, `-1`.
   */
  method SendAxis(uart: Uart, channel: Byte, v: int)
    modifies uart
    ensures uart.sent == old(uart.sent) + AxisFrame(channel, v)
  {
    uart.PutcRaw(channel);
    uart.PutcRaw(LowByte(ShiftRight8(v)));
    uart.PutcRaw(LowByte(v));
    uart.PutcRaw(TERMINATOR_ARG);
  }

  /** The four `uart_putc_raw` calls of the click section: 2, 0, `(acc >> 8) & 0xFF`, `-1`. */
  method SendClick(uart: Uart, acc: int)
    modifies uart
    ensures uart.sent == old(uart.sent) + ClickFrame(acc)
  {
    uart.PutcRaw(CLICK_CHANNEL);
    uart.PutcRaw(0);
    uart.PutcRaw(LowByte(ShiftRight8(acc)));
    uart.PutcRaw(TERMINATOR_ARG);
  }

  /**
   * One iteration of the task's `while (1)` loop: read the sensor, send the
   * negated pitch and roll, then the click frame if `|acceleration[1]|`
   * exceeds the threshold.
   */
  method Period(uart: Uart, s: Sample)
    requires s.WellFormed()
    modifies uart
    ensures uart.sent == old(uart.sent) + SampleOutput(s)
  {
    var acceleration, gyro, temp := ReadRaw(s.accelRegs, s.gyroRegs, s.tempRegs);

    var x := s.pitch * -1;
    SendAxis(uart, PITCH_CHANNEL, x);

    var y := s.roll * -1;
    SendAxis(uart, ROLL_CHANNEL, y);

    var acc: int;
    if acceleration[1] < 0 {
      acc := -1 * acceleration[1];
    } else {
      acc := acceleration[1];
    }

    if acc > CLICK_THRESHOLD {
      SendClick(uart, acc);
    }
    assert uart.sent == old(uart.sent) + AxisFrame(PITCH_CHANNEL, x) + AxisFrame(ROLL_CHANNEL, y)
                        + ClickOutput(AccelY(s));
  }

  /** The first `|samples|` iterations of the task's loop, one sample each. */
  method Run(uart: Uart, samples: seq<Sample>)
    requires AllWellFormed(samples)
    modifies uart
    ensures uart.sent == old(uart.sent) + StreamOutput(samples)
  {
    for k := 0 to |samples|
      invariant uart.sent == old(uart.sent) + StreamOutput(samples[..k])
    {
      Period(uart, samples[k]);
      StreamOutputStep(samples, k);
      AppendAssoc(old(uart.sent), StreamOutput(samples[..k]), SampleOutput(samples[k]));
    }
    assert samples[..|samples|] == samples;
  }
}
