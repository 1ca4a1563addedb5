# MPU6050 attitude and click stream, modelled in Dafny

The firmware runs one FreeRTOS task, `mpu6050_task`, on an RP2040. In each pass of its loop the task does four things, then waits 10 ms:

1. It reads the MPU6050's accelerometer, gyroscope and temperature registers over I2C. Each reading is a big-endian pair of bytes, stored in an `int16_t`.
2. It feeds the readings to an orientation filter.
3. It sends the negated pitch and the negated roll to the UART as 4-byte frames `[channel, hi, lo, 0xFF]`.
4. When the absolute raw Y acceleration exceeds 17000, it sends a third frame on channel 2. That frame carries the magnitude's high byte.

The model covers the C arithmetic these steps depend on, the register decoding, the frame encoding, the click detection and the task loop.

## Modules

- `CInt` (`c_int.dfy`) covers the C conversions as they behave with GCC on the RP2040:
  - a store into an `int16_t` wraps modulo 2^16;
  - `& 0xFF` keeps the low byte, and so does the conversion of an `int` argument to an unsigned `char`;
  - `>> 8` on a signed `int` is an arithmetic shift;
  - `hi << 8 | lo` joins two bytes.

  Each conversion is written out on unbounded integers.
- `Mpu6050` (`mpu6050.dfy`) models `mpu6050_read_raw`: the decoding of the register bursts into signed words.
- `Frames` (`frames.dfy`) covers the wire format, the axis and click frames, and the bytes of one period. It also defines a host-side reader `Parse`. `Parse` is the partner the encoders are proved against.
- `Serial` (`serial.dfy`) models the UART as the sequence of bytes handed to `uart_putc_raw`.
- `SensorTask` (`sensor_task.dfy`) models the task's loop, period by period.
- `Wrappers` (`wrappers.dfy`) holds `Option`.

### Behaviour of the click section worth noting

- **The click threshold is strict.** The code tests `acc > 17000` (`main/main.c:136`), so a magnitude of exactly 17000 sends no click. `Frames.ClickBoundary` states this boundary.
- **The click frame's value bytes.** The code sends the bytes `2, 0, (acc >> 8) & 0xFF, 0xFF` (`main/main.c:138-141`). Byte 1 of the click frame is always 0 and byte 2 is the magnitude's high byte. A host that reads bytes 1 and 2 as a 16-bit value therefore gets `acc / 256`, which lies in 66..128 for any click (`Frames.ClickFrameContents`).

## Model

| member | source | states |
|---|---|---|
| CInt.ToInt16 | main/main.c:50 | Storing an `int` into an `int16_t` gives a value in the `int16_t` range that is congruent to the input modulo 2^16. |
| CInt.LowByte | main/main.c:111-113 | `x & 0xFF` and the conversion to an unsigned `char` give a byte congruent to `x` modulo 256. |
| CInt.ShiftRight8 | main/main.c:111 | `x >> 8` is the floor of x/256: `r*256 <= x < r*256 + 256`, negative values included. |
| CInt.ShiftOr | main/main.c:50 | The shift-or `(hi << 8) or lo` lies in [0, 65536), and its high and low bytes read back as `hi` and `lo`. |
| CInt.ShiftOrIsBitwise | main/main.c:50 | The arithmetic form of the shift-or `(hi << 8) or lo` equals the bitwise shift-and-or on 32-bit words. |
| CInt.BigEndianInt16 | main/main.c:50 | Reference reading of a big-endian two's-complement pair: in the `int16_t` range, and negative exactly when bit 7 of `hi` is set. |
| CInt.ToInt16OfInt16 | main/main.c:69 | An `int16_t` store leaves a value already in range unchanged. |
| CInt.ToInt16Congruent | main/main.c:50 | Inputs congruent modulo 2^16 are stored as the same `int16_t`. |
| CInt.SplitJoin | main/main.c:111-112 | Splitting `v` into `(v >> 8) & 0xFF` and `v & 0xFF` and joining the bytes again gives `v` modulo 2^16. |
| CInt.ToInt16IsBigEndian | main/main.c:50 | Storing the shift-or `(hi << 8) or lo` as `int16_t` is the big-endian two's-complement reading of the pair. |
| Mpu6050.RegisterWord | main/main.c:50 | One sensor word equals the big-endian two's-complement value of its register bytes. |
| Mpu6050.RegisterWordBytes | main/main.c:50 | Re-splitting a decoded word with `>> 8` and `& 0xFF` yields the original register bytes. |
| Mpu6050.RegisterWordOfBytes | main/main.c:50 | Every `int16_t` is the decoded word of its own big-endian bytes, so decoding is onto the `int16_t` range. |
| Mpu6050.ReadRaw | main/main.c:37-70 | The three accelerometer words, the three gyroscope words and the temperature are the big-endian signed readings of register pairs `2i, 2i+1` of their bursts. |
| Frames.TerminatorIsNoChannel | main/main.c:113 | The terminator `-1`, sent as 0xFF, is never a channel id. |
| Frames.ParseSerialize | main/main.c:109-113 | Reading serialized frames gives back exactly those frames. |
| Frames.SerializeParse | main/main.c:109-113 | A stream that reads as frames is exactly their serialization. |
| Frames.ParseAppend | main/main.c:108-141 | Two framed streams sent one after the other read as the first stream's frames followed by the second's. |
| Frames.AxisFrame | main/main.c:109-113 | An axis frame has 4 bytes, starts with its channel and ends with 0xFF. |
| Frames.AxisFrameRoundTrip | main/main.c:109-113 | An axis frame reads back as one frame on its channel. Its value is `v` wrapped to 16 bits, and exactly `v` when `v` fits an `int16_t`. |
| Frames.AxisFrameExample | main/main.c:109-113 | A pitch of 300 is sent as `[0x00, 0xFE, 0xD4, 0xFF]` and reads back as -300. |
| Frames.ClickMagnitude | main/main.c:127-133 | `acc` is the absolute value of the `int16_t` Y acceleration, in 0..32768, so 32768 does not overflow. |
| Frames.ClickFrame | main/main.c:138-141 | A click frame has 4 bytes: channel 2, then 0, then the magnitude's high byte `acc / 256` (for any magnitude below 2^16), then the terminator. |
| Frames.ClickOutput | main/main.c:136-141 | A click frame is sent if and only if the Y acceleration is above 17000 or below -17000; otherwise nothing is sent. |
| Frames.ClickBoundary | main/main.c:136 | A magnitude of 17000 sends nothing in either direction; 17001 and -17001 send `[2, 0, 66, 0xFF]`; -32768 sends `[2, 0, 128, 0xFF]`. |
| Frames.ClickFrameContents | main/main.c:136-141 | A click reads back as one channel-2 frame with high byte 0 and low byte `acc / 256`, which lies in 66..128. |
| Frames.PeriodOutput | main/main.c:108-142 | One period sends 12 bytes when the magnitude passes the threshold and 8 otherwise. |
| Frames.PeriodFrames | main/main.c:108-142 | One period reads as a pitch frame carrying `-pitch`, then a roll frame carrying `-roll`, both wrapped to 16 bits, then a click frame exactly when there is a click. Nothing else is sent. |
| SensorTask.StreamOutput | main/main.c:86-146 | After n periods, the stream holds between 8n and 12n bytes. |
| SensorTask.StreamParses | main/main.c:86-146 | After any number of periods the stream reads as whole frames from its first byte. Each period's frames follow the previous period's. |
| Serial.Uart.PutcRaw | main/main.c:110 | `uart_putc_raw` appends the low byte of its `int` argument to the port. |
| SensorTask.SendAxis | main/main.c:109-113 | The four calls of an axis section append exactly that axis's frame. |
| SensorTask.SendClick | main/main.c:138-141 | The four calls of the click section append exactly the click frame for `acc`. |
| SensorTask.Period | main/main.c:87-142 | One loop iteration decodes the registers and appends exactly that sample's period bytes to the UART. |
| SensorTask.Run | main/main.c:86-146 | The first n iterations append the concatenation of the n periods' bytes, oldest first. |

## Left out

- **I2C.** The transfers, `mpu6050_reset`, `i2c_init` and the GPIO set-up are not modelled. The register bytes the sensor returns are inputs. Transfer errors are ignored by the code and are not modelled either.
- **Orientation filter.** The filter set-up, the float conversion of the readings (`/ 131.0f`, `/ 16384.0f`) and the float-to-`int` cast of the Euler angles are floating point, so they are not modelled. Pitch and roll enter each period as the already-cast integers. In the model only `acceleration[1]` reaches the output. In the code the other accelerometer and gyroscope words also reach it, through the filter's pitch and roll. The model takes those as free inputs (`Sample.pitch`, `Sample.roll`), so that dependence is not modelled. The temperature word is decoded and, as in the code, never used.
- **Scheduling.** FreeRTOS scheduling, `vTaskDelay`, `main`, the unused `xQueueMouse` queue and `mouse_data_t`, and the commented-out `printf` calls are not modelled.
- SensorTask.Run: covers only the first n iterations of the `while (1)` loop. The loop's non-termination is not modelled.
- SensorTask.Period: does not model 32-bit overflow of `pitch * (-1)` and `roll * (-1)`. It uses unbounded integers. Overflow would need a cast angle of `INT_MIN`, which the filter's degree range cannot produce.
- SensorTask.SendAxis: is a single method for the two axis sections. The code writes those sections out twice, identically except for the channel and the value.
- Mpu6050.ReadRaw: returns the decoded words instead of writing them through the caller's `int16_t` arrays. The decoding loops work on local arrays.
- Serial.Uart: does not model the UART hardware FIFO, blocking on a full FIFO, or baud timing.
