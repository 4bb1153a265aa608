# jirachi firmware core in Dafny

A model of the self-balancing device's firmware. It covers:

- the BLE tuning channel;
- the addressable-LED driver;
- the PID controller;
- the ICM-42688 sensor arithmetic;
- the Madgwick orientation filter;
- the two control loops that tie them together.

Everything is written as pure functions over immutable records. Clocks, sensor readings and bus reads are parameters. The filter's `sqrtf`, `atan2f` and `asinf` are function-valued fields of a `Madgwick.MathLib` record. A lemma that needs a fact about them states it as a requirement at the specific argument.

| module | file | models |
|---|---|---|
| `Wrappers` | wrappers.dfy | the `Option` type used for rejected inputs and division by zero |
| `Ble` | ble.dfy | main/ble.c, covering these parts. **Toggle:** `toggle_control`. **Payload:** the `update_kp` parser, as a loop-level method checked against a declarative reference. **Service:** the `gatt_svcs` table. **GAP:** the re-advertise decision of `ble_gap_event`. |
| `Rgb` | rgb.dfy | main/rgb.h and main/rgb.c. **Colours:** the `RGB` hex/channel union and the colour constants. **Pulses:** the bit timings, the `encode_bit` items and the 24-item frame of `set_led_channels`, with a decoder proving the frame carries the colour. **Morph:** `morph_set_sequence` and `morph_tick`. |
| `PidController` | pid.dfy | main/pid.c: `pid_init`, `pid_update_consts` and `pid_compute`, over exact reals |
| `Imu` | imu.dfy | main/imu.c and firmware/main/imu.h, covering these parts. **Codes:** the scale codes and their resolutions. **Bus bytes:** address masking and the I2C address byte. **Samples:** 16-bit two's-complement reconstruction. **Init:** the register writes of `imu_init`, replayed on an abstract register file. **Bias:** the 128-sample averaging with its gravity correction. **Read:** the calibrated `imu_read`. |
| `Madgwick` | madgwick.dfy | main/madgwick.c: `madgwick_init`, `madgwick_update` and `madgwick_get_rpy` |
| `Control` | control.dfy | firmware/main/main.c. **Globals:** the shared variables and the data-ready interrupt. **Start-up:** the identity gate. **Iteration:** one loop iteration, including the gain copy and PID timing. **Duty:** the duty-cycle mapping. **Environment:** interrupts and BLE writes arriving between iterations. **Runs:** finite runs of the device. |
| `Legacy` | legacy.dfy | main/main.c, the earlier loop. The controller runs on every pass with fixed gains. Each sample drives twenty filter updates. `deltat` is scaled by a million the wrong way. The motor routing is reversed. |

Points where the code decides something a reader might expect otherwise:

- **Unlisted scale codes keep the self-test resolutions.** `set_accel_resolution` and `set_gyro_resolution` leave the resolution unchanged for an unlisted code. But `imu_init` runs the self-test with the 4 g / 250 dps codes first (main/imu.c:329), and that sets both resolutions. So after `imu_init` an unlisted accelerometer code leaves 4/32768, and an unlisted gyroscope code leaves 250/32768, not 0. `Imu.Init` states exactly this.
- **Only kp can be tuned.** The kd and ki characteristic UUIDs are declared (main/ble.h:8-11) but no handler is registered. `Ble.WriteCharacteristic` answers None for them, and no event changes kd or ki (`Control.DeliverAllFrame`).
- **Decimal gains are rejected.** A payload like `1.5;` is refused because `.` is not a digit, so `update_kp` accepts only non-negative whole numbers (`Ble.NonDigitRejected`).
- **The legacy build scales `deltat` the wrong way.** It multiplies the microsecond difference by 1e6 where the comment promises seconds (main/main.c:104, 117). The model keeps this behaviour as written (`Legacy.Scaled`); `Legacy.ScaledExample` shows a 5 ms step arriving as 5e9. The firmware build divides (`Control.Seconds`).
- **Division by zero is modelled as None.** The filter and the controller divide by norms and time steps that the code never checks. Where such a divisor is zero, the C code goes on with infinities or NaNs. The model returns `None` instead, and a run records that it failed.

## Model

| member | source | states |
|---|---|---|
| `Ble.ToggleControl` | main/ble.c:23-33 | A first byte `'1'` activates control and `'0'` deactivates it. Any other first byte leaves every global unchanged. The gains are never touched. |
| `Ble.FindDelimiter` | main/ble.c:49-60 | Finds the position of the first `;` inside the 12-byte window. When it finds none, no window byte is the delimiter. |
| `Ble.UntilNul` | main/ble.c:70-79 | Gives the part of the buffer the digit check and `strtof` see: a NUL-free prefix that ends at the first NUL. |
| `Ble.CopyPayload` | main/ble.c:46-60 | The first loop of `update_kp`. It finds the same delimiter as the declarative scan. The bytes before the delimiter are copied into a 12-byte buffer and the rest of the buffer is zero. |
| `Ble.UpdateKp` | main/ble.c:43-84 | The handler, step by step, equals the declarative acceptance rule `ApplyKp`. kd, ki and the activation flag are unchanged. |
| `Ble.NoDelimiterRejected` | main/ble.c:49-68 | With no `;` among the first 12 bytes, the gain is unchanged. |
| `Ble.EmptyContentRejected` | main/ble.c:70-72 | A payload starting with `;` or NUL leaves the gain unchanged. |
| `Ble.NonDigitRejected` | main/ble.c:73-78 | Any non-digit before the first NUL rejects the payload, and `.`, `-` and `+` count as non-digits. |
| `Ble.DigitsAccepted` | main/ble.c:49-81 | A digit run ended by the delimiter or a NUL sets kp to its decimal value. The run is at most 11 digits long, and nothing else changes. |
| `Ble.AcceptExample` | main/ble.c:49-81 | `"123;"` sets kp to 123. |
| `Ble.NulEndsDigitsExample` | main/ble.c:70-81 | `"1\0x;"` sets kp to 1. |
| `Ble.RejectExamples` | main/ble.c:49-78 | `"12a;"` and a payload with no delimiter leave kp alone. |
| `Ble.Lookup` | main/ble.c:88-102 | The handler found for a UUID and access is an entry of the table. None means no entry matches. |
| `Ble.WriteCharacteristic` | main/ble.c:88-102 | Only the toggle and kp-write UUIDs are writable, and they run their handlers. Every other UUID, the kd/ki ones included, is refused. No write changes kd or ki. |
| `Ble.Readvertises` | main/ble.c:105-130 | Advertising restarts exactly on a failed connect, a disconnect or advertising-complete. A successful connect or any other event does not restart it. |
| `Rgb.PulseTimings` | main/rgb.h:7-15 | 24 bits per LED is 3 channels of 8. The bit durations in 40 MHz ticks are 12/32 for a 0 and 24/8 for a 1, and the reset is 3200 ticks. A 1 has the longer high phase. |
| `Rgb.RGB.WithRed` | main/rgb.h:28-37 | Writing the red member changes only byte 2 of `hex`. |
| `Rgb.RGB.WithGreen` | main/rgb.h:28-37 | Writing the green member changes only byte 1 of `hex`. |
| `Rgb.RGB.WithBlue` | main/rgb.h:28-37 | Writing the blue member changes only byte 0 of `hex`. |
| `Rgb.FromChannels` | main/rgb.h:28-37 | Packing three channel bytes gives a word with those channels and a zero top byte. |
| `Rgb.HexEqualityIsChannelEquality` | main/rgb.c:127 | With zero top bytes, the whole-word comparison of `morph_tick` equals comparing the three channels. |
| `Rgb.ChannelsRoundTrip` | main/rgb.h:28-37 | Unpacking a 24-bit word into channels and packing them back gives the word. |
| `Rgb.NamedColours` | main/rgb.h:18-25 | Every named colour is a 24-bit code whose red, green and blue bytes read as its HTML hex digits. |
| `Rgb.DecodeBit` | main/rgb.c:9-25 | A bit a receiver reads from an item is 0 or 1, and the item is exactly that bit's `encode_bit` pulse. Any other item reads as None. |
| `Rgb.EncodeBit` | main/rgb.c:9-25 | Every item is high then low. The high phase is the longer one exactly when the bit is 1, which is how a receiver tells the bits apart. |
| `Rgb.EncodeDecodeBit` | main/rgb.c:9-25 | A receiver reads back 1 from the pulse of a 1 and 0 from the pulse of any other byte value. |
| `Rgb.MsbBit` | main/rgb.c:82 | The bit extracted by shifting and masking is 0 or 1. |
| `Rgb.ByteRoundTrip` | main/rgb.c:78-85 | The eight items of a byte, most significant bit first, decode to the byte. |
| `Rgb.ChannelItems` | main/rgb.c:78-85 | Each channel byte contributes eight items. |
| `Rgb.ThreeChannels` | main/rgb.c:78-85 | Three channel bytes give their eight items each, one byte after the other. |
| `Rgb.FrameRoundTrip` | main/rgb.c:72-85 | The green, red, blue frame has 24 items, one byte per third, and decodes back to the colour. |
| `Rgb.AppendByte` | main/rgb.c:80-84 | The inner loop appends exactly the eight items of the channel byte. |
| `Rgb.LedItems` | main/rgb.c:70-85 | The buffer holds 24 items: green bits, then red, then blue, each most significant bit first. Decoding it gives the colour. |
| `Rgb.SetSequence` | main/rgb.c:103-120 | A missing list or morph, or an empty list, returns status 1 and changes nothing. Otherwise the status is 0 and the morph is valid, starting at index 0 with current = target = list[0]. A negative step is clamped to 0 and the last tick is stamped `now`. |
| `Rgb.Max3` | main/rgb.c:135-140 | Gives the largest of the three channel distances. |
| `Rgb.StepChannel` | main/rgb.c:135-140 | A channel at its target stays there. Any other channel moves toward its target without passing it. |
| `Rgb.StepChannelShrinks` | main/rgb.c:135-140 | One step takes exactly one unit off a channel's distance to its target, unless the channel is already there. |
| `Rgb.Blend` | main/rgb.c:135-140 | Every channel is stepped toward its target and the unused top byte is kept. |
| `Rgb.Advance` | main/rgb.c:127-132 | With the target reached, the index advances and wraps to 0 at the list size. The target becomes the colour at the new index. The current colour is kept and the morph stays valid. |
| `Rgb.Approach` | main/rgb.c:133-142 | With the target not reached, the index and target are kept, each channel takes one step and the last tick is `now`. |
| `Rgb.Tick` | main/rgb.c:122-145 | Before the step time has elapsed nothing changes. After it, a reached target advances the list with nothing shown; otherwise the morph blends and the new colour is shown. The morph stays valid and displayable. |
| `Rgb.Run` | main/rgb.c:122-145 | Successive ticks keep the morph valid: the index stays below the list size, so every colour read lies inside the list. |
| `Rgb.DistinctHasDistance` | main/rgb.c:127 | Two 24-bit colours differ exactly when some channel distance is non-zero. |
| `Rgb.MaxShrinks` | main/rgb.c:135-140 | Shrinking each channel distance by one unit (stopping at zero) shrinks the largest by one unit. |
| `Rgb.ApproachShrinks` | main/rgb.c:133-142 | A blend step lowers the largest channel distance by one. |
| `Rgb.BlendShrinksDistance` | main/rgb.c:125-143 | An elapsed tick toward an unreached target lowers the non-zero largest distance by exactly one. |
| `Rgb.BlendConverges` | main/rgb.c:122-145 | After `k` elapsed ticks, no more than the largest distance, the distance left is the largest distance minus `k`, and the target and index are unchanged. The colour equals the target after exactly that many ticks. |
| `PidController.Init` | main/pid.c:3-11 | Stores the gains whatever the argument order (kp, kd, ki). The integral, previous error and timestamp start at zero. |
| `PidController.UpdateConsts` | main/pid.c:13-18 | Replaces the three gains. The integral, previous error and timestamp are kept. |
| `PidController.Compute` | main/pid.c:20-29 | The error is set point minus measurement. The integral grows by error times `dt` before it is used. The output is the unclamped kp·e + ki·integral' + kd·(e − prevErr)/dt. The gains and timestamp are untouched. |
| `PidController.OutputIsSumOfTerms` | main/pid.c:25 | The output is the sum of the outputs of the three single-gain controllers. |
| `PidController.UpdateThenCompute` | main/pid.c:13-25 | A computation after a gain update uses the new gains on the old history, and the accumulated integral is the same. |
| `PidController.StampIrrelevant` | main/pid.c:20-29 | The timestamp plays no part in the computation, which carries it through unchanged. |
| `PidController.RunIntegrates` | main/pid.c:22-26 | Over any run the integral grows by exactly the error area, with no clamp or windup limit. The previous error is the last error, and the gains and timestamp never change. |
| `PidController.ProportionalExample` | main/pid.c:22-25 | With kp = 1, `compute(10, 4, 1)` gives 6. |
| `PidController.IntegralExample` | main/pid.c:22-25 | With ki = 1, two calls at dt = 1 with error 6 leave the integral and the output at 12. |
| `Imu.CodesHalveTheRange` | firmware/main/imu.h:164-177 | Accelerometer code c < 4 means 16/2^c g. Gyroscope code c < 8 means 2000/2^c dps. |
| `Imu.AccelRangeG` | main/imu.c:119-136 | The range is positive exactly for the four listed accelerometer codes, and at most 16 g. |
| `Imu.GyroRangeDps` | main/imu.c:138-167 | The range is positive exactly for the eight listed gyroscope codes, and at most 2000 dps. |
| `Imu.MaskAddress` | main/imu.c:58 | The masked register address is below 128. An address already below 128 is unchanged. |
| `Imu.AddressByte` | main/imu.c:65 | The address byte carries the 7-bit device address 0x68 above the read/write bit. |
| `Imu.SetRegister` | main/imu.c:56-81 | A register write goes to an address below 128 with the given value. |
| `Imu.ApplyWritesAppend` | main/imu.c:56-81 | Replaying two write sequences one after the other is replaying their concatenation. |
| `Imu.ConfigByte` | main/imu.c:336-340 | For a 3-bit scale and a 4-bit rate, both fields can be read back from `scale<<5 | odr`, and bit 4 stays clear. |
| `Imu.PowerByte` | main/imu.c:336 | Two-bit modes can both be read back from `gyro_mode<<2 | accel_mode`. Low-noise in both gives 0x0F, the byte the self-test writes. |
| `Imu.ClearAsyncReset` | main/imu.c:345-346 | The INT_CONFIG1 value written back has bit 4 clear and every other bit as read. |
| `Imu.SetAccelResolution` | main/imu.c:119-136 | A listed code gives range/32768 g per count. Any other code leaves the resolution as it was. |
| `Imu.SetGyroResolution` | main/imu.c:138-167 | A listed code gives range/32768 dps per count. Any other code leaves the resolution as it was. |
| `Imu.ToInt16` | main/imu.c:174 | Gives the 16-bit value congruent to its argument modulo 2^16. |
| `Imu.Combine` | main/imu.c:169-185 | The axis value is `hi*256 + lo` read as two's complement. |
| `Imu.CombineSplit` | main/imu.c:169-203 | Combining the two bytes of a 16-bit value gives the value. Splitting a combined value gives its two bytes. |
| `Imu.Calibrate` | main/imu.c:414-421 | Each calibrated axis plus its bias is the raw count times the resolution. |
| `Imu.Read` | main/imu.c:409-422 | The readings become raw·resolution − bias. The biases and resolutions are unchanged. |
| `Imu.Init` | main/imu.c:307-359 | Every bias and reading starts at zero. A listed scale code gives its resolution. An unlisted code leaves the self-test's 4 g / 250 dps resolution. |
| `Imu.SelfTestWrites` | main/imu.c:222-277 | The self-test makes eleven writes and starts and ends by selecting bank 0. |
| `Imu.MainWrites` | main/imu.c:335-347 | The configuration selects bank 0 and then writes seven distinct registers once each. |
| `Imu.ClockWrites` | main/imu.c:349-356 | The clock selection makes four writes when `clock_in` is set and none otherwise. |
| `Imu.SelfTestEffect` | main/imu.c:219-277 | The self-test leaves bank 0 selected. It writes the power, scale, filter and self-test registers of bank 0 and switches the self-test off at the end. |
| `Imu.MainEffect` | main/imu.c:335-347 | The configuration writes set power, scale/rate, bandwidth and the three interrupt registers in bank 0. |
| `Imu.ClockEffect` | main/imu.c:350-356 | The clock selection enables the RTC in bank 0 and CLKIN in bank 1. |
| `Imu.ConfigEffect` | main/imu.c:335-358 | The configuration writes, with the optional clock selection, end with bank 0 selected. |
| `Imu.ConfiguredValuesAt` | main/imu.c:336-347 | Sets the seven configured registers and keeps the soft-reset and self-test bytes. |
| `Imu.InitValuesAt` | main/imu.c:324-347 | Gives the nine bank-0 bytes `imu_init` leaves, whatever was there before. |
| `Imu.InitWrites` | main/imu.c:307-359 | Replaying all writes of `imu_init` on any register file gives bank 0 and the computed register contents. |
| `Imu.InitConfiguresDevice` | main/imu.c:324-340 | Afterwards bank 0 is selected and holds the soft-reset bit, the self-test switched off and the requested power and scale/rate bytes. The bandwidth byte is 0x44. |
| `Imu.InitConfiguresInterrupts` | main/imu.c:343-347 | INT_CONFIG ends as 0x1B. INT_CONFIG1 ends with only bit 4 cleared. Data-ready is routed to INT1 (0x08). |
| `Imu.InitClockSelection` | main/imu.c:349-358 | CLKIN is selected exactly when asked for. Without it, nothing outside bank 0 is written. |
| `Imu.AxisSumBound` | main/imu.c:363-378 | A sum of n 16-bit axis values lies between −32768·n and 32767·n. For 128 samples that is far inside the `int32_t` range. |
| `Imu.GravityCorrect` | main/imu.c:389-394 | Makes at most one adjustment. A bias within ±0.8 is kept, above 0.8 loses 1 g, and below −0.8 gains 1 g. |
| `Imu.Sums` | main/imu.c:367-378 | Gives the six per-axis sums of the samples. |
| `Imu.BiasesFromSums` | main/imu.c:381-394 | Only the biases change. |
| `Imu.Biases` | main/imu.c:361-407 | Each gyroscope bias is sum·resolution/128. Each accelerometer bias is that mean after the gravity correction, and the gyroscope biases are never corrected. Resolutions and readings are kept. |
| `Imu.CalculateBias` | main/imu.c:361-394 | The sampling loop computes exactly `Biases`. |
| `Imu.ConstantSum` | main/imu.c:367-378 | Identical samples sum to the count times the sample. |
| `Imu.MeanAtRest` | main/imu.c:381-386 | At rest, each mean is the sample's count times the resolution. |
| `Imu.AtRestBiases` | main/imu.c:381-394 | At rest, the gyroscope biases are the sample's rates and the z accelerometer bias is the gravity-corrected reading. |
| `Imu.AtRestReadsGravity` | main/imu.c:381-421 | After calibrating at rest, the same sample reads zero rotation. The z acceleration reads 0 when the sensed value is within ±0.8 g and ±1 g outside it. |
| `Madgwick.IdentityNeutral` | main/madgwick.c:7-10 | The initial orientation (1, 0, 0, 0) is neutral for the Hamilton product. |
| `Madgwick.ScaleNormSq` | main/madgwick.c:91-95 | Scaling a quaternion scales its squared norm by the square of the factor. |
| `Madgwick.SqrtOne` | main/madgwick.c:49 | An exact square root of 1 is 1. |
| `Madgwick.Init` | main/madgwick.c:5-16 | Gives the unit identity orientation and the given gain, with zero angles and no update yet. |
| `Madgwick.ObjectiveX` | main/madgwick.c:55 | The predicted x component of gravity is the rotation-matrix entry a32, which `madgwick_get_rpy` turns into the pitch. |
| `Madgwick.ObjectiveY` | main/madgwick.c:56 | The predicted y component is the roll entry a31. |
| `Madgwick.ObjectiveZ` | main/madgwick.c:57 | For a unit orientation, the predicted z component, written with the unit-norm shortcut, is the roll entry a33. |
| `Madgwick.GradientOf` | main/madgwick.c:55-69 | The code's gradient, built from its six shared Jacobian entries, is Jᵀ·f. |
| `Madgwick.DerivativeX` | main/madgwick.c:55-61 | Along h, the first objective component changes by its Jacobian row applied to h plus a term quadratic in h alone. |
| `Madgwick.DerivativeY` | main/madgwick.c:55-61 | The same for the second component. |
| `Madgwick.DerivativeZ` | main/madgwick.c:55-63 | The same for the third component, whose row has the doubled entries `J_32` and `J_33`. |
| `Madgwick.JacobianIsDerivative` | main/madgwick.c:55-63 | J is the derivative of the objective: what each component changes by along h, minus J·h, is quadratic in h alone. |
| `Madgwick.GyroRate` | main/madgwick.c:79-82 | The gyroscope term is ½·q ⊗ (0, gx, gy, gz). |
| `Madgwick.Integrate` | main/madgwick.c:85-88 | Integrating over no time leaves the orientation as it was. |
| `Madgwick.IntegrateIsEulerStep` | main/madgwick.c:79-88 | The integration is one Euler step of length dt along the gyroscope rate less beta times the gradient step. |

| `Madgwick.DivideByNorm` | main/madgwick.c:91-95 | Dividing by the exact norm gives a unit quaternion. |
| `Madgwick.Renormalize` | main/madgwick.c:91-95 | Renormalisation changes only the orientation. |
| `Madgwick.Descend` | main/madgwick.c:72-88 | The gradient step changes only the orientation. |
| `Madgwick.Update` | main/madgwick.c:18-96 | An update changes only the orientation: the gain, timestamp and angles are kept. |
| `Madgwick.RenormalizeUnit` | main/madgwick.c:91-95 | With an exact square root, renormalisation fails only on the zero quaternion and otherwise gives a unit one. |
| `Madgwick.UpdateDefinedAndUnit` | main/madgwick.c:49-95 | With an exact square root, a zero acceleration fails the update. Every completed update leaves a unit orientation, whatever it was before. |
| `Madgwick.LevelObjectiveIsZero` | main/madgwick.c:55-57 | At the identity orientation with the acceleration (0, 0, 1), the objective is zero. |
| `Madgwick.ZeroObjectiveZeroGradient` | main/madgwick.c:66-69 | A zero objective gives a zero gradient. |
| `Madgwick.ZeroGradientFails` | main/madgwick.c:72-76 | Where the objective is zero, the unguarded gradient normalisation divides by zero. |
| `Madgwick.LevelUpdateDividesByZero` | main/madgwick.c:49-76 | A freshly initialised filter measuring exactly 1 g straight up fails its first update. |
| `Madgwick.WrapYaw` | main/madgwick.c:111 | A negative yaw is lifted by one turn. Any other yaw is kept. |
| `Madgwick.A12` | main/madgwick.c:101 | For a unit orientation, the yaw entry a12 lies in [−1, 1]. |
| `Madgwick.A22` | main/madgwick.c:102 | For a unit orientation, the yaw entry a22 lies in [−1, 1]. |
| `Madgwick.A31` | main/madgwick.c:103 | For a unit orientation, the roll entry a31 lies in [−1, 1]. |
| `Madgwick.A32` | main/madgwick.c:104-108 | For a unit orientation, a32 lies in [−1, 1], the domain of the `asinf` that gives the pitch. |
| `Madgwick.A33` | main/madgwick.c:105 | For a unit orientation, the roll entry a33 lies in [−1, 1]. |
| `Madgwick.Degrees` | main/madgwick.c:106-110 | With the code's value of π, π radians convert to 180 degrees: the result times π is the argument times 180. |
| `Madgwick.RotationRowNorm` | main/madgwick.c:99-108 | The entries a31, a32, a33 are a row of the rotation matrix: their squares sum to the norm squared, squared, so to 1 for a unit orientation. |
| `Madgwick.RotationColumnNorm` | main/madgwick.c:99-110 | The entries a12, a22, a32 have the same norm. |
| `Madgwick.GetRpy` | main/madgwick.c:99-112 | Roll is atan2(a31, a33), pitch is −asin(a32), and yaw is atan2(a12, a22) plus the 13.8° offset, wrapped once; all in degrees. The orientation, gain and timestamp are untouched. |
| `Madgwick.YawInRange` | main/madgwick.c:109-111 | With `atan2f` within ±π, the offset and single wrap put the yaw in [0, 360). |
| `Madgwick.IdentityAngles` | main/madgwick.c:99-112 | The identity orientation reads roll 0 and pitch 0. Its yaw is the 13.8° offset, since roll and pitch are not wrapped. |
| `Control.Isr` | firmware/main/main.c:64-71 | The interrupt handler raises the data-ready flag and nothing else. |
| `Control.Deliver` | firmware/main/main.c:58-71 | An armed interrupt is the handler. An unarmed one changes nothing. A BLE write never touches the flag, kd or ki. |
| `Control.DeliverAllFrame` | firmware/main/main.c:58-62 | No sequence of events changes kd or ki. Interrupts alone never change the tuning. A pending sample stays pending. Before arming, the flag never changes. |
| `Control.Truncate` | firmware/main/main.c:163 | The cast `(uint8_t)(v > max ? max : v)` is at most the bound and at most v. It is v truncated when v is below the bound, and the bound otherwise. |
| `Control.TruncateIsLargest` | firmware/main/main.c:163 | The truncated value is the largest whole number within both the bound and v. |
| `Control.Drive` | firmware/main/main.c:161-170 | At most one input is non-zero and both are at most the bound. The driven amount is the truncated magnitude. The first input is driven only for outputs ≥ 1 and the second only for outputs ≤ −1. |
| `Control.Reversed` | main/main.c:122-131 | Exchanges the two motor inputs. |
| `Control.DriveDirection` | firmware/main/main.c:161-170 | The first input is driven exactly when the output is at least 1. The second is driven exactly when it is at most −1. An output strictly between stops both. |
| `Control.DriveExamples` | firmware/main/main.c:161-170 | 300 gives (200, 0), −50 and −50.7 give (0, 50), and 0 gives (0, 0). |
| `Control.Beta` | firmware/main/main.c:48-50 | With an exact square root, the gain is non-negative and its square is ¾ of the squared gyroscope error of 40°/s. |
| `Control.Radians` | firmware/main/main.c:145 | Converting to radians with the loop's π and back to degrees is the identity. |
| `Control.Mount` | firmware/main/main.c:145 | The axis mapping (y, x, −z) keeps lengths. |
| `Control.MountIsHalfTurn` | firmware/main/main.c:144-145 | The axis mapping (y, x, −z) undoes itself. |
| `Control.GyroInput` | firmware/main/main.c:145 | The filter receives the mounted gyroscope rates in radians. |
| `Control.AccelInput` | firmware/main/main.c:145 | The filter receives the mounted accelerations. |
| `Control.Seconds` | firmware/main/main.c:142 | `deltat` times 1e6 is the microseconds elapsed. It is zero exactly when no time has passed. |
| `Control.Sense` | firmware/main/main.c:139-145 | A fresh sample is read. The filter is stamped `now` and updated once with the `deltat` since its previous stamp. The result fails exactly when the update divides by zero. |
| `Control.Regulate` | firmware/main/main.c:152-171 | **Inactive:** the motors stop and the controller is untouched. **Active:** the shared gains are copied in and `deltat` spans back to the previous stamp. The controller is stamped `now` and computes toward −60° from the pitch, and its output drives the motors. It fails exactly when no time has passed. |
| `Control.Step` | firmware/main/main.c:135-175 | **Flag:** it is always consumed. The filter is updated only when a sample was pending; otherwise the sensor, orientation and stamp are kept. **Angles:** they are recomputed on every pass. **Controller:** it runs exactly as `Regulate` says. **LED:** it ticks last. |
| `Control.Sequence` | firmware/main/main.c:133 | The light sequence starts valid at its first colour, with the 2000 µs step. |
| `Control.ConfiguredImu` | firmware/main/main.c:114 | The sensor is configured for 2 g and 500 dps per full scale, with zero biases. |
| `Control.Boot` | firmware/main/main.c:93-133 | A wrong identity leaves the error light show, with nothing else configured. The right one configures the sensor, computes the biases and initialises the filter and controller, then starts the control light show. |
| `Control.BootState` | firmware/main/main.c:93-120 | A running device starts with the 2 g / 500 dps resolutions, a unit orientation and a controller with no history stamped at zero. |
| `Control.Cycle` | firmware/main/main.c:111-175 | The error loop only ticks the LED. It never drives the motors and never sees a sample. |
| `Control.Run` | firmware/main/main.c:135-175 | A run produces one output per completed iteration. It stops only when an iteration fails. |
| `Control.LedNows` | firmware/main/main.c:174 | Gives the LED clock readings of the rounds, in order. |
| `Control.HaltedNeverDrives` | firmware/main/main.c:106-112 | A device that failed the identity check never fails and never calls `set_motor_pwm`. It never consumes a sample and runs only the error light show. |
| `Control.InactiveNeverDrives` | firmware/main/main.c:152-171 | While control is off and no client writes, every iteration drives (0, 0) and the controller, its timestamp included, is untouched. So the first active `deltat` reaches back to the last active iteration. |
| `Control.BootIdleNeverDrives` | firmware/main/main.c:58-62 | At reset the controller takes the default gains 3500/63/10 and control is off. Until a client writes, every iteration stops the motors. |
| `Legacy.Scaled` | main/main.c:104 | This build's `deltat` is 1e12 times the seconds elapsed. It is zero exactly when no time has passed. |
| `Legacy.ScaledExample` | main/main.c:117 | 5000 µs arrive as 5e9 instead of 0.005 seconds. |
| `Legacy.Passes` | main/main.c:101-107 | Each of the updates stamps the filter with its own clock reading. The gain is kept. |
| `Legacy.PassesAppend` | main/main.c:101-107 | Updates over two stretches of clock readings are those over the first followed by those over the second. |
| `Legacy.PassesOne` | main/main.c:103-106 | A single pass is one filter update with the scaled `deltat`. |
| `Legacy.Sense` | main/main.c:99-107 | A fresh sample is read once and drives the filter passes. |
| `Legacy.Regulate` | main/main.c:116-131 | On every pass the controller is stamped `now` and computes toward 65° with its own gains. The output is routed reversed with the 255 clamp. It fails exactly when no time has passed. |
| `Legacy.ReversedRouting` | main/main.c:122-131 | A positive output drives the second input and anything else drives the first. Both stay within 255. |
| `Legacy.RoutingExamples` | main/main.c:122-131 | 300 gives (0, 255) and −50 gives (50, 0). |
| `Legacy.Step` | main/main.c:95-135 | The twenty filter updates happen only when a sample was pending. The angles are recomputed, the controller runs on every pass, and the LED ticks last. |
| `Legacy.Boot` | main/main.c:52-93 | The start-up is the firmware build's, with the fixed gains 50/0/0. |
| `Legacy.Cycle` | main/main.c:95-135 | A running device always calls `set_motor_pwm` and keeps its gains. A halted one only ticks the LED. |
| `Legacy.Run` | main/main.c:95-135 | A run produces one output per completed pass. It stops only when a pass fails. |
| `Legacy.FixedGains` | main/main.c:22-25 | The gains stay 50/0/0 for good, and every completed pass drives the motors. |
| `Legacy.HaltedNeverDrives` | main/main.c:64-71 | An identity mismatch enters the endless error light show, which never drives the motors. |

## Left out

- **Bus transport.** The I2C transport (`init_i2c` and the transactions of `set_register`/`read_register`), the FreeRTOS delays and `esp_timer` are left out. Register reads arrive as parameters, and register writes are recorded and replayed on an abstract register file.
- **Self-test diagnostics.** The ratio computation and logging of `imu_self_test` (main/imu.c:244-304) are left out. They use `powf` on floats and only feed a log. Only its register writes and its resolution settings are modelled.
- **Float rounding.** IEEE single-precision rounding in the PID, the filter, the bias averaging and `strtof` is left out; all arithmetic is over exact reals. `sqrtf`, `atan2f` and `asinf` are parameters, and lemmas state the facts they need of them at specific arguments.
- **BLE stack plumbing.** `ble_app_advertise`, `ble_app_on_sync`, `host_task`, `ble_task` and the `"%.4f"` formatting of `read_kp` are foreign NimBLE calls and float formatting. The kp-read characteristic is listed in the table, but its reply is not modelled.
- **Receive length.** `update_kp` ignores the received length and reads 12 bytes regardless. The model requires the 12-byte window to be present for every write, `toggle_control` included. A toggle payload shorter than 12 bytes is represented padded to the window. Nothing is lost by that, because `toggle_control` reads only `data[0]` (main/ble.c:29-30).
- **RMT transmission.** `init_rmt`, `rmt_write_items` and `send_reset_signal` are left out; the encoder returns the items it would send.
- **Concurrency.** The interrupt handler and the BLE task writing the volatile globals are modelled as whole events between loop iterations. Interleaving inside an iteration and torn reads are not modelled.
- **Clock reads in `morph_tick`.** `morph_tick` reads the clock twice (main/rgb.c:125, 143); the model uses one `now`.
- **Boot-time LED colours.** The two `set_led_rgb` calls at boot (sunset orange, then eva green) and the logging in both `app_main`s are outputs with no effect on state.
- **Motor drivers.** The LEDC wrappers of firmware/main/motor.c and main/motor.c are left out. The model stops at the arguments of `set_motor_pwm`.
- **GUI clients.** gui/src/main.rs and controlgui/src/main.rs are not part of this model.
- **After a division by zero.** Where the code divides by a zero norm or a zero time step, the model returns None instead of continuing with infinities or NaNs, and a run stops there.
- Madgwick.Update: its contract states only what an update keeps. What it computes is stated through `GradientOf`, `GyroRate`, `IntegrateIsEulerStep` and `UpdateDefinedAndUnit`, not as one closed formula, because the filter divides by three norms of the library square root.
- Rgb.Run: the contract states only that the morph stays valid. What the ticks do to the colour is stated through `BlendConverges`.
- Control.Run: the contract gives only the output count. What a run does is stated through `HaltedNeverDrives` and `InactiveNeverDrives`.
- Legacy.Run: the contract gives only the output count. What a run does is stated through `FixedGains` and `HaltedNeverDrives`.
