/** The ICM-42688 sensor driver of main/imu.c with the register map and codes
    of firmware/main/imu.h.  The I2C bus is an abstract byte source: a read
    of the six data registers of one sensor is a parameter, and every
    register write is returned as an entry of a write log. */
module Imu {

  type uint8 = x: int | 0 <= x < 0x100
  type int16 = x: int | -0x8000 <= x < 0x8000

  // ---------------------------------------------------------------------------
  // Device constants
  // ---------------------------------------------------------------------------

  /** The 7-bit bus address (AP_AD0 low) and the expected WHO_AM_I value. */
  const DeviceAddress: bv8 := 0x68
  const DeviceId: bv8 := 0x47

  const WriteBit: bv8 := 0
  const ReadBit: bv8 := 1

  // Bank 0 registers.
  const DeviceConfig: bv8 := 0x11
  const IntConfig: bv8 := 0x14
  const IntfConfig1: bv8 := 0x4D
  const PwrMgmt0: bv8 := 0x4E
  const GyroConfig0: bv8 := 0x4F
  const AccelConfig0: bv8 := 0x50
  const GyroAccelConfig0: bv8 := 0x52
  const IntConfig1: bv8 := 0x64
  const IntSource0: bv8 := 0x65
  const SelfTestConfig: bv8 := 0x70
  const WhoAmI: bv8 := 0x75
  const RegBankSel: bv8 := 0x76
  // Bank 1 register.
  const IntfConfig5: bv8 := 0x7B

  // Accelerometer full-scale codes.
  const Afs2G: uint8 := 0x03
  const Afs4G: uint8 := 0x02
  const Afs8G: uint8 := 0x01
  const Afs16G: uint8 := 0x00
  // Gyroscope full-scale codes.
  const Gfs2000Dps: uint8 := 0x00
  const Gfs1000Dps: uint8 := 0x01
  const Gfs500Dps: uint8 := 0x02
  const Gfs250Dps: uint8 := 0x03
  const Gfs125Dps: uint8 := 0x04
  const Gfs62_50Dps: uint8 := 0x05
  const Gfs31_25Dps: uint8 := 0x06
  const Gfs15_625Dps: uint8 := 0x07

  // Output data rates used by the firmware (the same codes for both sensors).
  const Odr1kHz: uint8 := 0x06
  const Odr200Hz: uint8 := 0x07

  // Power modes.
  const AccelModeOff: uint8 := 0x01
  const AccelModeLowPower: uint8 := 0x02
  const AccelModeLowNoise: uint8 := 0x03
  const GyroModeOff: uint8 := 0x00
  const GyroModeStandby: uint8 := 0x01
  const GyroModeLowNoise: uint8 := 0x03

  /** The full-scale range named by an accelerometer code, in g: positive
      exactly for the four listed codes, at most 16 g. */
  function AccelRangeG(code: uint8): (r: real)
    ensures code < 4 <==> r > 0.0
    ensures 0.0 <= r <= 16.0
  {
    if code == Afs2G then 2.0
    else if code == Afs4G then 4.0
    else if code == Afs8G then 8.0
    else if code == Afs16G then 16.0
    else 0.0
  }

  /** The full-scale range named by a gyroscope code, in degrees per second:
      positive exactly for the eight listed codes, at most 2000 dps. */
  function GyroRangeDps(code: uint8): (r: real)
    ensures code < 8 <==> r > 0.0
    ensures 0.0 <= r <= 2000.0
  {
    if code == Gfs2000Dps then 2000.0
    else if code == Gfs1000Dps then 1000.0
    else if code == Gfs500Dps then 500.0
    else if code == Gfs250Dps then 250.0
    else if code == Gfs125Dps then 125.0
    else if code == Gfs62_50Dps then 62.5
    else if code == Gfs31_25Dps then 31.25
    else if code == Gfs15_625Dps then 15.625
    else 0.0
  }

  function Pow2(n: nat): nat {
    if n == 0 then 1 else 2 * Pow2(n - 1)
  }

  /** Each step of an accelerometer code halves the range, starting at 16 g;
      each step of a gyroscope code halves it starting at 2000 dps. */
  lemma CodesHalveTheRange(c: uint8)
    ensures c < 4 ==> AccelRangeG(c) * (Pow2(c) as real) == 16.0
    ensures c < 8 ==> GyroRangeDps(c) * (Pow2(c) as real) == 2000.0
  {
  }

  // ---------------------------------------------------------------------------
  // Register transfers
  // ---------------------------------------------------------------------------

  /** The register address as `set_register`/`read_register` clamp it:
      the top bit is dropped. */
  function MaskAddress(a: bv8): (r: bv8)
    ensures r < 128
    ensures a < 128 ==> r == a
    ensures a >= 128 ==> r == a - 128
  {
    a & 0x7F
  }

  /** The first byte of a transfer: the 7-bit device address followed by the
      read/write bit. */
  function AddressByte(rw: bv8): (r: bv8)
    requires rw <= 1
    ensures r >> 1 == DeviceAddress
    ensures r & 1 == rw
  {
    (DeviceAddress << 1) | rw
  }

  /** A register write as it reaches the device. */
  datatype Write = Write(register: bv8, value: bv8)

  /** `set_register`. */
  function SetRegister(register: bv8, value: bv8): (w: Write)
    ensures w.register < 128 && w.value == value
  {
    Write(MaskAddress(register), value)
  }

  /** The device's user registers as the writes leave them: the selected
      bank, and the last value written to each (bank, register) pair.  A write
      to REG_BANK_SEL selects a bank. */
  datatype Registers = Registers(bank: bv8, values: map<(bv8, bv8), bv8>)

  function ApplyWrite(regs: Registers, w: Write): Registers {
    if w.register == RegBankSel then regs.(bank := w.value)
    else regs.(values := regs.values[(regs.bank, w.register) := w.value])
  }

  function ApplyWrites(regs: Registers, writes: seq<Write>): Registers
    decreases |writes|
  {
    if |writes| == 0 then regs else ApplyWrites(ApplyWrite(regs, writes[0]), writes[1..])
  }

  lemma {:induction false} ApplyWritesAppend(regs: Registers, a: seq<Write>, b: seq<Write>)
    ensures ApplyWrites(regs, a + b) == ApplyWrites(ApplyWrites(regs, a), b)
    decreases |a|
  {
    if |a| > 0 {
      assert (a + b)[0] == a[0];
      assert (a + b)[1..] == a[1..] + b;
      ApplyWritesAppend(ApplyWrite(regs, a[0]), a[1..], b);
    } else {
      assert a + b == b;
    }
  }

  // ---------------------------------------------------------------------------
  // Configuration bytes
  // ---------------------------------------------------------------------------

  /** ACCEL_CONFIG0 / GYRO_CONFIG0: the full-scale code in bits 7..5 and the
      output data rate in the low bits, truncated to a byte.  A 3-bit scale
      code and a 4-bit rate code both survive the packing, and bit 4 stays
      clear. */
  function ConfigByte(scale: uint8, odr: uint8): (r: bv8)
    ensures scale < 8 && odr < 16 ==>
      && r >> 5 == scale as bv8
      && r & 0x0F == odr as bv8
      && r & 0x10 == 0
  {
    ((scale as bv8) << 5) | (odr as bv8)
  }

  /** PWR_MGMT0: gyroscope mode in bits 3..2, accelerometer mode in bits
      1..0.  Two-bit modes survive the packing; low noise for both is 0x0F,
      the byte the self-test writes directly. */
  function PowerByte(gyroMode: uint8, accelMode: uint8): (r: bv8)
    ensures gyroMode < 4 && accelMode < 4 ==>
      r >> 2 == gyroMode as bv8 && r & 3 == accelMode as bv8
    ensures gyroMode == GyroModeLowNoise && accelMode == AccelModeLowNoise ==> r == 0x0F
  {
    ((gyroMode as bv8) << 2) | (accelMode as bv8)
  }

  /** INT_CONFIG1 after the read-modify-write: bit 4 cleared, every other bit
      as read. */
  function ClearAsyncReset(read: bv8): (r: bv8)
    ensures r & 0x10 == 0
    ensures r & 0xEF == read & 0xEF
  {
    read & !0x10
  }

  /** INT_CONFIG: push-pull, pulsed, active high. */
  const IntConfigValue: bv8 := 0x18 | 0x03

  // ---------------------------------------------------------------------------
  // Resolutions
  // ---------------------------------------------------------------------------

  /** `set_accel_resolution`: the switch over the four listed codes; any other
      code leaves the resolution as it was. */
  function SetAccelResolution(res: real, code: uint8): (r: real)
    ensures code < 4 ==> r * 32768.0 == AccelRangeG(code)
    ensures code >= 4 ==> r == res
  {
    if code == Afs2G then 2.0 / 32768.0
    else if code == Afs4G then 4.0 / 32768.0
    else if code == Afs8G then 8.0 / 32768.0
    else if code == Afs16G then 16.0 / 32768.0
    else res
  }

  /** `set_gyro_resolution`: the switch over the eight listed codes; any other
      code leaves the resolution as it was. */
  function SetGyroResolution(res: real, code: uint8): (r: real)
    ensures code < 8 ==> r * 32768.0 == GyroRangeDps(code)
    ensures code >= 8 ==> r == res
  {
    if code == Gfs15_625Dps then 15.625 / 32768.0
    else if code == Gfs31_25Dps then 31.25 / 32768.0
    else if code == Gfs62_50Dps then 62.5 / 32768.0
    else if code == Gfs125Dps then 125.0 / 32768.0
    else if code == Gfs250Dps then 250.0 / 32768.0
    else if code == Gfs500Dps then 500.0 / 32768.0
    else if code == Gfs1000Dps then 1000.0 / 32768.0
    else if code == Gfs2000Dps then 2000.0 / 32768.0
    else res
  }

  // ---------------------------------------------------------------------------
  // 16-bit samples
  // ---------------------------------------------------------------------------

  /** Storing an `int` into an `int16_t`: the value modulo 2^16 in the signed
      range (what the target's compiler does). */
  function ToInt16(x: int): (r: int16)
    ensures (r - x) % 0x1_0000 == 0
  {
    (x + 0x8000) % 0x1_0000 - 0x8000
  }

  /** One axis as `get_accel_data_into_buffer` assembles it: the high byte
      shifted into an `int16_t`, then the low byte OR-ed in.  The shifted
      value has zero low bits, so the OR adds the low byte. */
  function Combine(hi: uint8, lo: uint8): (r: int16)
    ensures r == if hi < 0x80 then hi * 0x100 + lo else hi * 0x100 + lo - 0x1_0000
  {
    var shifted := ToInt16(hi * 0x100);
    shifted + lo
  }

  /** The big-endian byte pair of a 16-bit two's-complement value. */
  function Split(v: int16): (uint8, uint8) {
    var u := if v < 0 then v + 0x1_0000 else v;
    (u / 0x100, u % 0x100)
  }

  /** Reassembling the bytes of a value gives the value back, and splitting
      an assembled value gives the bytes back. */
  lemma CombineSplit(v: int16, hi: uint8, lo: uint8)
    ensures Combine(Split(v).0, Split(v).1) == v
    ensures Split(Combine(hi, lo)) == (hi, lo)
  {
  }

  /** The six data registers of one sensor, X1 X0 Y1 Y0 Z1 Z0, as the bus
      returns them. */
  type SensorBytes = s: seq<uint8> | |s| == 6 witness [0, 0, 0, 0, 0, 0]

  datatype Raw3 = Raw3(x: int16, y: int16, z: int16)

  function Axes(b: SensorBytes): Raw3 {
    Raw3(Combine(b[0], b[1]), Combine(b[2], b[3]), Combine(b[4], b[5]))
  }

  // ---------------------------------------------------------------------------
  // The IMU record
  // ---------------------------------------------------------------------------

  datatype Vec3 = Vec3(x: real, y: real, z: real)

  const Zero3: Vec3 := Vec3(0.0, 0.0, 0.0)

  datatype Imu = Imu(accelRes: real, gyroRes: real, accelBias: Vec3, gyroBias: Vec3, accel: Vec3, gyro: Vec3)

  /** Raw counts scaled by a resolution, minus a bias. */
  function Calibrate(raw: Raw3, res: real, bias: Vec3): (v: Vec3)
    ensures v.x + bias.x == raw.x as real * res
    ensures v.y + bias.y == raw.y as real * res
    ensures v.z + bias.z == raw.z as real * res
  {
    Vec3(raw.x as real * res - bias.x, raw.y as real * res - bias.y, raw.z as real * res - bias.z)
  }

  /** `imu_read`: both readings recomputed from the decoded axes of the two
      sensors; the resolutions and biases are unchanged. */
  function Read(imu: Imu, accel: Raw3, gyro: Raw3): (r: Imu)
    ensures r.accelRes == imu.accelRes && r.gyroRes == imu.gyroRes
    ensures r.accelBias == imu.accelBias && r.gyroBias == imu.gyroBias
    ensures r.accel == Calibrate(accel, imu.accelRes, imu.accelBias)
    ensures r.gyro == Calibrate(gyro, imu.gyroRes, imu.gyroBias)
  {
    imu.(accel := Calibrate(accel, imu.accelRes, imu.accelBias),
         gyro := Calibrate(gyro, imu.gyroRes, imu.gyroBias))
  }

  // ---------------------------------------------------------------------------
  // Initialisation
  // ---------------------------------------------------------------------------

  /** The writes of `imu_self_test`; its readings only feed a log.  It
      starts and ends by selecting register bank 0. */
  function SelfTestWrites(accelScale: uint8, gyroScale: uint8): (r: seq<Write>)
    ensures |r| == 11
    ensures r[0] == SetRegister(RegBankSel, 0x00) && r[10] == SetRegister(RegBankSel, 0x00)
  {
    [ SetRegister(RegBankSel, 0x00),
      SetRegister(PwrMgmt0, 0x0F),
      SetRegister(AccelConfig0, ConfigByte(accelScale, Odr1kHz)),
      SetRegister(GyroConfig0, ConfigByte(gyroScale, Odr1kHz)),
      SetRegister(GyroAccelConfig0, 0x44),
      SetRegister(SelfTestConfig, 0x78),
      SetRegister(SelfTestConfig, 0x07),
      SetRegister(SelfTestConfig, 0x00),
      SetRegister(RegBankSel, 0x01),
      SetRegister(RegBankSel, 0x02),
      SetRegister(RegBankSel, 0x00) ]
  }

  /** The writes of `imu_init` after the self-test; `intConfig1` is the value
      read back from INT_CONFIG1. */
  function ConfigWrites(accelScale: uint8, gyroScale: uint8, accelOdr: uint8, gyroOdr: uint8,
                        accelMode: uint8, gyroMode: uint8, clockIn: bool, intConfig1: bv8): seq<Write>
  {
    MainWrites(accelScale, gyroScale, accelOdr, gyroOdr, accelMode, gyroMode, intConfig1)
    + ClockWrites(clockIn)
    + [ SetRegister(RegBankSel, 0x00) ]
  }

  /** The power, scale, rate, filter and interrupt writes of `imu_init`:
      bank 0 first, then one write to each of seven distinct registers. */
  function MainWrites(accelScale: uint8, gyroScale: uint8, accelOdr: uint8, gyroOdr: uint8,
                      accelMode: uint8, gyroMode: uint8, intConfig1: bv8): (r: seq<Write>)
    ensures |r| == 8 && r[0] == SetRegister(RegBankSel, 0x00)
    ensures forall i, j :: 1 <= i < j < |r| ==> r[i].register != r[j].register
  {
    [ SetRegister(RegBankSel, 0x00),
      SetRegister(PwrMgmt0, PowerByte(gyroMode, accelMode)),
      SetRegister(AccelConfig0, ConfigByte(accelScale, accelOdr)),
      SetRegister(GyroConfig0, ConfigByte(gyroScale, gyroOdr)),
      SetRegister(GyroAccelConfig0, 0x44),
      SetRegister(IntConfig, IntConfigValue),
      SetRegister(IntConfig1, ClearAsyncReset(intConfig1)),
      SetRegister(IntSource0, 0x08) ]
  }

  /** The external clock selection, only when `clock_in` is set: bank 0
      for INTF_CONFIG1, then bank 1 for INTF_CONFIG5. */
  function ClockWrites(clockIn: bool): (r: seq<Write>)
    ensures clockIn <==> |r| == 4
    ensures !clockIn ==> r == []
  {
    if clockIn then
      [ SetRegister(RegBankSel, 0x00),
        SetRegister(IntfConfig1, 0x95),
        SetRegister(RegBankSel, 0x01),
        SetRegister(IntfConfig5, 0x04) ]
    else []
  }

  datatype InitResult = InitResult(imu: Imu, writes: seq<Write>)

  /** `imu_init`: every bias, reading and resolution starts at zero; the
      self-test then sets the 4 g / 250 dps resolutions, and the requested
      codes overwrite them only when they are listed codes. */
  function Init(accelScale: uint8, gyroScale: uint8, accelOdr: uint8, gyroOdr: uint8,
                accelMode: uint8, gyroMode: uint8, clockIn: bool, intConfig1: bv8): (r: InitResult)
    ensures r.imu.accelBias == Zero3 && r.imu.gyroBias == Zero3
    ensures r.imu.accel == Zero3 && r.imu.gyro == Zero3
    ensures accelScale < 4 ==> r.imu.accelRes * 32768.0 == AccelRangeG(accelScale)
    ensures accelScale >= 4 ==> r.imu.accelRes * 32768.0 == 4.0
    ensures gyroScale < 8 ==> r.imu.gyroRes * 32768.0 == GyroRangeDps(gyroScale)
    ensures gyroScale >= 8 ==> r.imu.gyroRes * 32768.0 == 250.0
  {
    var zeroed := Imu(0.0, 0.0, Zero3, Zero3, Zero3, Zero3);
    var afterSelfTest := zeroed.(accelRes := SetAccelResolution(zeroed.accelRes, Afs4G),
                          gyroRes := SetGyroResolution(zeroed.gyroRes, Gfs250Dps));
    var configured := afterSelfTest.(accelRes := SetAccelResolution(afterSelfTest.accelRes, accelScale),
                              gyroRes := SetGyroResolution(afterSelfTest.gyroRes, gyroScale));
    var writes := [SetRegister(RegBankSel, 0x00), SetRegister(DeviceConfig, 0x01)]
                  + SelfTestWrites(Afs4G, Gfs250Dps)
                  + ConfigWrites(accelScale, gyroScale, accelOdr, gyroOdr, accelMode, gyroMode, clockIn, intConfig1);
    InitResult(configured, writes)
  }

  /** The self-test leaves bank 0 selected and its own writes in bank 0,
      the self-test itself switched off again. */
  lemma SelfTestEffect(regs: Registers, accelScale: uint8, gyroScale: uint8)
    ensures ApplyWrites(regs, SelfTestWrites(accelScale, gyroScale))
         == Registers(0, regs.values[(0, PwrMgmt0) := 0x0F]
                                   [(0, AccelConfig0) := ConfigByte(accelScale, Odr1kHz)]
                                   [(0, GyroConfig0) := ConfigByte(gyroScale, Odr1kHz)]
                                   [(0, GyroAccelConfig0) := 0x44]
                                   [(0, SelfTestConfig) := 0x78]
                                   [(0, SelfTestConfig) := 0x07]
                                   [(0, SelfTestConfig) := 0x00])
  {
    var w := SelfTestWrites(accelScale, gyroScale);
    var r0 := ApplyWrite(regs, w[0]);
    var r1 := ApplyWrite(r0, w[1]);
    var r2 := ApplyWrite(r1, w[2]);
    var r3 := ApplyWrite(r2, w[3]);
    var r4 := ApplyWrite(r3, w[4]);
    var r5 := ApplyWrite(r4, w[5]);
    var r6 := ApplyWrite(r5, w[6]);
    var r7 := ApplyWrite(r6, w[7]);
    var r8 := ApplyWrite(r7, w[8]);
    var r9 := ApplyWrite(r8, w[9]);
    var r10 := ApplyWrite(r9, w[10]);
    assert ApplyWrites(r10, w[11..]) == r10;
    assert ApplyWrites(r9, w[10..]) == r10;
    assert ApplyWrites(r8, w[9..]) == r10;
    assert ApplyWrites(r7, w[8..]) == r10;
    assert ApplyWrites(r6, w[7..]) == r10;
    assert ApplyWrites(r5, w[6..]) == r10;
    assert ApplyWrites(r4, w[5..]) == r10;
    assert ApplyWrites(r3, w[4..]) == r10;
    assert ApplyWrites(r2, w[3..]) == r10;
    assert ApplyWrites(r1, w[2..]) == r10;
    assert ApplyWrites(r0, w[1..]) == r10;
  }

  /** The main configuration writes land in bank 0 and leave it selected. */
  lemma MainEffect(regs: Registers, accelScale: uint8, gyroScale: uint8, accelOdr: uint8, gyroOdr: uint8,
                   accelMode: uint8, gyroMode: uint8, intConfig1: bv8)
    ensures ApplyWrites(regs, MainWrites(accelScale, gyroScale, accelOdr, gyroOdr, accelMode, gyroMode, intConfig1))
         == Registers(0, ConfiguredValues(regs.values, accelScale, gyroScale, accelOdr, gyroOdr, accelMode, gyroMode, intConfig1))
  {
    var main := MainWrites(accelScale, gyroScale, accelOdr, gyroOdr, accelMode, gyroMode, intConfig1);
    var r0 := ApplyWrite(regs, main[0]);
    var r1 := ApplyWrite(r0, main[1]);
    var r2 := ApplyWrite(r1, main[2]);
    var r3 := ApplyWrite(r2, main[3]);
    var r4 := ApplyWrite(r3, main[4]);
    var r5 := ApplyWrite(r4, main[5]);
    var r6 := ApplyWrite(r5, main[6]);
    var r7 := ApplyWrite(r6, main[7]);
    assert ApplyWrites(r7, main[8..]) == r7;
    assert ApplyWrites(r6, main[7..]) == r7;
    assert ApplyWrites(r5, main[6..]) == r7;
    assert ApplyWrites(r4, main[5..]) == r7;
    assert ApplyWrites(r3, main[4..]) == r7;
    assert ApplyWrites(r2, main[3..]) == r7;
    assert ApplyWrites(r1, main[2..]) == r7;
    assert ApplyWrites(r0, main[1..]) == r7;
  }

  /** The clock selection writes INTF_CONFIG1 in bank 0 and INTF_CONFIG5 in
      bank 1, leaving bank 1 selected. */
  lemma ClockEffect(regs: Registers)
    ensures ApplyWrites(regs, ClockWrites(true))
         == Registers(1, regs.values[(0, IntfConfig1) := 0x95][(1, IntfConfig5) := 0x04])
  {
    var clock := ClockWrites(true);
    var c0 := ApplyWrite(regs, clock[0]);
    var c1 := ApplyWrite(c0, clock[1]);
    var c2 := ApplyWrite(c1, clock[2]);
    var c3 := ApplyWrite(c2, clock[3]);
    assert ApplyWrites(c3, clock[4..]) == c3;
    assert ApplyWrites(c2, clock[3..]) == c3;
    assert ApplyWrites(c1, clock[2..]) == c3;
    assert ApplyWrites(c0, clock[1..]) == c3;
  }

  /** The configuration writes of `imu_init` after the self-test. */
  lemma ConfigEffect(regs: Registers, accelScale: uint8, gyroScale: uint8, accelOdr: uint8, gyroOdr: uint8,
                     accelMode: uint8, gyroMode: uint8, clockIn: bool, intConfig1: bv8)
    ensures var configured := ConfiguredValues(regs.values, accelScale, gyroScale, accelOdr, gyroOdr, accelMode, gyroMode, intConfig1);
      ApplyWrites(regs, ConfigWrites(accelScale, gyroScale, accelOdr, gyroOdr, accelMode, gyroMode, clockIn, intConfig1))
      == if clockIn then Registers(0, configured[(0, IntfConfig1) := 0x95][(1, IntfConfig5) := 0x04])
         else Registers(0, configured)
  {
    var main := MainWrites(accelScale, gyroScale, accelOdr, gyroOdr, accelMode, gyroMode, intConfig1);
    var clock := ClockWrites(clockIn);
    var last := [ SetRegister(RegBankSel, 0x00) ];
    ApplyWritesAppend(regs, main + clock, last);
    ApplyWritesAppend(regs, main, clock);
    MainEffect(regs, accelScale, gyroScale, accelOdr, gyroOdr, accelMode, gyroMode, intConfig1);
    var m := ApplyWrites(regs, main);
    if clockIn {
      ClockEffect(m);
    } else {
      assert ApplyWrites(m, clock) == m;
    }
    var c := ApplyWrites(m, clock);
    assert ApplyWrites(c, last) == c.(bank := 0);
  }

  /** The register values `imu_init` leaves, on top of `values`. */
  function InitValues(values: map<(bv8, bv8), bv8>, accelScale: uint8, gyroScale: uint8, accelOdr: uint8, gyroOdr: uint8,
                      accelMode: uint8, gyroMode: uint8, clockIn: bool, intConfig1: bv8): map<(bv8, bv8), bv8>
  {
    var configured := ConfiguredValues(PostSelfTestValues(values), accelScale, gyroScale, accelOdr, gyroOdr, accelMode, gyroMode, intConfig1);
    if clockIn then configured[(0, IntfConfig1) := 0x95][(1, IntfConfig5) := 0x04] else configured
  }

  /** The register values after the soft reset and the self-test. */
  function PostSelfTestValues(values: map<(bv8, bv8), bv8>): map<(bv8, bv8), bv8> {
    values[(0, DeviceConfig) := 0x01]
          [(0, PwrMgmt0) := 0x0F]
          [(0, AccelConfig0) := ConfigByte(Afs4G, Odr1kHz)]
          [(0, GyroConfig0) := ConfigByte(Gfs250Dps, Odr1kHz)]
          [(0, GyroAccelConfig0) := 0x44]
          [(0, SelfTestConfig) := 0x78]
          [(0, SelfTestConfig) := 0x07]
          [(0, SelfTestConfig) := 0x00]
  }

  /** The register values after the main configuration writes. */
  function ConfiguredValues(values: map<(bv8, bv8), bv8>, accelScale: uint8, gyroScale: uint8, accelOdr: uint8, gyroOdr: uint8,
                            accelMode: uint8, gyroMode: uint8, intConfig1: bv8): map<(bv8, bv8), bv8>
  {
    values[(0, PwrMgmt0) := PowerByte(gyroMode, accelMode)]
          [(0, AccelConfig0) := ConfigByte(accelScale, accelOdr)]
          [(0, GyroConfig0) := ConfigByte(gyroScale, gyroOdr)]
          [(0, GyroAccelConfig0) := 0x44]
          [(0, IntConfig) := IntConfigValue]
          [(0, IntConfig1) := ClearAsyncReset(intConfig1)]
          [(0, IntSource0) := 0x08]
  }

  /** The bank 0 bytes `imu_init` leaves, whatever was there before. */
  lemma InitValuesAt(values: map<(bv8, bv8), bv8>, accelScale: uint8, gyroScale: uint8, accelOdr: uint8, gyroOdr: uint8,
                     accelMode: uint8, gyroMode: uint8, clockIn: bool, intConfig1: bv8)
    ensures var v := InitValues(values, accelScale, gyroScale, accelOdr, gyroOdr, accelMode, gyroMode, clockIn, intConfig1);
      && (0, DeviceConfig) in v && v[(0, DeviceConfig)] == 0x01
      && (0, SelfTestConfig) in v && v[(0, SelfTestConfig)] == 0x00
      && (0, PwrMgmt0) in v && v[(0, PwrMgmt0)] == PowerByte(gyroMode, accelMode)
      && (0, AccelConfig0) in v && v[(0, AccelConfig0)] == ConfigByte(accelScale, accelOdr)
      && (0, GyroConfig0) in v && v[(0, GyroConfig0)] == ConfigByte(gyroScale, gyroOdr)
      && (0, GyroAccelConfig0) in v && v[(0, GyroAccelConfig0)] == 0x44
      && (0, IntConfig) in v && v[(0, IntConfig)] == IntConfigValue
      && (0, IntConfig1) in v && v[(0, IntConfig1)] == ClearAsyncReset(intConfig1)
      && (0, IntSource0) in v && v[(0, IntSource0)] == 0x08
  {
    var afterSelfTest := PostSelfTestValues(values);
    assert (0, DeviceConfig) in afterSelfTest && afterSelfTest[(0, DeviceConfig)] == 0x01;
    assert (0, SelfTestConfig) in afterSelfTest && afterSelfTest[(0, SelfTestConfig)] == 0x00;
    ConfiguredValuesAt(afterSelfTest, accelScale, gyroScale, accelOdr, gyroOdr, accelMode, gyroMode, intConfig1);
  }

  /** The main configuration writes set their seven registers and keep the
      soft-reset and self-test bytes. */
  lemma ConfiguredValuesAt(values: map<(bv8, bv8), bv8>, accelScale: uint8, gyroScale: uint8, accelOdr: uint8, gyroOdr: uint8,
                           accelMode: uint8, gyroMode: uint8, intConfig1: bv8)
    ensures var v := ConfiguredValues(values, accelScale, gyroScale, accelOdr, gyroOdr, accelMode, gyroMode, intConfig1);
      && (0, PwrMgmt0) in v && v[(0, PwrMgmt0)] == PowerByte(gyroMode, accelMode)
      && (0, AccelConfig0) in v && v[(0, AccelConfig0)] == ConfigByte(accelScale, accelOdr)
      && (0, GyroConfig0) in v && v[(0, GyroConfig0)] == ConfigByte(gyroScale, gyroOdr)
      && (0, GyroAccelConfig0) in v && v[(0, GyroAccelConfig0)] == 0x44
      && (0, IntConfig) in v && v[(0, IntConfig)] == IntConfigValue
      && (0, IntConfig1) in v && v[(0, IntConfig1)] == ClearAsyncReset(intConfig1)
      && (0, IntSource0) in v && v[(0, IntSource0)] == 0x08
      && ((0, DeviceConfig) in values ==> (0, DeviceConfig) in v && v[(0, DeviceConfig)] == values[(0, DeviceConfig)])
      && ((0, SelfTestConfig) in values ==> (0, SelfTestConfig) in v && v[(0, SelfTestConfig)] == values[(0, SelfTestConfig)])
  {
  }

  /** Replaying the writes of `imu_init` on any register contents. */
  lemma InitWrites(before: Registers, accelScale: uint8, gyroScale: uint8, accelOdr: uint8, gyroOdr: uint8,
                   accelMode: uint8, gyroMode: uint8, clockIn: bool, intConfig1: bv8)
    ensures ApplyWrites(before, Init(accelScale, gyroScale, accelOdr, gyroOdr, accelMode, gyroMode, clockIn, intConfig1).writes)
         == Registers(0, InitValues(before.values, accelScale, gyroScale, accelOdr, gyroOdr, accelMode, gyroMode, clockIn, intConfig1))
  {
    var head := [SetRegister(RegBankSel, 0x00), SetRegister(DeviceConfig, 0x01)];
    var st := SelfTestWrites(Afs4G, Gfs250Dps);
    var cfg := ConfigWrites(accelScale, gyroScale, accelOdr, gyroOdr, accelMode, gyroMode, clockIn, intConfig1);
    var writes := Init(accelScale, gyroScale, accelOdr, gyroOdr, accelMode, gyroMode, clockIn, intConfig1).writes;
    assert writes == head + st + cfg;
    ApplyWritesAppend(before, head + st, cfg);
    ApplyWritesAppend(before, head, st);
    var h0 := ApplyWrite(before, head[0]);
    var h1 := ApplyWrite(h0, head[1]);
    assert ApplyWrites(h1, head[2..]) == h1;
    assert ApplyWrites(h0, head[1..]) == h1;
    SelfTestEffect(h1, Afs4G, Gfs250Dps);
    var t := ApplyWrites(h1, st);
    ConfigEffect(t, accelScale, gyroScale, accelOdr, gyroOdr, accelMode, gyroMode, clockIn, intConfig1);
  }

  /** After `imu_init`, whatever the registers held before, bank 0 is
      selected and holds the soft-reset bit, the self-test switched off and
      the requested power, scale and rate bytes. */
  lemma InitConfiguresDevice(before: Registers, accelScale: uint8, gyroScale: uint8, accelOdr: uint8, gyroOdr: uint8,
                             accelMode: uint8, gyroMode: uint8, clockIn: bool, intConfig1: bv8)
    ensures var after := ApplyWrites(before, Init(accelScale, gyroScale, accelOdr, gyroOdr, accelMode, gyroMode, clockIn, intConfig1).writes);
      && after.bank == 0
      && (0, DeviceConfig) in after.values && after.values[(0, DeviceConfig)] == 0x01
      && (0, SelfTestConfig) in after.values && after.values[(0, SelfTestConfig)] == 0x00
      && (0, PwrMgmt0) in after.values && after.values[(0, PwrMgmt0)] == PowerByte(gyroMode, accelMode)
      && (0, AccelConfig0) in after.values && after.values[(0, AccelConfig0)] == ConfigByte(accelScale, accelOdr)
      && (0, GyroConfig0) in after.values && after.values[(0, GyroConfig0)] == ConfigByte(gyroScale, gyroOdr)
      && (0, GyroAccelConfig0) in after.values && after.values[(0, GyroAccelConfig0)] == 0x44
  {
    InitWrites(before, accelScale, gyroScale, accelOdr, gyroOdr, accelMode, gyroMode, clockIn, intConfig1);
    InitValuesAt(before.values, accelScale, gyroScale, accelOdr, gyroOdr, accelMode, gyroMode, clockIn, intConfig1);
  }

  /** After `imu_init` the interrupt registers hold push-pull pulsed
      active-high signalling, data-ready routed to INT1, and the INT_CONFIG1
      value read back with only bit 4 cleared. */
  lemma InitConfiguresInterrupts(before: Registers, accelScale: uint8, gyroScale: uint8, accelOdr: uint8, gyroOdr: uint8,
                                 accelMode: uint8, gyroMode: uint8, clockIn: bool, intConfig1: bv8)
    ensures var after := ApplyWrites(before, Init(accelScale, gyroScale, accelOdr, gyroOdr, accelMode, gyroMode, clockIn, intConfig1).writes);
      && (0, IntConfig) in after.values && after.values[(0, IntConfig)] == 0x1B
      && (0, IntConfig1) in after.values && after.values[(0, IntConfig1)] & 0x10 == 0
      && after.values[(0, IntConfig1)] & 0xEF == intConfig1 & 0xEF
      && (0, IntSource0) in after.values && after.values[(0, IntSource0)] == 0x08
  {
    InitWrites(before, accelScale, gyroScale, accelOdr, gyroOdr, accelMode, gyroMode, clockIn, intConfig1);
    InitValuesAt(before.values, accelScale, gyroScale, accelOdr, gyroOdr, accelMode, gyroMode, clockIn, intConfig1);
  }

  /** The external clock source is selected exactly when asked for; without
      it, `imu_init` changes no register outside bank 0. */
  lemma InitClockSelection(before: Registers, accelScale: uint8, gyroScale: uint8, accelOdr: uint8, gyroOdr: uint8,
                           accelMode: uint8, gyroMode: uint8, clockIn: bool, intConfig1: bv8)
    ensures var after := ApplyWrites(before, Init(accelScale, gyroScale, accelOdr, gyroOdr, accelMode, gyroMode, clockIn, intConfig1).writes);
      && (clockIn ==> (1, IntfConfig5) in after.values && after.values[(1, IntfConfig5)] == 0x04)
      && (!clockIn ==> forall key | key in before.values && key.0 != 0 :: key in after.values && after.values[key] == before.values[key])
      && (!clockIn ==> forall key | key in after.values && key.0 != 0 :: key in before.values)
  {
    InitWrites(before, accelScale, gyroScale, accelOdr, gyroOdr, accelMode, gyroMode, clockIn, intConfig1);
    var values := InitValues(before.values, accelScale, gyroScale, accelOdr, gyroOdr, accelMode, gyroMode, clockIn, intConfig1);
    if !clockIn {
      forall key: (bv8, bv8) | key.0 != 0
        ensures key in values <==> key in before.values
        ensures key in before.values ==> values[key] == before.values[key]
      {
      }
    }
  }

  // ---------------------------------------------------------------------------
  // Bias estimation
  // ---------------------------------------------------------------------------

  /** One bias sample: both sensors' axes as the data registers decode. */
  datatype Sample = Sample(accel: Raw3, gyro: Raw3)

  const BiasSamples: nat := 128

  /** Axis `k` of a sample: 0..2 accelerometer x, y, z; 3..5 gyroscope. */
  function Axis(s: Sample, k: nat): int16
    requires k < 6
  {
    if k == 0 then s.accel.x
    else if k == 1 then s.accel.y
    else if k == 2 then s.accel.z
    else if k == 3 then s.gyro.x
    else if k == 4 then s.gyro.y
    else s.gyro.z
  }

  /** The sum of axis `k` over the samples. */
  function AxisSum(samples: seq<Sample>, k: nat): int
    requires k < 6
    decreases |samples|
  {
    if |samples| == 0 then 0 else AxisSum(samples[..|samples| - 1], k) + Axis(samples[|samples| - 1], k)
  }

  /** A sum of `n` 16-bit values lies within `n` times the 16-bit range; for
      128 samples that is within ±2^22, far inside `int32_t`. */
  lemma {:induction false} AxisSumBound(samples: seq<Sample>, k: nat)
    requires k < 6
    ensures -0x8000 * |samples| <= AxisSum(samples, k) <= 0x7FFF * |samples|
    decreases |samples|
  {
    if |samples| > 0 {
      AxisSumBound(samples[..|samples| - 1], k);
    }
  }

  /** The gravity correction: a bias beyond ±0.8 g is taken to be gravity
      and moved one g toward zero. */
  function GravityCorrect(b: real): (r: real)
    ensures -0.8 <= b <= 0.8 ==> r == b
    ensures b > 0.8 ==> r == b - 1.0
    ensures b < -0.8 ==> r == b + 1.0
  {
    var lowered := if b > 0.8 then b - 1.0 else b;
    if lowered < -0.8 then lowered + 1.0 else lowered
  }

  /** A sum of 128 counts as a mean in physical units. */
  function Mean(sum: int, res: real): real {
    sum as real * res / 128.0
  }

  /** The mean of an axis in physical units. */
  function MeanOf(samples: seq<Sample>, k: nat, res: real): real
    requires k < 6
  {
    Mean(AxisSum(samples, k), res)
  }

  /** The six axis sums of a run of samples. */
  function Sums(samples: seq<Sample>): (r: seq<int>)
    ensures |r| == 6
    ensures forall k :: 0 <= k < 6 ==> r[k] == AxisSum(samples, k)
  {
    [AxisSum(samples, 0), AxisSum(samples, 1), AxisSum(samples, 2),
     AxisSum(samples, 3), AxisSum(samples, 4), AxisSum(samples, 5)]
  }

  /** The biases from six sums: each is the sum times the resolution over
      128; the accelerometer ones are gravity-corrected. */
  function BiasesFromSums(imu: Imu, sum: seq<int>): (r: Imu)
    requires |sum| == 6
    ensures r.accelRes == imu.accelRes && r.gyroRes == imu.gyroRes
    ensures r.accel == imu.accel && r.gyro == imu.gyro
  {
    imu.(accelBias := Vec3(GravityCorrect(Mean(sum[0], imu.accelRes)),
                           GravityCorrect(Mean(sum[1], imu.accelRes)),
                           GravityCorrect(Mean(sum[2], imu.accelRes))),
         gyroBias := Vec3(Mean(sum[3], imu.gyroRes), Mean(sum[4], imu.gyroRes), Mean(sum[5], imu.gyroRes)))
  }

  /** What `imu_calculate_bias` leaves: every bias is the mean over the
      samples in physical units, the accelerometer ones gravity-corrected,
      the gyroscope ones not; resolutions and readings are unchanged. */
  function Biases(imu: Imu, samples: seq<Sample>): (r: Imu)
    requires |samples| == BiasSamples
    ensures r.accelRes == imu.accelRes && r.gyroRes == imu.gyroRes
    ensures r.accel == imu.accel && r.gyro == imu.gyro
    ensures r.gyroBias == Vec3(MeanOf(samples, 3, imu.gyroRes), MeanOf(samples, 4, imu.gyroRes), MeanOf(samples, 5, imu.gyroRes))
    ensures r.accelBias == Vec3(GravityCorrect(MeanOf(samples, 0, imu.accelRes)),
                                GravityCorrect(MeanOf(samples, 1, imu.accelRes)),
                                GravityCorrect(MeanOf(samples, 2, imu.accelRes)))
  {
    BiasesFromSums(imu, Sums(samples))
  }

  /** Adding one more sample to a prefix sum. */
  lemma AxisSumStep(samples: seq<Sample>, i: nat, k: nat)
    requires i < |samples| && k < 6
    ensures AxisSum(samples[..i + 1], k) == AxisSum(samples[..i], k) + Axis(samples[i], k)
  {
    assert samples[..i + 1][..i] == samples[..i];
  }

  /** `imu_calculate_bias`: six `int32_t` sums over 128 samples, none of
      which leaves the 32-bit range at any step, then the averages. */
  method CalculateBias(imu: Imu, samples: seq<Sample>) returns (r: Imu)
    requires |samples| == BiasSamples
    ensures r == Biases(imu, samples)
  {
    var sum := [0, 0, 0, 0, 0, 0];
    var i := 0;
    while i < 128
      invariant 0 <= i <= 128
      invariant |sum| == 6
      invariant forall k :: 0 <= k < 6 ==> sum[k] == AxisSum(samples[..i], k)
      invariant forall k :: 0 <= k < 6 ==> -0x8000 * i <= sum[k] <= 0x7FFF * i
    {
      var s := samples[i];
      forall k | 0 <= k < 6
        ensures AxisSum(samples[..i + 1], k) == sum[k] + Axis(s, k)
        ensures -0x8000_0000 <= sum[k] + Axis(s, k) < 0x8000_0000
      {
        AxisSumStep(samples, i, k);
      }
      sum := [sum[0] + Axis(s, 0), sum[1] + Axis(s, 1), sum[2] + Axis(s, 2),
              sum[3] + Axis(s, 3), sum[4] + Axis(s, 4), sum[5] + Axis(s, 5)];
      i := i + 1;
    }
    assert samples[..128] == samples;
    assert sum == Sums(samples);
    r := BiasesFromSums(imu, sum);
  }

  lemma MulStep(n: int, a: int)
    ensures (n - 1) * a + a == n * a
  {
  }

  /** The sum of `n` copies of one sample is `n` times its value. */
  lemma {:induction false} ConstantSum(samples: seq<Sample>, s: Sample, k: nat)
    requires k < 6
    requires forall i :: 0 <= i < |samples| ==> samples[i] == s
    ensures AxisSum(samples, k) == |samples| * Axis(s, k)
    decreases |samples|
  {
    if |samples| > 0 {
      var n := |samples|;
      var prefix := samples[..n - 1];
      assert forall i :: 0 <= i < |prefix| ==> prefix[i] == s by {
        forall i | 0 <= i < |prefix|
          ensures prefix[i] == s
        {
          assert prefix[i] == samples[i];
        }
      }
      ConstantSum(prefix, s, k);
      assert AxisSum(samples, k) == AxisSum(prefix, k) + Axis(s, k);
      MulStep(n, Axis(s, k));
    }
  }

  /** The mean of 128 equal counts is that count in physical units. */
  lemma MeanOfConstant(c: int, res: real)
    ensures Mean(128 * c, res) == c as real * res
  {
    assert (128 * c) as real == 128.0 * c as real;
    calc {
      Mean(128 * c, res);
      (128.0 * c as real) * res / 128.0;
      c as real * res;
    }
  }

  /** A sum of 128 equal counts as a mean. */
  lemma MeanFromCount(sum: int, c: int, res: real)
    requires sum == 128 * c
    ensures Mean(sum, res) == c as real * res
  {
    MeanOfConstant(c, res);
  }

  /** A device at rest: the same sample 128 times. */
  function AtRest(s: Sample): (samples: seq<Sample>)
    ensures |samples| == BiasSamples
  {
    seq(BiasSamples, _ => s)
  }

  /** The mean over 128 equal samples is that sample in physical units. */
  lemma MeanAtRest(s: Sample, k: nat, res: real)
    requires k < 6
    ensures MeanOf(AtRest(s), k, res) == Axis(s, k) as real * res
  {
    ConstantSum(AtRest(s), s, k);
    MeanFromCount(AxisSum(AtRest(s), k), Axis(s, k), res);
  }

  /** The biases estimated from 128 equal samples are that sample in
      physical units, the accelerometer's gravity-corrected. */
  lemma AtRestBiases(imu: Imu, s: Sample)
    ensures Biases(imu, AtRest(s)).gyroBias
         == Vec3(s.gyro.x as real * imu.gyroRes, s.gyro.y as real * imu.gyroRes, s.gyro.z as real * imu.gyroRes)
    ensures Biases(imu, AtRest(s)).accelBias.z == GravityCorrect(s.accel.z as real * imu.accelRes)
  {
    MeanAtRest(s, 2, imu.accelRes);
    MeanAtRest(s, 3, imu.gyroRes);
    MeanAtRest(s, 4, imu.gyroRes);
    MeanAtRest(s, 5, imu.gyroRes);
  }

  /** The calibration removes exactly what it estimated: a device that holds
      still through the bias estimate and afterwards reads zero rotation on
      every gyroscope axis, and on the vertical accelerometer axis reads 0
      where the estimate saw at most 0.8 g, and the 1 g of gravity (with its
      sign) where it saw more. */
  lemma AtRestReadsGravity(imu: Imu, s: Sample)
    ensures var r := Read(Biases(imu, AtRest(s)), s.accel, s.gyro);
      && r.gyro == Zero3
      && var seen := s.accel.z as real * imu.accelRes;
      && (-0.8 <= seen <= 0.8 ==> r.accel.z == 0.0)
      && (seen > 0.8 ==> r.accel.z == 1.0)
      && (seen < -0.8 ==> r.accel.z == -1.0)
  {
    AtRestBiases(imu, s);
  }
}
