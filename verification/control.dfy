/** The control loop of firmware/main/main.c: the start-up identity gate,
    the data-ready interrupt, one iteration of the main loop (filter update
    on a fresh sample, Euler angles, the optional PID step and the mapping
    of its output to the two motor inputs, the LED tick), and the
    environment (interrupt and BLE writes) acting between iterations.

    Clock readings, sensor readings and bus reads are parameters; the
    library functions `sqrtf`, `atan2f` and `asinf` come in a
    `Madgwick.MathLib`. */
module Control {
  import opened Wrappers
  import Ble
  import Rgb
  import Imu
  import PidController
  import Madgwick

  const DesiredAngle: real := -60.0
  const DefaultKp: real := 3500.0
  const DefaultKd: real := 63.0
  const DefaultKi: real := 10.0
  /** The firmware's own MAX_DUTY_CYCLE. */
  const MaxDutyCycle: nat := 200
  /** COLOR_SEQUENCE_SIZE and the step both sequences are set with. */
  const SequenceSize: nat := 3
  const SequenceStepUs: int := 2000
  const MicrosPerSecond: real := 1000000.0

  /** GYRO_MEASURE_ERROR: an estimated 40 degrees per second, in radians. */
  const GyroMeasureError: real := Madgwick.Pi * (40.0 / 180.0)

  /** BETA(GYRO_MEASURE_ERROR): sqrt(3/4) times the gyroscope error, the
      filter gain for an error of 40 degrees per second on each axis.  With
      an exact square root it is non-negative and its square is three
      quarters of the squared error. */
  function Beta(m: Madgwick.MathLib): (r: real)
    ensures Madgwick.SqrtExactAt(m, 3.0 / 4.0) ==>
      0.0 <= r && r * r == 3.0 / 4.0 * GyroMeasureError * GyroMeasureError
  {
    var s := m.sqrt(3.0 / 4.0);
    assert s * GyroMeasureError * (s * GyroMeasureError) == s * s * (GyroMeasureError * GyroMeasureError);
    s * GyroMeasureError
  }

  const ControlSequence: seq<Rgb.RGB> := [Rgb.HotPink, Rgb.SoraBlue, Rgb.KuromiPurple]
  const ErrorSequence: seq<Rgb.RGB> := [Rgb.PlainRed, Rgb.SosoBlack, Rgb.PlainRed]

  // ---------------------------------------------------------------------------
  // The shared globals and what changes them between iterations
  // ---------------------------------------------------------------------------

  /** The volatile globals: the flag the interrupt handler sets and the
      tuning the BLE task writes. */
  datatype Shared = Shared(dataReady: bool, tuning: Ble.Tuning)

  /** The globals at boot: no sample pending, the default gains, control
      off. */
  const InitialShared: Shared := Shared(false, Ble.Tuning(DefaultKp, DefaultKd, DefaultKi, false))

  /** `imu_isr_handler`: raises the flag; the tuning is untouched. */
  function Isr(s: Shared): (r: Shared)
    ensures r.dataReady && r.tuning == s.tuning
  {
    s.(dataReady := true)
  }

  /** What can happen between two iterations: the data-ready interrupt, or
      a client write of a characteristic with a full receive window. */
  datatype Event = Interrupt | BleWrite(uuid: bv16, data: seq<char>)

  predicate WellFormed(e: Event) {
    e.BleWrite? ==> Ble.WindowSize <= |e.data|
  }

  /** One event delivered to the globals.  The interrupt is installed only
      once the identity check has passed, so before that (`armed` false) it
      changes nothing.  A write to an unknown characteristic changes nothing
      either. */
  function Deliver(s: Shared, armed: bool, e: Event): (r: Shared)
    requires WellFormed(e)
    ensures e.Interrupt? && armed ==> r == Isr(s)
    ensures e.Interrupt? && !armed ==> r == s
    ensures e.BleWrite? ==> r.dataReady == s.dataReady
    ensures e.BleWrite? ==> r.tuning.kd == s.tuning.kd && r.tuning.ki == s.tuning.ki
  {
    match e
    case Interrupt => if armed then Isr(s) else s
    case BleWrite(uuid, data) =>
      match Ble.WriteCharacteristic(s.tuning, uuid, data)
      case Some(t) => s.(tuning := t)
      case None => s
  }

  predicate AllWellFormed(events: seq<Event>) {
    forall i :: 0 <= i < |events| ==> WellFormed(events[i])
  }

  function DeliverAll(s: Shared, armed: bool, events: seq<Event>): (r: Shared)
    requires AllWellFormed(events)
    decreases |events|
  {
    if |events| == 0 then s
    else DeliverAll(Deliver(s, armed, events[0]), armed, events[1..])
  }

  /** Events never touch the derivative and integral gains; interrupts
      alone never touch the tuning, and a pending sample stays pending. */
  lemma {:induction false} DeliverAllFrame(s: Shared, armed: bool, events: seq<Event>)
    requires AllWellFormed(events)
    ensures DeliverAll(s, armed, events).tuning.kd == s.tuning.kd
    ensures DeliverAll(s, armed, events).tuning.ki == s.tuning.ki
    ensures (forall i :: 0 <= i < |events| ==> events[i].Interrupt?) ==> DeliverAll(s, armed, events).tuning == s.tuning
    ensures s.dataReady ==> DeliverAll(s, armed, events).dataReady
    ensures !armed ==> DeliverAll(s, armed, events).dataReady == s.dataReady
    decreases |events|
  {
    if |events| > 0 {
      var rest := events[1..];
      assert AllWellFormed(rest) by {
        forall i | 0 <= i < |rest| ensures WellFormed(rest[i]) {
          assert rest[i] == events[i + 1];
        }
      }
      DeliverAllFrame(Deliver(s, armed, events[0]), armed, rest);
      if forall i :: 0 <= i < |events| ==> events[i].Interrupt? {
        forall i | 0 <= i < |rest| ensures rest[i].Interrupt? {
          assert rest[i] == events[i + 1];
        }
      }
    }
  }

  // ---------------------------------------------------------------------------
  // The duty mapping
  // ---------------------------------------------------------------------------

  /** `(uint8_t)(v > max ? max : v)` for a non-negative `v`: the bound, or
      `v` truncated toward zero. */
  function Truncate(v: real, max: nat): (r: nat)
    requires v >= 0.0
    ensures r <= max && r as real <= v
    ensures v < max as real ==> v < r as real + 1.0
    ensures v >= max as real ==> r == max
  {
    if v > max as real then max else v.Floor
  }

  /** The truncated value is the largest whole number within both the bound
      and `v`. */
  lemma TruncateIsLargest(v: real, max: nat, n: nat)
    requires v >= 0.0
    ensures n <= max && n as real <= v <==> n <= Truncate(v, max)
  {
  }

  /** The arguments of `set_motor_pwm`. */
  datatype Duty = Duty(in1: nat, in2: nat)

  const Stop: Duty := Duty(0, 0)

  function Abs(v: real): real {
    if v < 0.0 then -v else v
  }

  /** The firmware's mapping of the controller output: a positive output
      drives the first input, anything else the second, each clamped to
      `max` and truncated. */
  function Drive(out: real, max: nat): (d: Duty)
    ensures d.in1 == 0 || d.in2 == 0
    ensures d.in1 <= max && d.in2 <= max
    ensures d.in1 + d.in2 == Truncate(Abs(out), max)
    ensures d.in1 > 0 ==> out >= 1.0
    ensures d.in2 > 0 ==> out <= -1.0
  {
    if out > 0.0 then Duty(Truncate(out, max), 0) else Duty(0, Truncate(-out, max))
  }

  /** The two motor inputs exchanged. */
  function Reversed(d: Duty): (r: Duty)
    ensures r.in1 == d.in2 && r.in2 == d.in1
  {
    Duty(d.in2, d.in1)
  }

  /** The output decides which input is driven: the driven input is the
      first exactly when the output is at least one, the second exactly when
      it is at most minus one, and an output strictly between stops both. */
  lemma DriveDirection(out: real, max: nat)
    requires max > 0
    ensures Drive(out, max).in1 > 0 <==> out >= 1.0
    ensures Drive(out, max).in2 > 0 <==> out <= -1.0
    ensures -1.0 < out < 1.0 <==> Drive(out, max) == Stop
  {
    TruncateIsLargest(Abs(out), max, 1);
  }

  /** Full power at 300, half a unit of truncation at -50. */
  lemma DriveExamples()
    ensures Drive(300.0, MaxDutyCycle) == Duty(200, 0)
    ensures Drive(-50.0, MaxDutyCycle) == Duty(0, 50)
    ensures Drive(-50.7, MaxDutyCycle) == Duty(0, 50)
    ensures Drive(0.0, MaxDutyCycle) == Stop
  {
    assert (-(-50.7)).Floor == 50;
  }

  // ---------------------------------------------------------------------------
  // Sensor inputs of the filter
  // ---------------------------------------------------------------------------

  /** Degrees to radians as the loop computes them, `x*PI/180`; the
      filter's angles come back in the degrees the sensor reports. */
  function Radians(deg: real): (r: real)
    ensures Madgwick.Degrees(r) == deg
  {
    deg * Madgwick.Pi / 180.0
  }

  /** The mounting of the sensor on the board: x and y exchanged, z
      negated.  It keeps lengths. */
  function Mount(x: real, y: real, z: real): (r: Madgwick.Vec)
    ensures Madgwick.VecNormSq(r) == x * x + y * y + z * z
  {
    Madgwick.Vec(y, x, -z)
  }

  /** The mounting is a rotation (half a turn about the x = y diagonal): it
      undoes itself. */
  lemma MountIsHalfTurn(x: real, y: real, z: real)
    ensures var v := Mount(x, y, z); Mount(v.x, v.y, v.z) == Madgwick.Vec(x, y, z)
  {
  }

  /** The gyroscope rates the filter receives, in radians per second. */
  function GyroInput(imu: Imu.Imu): (g: Madgwick.Vec)
    ensures g == Mount(Radians(imu.gyro.x), Radians(imu.gyro.y), Radians(imu.gyro.z))
  {
    Madgwick.Vec(Radians(imu.gyro.y), Radians(imu.gyro.x), -Radians(imu.gyro.z))
  }

  /** The accelerations the filter receives, in g. */
  function AccelInput(imu: Imu.Imu): (a: Madgwick.Vec)
    ensures a == Mount(imu.accel.x, imu.accel.y, imu.accel.z)
  {
    Madgwick.Vec(imu.accel.y, imu.accel.x, -imu.accel.z)
  }

  /** The loop's `deltat`: the microseconds since `last`, in seconds. */
  function Seconds(now: int, last: int): (dt: real)
    ensures dt * MicrosPerSecond == (now - last) as real
    ensures dt == 0.0 <==> now == last
  {
    (now - last) as real / MicrosPerSecond
  }

  // ---------------------------------------------------------------------------
  // One iteration
  // ---------------------------------------------------------------------------

  /** The state the loop carries between iterations. */
  datatype Loop = Loop(imu: Imu.Imu, filter: Madgwick.Filter, controller: PidController.Pid, morph: Rgb.Morph)

  /** The readings one iteration takes: the sensor axes an `imu_read` now
      would decode, and the clock for the filter, the controller and the
      LED tick. */
  datatype Inputs = Inputs(accel: Imu.Raw3, gyro: Imu.Raw3, filterNow: int, controlNow: int, ledNow: int)

  /** A fresh sample: read both sensors, take `deltat` since the filter's
      last update, stamp the filter with `now` and run one update.  None
      where the update divides by zero. */
  function Sense(m: Madgwick.MathLib, l: Loop, accel: Imu.Raw3, gyro: Imu.Raw3, now: int): (r: Option<Loop>)
    ensures var imu := Imu.Read(l.imu, accel, gyro);
      var u := Madgwick.Update(m, l.filter.(lastUpdate := now), GyroInput(imu), AccelInput(imu), Seconds(now, l.filter.lastUpdate));
      && (r.Some? <==> u.Some?)
      && (r.Some? ==> r.value == l.(imu := imu, filter := u.value))
    ensures r.Some? ==> r.value.filter.lastUpdate == now && r.value.filter.beta == l.filter.beta
  {
    var imu := Imu.Read(l.imu, accel, gyro);
    var dt := Seconds(now, l.filter.lastUpdate);
    match Madgwick.Update(m, l.filter.(lastUpdate := now), GyroInput(imu), AccelInput(imu), dt)
    case None => None
    case Some(f) => Some(l.(imu := imu, filter := f))
  }

  /** What the controller half of an iteration leaves. */
  datatype Regulated = Regulated(controller: PidController.Pid, duty: Duty)

  /** The controller half of an iteration.  Inactive: the controller is
      left alone and both inputs are stopped.  Active: the shared gains are
      copied in, `deltat` runs from the controller's previous stamp, the
      controller is stamped with `now` and computes toward -60 degrees from
      the pitch, and its output is mapped to the inputs.  None where `deltat`
      is zero, since the derivative term then divides by zero. */
  function Regulate(t: Ble.Tuning, c: PidController.Pid, pitch: real, now: int): (r: Option<Regulated>)
    ensures !t.controlActive ==> r == Some(Regulated(c, Stop))
    ensures t.controlActive ==> (r.None? <==> now == c.lastUpdate)
    ensures t.controlActive && r.Some? ==>
      var dt := Seconds(now, c.lastUpdate);
      var e := DesiredAngle - pitch;
      && r.value.controller == PidController.Pid(t.kp, t.ki, t.kd, e, c.integral + e * dt, now)
      && r.value.duty == Drive(PidController.Compute(PidController.UpdateConsts(c, t.kp, t.kd, t.ki), DesiredAngle, pitch, dt).output, MaxDutyCycle)
  {
    if !t.controlActive then Some(Regulated(c, Stop))
    else if now == c.lastUpdate then None
    else
      var dt := Seconds(now, c.lastUpdate);
      var c' := PidController.UpdateConsts(c, t.kp, t.kd, t.ki).(lastUpdate := now);
      var step := PidController.Compute(c', DesiredAngle, pitch, dt);
      PidController.StampIrrelevant(PidController.UpdateConsts(c, t.kp, t.kd, t.ki), now, DesiredAngle, pitch, dt);
      Some(Regulated(step.next, Drive(step.output, MaxDutyCycle)))
  }

  /** What one iteration leaves: the globals, the loop state, the arguments
      of `set_motor_pwm` and the colour `morph_tick` shows, if any. */
  datatype Iteration = Iteration(shared: Shared, loop: Loop, duty: Duty, led: Option<Rgb.RGB>)

  /** One pass of the `while (1)` body.  The flag is consumed and the filter
      updated once only when a sample is pending; the angles are recomputed
      from the orientation every pass; the controller runs only when control
      is active, and the motors are stopped otherwise; the LED ticks last. */
  function Step(m: Madgwick.MathLib, s: Shared, l: Loop, inp: Inputs): (r: Option<Iteration>)
    requires Rgb.Valid(l.morph)
    ensures r.None? <==>
      || (s.dataReady && Sense(m, l, inp.accel, inp.gyro, inp.filterNow).None?)
      || (s.tuning.controlActive && inp.controlNow == l.controller.lastUpdate)
    ensures r.Some? ==> r.value.shared == s.(dataReady := false)
    ensures r.Some? && !s.dataReady ==>
      && r.value.loop.imu == l.imu
      && r.value.loop.filter.q == l.filter.q
      && r.value.loop.filter.lastUpdate == l.filter.lastUpdate
    ensures r.Some? && s.dataReady ==>
      var sensed := Sense(m, l, inp.accel, inp.gyro, inp.filterNow).value;
      && r.value.loop.imu == sensed.imu
      && r.value.loop.filter == Madgwick.GetRpy(m, sensed.filter)
    ensures r.Some? ==> r.value.loop.filter == Madgwick.GetRpy(m, r.value.loop.filter)
    ensures r.Some? ==> r.value.loop.filter.beta == l.filter.beta
    ensures r.Some? ==>
      Regulate(s.tuning, l.controller, r.value.loop.filter.pitch, inp.controlNow)
        == Some(Regulated(r.value.loop.controller, r.value.duty))
    ensures r.Some? && !s.tuning.controlActive ==> r.value.duty == Stop && r.value.loop.controller == l.controller
    ensures r.Some? ==>
      && Rgb.Valid(r.value.loop.morph)
      && Rgb.Tick(l.morph, inp.ledNow) == Rgb.TickResult(r.value.loop.morph, r.value.led)
  {
    var sensed := if s.dataReady then Sense(m, l, inp.accel, inp.gyro, inp.filterNow) else Some(l);
    match sensed
    case None => None
    case Some(l1) =>
      var f := Madgwick.GetRpy(m, l1.filter);
      match Regulate(s.tuning, l1.controller, f.pitch, inp.controlNow)
      case None => None
      case Some(reg) =>
        var tick := Rgb.Tick(l1.morph, inp.ledNow);
        Some(Iteration(s.(dataReady := false), Loop(l1.imu, f, reg.controller, tick.morph), reg.duty, tick.led))
  }

  // ---------------------------------------------------------------------------
  // Start-up and the device as a whole
  // ---------------------------------------------------------------------------

  /** Either stuck in the error light show or running the control loop. */
  datatype Device = Halted(morph: Rgb.Morph) | Running(loop: Loop)

  function Lights(d: Device): Rgb.Morph {
    if d.Halted? then d.morph else d.loop.morph
  }

  predicate DeviceValid(d: Device) {
    Rgb.Valid(Lights(d))
  }

  /** `Morph morph = { 0 }`. */
  const ZeroMorph: Rgb.Morph := Rgb.Morph(Rgb.RGB(0), Rgb.RGB(0), 0, 0, [], 0, 0)

  /** `morph_set_sequence` on the zeroed morph with one of the three-colour
      sequences and the 2000 us step. */
  function Sequence(colors: seq<Rgb.RGB>, now: int): (m: Rgb.Morph)
    requires |colors| == SequenceSize
    ensures Rgb.Valid(m)
    ensures m.colors == colors && m.size == SequenceSize && m.index == 0
    ensures m.current == colors[0] && m.target == colors[0]
    ensures m.step == SequenceStepUs && m.lastTick == now
  {
    Rgb.SetSequence(Some(ZeroMorph), Some(colors), SequenceSize, SequenceStepUs, now).morph.value
  }

  /** The bus reads and clock reading start-up depends on: the identity
      register, INT_CONFIG1 as `imu_init` reads it, the 128 bias samples
      and the clock when the light sequence is set. */
  datatype BootInputs = BootInputs(id: bv8, intConfig1: bv8, samples: seq<Imu.Sample>, now: int)

  /** The sensor configuration of `imu_init`: 2 g, 500 dps, 200 Hz for both,
      low-noise modes, internal clock. */
  function ConfiguredImu(intConfig1: bv8): (r: Imu.InitResult)
    ensures r.imu.accelRes * 32768.0 == 2.0 && r.imu.gyroRes * 32768.0 == 500.0
    ensures r.imu.accelBias == Imu.Zero3 && r.imu.gyroBias == Imu.Zero3
  {
    Imu.Init(Imu.Afs2G, Imu.Gfs500Dps, Imu.Odr200Hz, Imu.Odr200Hz,
             Imu.AccelModeLowNoise, Imu.GyroModeLowNoise, false, intConfig1)
  }

  /** `app_main` up to its loop.  The controller takes the gains given (the
      globals at that moment); a sensor that does not answer with the
      expected identity leaves the device in the error light show, without
      configuring the sensor, arming the interrupt or touching the motors. */
  function Boot(m: Madgwick.MathLib, kp: real, kd: real, ki: real, b: BootInputs): (d: Device)
    requires |b.samples| == Imu.BiasSamples
    ensures d.Halted? <==> b.id != Imu.DeviceId
    ensures DeviceValid(d)
    ensures d.Halted? ==> d.morph == Sequence(ErrorSequence, b.now)
    ensures d.Running? ==>
      && d.loop.morph == Sequence(ControlSequence, b.now)
      && d.loop.imu == Imu.Biases(ConfiguredImu(b.intConfig1).imu, b.samples)
      && d.loop.filter == Madgwick.Init(Beta(m))
      && d.loop.controller == PidController.Init(kp, kd, ki)
  {
    if b.id != Imu.DeviceId then Halted(Sequence(ErrorSequence, b.now))
    else
      Running(Loop(Imu.Biases(ConfiguredImu(b.intConfig1).imu, b.samples),
                   Madgwick.Init(Beta(m)),
                   PidController.Init(kp, kd, ki),
                   Sequence(ControlSequence, b.now)))
  }

  /** A running device starts from the 2 g and 500 dps resolutions, a unit
      orientation at rest and a controller with no history stamped at time
      zero. */
  lemma BootState(m: Madgwick.MathLib, kp: real, kd: real, ki: real, b: BootInputs)
    requires |b.samples| == Imu.BiasSamples && b.id == Imu.DeviceId
    ensures var d := Boot(m, kp, kd, ki, b);
      && d.loop.imu.accelRes * 32768.0 == 2.0
      && d.loop.imu.gyroRes * 32768.0 == 500.0
      && Madgwick.NormSq(d.loop.filter.q) == 1.0
      && d.loop.controller.integral == 0.0 && d.loop.controller.lastUpdate == 0
  {
  }

  /** What happens between two iterations and the readings of the next. */
  datatype Round = Round(events: seq<Event>, inputs: Inputs)

  predicate RoundsWellFormed(rounds: seq<Round>) {
    forall i :: 0 <= i < |rounds| ==> AllWellFormed(rounds[i].events)
  }

  datatype State = State(device: Device, shared: Shared)

  /** What an iteration shows the outside: the motor inputs if
      `set_motor_pwm` was called, and the LED colour if one was sent. */
  datatype Output = Output(duty: Option<Duty>, led: Option<Rgb.RGB>)

  /** The events of a round delivered, then one iteration of whichever loop
      the device is in.  The error loop only ticks the LED. */
  function Cycle(m: Madgwick.MathLib, st: State, rd: Round): (r: Option<(State, Output)>)
    requires DeviceValid(st.device) && AllWellFormed(rd.events)
    ensures r.Some? ==> DeviceValid(r.value.0.device)
    ensures st.device.Halted? ==>
      && r.Some? && r.value.0.device.Halted? && r.value.1.duty.None?
      && r.value.0.device.morph == Rgb.Tick(st.device.morph, rd.inputs.ledNow).morph
      && r.value.0.shared.dataReady == st.shared.dataReady
  {
    var s := DeliverAll(st.shared, st.device.Running?, rd.events);
    match st.device
    case Halted(morph) =>
      DeliverAllFrame(st.shared, false, rd.events);
      var t := Rgb.Tick(morph, rd.inputs.ledNow);
      Some((State(Halted(t.morph), s), Output(None, t.led)))
    case Running(l) =>
      match Step(m, s, l, rd.inputs)
      case None => None
      case Some(it) => Some((State(Running(it.loop), it.shared), Output(Some(it.duty), it.led)))
  }

  /** A finite stretch of the device's life: the final state, the outputs
      of every completed iteration, and whether an iteration divided by
      zero (after which nothing is modelled). */
  datatype Trace = Trace(state: State, outputs: seq<Output>, failed: bool)

  function Run(m: Madgwick.MathLib, st: State, rounds: seq<Round>): (t: Trace)
    requires DeviceValid(st.device) && RoundsWellFormed(rounds)
    ensures |t.outputs| <= |rounds|
    ensures !t.failed ==> |t.outputs| == |rounds|
    decreases |rounds|
  {
    if |rounds| == 0 then Trace(st, [], false)
    else
      assert RoundsWellFormed(rounds[1..]) by {
        forall i | 0 <= i < |rounds[1..]| ensures AllWellFormed(rounds[1..][i].events) {
          assert rounds[1..][i] == rounds[i + 1];
        }
      }
      match Cycle(m, st, rounds[0])
      case None => Trace(st, [], true)
      case Some(next) =>
        var t := Run(m, next.0, rounds[1..]);
        Trace(t.state, [next.1] + t.outputs, t.failed)
  }

  /** The LED clock readings of a stretch of rounds. */
  function LedNows(rounds: seq<Round>): (nows: seq<int>)
    ensures |nows| == |rounds|
    ensures forall i :: 0 <= i < |rounds| ==> nows[i] == rounds[i].inputs.ledNow
  {
    seq(|rounds|, i requires 0 <= i < |rounds| => rounds[i].inputs.ledNow)
  }

  /** A device that failed the identity check stays in the error loop: it
      never fails, never calls `set_motor_pwm`, never sees a sample and does
      nothing but run the error light show. */
  lemma {:induction false} HaltedNeverDrives(m: Madgwick.MathLib, morph: Rgb.Morph, s: Shared, rounds: seq<Round>)
    requires Rgb.Valid(morph) && RoundsWellFormed(rounds)
    ensures var t := Run(m, State(Halted(morph), s), rounds);
      && !t.failed
      && t.state.device.Halted?
      && t.state.device.morph == Rgb.Run(morph, LedNows(rounds))
      && t.state.shared.dataReady == s.dataReady
      && forall i :: 0 <= i < |t.outputs| ==> t.outputs[i].duty.None?
    decreases |rounds|
  {
    if |rounds| > 0 {
      var next := Cycle(m, State(Halted(morph), s), rounds[0]).value;
      assert RoundsWellFormed(rounds[1..]) by {
        forall i | 0 <= i < |rounds[1..]| ensures AllWellFormed(rounds[1..][i].events) {
          assert rounds[1..][i] == rounds[i + 1];
        }
      }
      HaltedNeverDrives(m, next.0.device.morph, next.0.shared, rounds[1..]);
      assert LedNows(rounds)[1..] == LedNows(rounds[1..]);
    }
  }

  /** Rounds in which no client writes anything. */
  predicate InterruptsOnly(rounds: seq<Round>) {
    forall i, j :: 0 <= i < |rounds| && 0 <= j < |rounds[i].events| ==> rounds[i].events[j].Interrupt?
  }

  /** While control stays off, every iteration stops both motors and the
      controller, its timestamp included, is left exactly as it was; so the
      first active iteration's `deltat` reaches back to the last active one
      (or to boot). */
  lemma {:induction false} InactiveNeverDrives(m: Madgwick.MathLib, l: Loop, s: Shared, rounds: seq<Round>)
    requires Rgb.Valid(l.morph) && RoundsWellFormed(rounds) && InterruptsOnly(rounds)
    requires !s.tuning.controlActive
    ensures var t := Run(m, State(Running(l), s), rounds);
      && t.state.device.Running?
      && t.state.device.loop.controller == l.controller
      && t.state.shared.tuning == s.tuning
      && forall i :: 0 <= i < |t.outputs| ==> t.outputs[i].duty == Some(Stop)
    decreases |rounds|
  {
    if |rounds| > 0 {
      var rest := rounds[1..];
      assert RoundsWellFormed(rest) by {
        forall i | 0 <= i < |rest| ensures AllWellFormed(rest[i].events) {
          assert rest[i] == rounds[i + 1];
        }
      }
      assert InterruptsOnly(rest) by {
        forall i, j | 0 <= i < |rest| && 0 <= j < |rest[i].events| ensures rest[i].events[j].Interrupt? {
          assert rest[i] == rounds[i + 1];
        }
      }
      DeliverAllFrame(s, true, rounds[0].events);
      var c := Cycle(m, State(Running(l), s), rounds[0]);
      if c.Some? {
        InactiveNeverDrives(m, c.value.0.device.loop, c.value.0.shared, rest);
      }
    }
  }

  /** The device as it comes out of reset: the controller takes the default
      gains from the globals, control starts off, and until a client turns
      it on the motors are only ever stopped, whatever the sensor reads. */
  lemma BootIdleNeverDrives(m: Madgwick.MathLib, b: BootInputs, rounds: seq<Round>)
    requires |b.samples| == Imu.BiasSamples && b.id == Imu.DeviceId
    requires RoundsWellFormed(rounds) && InterruptsOnly(rounds)
    ensures var g := InitialShared.tuning;
      var d := Boot(m, g.kp, g.kd, g.ki, b);
      && d.loop.controller == PidController.Init(3500.0, 63.0, 10.0)
      && var t := Run(m, State(d, InitialShared), rounds);
      && t.state.device.Running?
      && forall i :: 0 <= i < |t.outputs| ==> t.outputs[i].duty == Some(Stop)
  {
    var g := InitialShared.tuning;
    var d := Boot(m, g.kp, g.kd, g.ki, b);
    InactiveNeverDrives(m, d.loop, InitialShared, rounds);
  }
}
