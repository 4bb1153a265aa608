/** The earlier control loop of main/main.c.  It shares the start-up of
    firmware/main/main.c (`Control.Boot`) but differs in its loop: the
    controller runs on every pass with fixed gains and no activation flag,
    each sample drives twenty filter updates, `deltat` is the microsecond
    difference multiplied (not divided) by a million, the motor inputs are
    routed the other way round, and the clamp is main/motor.h's 255. */
module Legacy {
  import opened Wrappers
  import Rgb
  import Imu
  import PidController
  import Madgwick
  import Control

  const DesiredAngle: real := 65.0
  const Kp: real := 50.0
  const Kd: real := 0.0
  const Ki: real := 0.0
  /** MAX_DUTY_CYCLE of main/motor.h, the full 8-bit range. */
  const MaxDutyCycle: nat := 255
  /** The fixed number of filter updates per sample. */
  const FilterPasses: nat := 20

  /** This build's `deltat`: the microsecond difference times a million, so
      a trillion times the seconds the comment next to it promises. */
  function Scaled(now: int, last: int): (dt: real)
    ensures dt == 1000000000000.0 * Control.Seconds(now, last)
    ensures dt == 0.0 <==> now == last
  {
    (now - last) as real * 1000000.0
  }

  /** Five milliseconds between updates arrive as five thousand million
      "seconds" instead of five thousandths. */
  lemma ScaledExample()
    ensures Scaled(5000, 0) == 5000000000.0
    ensures Control.Seconds(5000, 0) == 0.005
  {
  }

  /** The filter updates of one sample, one per clock reading in `nows`:
      each reads the clock, takes `deltat` since the previous stamp, stamps
      the filter and updates it with the same sample.  None once an update
      divides by zero. */
  function Passes(m: Madgwick.MathLib, f: Madgwick.Filter, g: Madgwick.Vec, a: Madgwick.Vec, nows: seq<int>): (r: Option<Madgwick.Filter>)
    ensures |nows| == 0 ==> r == Some(f)
    ensures r.Some? && |nows| > 0 ==> r.value.lastUpdate == nows[|nows| - 1]
    ensures r.Some? ==> r.value.beta == f.beta
    decreases |nows|
  {
    if |nows| == 0 then Some(f)
    else
      match Madgwick.Update(m, f.(lastUpdate := nows[0]), g, a, Scaled(nows[0], f.lastUpdate))
      case None => None
      case Some(f1) => Passes(m, f1, g, a, nows[1..])
  }

  /** Updates over two stretches of clock readings are the updates over the
      first followed by those over the second. */
  lemma {:induction false} PassesAppend(m: Madgwick.MathLib, f: Madgwick.Filter, g: Madgwick.Vec, a: Madgwick.Vec,
                                        xs: seq<int>, ys: seq<int>)
    ensures Passes(m, f, g, a, xs + ys)
         == (match Passes(m, f, g, a, xs)
             case None => None
             case Some(f1) => Passes(m, f1, g, a, ys))
    decreases |xs|
  {
    if |xs| > 0 {
      assert (xs + ys)[0] == xs[0];
      assert (xs + ys)[1..] == xs[1..] + ys;
      var u := Madgwick.Update(m, f.(lastUpdate := xs[0]), g, a, Scaled(xs[0], f.lastUpdate));
      if u.Some? {
        PassesAppend(m, u.value, g, a, xs[1..], ys);
      }
    } else {
      assert xs + ys == ys;
    }
  }

  /** A single pass is exactly one filter update. */
  lemma PassesOne(m: Madgwick.MathLib, f: Madgwick.Filter, g: Madgwick.Vec, a: Madgwick.Vec, now: int)
    ensures Passes(m, f, g, a, [now]) == Madgwick.Update(m, f.(lastUpdate := now), g, a, Scaled(now, f.lastUpdate))
  {
    assert [now][1..] == [];
  }

  /** The readings one pass takes: the sensor axes, the twenty clock
      readings of the filter updates, and the clock for the controller and
      the LED tick. */
  datatype Inputs = Inputs(accel: Imu.Raw3, gyro: Imu.Raw3, filterNows: seq<int>, controlNow: int, ledNow: int)

  /** A fresh sample: read the sensors once and run the twenty updates. */
  function Sense(m: Madgwick.MathLib, l: Control.Loop, inp: Inputs): (r: Option<Control.Loop>)
    ensures var imu := Imu.Read(l.imu, inp.accel, inp.gyro);
      var p := Passes(m, l.filter, Control.GyroInput(imu), Control.AccelInput(imu), inp.filterNows);
      && (r.Some? <==> p.Some?)
      && (r.Some? ==> r.value == l.(imu := imu, filter := p.value))
  {
    var imu := Imu.Read(l.imu, inp.accel, inp.gyro);
    match Passes(m, l.filter, Control.GyroInput(imu), Control.AccelInput(imu), inp.filterNows)
    case None => None
    case Some(f) => Some(l.(imu := imu, filter := f))
  }

  /** The controller on every pass: stamped with `now`, computing toward 65
      degrees with its own gains, the output routed the other way round
      from the firmware build.  None where `deltat` is zero. */
  function Regulate(c: PidController.Pid, pitch: real, now: int): (r: Option<Control.Regulated>)
    ensures r.None? <==> now == c.lastUpdate
    ensures r.Some? ==>
      var dt := Scaled(now, c.lastUpdate);
      var e := DesiredAngle - pitch;
      && r.value.controller == PidController.Pid(c.kp, c.ki, c.kd, e, c.integral + e * dt, now)
      && r.value.duty == Control.Reversed(Control.Drive(PidController.Compute(c, DesiredAngle, pitch, dt).output, MaxDutyCycle))
  {
    if now == c.lastUpdate then None
    else
      var dt := Scaled(now, c.lastUpdate);
      var step := PidController.Compute(c.(lastUpdate := now), DesiredAngle, pitch, dt);
      PidController.StampIrrelevant(c, now, DesiredAngle, pitch, dt);
      Some(Control.Regulated(step.next, Control.Reversed(Control.Drive(step.output, MaxDutyCycle))))
  }

  /** A positive output drives the second input and anything else the
      first, the opposite of `Control.Drive`; both stay within 255. */
  lemma ReversedRouting(out: real)
    ensures var d := Control.Reversed(Control.Drive(out, MaxDutyCycle));
      && d.in1 <= MaxDutyCycle && d.in2 <= MaxDutyCycle
      && (d.in1 == 0 || d.in2 == 0)
      && (out > 0.0 ==> d.in1 == 0 && d.in2 == Control.Truncate(out, MaxDutyCycle))
      && (out <= 0.0 ==> d.in2 == 0 && d.in1 == Control.Truncate(-out, MaxDutyCycle))
  {
  }

  /** Full power at 300 is the whole 8-bit range, on the second input. */
  lemma RoutingExamples()
    ensures Control.Reversed(Control.Drive(300.0, MaxDutyCycle)) == Control.Duty(0, 255)
    ensures Control.Reversed(Control.Drive(-50.0, MaxDutyCycle)) == Control.Duty(50, 0)
  {
  }

  datatype Iteration = Iteration(loop: Control.Loop, duty: Control.Duty, led: Option<Rgb.RGB>)

  /** One pass of this build's `while (1)` body; the flag is consumed when
      set, so it is always clear afterwards. */
  function Step(m: Madgwick.MathLib, ready: bool, l: Control.Loop, inp: Inputs): (r: Option<Iteration>)
    requires Rgb.Valid(l.morph) && |inp.filterNows| == FilterPasses
    ensures r.None? <==> (ready && Sense(m, l, inp).None?) || inp.controlNow == l.controller.lastUpdate
    ensures r.Some? && !ready ==>
      && r.value.loop.imu == l.imu
      && r.value.loop.filter.q == l.filter.q
      && r.value.loop.filter.lastUpdate == l.filter.lastUpdate
    ensures r.Some? && ready ==>
      && r.value.loop.imu == Sense(m, l, inp).value.imu
      && r.value.loop.filter == Madgwick.GetRpy(m, Sense(m, l, inp).value.filter)
    ensures r.Some? ==>
      Regulate(l.controller, r.value.loop.filter.pitch, inp.controlNow)
        == Some(Control.Regulated(r.value.loop.controller, r.value.duty))
    ensures r.Some? ==>
      && Rgb.Valid(r.value.loop.morph)
      && Rgb.Tick(l.morph, inp.ledNow) == Rgb.TickResult(r.value.loop.morph, r.value.led)
  {
    var sensed := if ready then Sense(m, l, inp) else Some(l);
    match sensed
    case None => None
    case Some(l1) =>
      var f := Madgwick.GetRpy(m, l1.filter);
      match Regulate(l1.controller, f.pitch, inp.controlNow)
      case None => None
      case Some(reg) =>
        var tick := Rgb.Tick(l1.morph, inp.ledNow);
        Some(Iteration(Control.Loop(l1.imu, f, reg.controller, tick.morph), reg.duty, tick.led))
  }

  /** `app_main` of this build: the shared start-up with the fixed gains. */
  function Boot(m: Madgwick.MathLib, b: Control.BootInputs): (d: Control.Device)
    requires |b.samples| == Imu.BiasSamples
    ensures d.Halted? <==> b.id != Imu.DeviceId
    ensures Control.DeviceValid(d)
    ensures d.Running? ==> d.loop.controller == PidController.Init(Kp, Kd, Ki)
  {
    Control.Boot(m, Kp, Kd, Ki, b)
  }

  /** Whether the interrupt fired before a pass, and that pass's readings. */
  datatype Round = Round(interrupted: bool, inputs: Inputs)

  predicate RoundsWellFormed(rounds: seq<Round>) {
    forall i :: 0 <= i < |rounds| ==> |rounds[i].inputs.filterNows| == FilterPasses
  }

  datatype State = State(device: Control.Device, ready: bool)

  /** The interrupt (armed only once running), then a pass of whichever
      loop the device is in. */
  function Cycle(m: Madgwick.MathLib, st: State, rd: Round): (r: Option<(State, Control.Output)>)
    requires Control.DeviceValid(st.device) && |rd.inputs.filterNows| == FilterPasses
    ensures r.Some? ==> Control.DeviceValid(r.value.0.device)
    ensures st.device.Halted? ==>
      && r.Some? && r.value.0.device.Halted? && r.value.1.duty.None?
      && r.value.0.device.morph == Rgb.Tick(st.device.morph, rd.inputs.ledNow).morph
    ensures st.device.Running? && r.Some? ==>
      && r.value.0.device.Running?
      && r.value.1.duty.Some?
      && r.value.0.device.loop.controller.kp == st.device.loop.controller.kp
      && r.value.0.device.loop.controller.ki == st.device.loop.controller.ki
      && r.value.0.device.loop.controller.kd == st.device.loop.controller.kd
  {
    match st.device
    case Halted(morph) =>
      var t := Rgb.Tick(morph, rd.inputs.ledNow);
      Some((State(Control.Halted(t.morph), st.ready), Control.Output(None, t.led)))
    case Running(l) =>
      match Step(m, st.ready || rd.interrupted, l, rd.inputs)
      case None => None
      case Some(it) => Some((State(Control.Running(it.loop), false), Control.Output(Some(it.duty), it.led)))
  }

  /** A finite stretch of this build's life, as `Control.Trace`. */
  datatype Trace = Trace(state: State, outputs: seq<Control.Output>, failed: bool)

  function Run(m: Madgwick.MathLib, st: State, rounds: seq<Round>): (t: Trace)
    requires Control.DeviceValid(st.device) && RoundsWellFormed(rounds)
    ensures |t.outputs| <= |rounds|
    ensures !t.failed ==> |t.outputs| == |rounds|
    decreases |rounds|
  {
    if |rounds| == 0 then Trace(st, [], false)
    else
      assert RoundsWellFormed(rounds[1..]) by {
        forall i | 0 <= i < |rounds[1..]| ensures |rounds[1..][i].inputs.filterNows| == FilterPasses {
          assert rounds[1..][i] == rounds[i + 1];
        }
      }
      match Cycle(m, st, rounds[0])
      case None => Trace(st, [], true)
      case Some(next) =>
        var t := Run(m, next.0, rounds[1..]);
        Trace(t.state, [next.1] + t.outputs, t.failed)
  }

  lemma RestWellFormed(rounds: seq<Round>)
    requires |rounds| > 0 && RoundsWellFormed(rounds)
    ensures RoundsWellFormed(rounds[1..])
  {
    forall i | 0 <= i < |rounds[1..]| ensures |rounds[1..][i].inputs.filterNows| == FilterPasses {
      assert rounds[1..][i] == rounds[i + 1];
    }
  }

  /** The controller keeps its boot gains 50/0/0 for good, and every pass
      that completes calls `set_motor_pwm`: there is no activation flag. */
  lemma {:induction false} FixedGains(m: Madgwick.MathLib, l: Control.Loop, ready: bool, rounds: seq<Round>)
    requires Rgb.Valid(l.morph) && RoundsWellFormed(rounds)
    requires l.controller.kp == Kp && l.controller.kd == Kd && l.controller.ki == Ki
    ensures var t := Run(m, State(Control.Running(l), ready), rounds);
      && t.state.device.Running?
      && t.state.device.loop.controller.kp == Kp
      && t.state.device.loop.controller.kd == Kd
      && t.state.device.loop.controller.ki == Ki
      && forall i :: 0 <= i < |t.outputs| ==> t.outputs[i].duty.Some?
    decreases |rounds|
  {
    if |rounds| > 0 {
      RestWellFormed(rounds);
      var c := Cycle(m, State(Control.Running(l), ready), rounds[0]);
      if c.Some? {
        FixedGains(m, c.value.0.device.loop, c.value.0.ready, rounds[1..]);
      }
    }
  }

  /** A device that failed the identity check stays in the error light
      show: it never fails, never drives the motors, never sees a sample. */
  lemma {:induction false} HaltedNeverDrives(m: Madgwick.MathLib, morph: Rgb.Morph, ready: bool, rounds: seq<Round>)
    requires Rgb.Valid(morph) && RoundsWellFormed(rounds)
    ensures var t := Run(m, State(Control.Halted(morph), ready), rounds);
      && !t.failed
      && t.state.device.Halted?
      && t.state.ready == ready
      && forall i :: 0 <= i < |t.outputs| ==> t.outputs[i].duty.None?
    decreases |rounds|
  {
    if |rounds| > 0 {
      RestWellFormed(rounds);
      var next := Cycle(m, State(Control.Halted(morph), ready), rounds[0]).value;
      HaltedNeverDrives(m, next.0.device.morph, next.0.ready, rounds[1..]);
    }
  }
}
