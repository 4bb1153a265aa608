/** The discrete PID controller of main/pid.c over exact reals.  The `PID`
    record carries three gains, the previous error, the running integral and
    the time of the last update (set by the caller, not by the controller). */
module PidController {

  datatype Pid = Pid(kp: real, ki: real, kd: real, prevErr: real, integral: real, lastUpdate: int)

  /** `pid_init`: takes its gains in the order kp, kd, ki and starts with no
      history. */
  function Init(kp: real, kd: real, ki: real): (c: Pid)
    ensures c.kp == kp && c.kd == kd && c.ki == ki
    ensures c.integral == 0.0 && c.prevErr == 0.0 && c.lastUpdate == 0
  {
    Pid(kp, ki, kd, 0.0, 0.0, 0)
  }

  /** `pid_update_consts`: replaces the gains and keeps the history. */
  function UpdateConsts(c: Pid, kp: real, kd: real, ki: real): (r: Pid)
    ensures r.kp == kp && r.kd == kd && r.ki == ki
    ensures r.integral == c.integral && r.prevErr == c.prevErr && r.lastUpdate == c.lastUpdate
  {
    c.(kp := kp, kd := kd, ki := ki)
  }

  /** The output of one `pid_compute` call and the controller after it. */
  datatype Step = Step(output: real, next: Pid)

  /** `pid_compute`: the error is set point minus measurement; the integral
      accumulates error times `dt` before it is used; the derivative divides
      by `dt`, which the code never checks, so `dt` must be non-zero.  There
      is no clamping and no anti-windup. */
  function Compute(c: Pid, setPoint: real, measured: real, dt: real): (r: Step)
    requires dt != 0.0
    ensures r.next.prevErr == setPoint - measured
    ensures r.next.integral - c.integral == (setPoint - measured) * dt
    ensures r.output == c.kp * r.next.prevErr + c.ki * r.next.integral + c.kd * (r.next.prevErr - c.prevErr) / dt
    ensures r.next.kp == c.kp && r.next.ki == c.ki && r.next.kd == c.kd && r.next.lastUpdate == c.lastUpdate
  {
    var error := setPoint - measured;
    var integral := c.integral + error * dt;
    var derivative := (error - c.prevErr) / dt;
    var output := (c.kp * error) + (c.ki * integral) + (c.kd * derivative);
    Step(output, c.(integral := integral, prevErr := error))
  }

  /** The three terms of the output as separate single-gain controllers:
      the output of `Compute` is their sum. */
  lemma OutputIsSumOfTerms(c: Pid, setPoint: real, measured: real, dt: real)
    requires dt != 0.0
    ensures Compute(c, setPoint, measured, dt).output
         == Compute(c.(ki := 0.0, kd := 0.0), setPoint, measured, dt).output
          + Compute(c.(kp := 0.0, kd := 0.0), setPoint, measured, dt).output
          + Compute(c.(kp := 0.0, ki := 0.0), setPoint, measured, dt).output
  {
  }

  /** Changing the gains never changes what the controller has accumulated,
      and a computation after it uses the new gains. */
  lemma UpdateThenCompute(c: Pid, kp: real, kd: real, ki: real, setPoint: real, measured: real, dt: real)
    requires dt != 0.0
    ensures Compute(UpdateConsts(c, kp, kd, ki), setPoint, measured, dt).next.integral
         == Compute(c, setPoint, measured, dt).next.integral
    ensures Compute(UpdateConsts(c, kp, kd, ki), setPoint, measured, dt).output
         == kp * (setPoint - measured) + ki * (c.integral + (setPoint - measured) * dt)
          + kd * ((setPoint - measured) - c.prevErr) / dt
  {
  }

  /** The update time is the caller's: it plays no part in the
      computation, which carries it through unchanged. */
  lemma StampIrrelevant(c: Pid, now: int, setPoint: real, measured: real, dt: real)
    requires dt != 0.0
    ensures Compute(c.(lastUpdate := now), setPoint, measured, dt).output == Compute(c, setPoint, measured, dt).output
    ensures Compute(c.(lastUpdate := now), setPoint, measured, dt).next == Compute(c, setPoint, measured, dt).next.(lastUpdate := now)
  {
  }

  /** One call of `pid_compute`: the set point, the measurement and `dt`. */
  datatype Sample = Sample(setPoint: real, measured: real, dt: real)

  predicate NonZeroSteps(samples: seq<Sample>) {
    forall i :: 0 <= i < |samples| ==> samples[i].dt != 0.0
  }

  /** Successive calls of `pid_compute`. */
  function Run(c: Pid, samples: seq<Sample>): (r: Pid)
    requires NonZeroSteps(samples)
    decreases |samples|
  {
    if |samples| == 0 then c
    else Run(Compute(c, samples[0].setPoint, samples[0].measured, samples[0].dt).next, samples[1..])
  }

  /** The sum of error times `dt` over a run. */
  function ErrorArea(samples: seq<Sample>): real
    decreases |samples|
  {
    if |samples| == 0 then 0.0
    else (samples[0].setPoint - samples[0].measured) * samples[0].dt + ErrorArea(samples[1..])
  }

  /** Over any run the integral grows by exactly the area under the error
      (no clamping, no windup limit), the previous error is the last error,
      and the gains and the update time never change. */
  lemma {:induction false} RunIntegrates(c: Pid, samples: seq<Sample>)
    requires NonZeroSteps(samples)
    ensures Run(c, samples).integral == c.integral + ErrorArea(samples)
    ensures |samples| > 0 ==> Run(c, samples).prevErr == samples[|samples| - 1].setPoint - samples[|samples| - 1].measured
    ensures Run(c, samples).kp == c.kp && Run(c, samples).ki == c.ki && Run(c, samples).kd == c.kd
    ensures Run(c, samples).lastUpdate == c.lastUpdate
    decreases |samples|
  {
    if |samples| > 0 {
      var next := Compute(c, samples[0].setPoint, samples[0].measured, samples[0].dt).next;
      assert NonZeroSteps(samples[1..]) by {
        forall i | 0 <= i < |samples[1..]|
          ensures samples[1..][i].dt != 0.0
        {
          assert samples[1..][i] == samples[i + 1];
        }
      }
      RunIntegrates(next, samples[1..]);
      if |samples| > 1 {
        assert samples[1..][|samples[1..]| - 1] == samples[|samples| - 1];
      }
    }
  }

  /** A proportional controller with kp = 1: compute(10, 4, 1) gives 6. */
  lemma ProportionalExample()
    ensures Compute(Init(1.0, 0.0, 0.0), 10.0, 4.0, 1.0).output == 6.0
  {
  }

  /** An integral controller with ki = 1: two calls at dt = 1 with error 6
      leave the integral at 12. */
  lemma IntegralExample()
    ensures Compute(Compute(Init(0.0, 0.0, 1.0), 10.0, 4.0, 1.0).next, 10.0, 4.0, 1.0).next.integral == 12.0
    ensures Compute(Compute(Init(0.0, 0.0, 1.0), 10.0, 4.0, 1.0).next, 10.0, 4.0, 1.0).output == 12.0
  {
  }
}
