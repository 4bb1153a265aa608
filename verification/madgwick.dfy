/** The gradient-descent orientation filter of main/madgwick.c over exact
    reals.  The orientation is a quaternion (q1, q2, q3, q4) = (w, x, y, z);
    an update blends the rate of change the gyroscope measures with one
    normalised gradient-descent step that pulls the estimated direction of
    gravity toward the measured acceleration, then renormalises.  The C code
    calls `sqrtf`, `atan2f` and `asinf`; here they are the fields of a
    `MathLib` parameter, and each lemma states the facts about them it
    needs at the arguments it needs them. */
module Madgwick {
  import opened Wrappers

  // ---------------------------------------------------------------------------
  // Quaternions
  // ---------------------------------------------------------------------------

  datatype Quat = Quat(w: real, x: real, y: real, z: real)

  datatype Vec = Vec(x: real, y: real, z: real)

  const Identity: Quat := Quat(1.0, 0.0, 0.0, 0.0)

  /** The Hamilton product. */
  function Mul(p: Quat, q: Quat): Quat {
    Quat(p.w * q.w - p.x * q.x - p.y * q.y - p.z * q.z,
         p.w * q.x + p.x * q.w + p.y * q.z - p.z * q.y,
         p.w * q.y - p.x * q.z + p.y * q.w + p.z * q.x,
         p.w * q.z + p.x * q.y - p.y * q.x + p.z * q.w)
  }

  function Add(p: Quat, q: Quat): Quat {
    Quat(p.w + q.w, p.x + q.x, p.y + q.y, p.z + q.z)
  }

  function Scale(k: real, q: Quat): Quat {
    Quat(k * q.w, k * q.x, k * q.y, k * q.z)
  }

  /** A vector as a pure quaternion. */
  function Pure(v: Vec): Quat {
    Quat(0.0, v.x, v.y, v.z)
  }

  function NormSq(q: Quat): real {
    q.w * q.w + q.x * q.x + q.y * q.y + q.z * q.z
  }

  function VecNormSq(v: Vec): real {
    v.x * v.x + v.y * v.y + v.z * v.z
  }

  /** The identity quaternion is neutral for the product. */
  lemma IdentityNeutral(q: Quat)
    ensures Mul(Identity, q) == q && Mul(q, Identity) == q
  {
  }

  /** Scaling a quaternion scales its squared norm by the square. */
  lemma ScaleNormSq(k: real, q: Quat)
    ensures NormSq(Scale(k, q)) == k * k * NormSq(q)
  {
  }

  // ---------------------------------------------------------------------------
  // The library functions
  // ---------------------------------------------------------------------------

  /** `sqrtf`, `atan2f` and `asinf` as the filter sees them. */
  datatype MathLib = MathLib(sqrt: real -> real, atan2: (real, real) -> real, asin: real -> real)

  /** The library's square root is exact at `x`: non-negative, squaring
      back to `x`, and zero only at zero. */
  predicate SqrtExactAt(m: MathLib, x: real) {
    && 0.0 <= m.sqrt(x)
    && m.sqrt(x) * m.sqrt(x) == x
    && (m.sqrt(x) == 0.0 <==> x == 0.0)
  }

  lemma SquareOne(s: real)
    requires s * s == 1.0
    ensures s == 1.0 || s == -1.0
  {
    assert (s - 1.0) * (s + 1.0) == s * s - 1.0;
  }

  /** The exact square root of 1 is 1. */
  lemma SqrtOne(m: MathLib)
    requires SqrtExactAt(m, 1.0)
    ensures m.sqrt(1.0) == 1.0
  {
    SquareOne(m.sqrt(1.0));
  }

  /** The value of pi as the C code writes it. */
  const Pi: real := 3.14159265358979

  // ---------------------------------------------------------------------------
  // The filter record
  // ---------------------------------------------------------------------------

  /** The `Madgwick` record: the orientation, the gain `beta`, the last Euler
      angles in degrees and the caller's timestamp of the last update. */
  datatype Filter = Filter(q: Quat, beta: real, roll: real, pitch: real, yaw: real, lastUpdate: int)

  /** `madgwick_init`: the identity orientation, the given gain, zero angles
      and no update yet. */
  function Init(beta: real): (f: Filter)
    ensures f.q == Identity && NormSq(f.q) == 1.0
    ensures f.beta == beta
    ensures f.roll == 0.0 && f.pitch == 0.0 && f.yaw == 0.0 && f.lastUpdate == 0
  {
    Filter(Quat(1.0, 0.0, 0.0, 0.0), beta, 0.0, 0.0, 0.0, 0)
  }

  // ---------------------------------------------------------------------------
  // The gradient step
  // ---------------------------------------------------------------------------

  /** The objective: the direction of gravity the orientation `q` predicts,
      minus the measured (normalised) acceleration `a`. */
  function Objective(q: Quat, a: Vec): Vec {
    Vec(ObjectiveX(q, a.x), ObjectiveY(q, a.y), ObjectiveZ(q, a.z))
  }

  /** `f_1`: the x component of gravity predicted by `q` is the rotation
      matrix entry `a32` that `madgwick_get_rpy` turns into the pitch. */
  function ObjectiveX(q: Quat, ax: real): (r: real)
    ensures r + ax == A32(q)
  {
    2.0 * q.x * q.z - 2.0 * q.w * q.y - ax
  }

  /** `f_2`: the predicted y component is the roll entry `a31`. */
  function ObjectiveY(q: Quat, ay: real): (r: real)
    ensures r + ay == A31(q)
  {
    2.0 * q.w * q.x + 2.0 * q.y * q.z - ay
  }

  /** `f_3`: the predicted z component, written with the unit-norm
      shortcut, is the roll entry `a33` for a unit quaternion. */
  function ObjectiveZ(q: Quat, az: real): (r: real)
    ensures NormSq(q) == 1.0 ==> r + az == A33(q)
  {
    1.0 - 2.0 * q.x * q.x - 2.0 * q.y * q.y - az
  }

  /** A 3 x 4 matrix by rows. */
  datatype Matrix = Matrix(r1: Quat, r2: Quat, r3: Quat)

  /** The partial derivatives of the objective with respect to w, x, y, z. */
  function Jacobian(q: Quat): Matrix {
    Matrix(JacobianX(q), JacobianY(q), JacobianZ(q))
  }

  function JacobianX(q: Quat): Quat { Quat(-2.0 * q.y, 2.0 * q.z, -2.0 * q.w, 2.0 * q.x) }
  function JacobianY(q: Quat): Quat { Quat(2.0 * q.x, 2.0 * q.w, 2.0 * q.z, 2.0 * q.y) }
  function JacobianZ(q: Quat): Quat { Quat(0.0, -4.0 * q.x, -4.0 * q.y, 0.0) }

  /** The transpose of `j` applied to `f`. */
  function TransposeApply(j: Matrix, f: Vec): Quat {
    Quat(j.r1.w * f.x + j.r2.w * f.y + j.r3.w * f.z,
         j.r1.x * f.x + j.r2.x * f.y + j.r3.x * f.z,
         j.r1.y * f.x + j.r2.y * f.y + j.r3.y * f.z,
         j.r1.z * f.x + j.r2.z * f.y + j.r3.z * f.z)
  }

  /** `j` applied to the quaternion `h` read as a 4-vector. */
  function Apply(j: Matrix, h: Quat): Vec {
    Vec(Dot(j.r1, h), Dot(j.r2, h), Dot(j.r3, h))
  }

  /** Two quaternions read as 4-vectors, multiplied component-wise and
      summed. */
  function Dot(r: Quat, h: Quat): real {
    r.w * h.w + r.x * h.x + r.y * h.y + r.z * h.z
  }

  /** The gradient as the C code computes it from the objective `f`
      (`f_1..f_3`): the six distinct Jacobian entries `J_11or24 .. J_33`,
      then the four sums. */
  function GradientOf(q: Quat, f: Vec): (r: Quat)
    ensures r == TransposeApply(Jacobian(q), f)
  {
    var j11or24 := 2.0 * q.y;
    var j12or23 := 2.0 * q.z;
    var j13or22 := 2.0 * q.w;
    var j14or21 := 2.0 * q.x;
    var j32 := 2.0 * j14or21;
    var j33 := 2.0 * j11or24;
    Quat(j14or21 * f.y - j11or24 * f.x,
         j12or23 * f.x + j13or22 * f.y - j32 * f.z,
         j12or23 * f.y - j33 * f.z - j13or22 * f.x,
         j14or21 * f.x + j11or24 * f.y)
  }

  /** The gradient of the objective at `q` for the normalised acceleration
      `a`. */
  function Gradient(q: Quat, a: Vec): Quat {
    GradientOf(q, Objective(q, a))
  }


  /** `Jacobian` really is the derivative of the objective: what each
      component of the objective changes by along `h`, beyond the linear
      term, is quadratic in `h` alone. */
  lemma DerivativeX(q: Quat, h: Quat, ax: real)
    ensures ObjectiveX(Add(q, h), ax) - ObjectiveX(q, ax) - Dot(JacobianX(q), h)
         == 2.0 * h.x * h.z - 2.0 * h.w * h.y
  {
  }

  lemma DerivativeY(q: Quat, h: Quat, ay: real)
    ensures ObjectiveY(Add(q, h), ay) - ObjectiveY(q, ay) - Dot(JacobianY(q), h)
         == 2.0 * h.w * h.x + 2.0 * h.y * h.z
  {
  }

  lemma DerivativeZ(q: Quat, h: Quat, az: real)
    ensures ObjectiveZ(Add(q, h), az) - ObjectiveZ(q, az) - Dot(JacobianZ(q), h)
         == -2.0 * h.x * h.x - 2.0 * h.y * h.y
  {
  }

  lemma JacobianIsDerivative(q: Quat, h: Quat, a: Vec)
    ensures var d := Apply(Jacobian(q), h);
      && Objective(Add(q, h), a).x - Objective(q, a).x - d.x == 2.0 * h.x * h.z - 2.0 * h.w * h.y
      && Objective(Add(q, h), a).y - Objective(q, a).y - d.y == 2.0 * h.w * h.x + 2.0 * h.y * h.z
      && Objective(Add(q, h), a).z - Objective(q, a).z - d.z == -2.0 * h.x * h.x - 2.0 * h.y * h.y
  {
    DerivativeX(q, h, a.x);
    DerivativeY(q, h, a.y);
    DerivativeZ(q, h, a.z);
  }

  /** The gyroscope term of the code, `q_dot_omega1..4`. */
  function GyroRate(q: Quat, g: Vec): (r: Quat)
    ensures r == Scale(0.5, Mul(q, Pure(g)))
  {
    var hw := 0.5 * q.w;
    var hx := 0.5 * q.x;
    var hy := 0.5 * q.y;
    var hz := 0.5 * q.z;
    Quat(-hx * g.x - hy * g.y - hz * g.z,
         hw * g.x + hy * g.z - hz * g.y,
         hw * g.y - hx * g.z + hz * g.x,
         hw * g.z + hx * g.y - hy * g.x)
  }


  // ---------------------------------------------------------------------------
  // The update
  // ---------------------------------------------------------------------------

  function Divide(v: Vec, n: real): Vec
    requires n != 0.0
  {
    Vec(v.x / n, v.y / n, v.z / n)
  }

  function DivideQ(q: Quat, n: real): Quat
    requires n != 0.0
  {
    Quat(q.w / n, q.x / n, q.y / n, q.z / n)
  }

  /** Dividing by the exact norm gives a unit quaternion. */
  lemma DivideByNorm(q: Quat, n: real)
    requires n != 0.0 && n * n == NormSq(q)
    ensures NormSq(DivideQ(q, n)) == 1.0
  {
    assert DivideQ(q, n) == Scale(1.0 / n, q);
    ScaleNormSq(1.0 / n, q);
    assert (1.0 / n) * (1.0 / n) * (n * n) == 1.0;
  }

  /** The orientation integrated over `dt` before renormalisation: one
      Euler step along the gyroscope rate less `beta` times the normalised
      gradient step. */
  function Integrate(q: Quat, rate: Quat, beta: real, step: Quat, dt: real): (r: Quat)
    ensures dt == 0.0 ==> r == q
  {
    Quat(q.w + (rate.w - beta * step.w) * dt,
         q.x + (rate.x - beta * step.x) * dt,
         q.y + (rate.y - beta * step.y) * dt,
         q.z + (rate.z - beta * step.z) * dt)
  }

  lemma StepComponent(rate: real, beta: real, step: real, dt: real)
    ensures (rate - beta * step) * dt == dt * (rate + -beta * step)
  {
  }

  /** The integration is one Euler step of length `dt` along the gyroscope
      rate ½·q ⊗ (0, g) (`GyroRate`) corrected by `beta` times the step. */
  lemma IntegrateIsEulerStep(q: Quat, rate: Quat, beta: real, step: Quat, dt: real)
    ensures Integrate(q, rate, beta, step, dt)
         == Add(q, Scale(dt, Add(rate, Scale(-beta, step))))
  {
    var d := Add(rate, Scale(-beta, step));
    assert d == Quat(rate.w + -beta * step.w, rate.x + -beta * step.x,
                     rate.y + -beta * step.y, rate.z + -beta * step.z);
    StepComponent(rate.w, beta, step.w, dt);
    StepComponent(rate.x, beta, step.x, dt);
    StepComponent(rate.y, beta, step.y, dt);
    StepComponent(rate.z, beta, step.z, dt);
  }

  /** The last step of an update: divide the integrated orientation by its
      norm, which the code does not check for zero. */
  function Renormalize(m: MathLib, f: Filter, q: Quat): (r: Option<Filter>)
    ensures r.Some? ==> r.value == f.(q := r.value.q)
  {
    var norm := m.sqrt(NormSq(q));
    if norm == 0.0 then None else Some(f.(q := DivideQ(q, norm)))
  }

  /** The gradient step for an already normalised acceleration `a`: the
      gradient divided by its norm, which the code does not check for zero,
      scaled by `beta` and subtracted from the gyroscope rate. */
  function Descend(m: MathLib, f: Filter, g: Vec, a: Vec, dt: real): (r: Option<Filter>)
    ensures r.Some? ==> r.value == f.(q := r.value.q)
  {
    var grad := Gradient(f.q, a);
    var gradNorm := m.sqrt(NormSq(grad));
    if gradNorm == 0.0 then None
    else Renormalize(m, f, Integrate(f.q, GyroRate(f.q, g), f.beta, DivideQ(grad, gradNorm), dt))
  }

  /** `madgwick_update` with gyroscope rates `g` (radians per second),
      acceleration `a` and step `dt` (seconds).  The code divides by three
      norms without checking them: by the acceleration's, by the gradient's
      and by the integrated quaternion's.  Where one of them is zero the C
      code divides by zero and the orientation becomes meaningless; the model
      returns `None` there.  Only the orientation changes. */
  function Update(m: MathLib, f: Filter, g: Vec, a: Vec, dt: real): (r: Option<Filter>)
    ensures r.Some? ==> r.value.beta == f.beta && r.value.lastUpdate == f.lastUpdate
    ensures r.Some? ==> r.value.roll == f.roll && r.value.pitch == f.pitch && r.value.yaw == f.yaw
  {
    var accelNorm := m.sqrt(VecNormSq(a));
    if accelNorm == 0.0 then None else Descend(m, f, g, Divide(a, accelNorm), dt)
  }

  /** The square root is exact wherever the filter takes one. */
  ghost predicate ExactSqrt(m: MathLib) {
    forall x :: 0.0 <= x ==> SqrtExactAt(m, x)
  }

  lemma NormSqNonNegative(q: Quat)
    ensures 0.0 <= NormSq(q)
  {
  }

  lemma VecNormSqNonNegative(v: Vec)
    ensures 0.0 <= VecNormSq(v)
  {
  }

  /** With an exact square root, renormalising fails exactly on the zero
      quaternion and otherwise gives a unit one. */
  lemma RenormalizeUnit(m: MathLib, f: Filter, q: Quat)
    requires SqrtExactAt(m, NormSq(q))
    ensures Renormalize(m, f, q).None? <==> NormSq(q) == 0.0
    ensures Renormalize(m, f, q).Some? ==> NormSq(Renormalize(m, f, q).value.q) == 1.0
  {
    if m.sqrt(NormSq(q)) != 0.0 {
      DivideByNorm(q, m.sqrt(NormSq(q)));
    }
  }

  /** With an exact square root, an update fails when the acceleration is
      zero, succeeds with a unit orientation otherwise unless the gradient
      or the integrated orientation is zero, whatever the orientation was
      before. */
  lemma UpdateDefinedAndUnit(m: MathLib, f: Filter, g: Vec, a: Vec, dt: real)
    requires ExactSqrt(m)
    ensures VecNormSq(a) == 0.0 ==> Update(m, f, g, a, dt).None?
    ensures Update(m, f, g, a, dt).Some? ==> NormSq(Update(m, f, g, a, dt).value.q) == 1.0
  {
    VecNormSqNonNegative(a);
    assert SqrtExactAt(m, VecNormSq(a));
    var accelNorm := m.sqrt(VecNormSq(a));
    if accelNorm != 0.0 {
      var grad := Gradient(f.q, Divide(a, accelNorm));
      var gradNorm := m.sqrt(NormSq(grad));
      if gradNorm != 0.0 {
        var q := Integrate(f.q, GyroRate(f.q, g), f.beta, DivideQ(grad, gradNorm), dt);
        NormSqNonNegative(q);
        assert SqrtExactAt(m, NormSq(q));
        RenormalizeUnit(m, f, q);
      }
    }
  }

  /** The objective vanishes when the measured acceleration is exactly the
      predicted direction of gravity; at the identity orientation that is
      (0, 0, 1). */
  lemma LevelObjectiveIsZero()
    ensures Objective(Identity, Vec(0.0, 0.0, 1.0)) == Vec(0.0, 0.0, 0.0)
  {
  }

  /** Where the objective vanishes so does the gradient. */
  lemma ZeroObjectiveZeroGradient(q: Quat)
    ensures GradientOf(q, Vec(0.0, 0.0, 0.0)) == Quat(0.0, 0.0, 0.0, 0.0)
  {
  }

  /** No guard protects the gradient normalisation: at an orientation whose
      objective is zero the gradient step divides zero by zero, whatever the
      rotation rate and step. */
  lemma ZeroGradientFails(m: MathLib, f: Filter, g: Vec, a: Vec, dt: real)
    requires Objective(f.q, a) == Vec(0.0, 0.0, 0.0)
    requires SqrtExactAt(m, 0.0)
    ensures Descend(m, f, g, a, dt).None?
  {
    ZeroObjectiveZeroGradient(f.q);
    assert NormSq(Quat(0.0, 0.0, 0.0, 0.0)) == 0.0;
  }

  /** The freshly initialised filter, measuring exactly one g straight up,
      fails its first update. */
  lemma LevelUpdateDividesByZero(m: MathLib, beta: real, g: Vec, dt: real)
    requires SqrtExactAt(m, 1.0) && SqrtExactAt(m, 0.0)
    ensures Update(m, Init(beta), g, Vec(0.0, 0.0, 1.0), dt).None?
  {
    SqrtOne(m);
    var a := Vec(0.0, 0.0, 1.0);
    assert VecNormSq(a) == 1.0;
    assert Divide(a, 1.0) == a;
    LevelObjectiveIsZero();
    ZeroGradientFails(m, Init(beta), g, a, dt);
  }

  // ---------------------------------------------------------------------------
  // Euler angles
  // ---------------------------------------------------------------------------

  lemma Square(v: real)
    ensures 0.0 <= v * v
  {
  }

  /** The rotation-matrix entries `a12`, `a22`, `a31`, `a32` (the `asinf`
      argument) and `a33`.  For a unit quaternion each lies in [-1, 1]: one
      minus it and one plus it are each a sum of squares. */
  function A12(q: Quat): (r: real)
    ensures NormSq(q) == 1.0 ==> -1.0 <= r <= 1.0
  {
    Square(q.x - q.y); Square(q.w - q.z); Square(q.x + q.y); Square(q.w + q.z);
    2.0 * (q.x * q.y + q.w * q.z)
  }

  function A22(q: Quat): (r: real)
    ensures NormSq(q) == 1.0 ==> -1.0 <= r <= 1.0
  {
    Square(q.w); Square(q.x); Square(q.y); Square(q.z);
    q.w * q.w + q.x * q.x - q.y * q.y - q.z * q.z
  }

  function A31(q: Quat): (r: real)
    ensures NormSq(q) == 1.0 ==> -1.0 <= r <= 1.0
  {
    Square(q.w - q.x); Square(q.y - q.z); Square(q.w + q.x); Square(q.y + q.z);
    2.0 * (q.w * q.x + q.y * q.z)
  }

  function A32(q: Quat): (r: real)
    ensures NormSq(q) == 1.0 ==> -1.0 <= r <= 1.0
  {
    Square(q.x - q.z); Square(q.w + q.y); Square(q.x + q.z); Square(q.w - q.y);
    2.0 * (q.x * q.z - q.w * q.y)
  }

  function A33(q: Quat): (r: real)
    ensures NormSq(q) == 1.0 ==> -1.0 <= r <= 1.0
  {
    Square(q.w); Square(q.x); Square(q.y); Square(q.z);
    q.w * q.w - q.x * q.x - q.y * q.y + q.z * q.z
  }

  /** The yaw offset (the local magnetic declination, in degrees). */
  const YawOffset: real := 13.8

  /** Radians to degrees with the code's value of pi: `Pi` radians are
      half a turn. */
  function Degrees(rad: real): (r: real)
    ensures r * Pi == rad * 180.0
  {
    rad * 180.0 / Pi
  }

  /** The entries `a31`, `a32`, `a33` form the third row of the rotation
      matrix of `q`; their squares sum to the fourth power of its norm, so
      to one for a unit quaternion: the angles are read from a direction. */
  lemma RotationRowNorm(q: Quat)
    ensures A31(q) * A31(q) + A32(q) * A32(q) + A33(q) * A33(q) == NormSq(q) * NormSq(q)
  {
    var a := q.w * q.w + q.z * q.z;
    var b := q.x * q.x + q.y * q.y;
    assert NormSq(q) == a + b;
    assert A33(q) == a - b;
    assert A31(q) * A31(q) + A32(q) * A32(q) == 4.0 * a * b;
  }

  /** The second column `a12`, `a22`, `a32` has the same norm. */
  lemma RotationColumnNorm(q: Quat)
    ensures A12(q) * A12(q) + A22(q) * A22(q) + A32(q) * A32(q) == NormSq(q) * NormSq(q)
  {
    var a := q.w * q.w + q.x * q.x;
    var b := q.y * q.y + q.z * q.z;
    assert NormSq(q) == a + b;
    assert A22(q) == a - b;
    assert A12(q) * A12(q) + A32(q) * A32(q) == 4.0 * a * b;
  }

  /** A yaw in degrees after the offset, moved into [0, 360) by one turn
      when negative. */
  function WrapYaw(deg: real): (r: real)
    ensures deg < 0.0 ==> r == deg + 360.0
    ensures deg >= 0.0 ==> r == deg
  {
    if deg < 0.0 then deg + 360.0 else deg
  }

  /** `madgwick_get_rpy`: roll from `atan2(a31, a33)`, pitch from
      `-asin(a32)`, yaw from `atan2(a12, a22)` plus the offset, wrapped once;
      all in degrees.  The orientation, gain and timestamp are untouched. */
  function GetRpy(m: MathLib, f: Filter): (r: Filter)
    ensures r.q == f.q && r.beta == f.beta && r.lastUpdate == f.lastUpdate
    ensures r.roll == Degrees(m.atan2(A31(f.q), A33(f.q)))
    ensures r.pitch == -Degrees(m.asin(A32(f.q)))
    ensures r.yaw == WrapYaw(Degrees(m.atan2(A12(f.q), A22(f.q))) + YawOffset)
  {
    f.(roll := Degrees(m.atan2(A31(f.q), A33(f.q))),
       pitch := -Degrees(m.asin(A32(f.q))),
       yaw := WrapYaw(Degrees(m.atan2(A12(f.q), A22(f.q))) + YawOffset))
  }

  /** With `atan2f` inside [-pi, pi] (to float precision), the yaw lies in
      [0, 360): the offset moves it to at most 193.8 degrees and the single
      wrap lifts anything negative to at least 193.8. */
  lemma YawInRange(m: MathLib, f: Filter)
    requires -3.1416 <= m.atan2(A12(f.q), A22(f.q)) <= 3.1416
    ensures 0.0 <= GetRpy(m, f).yaw < 360.0
  {
    var t := m.atan2(A12(f.q), A22(f.q));
    assert -180.01 < Degrees(t) < 180.01;
  }

  /** Roll and pitch are not wrapped: a level identity orientation with the
      library's own zero angles reads roll 0, pitch 0 and yaw 13.8. */
  lemma IdentityAngles(m: MathLib)
    requires m.atan2(0.0, 1.0) == 0.0 && m.asin(0.0) == 0.0
    ensures GetRpy(m, Init(0.0)).roll == 0.0
    ensures GetRpy(m, Init(0.0)).pitch == 0.0
    ensures GetRpy(m, Init(0.0)).yaw == YawOffset
  {
    var f := Init(0.0);
    assert A31(f.q) == 0.0 && A33(f.q) == 1.0;
    assert A32(f.q) == 0.0;
    assert A12(f.q) == 0.0 && A22(f.q) == 1.0;
    assert Degrees(0.0) == 0.0;
  }
}
