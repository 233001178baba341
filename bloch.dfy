/** The lab-frame Bloch equations of script.js: the derivative `blochDerivLab`,
    the fourth-order Runge-Kutta combination of `physicsStep` and the
    magnitude safety clamp applied after every step. */
module Bloch {
  import opened RealMath

  /** The magnetisation (Bloch) vector `M = {x, y, z}`. */
  datatype Vec = Vec(x: real, y: real, z: real)

  /** Equilibrium longitudinal magnetisation: pointing down. */
  const M0: real := -1.0

  /** Squared Euclidean norm. */
  function Norm2(v: Vec): real {
    v.x * v.x + v.y * v.y + v.z * v.z
  }

  function Dot(a: Vec, b: Vec): real {
    a.x * b.x + a.y * b.y + a.z * b.z
  }

  /** Relaxation times in seconds and whether each relaxation is switched on.
      The sliders only produce `10^v`, so both times are positive. */
  datatype Relaxation = Relaxation(t1: real, t1Enabled: bool, t2: real, t2Enabled: bool)
  {
    predicate Valid() {
      t1 > 0.0 && t2 > 0.0
    }
  }

  /** Longitudinal relaxation rate; a disabled relaxation contributes nothing. */
  function InvT1(r: Relaxation): (k: real)
    requires r.Valid()
    ensures k >= 0.0
    ensures k == 0.0 <==> !r.t1Enabled
  {
    if r.t1Enabled then 1.0 / r.t1 else 0.0
  }

  /** Pure transverse dephasing rate; a disabled relaxation contributes nothing. */
  function InvT2(r: Relaxation): (k: real)
    requires r.Valid()
    ensures k >= 0.0
    ensures k == 0.0 <==> !r.t2Enabled
  {
    if r.t2Enabled then 1.0 / r.t2 else 0.0
  }

  /** Effective transverse rate: half the longitudinal rate plus the dephasing rate. */
  function InvT2Eff(r: Relaxation): (k: real)
    requires r.Valid()
    ensures k >= InvT1(r) / 2.0 && k >= InvT2(r)
    ensures k == 0.0 <==> !r.t1Enabled && !r.t2Enabled
  {
    InvT1(r) / 2.0 + InvT2(r)
  }

  /** `blochDerivLab(m, B1)`: precession about z at `omega0`, nutation by the
      drive `b1` along lab y, and relaxation toward `(0, 0, M0)`. Without
      relaxation the motion is a pure rotation (the derivative is orthogonal
      to `m`, see `DerivOrthogonal`); without drive the equilibrium is a rest point, and with T1 off
      as well z does not move. */
  function Deriv(m: Vec, b1: real, omega0: real, r: Relaxation): (d: Vec)
    requires r.Valid()
    ensures b1 == 0.0 && m == Vec(0.0, 0.0, M0) ==> d == Vec(0.0, 0.0, 0.0)
    ensures b1 == 0.0 && !r.t1Enabled ==> d.z == 0.0
  {
    var invT1 := InvT1(r);
    var invT2eff := InvT2Eff(r);
    DerivCases(m, b1, omega0, invT1, invT2eff);
    Vec(omega0 * m.y - m.z * b1 - m.x * invT2eff,
        -omega0 * m.x - m.y * invT2eff,
        m.x * b1 - (m.z - M0) * invT1)
  }

  /** The right-hand side of `Deriv` for rates `invT1` and `invT2eff`:
      undriven it vanishes at the equilibrium, and it has no z part when
      `invT1` is zero too. */
  lemma DerivCases(m: Vec, b1: real, omega0: real, invT1: real, invT2eff: real)
    ensures var d := Vec(omega0 * m.y - m.z * b1 - m.x * invT2eff,
                         -omega0 * m.x - m.y * invT2eff,
                         m.x * b1 - (m.z - M0) * invT1);
      && (b1 == 0.0 && m == Vec(0.0, 0.0, M0) ==> d == Vec(0.0, 0.0, 0.0))
      && (b1 == 0.0 && invT1 == 0.0 ==> d.z == 0.0)
  {
    var d := Vec(omega0 * m.y - m.z * b1 - m.x * invT2eff,
                 -omega0 * m.x - m.y * invT2eff,
                 m.x * b1 - (m.z - M0) * invT1);
    if b1 == 0.0 && m == Vec(0.0, 0.0, M0) {
      assert d == Vec(0.0, 0.0, 0.0);
    }
    if b1 == 0.0 && invT1 == 0.0 {
      assert d.z == m.x * 0.0 - (m.z - M0) * 0.0;
    }
  }

  /** With both relaxations off, the derivative is orthogonal to the vector
      whatever the drive: the motion is a pure rotation. */
  lemma DerivOrthogonal(m: Vec, b1: real, omega0: real, r: Relaxation)
    requires r.Valid() && !r.t1Enabled && !r.t2Enabled
    ensures Dot(m, Deriv(m, b1, omega0, r)) == 0.0
  {
    var d := Deriv(m, b1, omega0, r);
    assert d == Vec(omega0 * m.y - m.z * b1, -omega0 * m.x, m.x * b1);
    calc {
      Dot(m, d);
      m.x * (omega0 * m.y - m.z * b1) + m.y * (-omega0 * m.x) + m.z * (m.x * b1);
      (m.x * omega0 * m.y - m.y * omega0 * m.x) + (m.z * m.x * b1 - m.x * m.z * b1);
      0.0;
    }
  }

  /** Classical RK4 with the drive `b1` held fixed across all four stages.
      An undriven step leaves the equilibrium exactly where it is, and with
      neither drive nor T1 relaxation it does not move z. */
  function Rk4(m: Vec, b1: real, omega0: real, r: Relaxation, dt: real): (v: Vec)
    requires r.Valid()
    ensures b1 == 0.0 && m == Vec(0.0, 0.0, M0) ==> v == m
    ensures b1 == 0.0 && !r.t1Enabled ==> v.z == m.z
  {
    var k1 := Deriv(m, b1, omega0, r);
    var m2 := Vec(m.x + 0.5 * k1.x * dt, m.y + 0.5 * k1.y * dt, m.z + 0.5 * k1.z * dt);
    var k2 := Deriv(m2, b1, omega0, r);
    var m3 := Vec(m.x + 0.5 * k2.x * dt, m.y + 0.5 * k2.y * dt, m.z + 0.5 * k2.z * dt);
    var k3 := Deriv(m3, b1, omega0, r);
    var m4 := Vec(m.x + k3.x * dt, m.y + k3.y * dt, m.z + k3.z * dt);
    var k4 := Deriv(m4, b1, omega0, r);
    Vec(m.x + (k1.x + 2.0 * k2.x + 2.0 * k3.x + k4.x) * (dt / 6.0),
        m.y + (k1.y + 2.0 * k2.y + 2.0 * k3.y + k4.y) * (dt / 6.0),
        m.z + (k1.z + 2.0 * k2.z + 2.0 * k3.z + k4.z) * (dt / 6.0))
  }

  /** The safety clamp, given the vector's magnitude `mag`: a vector longer
      than 2 is divided by its magnitude, anything else is left alone. */
  function Clamp(v: Vec, mag: real): (c: Vec)
    ensures mag <= 2.0 ==> c == v
    ensures mag > 2.0 ==> c.x * mag == v.x && c.y * mag == v.y && c.z * mag == v.z
  {
    if mag > 2.0 then Vec(v.x / mag, v.y / mag, v.z / mag) else v
  }

  /** The clamp with the magnitude taken by `Math.hypot`. When `hypot`
      returns the true magnitude, afterwards the magnitude is at most 2; a
      vector longer than 2 ends at magnitude exactly 1; a vector of
      magnitude at most 2 is not touched. */
  function Renormalize(v: Vec, math: Math): (r: Vec)
    ensures math.IsRoot(Norm2(v)) ==> Norm2(r) <= 4.0
    ensures math.IsRoot(Norm2(v)) && Norm2(v) > 4.0 ==> Norm2(r) == 1.0
    ensures math.IsRoot(Norm2(v)) && Norm2(v) <= 4.0 ==> r == v
  {
    RootClamp(v, math.sqrt(Norm2(v)));
    Clamp(v, math.sqrt(Norm2(v)))
  }

  /** `ClampBound` for any candidate magnitude `mag`: its promises hold
      whenever `mag` is the non-negative root of the squared norm. */
  lemma RootClamp(v: Vec, mag: real)
    ensures 0.0 <= mag && mag * mag == Norm2(v) ==>
      && Norm2(Clamp(v, mag)) <= 4.0
      && (Norm2(v) > 4.0 ==> Norm2(Clamp(v, mag)) == 1.0)
      && (Norm2(v) <= 4.0 ==> Clamp(v, mag) == v)
  {
    if 0.0 <= mag && mag * mag == Norm2(v) {
      ClampBound(v, mag);
    }
  }

  lemma SquarePositive(k: real)
    requires k != 0.0
    ensures k * k > 0.0
  {
  }

  lemma CancelFactor(n: real, p: real, q: real)
    requires q > 0.0 && n * q == p && p == q
    ensures n == 1.0
  {
  }

  /** Dividing every component by `k` divides the squared norm by `k * k`. */
  lemma DividedNorm2(v: Vec, k: real)
    requires k != 0.0
    ensures Norm2(Vec(v.x / k, v.y / k, v.z / k)) * (k * k) == Norm2(v)
  {
    var w := Vec(v.x / k, v.y / k, v.z / k);
    assert w.x * k == v.x && w.y * k == v.y && w.z * k == v.z;
    calc {
      Norm2(w) * (k * k);
      (w.x * k) * (w.x * k) + (w.y * k) * (w.y * k) + (w.z * k) * (w.z * k);
      Norm2(v);
    }
  }

  /** A vector longer than 2 is scaled down to length exactly 1. */
  lemma ClampLong(v: Vec, mag: real)
    requires 2.0 < mag && mag * mag == Norm2(v)
    ensures Norm2(Clamp(v, mag)) == 1.0 && Norm2(v) > 4.0
  {
    var w := Vec(v.x / mag, v.y / mag, v.z / mag);
    var sq := mag * mag;
    DividedNorm2(v, mag);
    SquarePositive(mag);
    CancelFactor(Norm2(w), Norm2(v), sq);
    assert mag * mag > 2.0 * mag > 4.0;
  }

  /** A vector of length at most 2 is left alone. */
  lemma ClampShort(v: Vec, mag: real)
    requires 0.0 <= mag <= 2.0 && mag * mag == Norm2(v)
    ensures Clamp(v, mag) == v && Norm2(v) <= 4.0
  {
    assert mag * mag <= 2.0 * mag;
  }

  lemma ClampBound(v: Vec, mag: real)
    requires 0.0 <= mag && mag * mag == Norm2(v)
    ensures Norm2(Clamp(v, mag)) <= 4.0
    ensures mag > 2.0 ==> Norm2(Clamp(v, mag)) == 1.0
    ensures Norm2(v) <= 4.0 ==> Clamp(v, mag) == v
    ensures mag > 2.0 <==> Norm2(v) > 4.0
  {
    if mag > 2.0 {
      ClampLong(v, mag);
    } else {
      ClampShort(v, mag);
    }
  }

  /** The magnetisation reset: the `equator` preset is the unit vector
      along x; any other preset is the equilibrium `(0, 0, M0)`. */
  function Preset(name: string): (v: Vec)
    ensures Norm2(v) == 1.0
    ensures name == "equator" ==> v == Vec(1.0, 0.0, 0.0)
    ensures name != "equator" ==> v == Vec(0.0, 0.0, M0)
  {
    if name == "equator" then Vec(1.0, 0.0, 0.0) else Vec(0.0, 0.0, -1.0)
  }
}
