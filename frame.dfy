/** The rotating-frame display coordinates of `updateRotatingFrame` and the
    φ meter of `draw`, which keeps the last reliable angle near the pole. */
module Frame {
  import opened RealMath
  import opened Bloch

  /** Turn the transverse part of `v` by the angle whose cosine is `c` and
      sine is `s`; z is untouched. */
  function Rotate(v: Vec, c: real, s: real): Vec {
    Vec(v.x * c - v.y * s, v.x * s + v.y * c, v.z)
  }

  /** The opposite turn. */
  function Unrotate(v: Vec, c: real, s: real): Vec {
    Vec(v.x * c + v.y * s, -v.x * s + v.y * c, v.z)
  }

  function Transverse2(v: Vec): real {
    v.x * v.x + v.y * v.y
  }

  /** On the unit circle the two turns undo each other. */
  lemma RotateRoundTrip(v: Vec, c: real, s: real)
    requires c * c + s * s == 1.0
    ensures Unrotate(Rotate(v, c, s), c, s) == v
    ensures Rotate(Unrotate(v, c, s), c, s) == v
  {
    var r := Rotate(v, c, s);
    calc {
      r.x * c + r.y * s;
      v.x * (c * c + s * s) + v.y * (s * c - c * s);
      v.x;
    }
    calc {
      -r.x * s + r.y * c;
      v.x * (c * s - s * c) + v.y * (s * s + c * c);
      v.y;
    }
    var u := Unrotate(v, c, s);
    calc {
      u.x * c - u.y * s;
      v.x * (c * c + s * s) + v.y * (s * c - c * s);
      v.x;
    }
    calc {
      u.x * s + u.y * c;
      v.x * (c * s - s * c) + v.y * (s * s + c * c);
      v.y;
    }
  }

  /** A turn keeps the transverse magnitude and z. */
  lemma RotateKeepsTransverse(v: Vec, c: real, s: real)
    requires c * c + s * s == 1.0
    ensures Transverse2(Rotate(v, c, s)) == Transverse2(v)
    ensures Rotate(v, c, s).z == v.z
  {
    var r := Rotate(v, c, s);
    calc {
      r.x * r.x + r.y * r.y;
      v.x * v.x * (c * c + s * s) + v.y * v.y * (s * s + c * c);
      Transverse2(v);
    }
  }

  /** `Mx_rot, My_rot, Mz_rot, rho_rot, phi_rot`. */
  datatype Display = Display(x: real, y: real, z: real, rho: real, phi: real)

  /** The frame angle `2π (toneFreq + detuneHz) * labTime`. */
  function FrameAngle(freq: real, labTime: real, math: Math): real {
    math.Omega(freq) * labTime
  }

  /** `updateRotatingFrame`: the lab vector seen from the frame turning at
      `freq`, with its polar form. The display keeps z, its ρ is the
      lab-frame transverse magnitude, and turning it back by the same angle
      gives the lab vector again. */
  function RotatingFrame(m: Vec, freq: real, labTime: real, math: Math): (d: Display)
    ensures d.z == m.z
    ensures math.Lawful() ==> d.rho >= 0.0 && d.rho * d.rho == Transverse2(m)
    ensures var angle := FrameAngle(freq, labTime, math);
      math.Lawful() ==> Unrotate(Vec(d.x, d.y, d.z), math.cos(angle), math.sin(angle)) == m
  {
    var angle := FrameAngle(freq, labTime, math);
    var r := Rotate(m, math.cos(angle), math.sin(angle));
    TurnedBack(m, angle, math);
    Display(r.x, r.y, r.z, math.Hypot(r.x, r.y), math.atan2(r.y, r.x))
  }

  /** The turn of `RotatingFrame`, for a lawful `Math`. */
  lemma TurnedBack(m: Vec, angle: real, math: Math)
    ensures var c, s := math.cos(angle), math.sin(angle);
      var r := Rotate(m, c, s);
      math.Lawful() ==>
        && math.Hypot(r.x, r.y) >= 0.0
        && math.Hypot(r.x, r.y) * math.Hypot(r.x, r.y) == Transverse2(m)
        && Unrotate(r, c, s) == m
  {
    if math.Lawful() {
      var c, s := math.cos(angle), math.sin(angle);
      assert math.OnCircle(angle);
      RotateKeepsTransverse(m, c, s);
      RotateRoundTrip(m, c, s);
      var r := Rotate(m, c, s);
      assert 0.0 <= Transverse2(r);
      assert math.IsRoot(Transverse2(r));
      assert math.Hypot(r.x, r.y) == math.sqrt(Transverse2(r));
    }
  }

  /** ρ below this makes the angle meaningless. */
  const PHI_THRESHOLD: real := 0.05

  /** The φ meter: the angle kept (`draw.lastPhi`, in degrees), the bar
      fill in percent, and whether a fresh angle is shown. */
  datatype PhiMeter = PhiMeter(lastPhi: real, fill: real, shown: bool)

  /** One frame of the meter, given the display ρ, the fresh angle
      `atan2(y, x) * 180 / π` and the angle kept from earlier frames. */
  function LatchPhi(rho: real, phiDeg: real, lastPhi: real): (r: PhiMeter)
    ensures r.shown <==> rho > PHI_THRESHOLD
    ensures r.lastPhi == if r.shown then phiDeg else lastPhi
    ensures r.fill == (r.lastPhi + 180.0) / 360.0 * 100.0
  {
    if rho > PHI_THRESHOLD then PhiMeter(phiDeg, (phiDeg + 180.0) / 360.0 * 100.0, true)
    else PhiMeter(lastPhi, (lastPhi + 180.0) / 360.0 * 100.0, false)
  }

  /** The kept angle after a run of frames `(rho, phiDeg)`, frame by frame.
      The meter always shows the angle of the latest reliable frame: frames
      near the pole never change it. */
  function LatchAll(frames: seq<(real, real)>, lastPhi: real): (r: real)
    ensures r == LastReliable(frames, lastPhi)
  {
    if frames == [] then lastPhi
    else
      LastReliableCons(frames[0], frames[1..], lastPhi);
      assert [frames[0]] + frames[1..] == frames;
      LatchAll(frames[1..], LatchPhi(frames[0].0, frames[0].1, lastPhi).lastPhi)
  }

  /** The angle of the latest frame whose ρ was above the threshold, or the
      starting value if there was none. */
  function LastReliable(frames: seq<(real, real)>, lastPhi: real): real {
    if frames == [] then lastPhi
    else
      var f := frames[|frames| - 1];
      if f.0 > PHI_THRESHOLD then f.1 else LastReliable(frames[..|frames| - 1], lastPhi)
  }

  lemma {:induction false} LastReliableCons(f: (real, real), rest: seq<(real, real)>, lastPhi: real)
    ensures LastReliable([f] + rest, lastPhi)
         == LastReliable(rest, if f.0 > PHI_THRESHOLD then f.1 else lastPhi)
  {
    if rest != [] {
      var last := |rest| - 1;
      assert ([f] + rest)[..|rest|] == [f] + rest[..last];
      LastReliableCons(f, rest[..last], lastPhi);
    }
  }
}
