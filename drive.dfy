/** The RF drive of script.js: continuous hold, the latch ("lock") and timed
    pulses, i.e. the globals `holdTone`, `toneLocked`, `pulseActive`,
    `pulseTimeRemaining` and `tonePhase`, with the transitions the button
    handlers, `triggerPulse` and `physicsStep` apply to them. */
module Drive {
  import opened RealMath

  datatype DriveState = DriveState(
    holdTone: bool,
    toneLocked: bool,
    pulseActive: bool,
    pulseTimeRemaining: real,
    tonePhase: real)

  /** What the handlers and the step keep true: the latch implies the hold,
      the remaining pulse time is never negative, and a pulse is active
      exactly while time remains. */
  predicate Inv(d: DriveState) {
    && (d.toneLocked ==> d.holdTone)
    && d.pulseTimeRemaining >= 0.0
    && (d.pulseActive <==> d.pulseTimeRemaining > 0.0)
  }

  /** The condition under which `physicsStep` applies the drive field. */
  predicate Driven(d: DriveState) {
    d.holdTone || d.pulseTimeRemaining > 0.0
  }

  /** The globals as the script declares them, before the latch is clicked. */
  const Declared: DriveState := DriveState(false, false, false, 0.0, 0.0)

  /** The drive part of `physicsStep(dt)`: when driven, advance the phase
      with one wrap and count the pulse down, ending it at zero. */
  function Advance(d: DriveState, dt: real, omegaDrive: real, twoPi: real): (r: DriveState)
    ensures r.holdTone == d.holdTone && r.toneLocked == d.toneLocked
    ensures !Driven(d) ==> r == d
    ensures Inv(d) ==> Inv(r)
  {
    if !Driven(d) then d
    else
      var advanced := d.tonePhase + omegaDrive * dt;
      var phase := if advanced > twoPi then advanced - twoPi else advanced;
      if d.pulseTimeRemaining > 0.0 then
        var left := d.pulseTimeRemaining - dt;
        if left <= 0.0 then d.(tonePhase := phase, pulseTimeRemaining := 0.0, pulseActive := false)
        else d.(tonePhase := phase, pulseTimeRemaining := left)
      else d.(tonePhase := phase)
  }

  /** A driven step moves the phase by `omegaDrive * dt`, less one full turn
      at most; a phase in [0, 2π] stays there while the step advances it
      by no more than a turn. */
  lemma PhaseStaysWrapped(d: DriveState, dt: real, omegaDrive: real, twoPi: real)
    requires Driven(d)
    ensures var r := Advance(d, dt, omegaDrive, twoPi);
      r.tonePhase == d.tonePhase + omegaDrive * dt
      || (r.tonePhase == d.tonePhase + omegaDrive * dt - twoPi && d.tonePhase + omegaDrive * dt > twoPi)
    ensures 0.0 <= d.tonePhase <= twoPi && 0.0 <= omegaDrive * dt <= twoPi ==>
      0.0 <= Advance(d, dt, omegaDrive, twoPi).tonePhase <= twoPi
  {
  }

  /** During a pulse each step takes exactly `dt` off the remaining time;
      the step that would reach zero or below sets it to zero and ends the
      pulse. */
  lemma PulseCountdown(d: DriveState, dt: real, omegaDrive: real, twoPi: real)
    requires Inv(d) && d.pulseActive
    ensures var r := Advance(d, dt, omegaDrive, twoPi);
      && (r.pulseActive <==> d.pulseTimeRemaining > dt)
      && (r.pulseActive ==> r.pulseTimeRemaining == d.pulseTimeRemaining - dt)
      && (!r.pulseActive ==> r.pulseTimeRemaining == 0.0)
  {
  }

  /** `n` steps of the same length: the hold and the latch are never
      touched, an undriven state stays as it is, and the invariant survives
      any number of steps. */
  function AdvanceN(d: DriveState, dt: real, omegaDrive: real, twoPi: real, n: nat): (r: DriveState)
    ensures r.holdTone == d.holdTone && r.toneLocked == d.toneLocked
    ensures !Driven(d) ==> r == d
    ensures Inv(d) ==> Inv(r)
  {
    if n == 0 then d else Advance(AdvanceN(d, dt, omegaDrive, twoPi, n - 1), dt, omegaDrive, twoPi)
  }

  /** `n` steps of `dt` are `n - 1` of them and one more. */
  lemma OneMoreStep(n: nat, dt: real)
    requires n > 0
    ensures (n as real) * dt == ((n - 1) as real) * dt + dt
  {
  }

  /** A pulse stays on for the first steps whose total is below its duration,
      and its remaining time is the duration less the time stepped. */
  lemma {:induction false} PulseOnWhileTimeLeft(d: DriveState, dt: real, omegaDrive: real, twoPi: real, n: nat)
    requires Inv(d) && d.pulseActive && dt > 0.0
    requires (n as real) * dt < d.pulseTimeRemaining
    ensures var r := AdvanceN(d, dt, omegaDrive, twoPi, n);
      r.pulseActive && r.pulseTimeRemaining == d.pulseTimeRemaining - (n as real) * dt
  {
    if n > 0 {
      OneMoreStep(n, dt);
      PulseOnWhileTimeLeft(d, dt, omegaDrive, twoPi, n - 1);
      var before := AdvanceN(d, dt, omegaDrive, twoPi, n - 1);
      PulseCountdown(before, dt, omegaDrive, twoPi);
    }
  }

  /** Once the steps add up to the pulse duration the pulse is over, with
      nothing left, and stays over (a pulse is never restarted by a step). */
  lemma {:induction false} PulseEndsOnTime(d: DriveState, dt: real, omegaDrive: real, twoPi: real, n: nat)
    requires Inv(d) && dt > 0.0
    requires (n as real) * dt >= d.pulseTimeRemaining
    ensures var r := AdvanceN(d, dt, omegaDrive, twoPi, n);
      !r.pulseActive && r.pulseTimeRemaining == 0.0
  {
    if n > 0 {
      var k: nat := n - 1;
      var before := AdvanceN(d, dt, omegaDrive, twoPi, k);
      assert AdvanceN(d, dt, omegaDrive, twoPi, n) == Advance(before, dt, omegaDrive, twoPi);
      if (k as real) * dt >= d.pulseTimeRemaining {
        PulseEndsOnTime(d, dt, omegaDrive, twoPi, k);
        assert !before.pulseActive && before.pulseTimeRemaining == 0.0;
      } else {
        PulseOnWhileTimeLeft(d, dt, omegaDrive, twoPi, k);
        OneMoreStep(n, dt);
        assert before.pulseTimeRemaining <= dt;
        PulseCountdown(before, dt, omegaDrive, twoPi);
      }
    }
  }

  /** Without a pulse, steps never start one. */
  lemma {:induction false} NoPulseStaysOff(d: DriveState, dt: real, omegaDrive: real, twoPi: real, n: nat)
    requires Inv(d) && !d.pulseActive
    ensures var r := AdvanceN(d, dt, omegaDrive, twoPi, n);
      Inv(r) && !r.pulseActive && r.pulseTimeRemaining == 0.0
  {
    if n > 0 {
      NoPulseStaysOff(d, dt, omegaDrive, twoPi, n - 1);
    }
  }

  /** `2 * angle / rabiOmega` with `rabiOmega = 2π * toneHz`: under the
      rotating-wave approximation the nutation rate is half the drive
      amplitude, so duration times amplitude is twice the angle. */
  function PulseDuration(angle: real, toneHz: real, math: Math): (t: real)
    requires toneHz > 0.0 && math.pi > 0.0
    ensures t * math.Omega(toneHz) == 2.0 * angle
    ensures angle > 0.0 ==> t > 0.0
  {
    2.0 * angle / math.Omega(toneHz)
  }

  /** A π/2 pulse at 1 Hz lasts half a second and a π pulse twice as long. */
  lemma PulseDurationsAtOneHertz(math: Math)
    requires math.pi > 0.0
    ensures PulseDuration(math.pi / 2.0, 1.0, math) == 0.5
    ensures PulseDuration(math.pi, 1.0, math) == 1.0
  {
    var w := math.Omega(1.0);
    assert w == 2.0 * math.pi;
    var half := PulseDuration(math.pi / 2.0, 1.0, math);
    var full := PulseDuration(math.pi, 1.0, math);
    assert half * w == math.pi;
    NonZeroFactor(half - 0.5, w);
    assert full * w == 2.0 * math.pi;
    NonZeroFactor(full - 1.0, w);
  }

  lemma NonZeroFactor(a: real, w: real)
    requires w > 0.0 && a * w == 0.0
    ensures a == 0.0
  {
  }

  /** `triggerPulse(angle)`: rejected while a pulse runs or when the drive
      amplitude is not positive; otherwise starts a pulse of the duration
      that turns the vector by `angle`. The latch is not consulted here. */
  function Trigger(d: DriveState, angle: real, toneHz: real, math: Math): (r: DriveState)
    requires math.pi > 0.0
    ensures toneHz <= 0.0 || d.pulseActive ==> r == d
    ensures toneHz > 0.0 && !d.pulseActive ==>
      && r.pulseActive
      && r.pulseTimeRemaining * math.Omega(toneHz) == 2.0 * angle
      && r.holdTone == d.holdTone && r.toneLocked == d.toneLocked && r.tonePhase == d.tonePhase
    ensures Inv(d) && angle > 0.0 ==> Inv(r)
  {
    if toneHz <= 0.0 || d.pulseActive then d
    else d.(pulseTimeRemaining := PulseDuration(angle, toneHz, math), pulseActive := true)
  }

  /** The latch button: flips the latch and makes the hold follow it. */
  function ToggleLock(d: DriveState): (r: DriveState)
    ensures r.toneLocked != d.toneLocked
    ensures r.toneLocked ==> r.holdTone
    ensures !r.toneLocked ==> !r.holdTone
    ensures r.pulseActive == d.pulseActive && r.pulseTimeRemaining == d.pulseTimeRemaining
    ensures r.tonePhase == d.tonePhase
    ensures Inv(d) ==> Inv(r)
  {
    var locked := !d.toneLocked;
    d.(toneLocked := locked, holdTone := locked)
  }

  /** Mouse down on the tone button: hold only when neither latched nor pulsing. */
  function Press(d: DriveState): (r: DriveState)
    ensures r.holdTone <==> d.holdTone || (!d.toneLocked && !d.pulseActive)
    ensures r.(holdTone := d.holdTone) == d
    ensures Inv(d) ==> Inv(r)
  {
    if !d.toneLocked && !d.pulseActive then d.(holdTone := true) else d
  }

  /** Mouse up or leaving the tone button: release the hold unless latched. */
  function Release(d: DriveState): (r: DriveState)
    ensures d.toneLocked ==> r == d
    ensures !d.toneLocked ==> !r.holdTone
    ensures r.(holdTone := d.holdTone) == d
    ensures Inv(d) ==> Inv(r)
  {
    if !d.toneLocked then d.(holdTone := false) else d
  }

  /** While latched the drive stays on: neither the tone button nor a step
      can turn it off. */
  lemma LatchKeepsDriving(d: DriveState, dt: real, omegaDrive: real, twoPi: real)
    requires Inv(d) && d.toneLocked
    ensures Driven(d)
    ensures Driven(Press(d)) && Driven(Release(d)) && Driven(Advance(d, dt, omegaDrive, twoPi))
  {
  }

  /** The button and LED state derived by `updateToneState`. */
  datatype ToneFlags = ToneFlags(toneOn: bool, toneButtonDisabled: bool, pulseButtonsDisabled: bool)

  function Flags(d: DriveState): (f: ToneFlags)
    ensures f.pulseButtonsDisabled <==> d.toneLocked
    ensures f.toneButtonDisabled <==> d.toneLocked || d.pulseActive
    ensures Inv(d) ==> (f.toneOn <==> Driven(d))
    ensures Inv(d) && f.pulseButtonsDisabled ==> f.toneOn && f.toneButtonDisabled
  {
    ToneFlags(d.holdTone || d.pulseActive, d.toneLocked || d.pulseActive, d.toneLocked)
  }
}
