/** One call of `physicsStep(dt)` as a function of the simulation state, and
    a run of such calls. */
module Physics {
  import opened RealMath
  import opened Bloch
  import opened Drive
  import Schedule

  /** What the UI writes and `physicsStep` reads: the drive amplitude in Hz
      (`10^tone slider`), the Larmor frequency `toneFreq`, the detuning and
      the relaxation settings. */
  datatype Params = Params(toneHz: real, toneFreq: real, detuneHz: real, relax: Relaxation)
  {
    predicate Valid() {
      relax.Valid()
    }
  }

  /** The globals `physicsStep` updates: `M`, the drive and `labTime`. */
  datatype State = State(m: Vec, drive: DriveState, labTime: real)

  /** Preserved by every step: the drive invariant and magnitude at most 2. */
  predicate StateInv(s: State) {
    Drive.Inv(s.drive) && Norm2(s.m) <= 4.0
  }

  /** `B1`: the drive field `rabiOmega * sin(tonePhase)` while driven, else 0. */
  function DriveField(s: State, p: Params, math: Math): (b1: real)
    ensures !Driven(s.drive) ==> b1 == 0.0
  {
    if Driven(s.drive) then math.Omega(p.toneHz) * math.sin(s.drive.tonePhase) else 0.0
  }

  /** `physicsStep(dt)`: gate the drive and advance it, take one RK4 step
      with that field, clamp, and add `dt` to the lab time. */
  function Step(s: State, dt: real, p: Params, math: Math): (r: State)
    requires p.Valid()
    ensures r.labTime == s.labTime + dt
    ensures !Driven(s.drive) ==> r.drive == s.drive
  {
    var b1 := DriveField(s, p, math);
    var v := Rk4(s.m, b1, math.Omega(p.toneFreq), p.relax, dt);
    State(Renormalize(v, math), Advance(s.drive, dt, math.Omega(p.toneFreq + p.detuneHz), 2.0 * math.pi), s.labTime + dt)
  }

  /** The parts of a step, one by one (a proof helper). */
  lemma StepParts(s: State, dt: real, p: Params, math: Math)
    requires p.Valid()
    ensures Step(s, dt, p, math).m
         == Renormalize(Rk4(s.m, DriveField(s, p, math), math.Omega(p.toneFreq), p.relax, dt), math)
    ensures Step(s, dt, p, math).drive
         == Advance(s.drive, dt, math.Omega(p.toneFreq + p.detuneHz), 2.0 * math.pi)
  {
  }

  /** After a step the magnitude is at most 2 and the drive invariant holds. */
  lemma StepKeepsInv(s: State, dt: real, p: Params, math: Math)
    requires math.Lawful() && p.Valid() && StateInv(s)
    ensures StateInv(Step(s, dt, p, math))
  {
    var v := Rk4(s.m, DriveField(s, p, math), math.Omega(p.toneFreq), p.relax, dt);
    assert math.IsRoot(Norm2(v));
    StepParts(s, dt, p, math);
  }

  /** Left unperturbed, the equilibrium stays exactly where it is. */
  lemma EquilibriumAtRest(s: State, dt: real, p: Params, math: Math)
    requires math.Lawful() && p.Valid()
    requires s.m == Vec(0.0, 0.0, M0) && !Driven(s.drive)
    ensures Step(s, dt, p, math) == s.(labTime := s.labTime + dt)
  {
    assert Norm2(s.m) == M0 * M0;
    var b1 := DriveField(s, p, math);
    assert b1 == 0.0;
    var v := Rk4(s.m, b1, math.Omega(p.toneFreq), p.relax, dt);
    assert v == s.m;
    assert math.IsRoot(Norm2(v));
    StepParts(s, dt, p, math);
  }

  /** The steps `dts` taken one after another; the lab time advances by
      exactly the steps taken, each counted once. */
  function Run(s: State, dts: seq<real>, p: Params, math: Math): (r: State)
    requires p.Valid()
    ensures r.labTime == s.labTime + Schedule.Sum(dts)
    decreases |dts|
  {
    if dts == [] then s
    else
      Run(Step(s, dts[0], p, math), dts[1..], p, math)
  }

  /** Every state a run reaches keeps the step invariant. */
  lemma {:induction false} RunKeepsInv(s: State, dts: seq<real>, p: Params, math: Math)
    requires math.Lawful() && p.Valid() && StateInv(s)
    ensures StateInv(Run(s, dts, p, math))
    decreases |dts|
  {
    if dts != [] {
      StepKeepsInv(s, dts[0], p, math);
      RunKeepsInv(Step(s, dts[0], p, math), dts[1..], p, math);
    }
  }

  /** A run never touches the hold or the latch: a latched drive stays
      latched, and held, through every step. */
  lemma {:induction false} RunKeepsHoldAndLatch(s: State, dts: seq<real>, p: Params, math: Math)
    requires p.Valid()
    ensures Run(s, dts, p, math).drive.holdTone == s.drive.holdTone
    ensures Run(s, dts, p, math).drive.toneLocked == s.drive.toneLocked
    decreases |dts|
  {
    if dts != [] {
      StepParts(s, dts[0], p, math);
      RunKeepsHoldAndLatch(Step(s, dts[0], p, math), dts[1..], p, math);
    }
  }

  /** Positive steps add up to a non-negative total. */
  lemma {:induction false} SumNonNegative(dts: seq<real>)
    requires forall i :: 0 <= i < |dts| ==> dts[i] > 0.0
    ensures Schedule.Sum(dts) >= 0.0
    decreases |dts|
  {
    if dts != [] {
      SumNonNegative(dts[1..]);
    }
  }

  /** Over a run of positive steps the pulse counts down by exactly the
      time stepped, and is over, with nothing left, once that time reaches
      what remained. */
  lemma {:induction false} RunPulseCountdown(s: State, dts: seq<real>, p: Params, math: Math)
    requires p.Valid() && Drive.Inv(s.drive)
    requires forall i :: 0 <= i < |dts| ==> dts[i] > 0.0
    ensures var left := s.drive.pulseTimeRemaining - Schedule.Sum(dts);
      var d := Run(s, dts, p, math).drive;
      && d.pulseTimeRemaining == (if left > 0.0 then left else 0.0)
      && (d.pulseActive <==> left > 0.0)
    decreases |dts|
  {
    if dts != [] {
      var next := Step(s, dts[0], p, math);
      StepParts(s, dts[0], p, math);
      if s.drive.pulseActive {
        PulseCountdown(s.drive, dts[0], math.Omega(p.toneFreq + p.detuneHz), 2.0 * math.pi);
      }
      assert next.drive.pulseTimeRemaining
          == if s.drive.pulseTimeRemaining - dts[0] > 0.0 then s.drive.pulseTimeRemaining - dts[0] else 0.0;
      assert forall i :: 0 <= i < |dts[1..]| ==> dts[1..][i] > 0.0 by {
        forall i | 0 <= i < |dts[1..]| ensures dts[1..][i] > 0.0 {
          assert dts[1..][i] == dts[i + 1];
        }
      }
      RunPulseCountdown(next, dts[1..], p, math);
      SumNonNegative(dts[1..]);
    }
  }

  /** The interval loop: steps of `min(remaining, SUB_DT)` until nothing
      remains. The lab time advances by exactly `remaining`, and not at all
      when it is not positive. */
  function RunFor(s: State, remaining: real, p: Params, math: Math): (r: State)
    requires p.Valid()
    ensures r.labTime == s.labTime + (if remaining > 0.0 then remaining else 0.0)
    decreases Schedule.Ticks(remaining)
  {
    if remaining <= 0.0 then s
    else
      var dt := if remaining < Schedule.SUB_DT then remaining else Schedule.SUB_DT;
      RunFor(Step(s, dt, p, math), remaining - dt, p, math)
  }

  /** The loop takes exactly the steps `SubSteps` lists. */
  lemma {:induction false} RunForIsRun(s: State, remaining: real, p: Params, math: Math)
    requires p.Valid()
    ensures RunFor(s, remaining, p, math) == Run(s, Schedule.SubSteps(remaining), p, math)
    decreases Schedule.Ticks(remaining)
  {
    if remaining > 0.0 {
      var dt := if remaining < Schedule.SUB_DT then remaining else Schedule.SUB_DT;
      var rest := Schedule.SubSteps(remaining - dt);
      Schedule.SubStepsFirst(remaining);
      RunForIsRun(Step(s, dt, p, math), remaining - dt, p, math);
      RunCons(s, dt, rest, p, math);
    }
  }

  /** One interval tick's loop keeps the hold and the latch, and counts a
      pulse down by exactly the time it steps through, ending it once that
      reaches what remained. */
  lemma RunForDrive(s: State, remaining: real, p: Params, math: Math)
    requires p.Valid() && Drive.Inv(s.drive)
    ensures var d := RunFor(s, remaining, p, math).drive;
      var left := s.drive.pulseTimeRemaining - (if remaining > 0.0 then remaining else 0.0);
      && d.holdTone == s.drive.holdTone && d.toneLocked == s.drive.toneLocked
      && d.pulseTimeRemaining == (if left > 0.0 then left else 0.0)
      && (d.pulseActive <==> left > 0.0)
  {
    var steps := Schedule.SubSteps(remaining);
    RunForIsRun(s, remaining, p, math);
    RunKeepsHoldAndLatch(s, steps, p, math);
    RunPulseCountdown(s, steps, p, math);
  }

  /** A run that starts with the step `dt`. */
  lemma RunCons(s: State, dt: real, rest: seq<real>, p: Params, math: Math)
    requires p.Valid()
    ensures Run(s, [dt] + rest, p, math) == Run(Step(s, dt, p, math), rest, p, math)
  {
    assert ([dt] + rest)[1..] == rest;
  }

  /** `n` steps of `dt`, as one audio buffer of `n` samples takes them; the
      lab time advances by the number of samples times the sample period. */
  function RunN(s: State, dt: real, n: nat, p: Params, math: Math): (r: State)
    requires p.Valid()
    ensures r.labTime == s.labTime + (n as real) * dt
  {
    if n == 0 then
      assert (n as real) * dt == 0.0 * dt;
      s
    else
      var k: nat := n - 1;
      var before := RunN(s, dt, k, p, math);
      OneMoreStep(n, dt);
      assert before.labTime + dt == s.labTime + (n as real) * dt;
      Step(before, dt, p, math)
  }

  /** Over an audio buffer the drive evolves as `n` drive steps of `dt`, so
      the pulse lemmas of `Drive` apply to whole buffers. */
  lemma {:induction false} RunDrive(s: State, dt: real, n: nat, p: Params, math: Math)
    requires p.Valid()
    ensures RunN(s, dt, n, p, math).drive
         == AdvanceN(s.drive, dt, math.Omega(p.toneFreq + p.detuneHz), 2.0 * math.pi, n)
  {
    if n > 0 {
      RunDrive(s, dt, n - 1, p, math);
      StepParts(RunN(s, dt, n - 1, p, math), dt, p, math);
    }
  }

  /** What one audio buffer of `n` samples holds: after each step of `dt`,
      the new x component, or silence while audio output is off. */
  function Samples(s: State, dt: real, n: nat, enabled: bool, p: Params, math: Math): (out: seq<real>)
    requires p.Valid()
    ensures |out| == n
  {
    if n == 0 then []
    else Samples(s, dt, n - 1, enabled, p, math) + [if enabled then RunN(s, dt, n, p, math).m.x else 0.0]
  }

  /** Sample `i` is the x component after `i + 1` steps, or 0 when muted. */
  lemma {:induction false} SampleAt(s: State, dt: real, n: nat, enabled: bool, p: Params, math: Math, i: nat)
    requires p.Valid() && i < n
    ensures Samples(s, dt, n, enabled, p, math)[i]
         == if enabled then RunN(s, dt, i + 1, p, math).m.x else 0.0
  {
    if i < n - 1 {
      SampleAt(s, dt, n - 1, enabled, p, math, i);
    }
  }

  /** A pulse triggered with a positive angle and stepped at the audio
      sample period is on exactly while the time stepped is below its
      duration. */
  lemma PulseLastsItsDuration(s: State, angle: real, dt: real, n: nat, p: Params, math: Math)
    requires math.Lawful() && p.Valid() && Drive.Inv(s.drive) && !s.drive.pulseActive
    requires p.toneHz > 0.0 && angle > 0.0 && dt > 0.0
    ensures var started := s.(drive := Trigger(s.drive, angle, p.toneHz, math));
      var after := RunN(started, dt, n, p, math).drive;
      && ((n as real) * dt < PulseDuration(angle, p.toneHz, math) ==> after.pulseActive)
      && ((n as real) * dt >= PulseDuration(angle, p.toneHz, math) ==> !after.pulseActive)
  {
    var started := s.(drive := Trigger(s.drive, angle, p.toneHz, math));
    RunDrive(started, dt, n, p, math);
    if (n as real) * dt < PulseDuration(angle, p.toneHz, math) {
      PulseOnWhileTimeLeft(started.drive, dt, math.Omega(p.toneFreq + p.detuneHz), 2.0 * math.pi, n);
    } else {
      PulseEndsOnTime(started.drive, dt, math.Omega(p.toneFreq + p.detuneHz), 2.0 * math.pi, n);
    }
  }
}
