/** The globals of script.js and the code that updates them in place: the
    physics step, the two clock sources (the fallback interval and the audio
    callback), the rotating-frame display and the button handlers. Each
    method is tied to the pure definitions of `Physics`, `Drive` and `Frame`. */
module Simulation {
  import opened RealMath
  import opened Bloch
  import opened Drive
  import opened Schedule
  import opened Frame
  import opened Physics

  /** The two pulse buttons, `pulse-pi2` and `pulse-pi`. */
  datatype PulseButton = HalfPiPulse | PiPulse

  /** The rotation angle each pulse button asks for. */
  function PulseAngle(b: PulseButton, math: Math): (angle: real)
    requires math.pi > 0.0
    ensures angle > 0.0
    ensures b == HalfPiPulse ==> angle * 2.0 == math.pi
    ensures b == PiPulse ==> angle == math.pi
  {
    match b
    case HalfPiPulse => math.pi / 2.0
    case PiPulse => math.pi
  }

  class Simulator {
    /** `Math.PI`, `Math.sin`, ... as the browser provides them. */
    const math: Math

    /** `M` and `labTime`. */
    var m: Vec
    var labTime: real

    /** `holdTone`, `toneLocked`, `pulseActive`, `pulseTimeRemaining` and
        `tonePhase`. */
    var drive: DriveState

    /** The tone LED and the disabled state of the tone and pulse buttons. */
    var flags: ToneFlags

    /** What the sliders and toggles set: `10^tone slider`, the Larmor
        frequency, the detuning, and T1/T2 with their switches. */
    var params: Params

    /** `Mx_rot, My_rot, Mz_rot, rho_rot, phi_rot`. */
    var display: Display

    /** `physicsIntervalId !== null`, the interval's `lastTime` (ms),
        `audioCtx !== null`, the audio sample period and the output switch. */
    var intervalRunning: bool
    var lastTimeMs: real
    var audioRunning: bool
    var sampleDt: real
    var audioOutputEnabled: bool

    /** The globals `physicsStep` updates. */
    function StateOf(): State
      reads this
    {
      State(m, drive, labTime)
    }

    /** The laws of `Math` hold, T1 and T2 are positive, the step invariant
        holds, exactly one clock source drives the physics, the audio
        sample period is positive while audio runs, and the LED and button
        flags agree with the drive. */
    ghost predicate Valid()
      reads this
    {
      && math.Lawful()
      && params.Valid()
      && StateInv(StateOf())
      && intervalRunning != audioRunning
      && (audioRunning ==> sampleDt > 0.0)
      && flags == Flags(drive)
    }

    /** Loading the script: the declarations, `startPhysicsInterval()`,
        the click that starts the tone latched, and the initial reads of the
        sliders and of the T1, T2 and audio-output checkboxes. */
    constructor (math: Math, nowMs: real, toneHz: real, detuneHz: real,
                 t1Enabled: bool, t2Enabled: bool, audioOutputEnabled: bool)
      requires math.Lawful()
      ensures Valid()
      ensures this.math == math
      ensures StateOf() == State(Vec(0.0, 0.0, M0), Drive.ToggleLock(Declared), 0.0)
      ensures params == Params(toneHz, 1.0, detuneHz, Relaxation(10.0, t1Enabled, 20.0, t2Enabled))
      ensures display == Display(0.0, 0.0, -1.0, 0.0, 0.0)
      ensures intervalRunning && !audioRunning && lastTimeMs == nowMs
      ensures this.audioOutputEnabled == audioOutputEnabled
    {
      this.math := math;
      m := Vec(0.0, 0.0, -1.0);
      labTime := 0.0;
      drive := Declared;
      flags := ToneFlags(false, false, false);
      params := Params(toneHz, 1.0, detuneHz, Relaxation(10.0, t1Enabled, 20.0, t2Enabled));
      display := Display(0.0, 0.0, -1.0, 0.0, 0.0);
      intervalRunning, lastTimeMs := false, 0.0;
      audioRunning, sampleDt := false, 0.0;
      this.audioOutputEnabled := audioOutputEnabled;
      new;
      StartPhysicsInterval(nowMs);
      ToggleLock();
    }

    /** `updateToneState`: the LED shows hold or pulse, the tone button is
        disabled while latched or pulsing, the pulse buttons while latched. */
    method UpdateToneState()
      modifies this`flags
      ensures flags == Flags(drive)
    {
      flags := ToneFlags(drive.holdTone || drive.pulseActive, drive.toneLocked || drive.pulseActive, drive.toneLocked);
    }

    /** The drive half of `physicsStep(dt)`: while held or pulsing, the
        field `B1` is read off the phase, the phase advances with one wrap,
        and the pulse counts down, its end refreshing the tone state. */
    method DriveStep(dt: real) returns (b1: real)
      modifies this`drive, this`flags
      ensures b1 == DriveField(old(StateOf()), params, math)
      ensures drive == Advance(old(drive), dt, math.Omega(params.toneFreq + params.detuneHz), 2.0 * math.pi)
      ensures old(flags) == Flags(old(drive)) ==> flags == Flags(drive)
    {
      var rabiOmega := math.Omega(params.toneHz);
      var omegaDrive := math.Omega(params.toneFreq + params.detuneHz);
      b1 := 0.0;
      if drive.holdTone || drive.pulseTimeRemaining > 0.0 {
        b1 := rabiOmega * math.sin(drive.tonePhase);
        var phase := drive.tonePhase + omegaDrive * dt;
        if phase > 2.0 * math.pi {
          phase := phase - 2.0 * math.pi;
        }
        drive := drive.(tonePhase := phase);
        if drive.pulseTimeRemaining > 0.0 {
          var left := drive.pulseTimeRemaining - dt;
          if left <= 0.0 {
            drive := drive.(pulseTimeRemaining := 0.0, pulseActive := false);
            UpdateToneState();
          } else {
            drive := drive.(pulseTimeRemaining := left);
          }
        }
      }
    }

    /** `physicsStep(dt)`: the new state is `Step` of the old one; the
        parameters, clocks and display are outside the frame. */
    method PhysicsStep(dt: real)
      requires Valid()
      modifies this`m, this`labTime, this`drive, this`flags
      ensures Valid()
      ensures StateOf() == Step(old(StateOf()), dt, params, math)
    {
      ghost var s0 := StateOf();
      var b1 := DriveStep(dt);
      var v := Rk4(m, b1, math.Omega(params.toneFreq), params.relax, dt);
      var mag := math.sqrt(Norm2(v));
      if mag > 2.0 {
        v := Vec(v.x / mag, v.y / mag, v.z / mag);
      }
      m := v;
      labTime := labTime + dt;
      StepParts(s0, dt, params, math);
      ghost var after := Step(s0, dt, params, math);
      assert StateOf() == after;
      StepKeepsInv(s0, dt, params, math);
    }

    /** `updateRotatingFrame`: the display is the lab vector seen from the
        frame turning at the drive frequency (`RotatingFrame` says what
        that keeps). */
    method UpdateRotatingFrame()
      modifies this`display
      ensures display == RotatingFrame(m, params.toneFreq + params.detuneHz, labTime, math)
    {
      var angle := FrameAngle(params.toneFreq + params.detuneHz, labTime, math);
      var cosA, sinA := math.cos(angle), math.sin(angle);
      var xRot := m.x * cosA - m.y * sinA;
      var yRot := m.x * sinA + m.y * cosA;
      assert Rotate(m, cosA, sinA) == Vec(xRot, yRot, m.z);
      display := Display(xRot, yRot, m.z, math.Hypot(xRot, yRot), math.atan2(yRot, xRot));
    }

    /** `startPhysicsInterval`: a no-op while the interval runs; otherwise
        it starts it and records the current time. */
    method StartPhysicsInterval(nowMs: real)
      modifies this`intervalRunning, this`lastTimeMs
      ensures intervalRunning
      ensures old(intervalRunning) ==> lastTimeMs == old(lastTimeMs)
      ensures !old(intervalRunning) ==> lastTimeMs == nowMs
    {
      if intervalRunning {
        return;
      }
      lastTimeMs := nowMs;
      intervalRunning := true;
    }

    /** `stopPhysicsInterval`. */
    method StopPhysicsInterval()
      modifies this`intervalRunning
      ensures !intervalRunning
    {
      if intervalRunning {
        intervalRunning := false;
      }
    }

    /** The `while (remaining > 0)` loop of the interval callback: steps
        of `min(remaining, SUB_DT)` until `remaining` is used up. */
    method Integrate(remaining: real)
      requires Valid()
      modifies this`m, this`labTime, this`drive, this`flags
      ensures Valid()
      ensures StateOf() == RunFor(old(StateOf()), remaining, params, math)
    {
      ghost var goal := RunFor(StateOf(), remaining, params, math);
      var left := remaining;
      while left > 0.0
        invariant Valid()
        invariant RunFor(StateOf(), left, params, math) == goal
        decreases Ticks(left)
      {
        var dt := if left < SUB_DT then left else SUB_DT;
        SubStepsFirst(left);
        PhysicsStep(dt);
        left := left - dt;
      }
    }

    /** One callback of the interval at time `nowMs`: the elapsed time,
        capped at 50 ms, is stepped through in sub-steps of at most 1/4000 s,
        then the display is refreshed once. */
    method IntervalTick(nowMs: real)
      requires Valid() && intervalRunning
      modifies this`m, this`labTime, this`drive, this`flags, this`display, this`lastTimeMs
      ensures Valid()
      ensures lastTimeMs == nowMs
      ensures StateOf() == RunFor(old(StateOf()), Capped((nowMs - old(lastTimeMs)) / 1000.0), params, math)
      ensures drive.holdTone == old(drive.holdTone) && drive.toneLocked == old(drive.toneLocked)
      ensures var stepped := Capped((nowMs - old(lastTimeMs)) / 1000.0);
        var left := old(drive.pulseTimeRemaining) - (if stepped > 0.0 then stepped else 0.0);
        && drive.pulseTimeRemaining == (if left > 0.0 then left else 0.0)
        && (drive.pulseActive <==> left > 0.0)
      ensures display == RotatingFrame(m, params.toneFreq + params.detuneHz, labTime, math)
    {
      var remaining := Capped((nowMs - lastTimeMs) / 1000.0);
      RunForDrive(StateOf(), remaining, params, math);
      lastTimeMs := nowMs;
      Integrate(remaining);
      UpdateRotatingFrame();
    }

    /** `scriptProcessor.onaudioprocess`: one step of `sampleDt` per sample,
        each sample the new x component (or silence), then one display
        refresh. */
    method AudioProcess(output: array<real>)
      requires Valid() && audioRunning
      modifies output, this`m, this`labTime, this`drive, this`flags, this`display
      ensures Valid()
      ensures StateOf() == RunN(old(StateOf()), sampleDt, output.Length, params, math)
      ensures output[..] == Samples(old(StateOf()), sampleDt, output.Length, audioOutputEnabled, params, math)
      ensures display == RotatingFrame(m, params.toneFreq + params.detuneHz, labTime, math)
    {
      ghost var s0 := StateOf();
      for i := 0 to output.Length
        invariant Valid()
        invariant StateOf() == RunN(s0, sampleDt, i, params, math)
        invariant output[..i] == Samples(s0, sampleDt, i, audioOutputEnabled, params, math)
      {
        PhysicsStep(sampleDt);
        output[i] := if audioOutputEnabled then m.x else 0.0;
        assert output[..i + 1] == output[..i] + [output[i]];
      }
      assert output[..] == output[..output.Length];
      UpdateRotatingFrame();
    }

    /** `initAudio`, with `success` telling whether the browser gave an
        audio context: the interval is stopped first; on success the audio
        callback takes over at the given sample rate, on failure audio output
        is switched off and the interval is started again. */
    method InitAudio(success: bool, sampleRate: real, nowMs: real)
      requires Valid() && (success ==> sampleRate > 0.0)
      modifies this`intervalRunning, this`lastTimeMs, this`audioRunning, this`sampleDt, this`audioOutputEnabled
      ensures Valid()
      ensures audioRunning == success && intervalRunning == !success
      ensures success ==> sampleDt == 1.0 / sampleRate && audioOutputEnabled == old(audioOutputEnabled)
      ensures success ==> lastTimeMs == old(lastTimeMs)
      ensures !success ==> !audioOutputEnabled && lastTimeMs == nowMs && sampleDt == old(sampleDt)
    {
      StopPhysicsInterval();
      if success {
        sampleDt := 1.0 / sampleRate;
        audioRunning := true;
      } else {
        audioRunning := false;
        audioOutputEnabled := false;
        StartPhysicsInterval(nowMs);
      }
    }

    /** What `tryStartAudio` leaves in the clock fields, with `success`
        telling whether a new audio context could be made and `output` the
        audio-output switch as it stood when it was called. With a context
        already running nothing changes. Otherwise `initAudio` runs: on
        success audio takes over at `1 / sampleRate` with the interval
        stopped and its start time untouched; on failure the interval is
        restarted at `nowMs` and audio output is switched off. */
    twostate predicate AudioAttempt(success: bool, sampleRate: real, nowMs: real, output: bool)
      reads this
    {
      if old(audioRunning) then
        && audioRunning && intervalRunning == old(intervalRunning)
        && lastTimeMs == old(lastTimeMs) && sampleDt == old(sampleDt)
        && audioOutputEnabled == output
      else if success then
        && audioRunning && !intervalRunning
        && lastTimeMs == old(lastTimeMs) && sampleRate > 0.0 && sampleDt == 1.0 / sampleRate
        && audioOutputEnabled == output
      else
        && !audioRunning && intervalRunning
        && lastTimeMs == nowMs && sampleDt == old(sampleDt)
        && !audioOutputEnabled
    }

    /** `tryStartAudio`: initialise audio when there is no context yet,
        which is also the case after an attempt that failed; with one,
        nothing changes here. */
    method TryStartAudio(success: bool, sampleRate: real, nowMs: real)
      requires Valid() && (success ==> sampleRate > 0.0)
      modifies this`intervalRunning, this`lastTimeMs, this`audioRunning, this`sampleDt, this`audioOutputEnabled
      ensures Valid()
      ensures AudioAttempt(success, sampleRate, nowMs, old(audioOutputEnabled))
    {
      if !audioRunning {
        InitAudio(success, sampleRate, nowMs);
      }
    }

    /** Mouse down on the tone button; a disabled button (while latched
        or pulsing) gets no mouse down. */
    method ToneMouseDown(audioOk: bool, sampleRate: real, nowMs: real)
      requires Valid() && (audioOk ==> sampleRate > 0.0)
      modifies this`intervalRunning, this`lastTimeMs, this`audioRunning, this`sampleDt, this`audioOutputEnabled
      modifies this`drive, this`flags
      ensures Valid()
      ensures old(drive.toneLocked || drive.pulseActive) ==> unchanged(this)
      ensures !old(drive.toneLocked || drive.pulseActive) ==>
        && AudioAttempt(audioOk, sampleRate, nowMs, old(audioOutputEnabled))
        && drive == Press(old(drive))
    {
      if flags.toneButtonDisabled {
        return;
      }
      TryStartAudio(audioOk, sampleRate, nowMs);
      if !drive.toneLocked && !drive.pulseActive {
        drive := drive.(holdTone := true);
        UpdateToneState();
      }
    }

    /** Mouse up on, or leaving, the tone button. */
    method ToneRelease()
      requires Valid()
      modifies this`drive, this`flags
      ensures Valid()
      ensures drive == Release(old(drive))
    {
      if !drive.toneLocked {
        drive := drive.(holdTone := false);
        UpdateToneState();
      }
    }

    /** The latch button. */
    method ToggleLock()
      requires Valid()
      modifies this`drive, this`flags
      ensures Valid()
      ensures drive == Drive.ToggleLock(old(drive))
    {
      var locked := !drive.toneLocked;
      drive := drive.(toneLocked := locked, holdTone := locked);
      UpdateToneState();
    }

    /** `triggerPulse(pulseAngle)`. */
    method TriggerPulse(pulseAngle: real, audioOk: bool, sampleRate: real, nowMs: real)
      requires Valid() && (audioOk ==> sampleRate > 0.0)
      requires pulseAngle > 0.0
      modifies this`intervalRunning, this`lastTimeMs, this`audioRunning, this`sampleDt, this`audioOutputEnabled
      modifies this`drive, this`flags
      ensures Valid()
      ensures AudioAttempt(audioOk, sampleRate, nowMs, old(audioOutputEnabled))
      ensures drive == Trigger(old(drive), pulseAngle, params.toneHz, math)
    {
      TryStartAudio(audioOk, sampleRate, nowMs);
      if params.toneHz <= 0.0 || drive.pulseActive {
        return;
      }
      var rabiOmega := math.Omega(params.toneHz);
      var duration := 2.0 * pulseAngle / rabiOmega;
      drive := drive.(pulseTimeRemaining := duration, pulseActive := true);
      UpdateToneState();
    }

    /** A click on a pulse button; a disabled button (while latched) gets
        no click. */
    method ClickPulseButton(b: PulseButton, audioOk: bool, sampleRate: real, nowMs: real)
      requires Valid() && (audioOk ==> sampleRate > 0.0)
      modifies this`intervalRunning, this`lastTimeMs, this`audioRunning, this`sampleDt, this`audioOutputEnabled
      modifies this`drive, this`flags
      ensures Valid()
      ensures old(drive.toneLocked) ==> unchanged(this)
      ensures !old(drive.toneLocked) ==>
        && AudioAttempt(audioOk, sampleRate, nowMs, old(audioOutputEnabled))
        && drive == Trigger(old(drive), PulseAngle(b, math), params.toneHz, math)
    {
      if flags.pulseButtonsDisabled {
        return;
      }
      TriggerPulse(PulseAngle(b, math), audioOk, sampleRate, nowMs);
    }

    /** The "set magnetisation" button with the chosen preset. */
    method ResetMagnetization(preset: string)
      requires Valid()
      modifies this`m
      ensures Valid()
      ensures m == Preset(preset)
    {
      if preset == "equator" {
        m := Vec(1.0, 0.0, 0.0);
      } else {
        m := Vec(0.0, 0.0, -1.0);
      }
    }

    /** The audio-output checkbox. */
    method SetAudioOutput(enabled: bool, audioOk: bool, sampleRate: real, nowMs: real)
      requires Valid() && (audioOk ==> sampleRate > 0.0)
      modifies this`intervalRunning, this`lastTimeMs, this`audioRunning, this`sampleDt, this`audioOutputEnabled
      ensures Valid()
      ensures !enabled ==> !audioOutputEnabled
      ensures !enabled ==> intervalRunning == old(intervalRunning) && lastTimeMs == old(lastTimeMs)
      ensures !enabled ==> audioRunning == old(audioRunning) && sampleDt == old(sampleDt)
      ensures enabled ==> AudioAttempt(audioOk, sampleRate, nowMs, true)
    {
      audioOutputEnabled := enabled;
      if enabled {
        TryStartAudio(audioOk, sampleRate, nowMs);
      }
    }

    /** The sliders and switches for drive amplitude, Larmor frequency,
        detuning and relaxation. */
    method SetParams(p: Params)
      requires Valid() && p.Valid()
      modifies this`params
      ensures Valid()
      ensures params == p
    {
      params := p;
    }
  }
}
