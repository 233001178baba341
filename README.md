# Bloch-vector simulator: the physics loop and its controls, in Dafny

`script.js` drives an interactive Bloch sphere. A magnetisation vector `M` precesses
about z at the Larmor frequency `toneFreq`, relaxes towards the equilibrium
`(0, 0, M0)` with `M0 = -1` (times T1 and T2, each switchable), and is nutated by an
RF drive. The drive is on while the tone button is held, while the latch button is
engaged, or for the duration of a π/2 or π pulse. `physicsStep(dt)` advances the
vector by one fourth-order Runge-Kutta step with the drive field `B1` held fixed.
It then rescales any vector longer than 2 and adds `dt` to the lab clock. Two clock
sources call it: a fallback `setInterval` before audio starts, and the Web Audio
callback (one step per sample) afterwards. `initAudio` and
`startPhysicsInterval`/`stopPhysicsInterval` keep the two sources apart. After each
tick or buffer, `updateRotatingFrame` shows the vector from the frame turning at the
drive frequency. The φ meter of `draw` keeps the last reliable angle while the
vector is near a pole.

The project is split into these modules:

- `RealMath` (`real_math.dfy`): `Math.PI`, `sin`, `cos`, `sqrt`/`hypot` and
  `atan2` as one value. It assumes only three laws of it: π > 0,
  `sqrt(v)² = v` with `sqrt(v) ≥ 0` for `v ≥ 0`, and `sin² + cos² = 1`.
- `Bloch` (`bloch.dfy`): `blochDerivLab`, the RK4 combination, the magnitude
  clamp and the reset presets. All are pure functions with lemmas.
- `Drive` (`drive.dfy`): the drive, pulse and latch state (`holdTone`,
  `toneLocked`, `pulseActive`, `pulseTimeRemaining`, `tonePhase`). It covers the
  drive part of a step, `triggerPulse`, the button handlers and `updateToneState`,
  as pure transitions.
- `Schedule` (`schedule.dfy`): how one interval tick cuts the elapsed time into
  sub-steps.
- `Frame` (`frame.dfy`): the rotating-frame display and the φ-meter latch.
- `Physics` (`physics.dfy`): one `physicsStep` as a function of the state, and the
  runs that one interval tick and one audio buffer perform.
- `Simulation` (`simulation.dfy`): the globals as the fields of a class, `Simulator`.
  The methods update those fields in place.
  - Each method's `ensures` ties the new fields to the pure definitions above.
    `PhysicsStep` gives `Step`, the interval loop gives `RunFor`, the audio loop
    gives `RunN` and `Samples`, and the handlers give `Press`, `Release`,
    `ToggleLock` and `Trigger`.
  - Every public handler and callback keeps the class invariant `Valid`. It
    holds seven facts: the laws of `Math`, positive T1 and T2, the drive
    invariant, a magnitude of at most 2, exactly one clock source running, a
    positive sample period while audio runs, and LED and button flags that
    agree with the drive. The helpers they call (`UpdateToneState`,
    `DriveStep`, `UpdateRotatingFrame`, `StartPhysicsInterval`,
    `StopPhysicsInterval`) state only what they change, since the script
    calls them between the updates that restore it.

The script keeps its state in separate globals. The class groups them by role into
record-valued fields:

- `drive` holds the five drive globals.
- `flags` holds `toneOn` and the disabled state of the tone and pulse buttons.
- `params` holds `toneHz`, `toneFreq`, `detuneHz`, `T1`, `T2` and the two switches.
- `display` holds `Mx_rot` … `phi_rot`.

`M` and `labTime` and the clock globals stay as fields of their own. Each handler
writes the group it changes.

A π/2 pulse at 1 Hz lasts `2·(π/2)/(2π·1) = 0.5` s (script.js:659-661), and a π
pulse 1 s; `Drive.PulseDurationsAtOneHertz` proves both.

## Model

| member | source | states |
|---|---|---|
| `Bloch.InvT1` | script.js:106 | the longitudinal rate is non-negative and is zero exactly when T1 is switched off |
| `Bloch.InvT2` | script.js:107 | the dephasing rate is non-negative and is zero exactly when T2 is switched off |
| `Bloch.InvT2Eff` | script.js:108 | the effective transverse rate is at least half the T1 rate and at least the T2 rate, and is zero exactly when both are off |
| `Bloch.Deriv` | script.js:105-114 | `blochDerivLab`: without drive the derivative is zero at the equilibrium `(0, 0, M0)` for any rates, and with T1 off as well it has no z component |
| `Bloch.DerivOrthogonal` | script.js:105-114 | with both relaxations off, `blochDerivLab(m, B1)` is orthogonal to `m` for every `B1` and every `omega0` |
| `Bloch.Rk4` | script.js:135-144 | an undriven RK4 step leaves `(0, 0, M0)` exactly where it is; with no drive and T1 off, a step leaves z unchanged |
| `Bloch.Clamp` | script.js:145-146 | with a magnitude of at most 2 the vector is returned unchanged; above 2, the result times the magnitude gives the vector back |
| `Bloch.ClampLong` | script.js:145-146 | a vector of magnitude `mag > 2` divided by `mag` has squared length exactly 1 |
| `Bloch.ClampShort` | script.js:145-146 | a vector of magnitude at most 2 is left unchanged |
| `Bloch.ClampBound` | script.js:145-146 | after the clamp the magnitude is at most 2; the clamp fires exactly when the squared norm exceeds 4 |
| `Bloch.Renormalize` | script.js:145-146 | when `Math.hypot` returns the true magnitude: afterwards the norm is at most 2, a vector longer than 2 ends at length exactly 1, and any other vector is untouched |
| `Bloch.Preset` | script.js:716-723 | the reset gives a unit vector: `equator` gives `(1, 0, 0)`, anything else gives the equilibrium `(0, 0, M0)` |
| `Drive.Advance` | script.js:121-134 | the latch and the hold are untouched; an undriven step changes nothing; the drive invariant is kept |
| `Drive.PhaseStaysWrapped` | script.js:124-125 | the phase moves by `omegaDrive·dt` less at most one 2π, and stays in [0, 2π] when `0 ≤ omegaDrive·dt ≤ 2π` |
| `Drive.PulseCountdown` | script.js:126-133 | during a pulse a step takes exactly `dt` off the remaining time, and a step that would reach zero or below ends the pulse at 0 |
| `Drive.AdvanceN` | script.js:121-134 | any number of steps keeps the hold and the latch, leaves an undriven state alone, and keeps the drive invariant |
| `Drive.PulseOnWhileTimeLeft` | script.js:126-133 | while `n·dt` is below the pulse time, the pulse is still on, with exactly `n·dt` taken off |
| `Drive.PulseEndsOnTime` | script.js:126-133 | once `n·dt` reaches the pulse time, the pulse is off with nothing remaining |
| `Drive.NoPulseStaysOff` | script.js:121-134 | steps never start a pulse |
| `Drive.PulseDuration` | script.js:659-661 | the duration times `2π·toneHz` is twice the angle, and it is positive for a positive angle |
| `Drive.PulseDurationsAtOneHertz` | script.js:667-672 | at `toneHz = 1`, the π/2 button gives 0.5 s and the π button gives 1 s |
| `Drive.Trigger` | script.js:655-665 | rejected (nothing changes) while a pulse runs or when `toneHz ≤ 0`; otherwise a pulse starts whose time satisfies `t·2π·toneHz = 2·angle`, with hold, latch and phase untouched; the invariant is kept for positive angles |
| `Drive.ToggleLock` | script.js:646-652 | the latch flips, the hold follows it, the pulse and phase are untouched, and the invariant is kept |
| `Drive.Press` | script.js:623-629 | the hold is set exactly when it was set, or when neither latched nor pulsing; nothing else changes |
| `Drive.Release` | script.js:631-643 | while latched nothing changes; otherwise the hold is cleared and nothing else changes |
| `Drive.LatchKeepsDriving` | script.js:646-652 | while latched, the drive is on and neither the tone button nor a step turns it off |
| `Drive.Flags` | script.js:606-616 | the pulse buttons are disabled exactly while latched, the tone button exactly while latched or pulsing, the LED is lit exactly while the drive is on, and latching disables both buttons and lights the LED |
| `Schedule.Capped` | script.js:169 | `min(elapsed, 0.05)` is at most 0.05 and at most the elapsed time, and is one of the two |
| `Schedule.SubSteps` | script.js:171-175 | the loop's steps lie in (0, 1/4000], number `Ticks(remaining)`, and sum to exactly `remaining`, or to 0 when it is not positive |
| `Schedule.SubStepsFirst` | script.js:171-175 | one pass of the loop takes `min(remaining, SUB_DT)` and leaves one step fewer |
| `Schedule.TickSchedule` | script.js:167-176 | a tick with `elapsed ≤ 0` runs no step; otherwise its steps sum to `min(elapsed, 0.05)`; there are never more than 200, each in (0, 1/4000] |
| `Frame.RotateRoundTrip` | script.js:151-157 | on the unit circle, the frame rotation and its inverse undo each other |
| `Frame.RotateKeepsTransverse` | script.js:151-158 | the rotation keeps the transverse magnitude and z |
| `Frame.RotatingFrame` | script.js:151-160 | `updateRotatingFrame`: the display keeps z; with lawful `Math`, `rho_rot ≥ 0`, `rho_rot²` is the lab transverse magnitude squared, and rotating back gives the lab vector |
| `Frame.LatchPhi` | script.js:501-512 | a fresh angle is shown and kept exactly when ρ > 0.05; otherwise the kept angle stays; the bar fill is `(φ + 180)/360·100` of the kept angle |
| `Frame.LatchAll` | script.js:501-512 | after any run of frames, the meter holds the angle of the latest frame with ρ > 0.05 (`LastReliable`), or its start value if there was none |
| `Physics.DriveField` | script.js:119-123 | `B1` is 0 whenever the drive is off |
| `Physics.Step` | script.js:117-148 | the lab clock advances by exactly `dt`; an undriven step leaves the drive fields alone |
| `Physics.StepKeepsInv` | script.js:121-146 | a step keeps the drive invariant and a magnitude of at most 2 |
| `Physics.EquilibriumAtRest` | script.js:117-148 | undriven, the equilibrium stays exactly where it is and only the clock moves |
| `Physics.Run` | script.js:173 | the steps `dts` taken in order advance the lab clock by exactly their sum |
| `Physics.RunKeepsInv` | script.js:121-147 | the step invariant holds after any run |
| `Physics.RunFor` | script.js:171-175 | the interval loop over `remaining` seconds advances the lab clock by exactly `remaining`, or not at all when it is not positive |
| `Physics.RunKeepsHoldAndLatch` | script.js:121-134 | no run of steps touches the hold or the latch, so a latched drive stays latched and held through any number of steps |
| `Physics.RunPulseCountdown` | script.js:126-133 | over a run of positive steps the pulse time drops by exactly their sum while it stays positive, and is 0 with the pulse over once the sum reaches it |
| `Physics.RunForDrive` | script.js:171-175 | one tick's loop keeps the hold and the latch, and counts a pulse down by exactly the time stepped, ending it once that reaches what remained |
| `Physics.RunForIsRun` | script.js:171-175 | the interval loop performs exactly the steps `SubSteps` lists, in order |
| `Physics.RunN` | script.js:79-82 | a buffer of n samples advances the lab clock by exactly `n·sampleDt` |
| `Physics.RunDrive` | script.js:77-84 | over a buffer the drive evolves as n drive steps, so the pulse lemmas apply to whole buffers |
| `Physics.Samples` | script.js:79-82 | a buffer holds one sample per step |
| `Physics.SampleAt` | script.js:79-82 | sample i is the x component after i+1 steps when output is enabled, and 0 otherwise |
| `Physics.PulseLastsItsDuration` | script.js:126-133 | a pulse triggered at rest stays on while `n·dt` is below its duration and is over once `n·dt` reaches it |
| `Simulation.PulseAngle` | script.js:667-672 | the π/2 button asks for half of π and the π button for π, both positive |
| `Simulation.Simulator.constructor` | script.js:1-53 | loading the script: the declarations put the vector at equilibrium, the clock at 0, the display at `(0, 0, -1)`, `toneFreq` at 1 and no pulse running; the interval is started from the current time and audio does not run (script.js:536); the start-up click latches the tone, so the drive is `ToggleLock` of the declared one (script.js:653); the audio-output switch is read from its checkbox (script.js:697); T1 = 10 and T2 = 20 and the two relaxation switches are read from theirs (script.js:737-760); the invariant holds |
| `Simulation.Simulator.UpdateToneState` | script.js:606-616 | the LED and the disabled flags are set to what `Flags` derives from the drive |
| `Simulation.Simulator.DriveStep` | script.js:121-134 | `B1` is the drive field of the old state, the new drive is `Advance` of the old one, and agreeing flags stay in agreement |
| `Simulation.Simulator.PhysicsStep` | script.js:117-148 | the new `M`, drive and lab clock are `Step` of the old ones, and the invariant is kept |
| `Simulation.Simulator.UpdateRotatingFrame` | script.js:151-160 | the display fields are the `RotatingFrame` of `M` at the drive frequency and the lab clock |
| `Simulation.Simulator.StartPhysicsInterval` | script.js:163-167 | afterwards the interval runs; a running interval keeps its `lastTime`, and a new one records the current time |
| `Simulation.Simulator.StopPhysicsInterval` | script.js:180-185 | afterwards the interval is not running |
| `Simulation.Simulator.Integrate` | script.js:171-175 | the loop leaves exactly `RunFor(old state, remaining)` and keeps the invariant |
| `Simulation.Simulator.IntervalTick` | script.js:167-177 | one tick records `now` as `lastTime`, runs `RunFor` over the capped elapsed time, keeps the hold and the latch, counts a pulse down by exactly the time stepped (ending it at 0 once that reaches what remained), refreshes the display, and keeps the invariant |
| `Simulation.Simulator.AudioProcess` | script.js:77-84 | one buffer leaves `RunN` of the old state, fills the buffer with `Samples`, refreshes the display, and keeps the invariant |
| `Simulation.Simulator.InitAudio` | script.js:68-94 | on success audio runs at `1/sampleRate` and the interval is stopped; on failure audio output is off and the interval is restarted from now; exactly one source runs either way; success keeps the interval's `lastTime` and the output switch, failure keeps the sample period |
| `Simulation.Simulator.TryStartAudio` | script.js:96-102 | `AudioAttempt`: with a context running, no clock field changes; without one (also after a failed attempt) audio starts at `1/sampleRate` with the interval stopped and its `lastTime` kept, or, on failure, the interval restarts at `now` and output is switched off |
| `Simulation.Simulator.ToneMouseDown` | script.js:623-629 | while the tone button is disabled (latched or pulsing, script.js:612) no field changes at all; otherwise the clock fields change as `AudioAttempt` says and the drive becomes `Press` of the old one |
| `Simulation.Simulator.ToneRelease` | script.js:631-643 | the drive becomes `Release` of the old one |
| `Simulation.Simulator.ToggleLock` | script.js:646-652 | the drive becomes `ToggleLock` of the old one, with the flags refreshed |
| `Simulation.Simulator.TriggerPulse` | script.js:655-665 | the clock fields change as `AudioAttempt` says, and the drive becomes `Trigger` of the old one at the current `toneHz` |
| `Simulation.Simulator.ClickPulseButton` | script.js:667-672 | while latched the disabled button changes no field at all; otherwise the clock fields change as `AudioAttempt` says and the pulse of the button's angle is triggered |
| `Simulation.Simulator.ResetMagnetization` | script.js:716-723 | `M` becomes the chosen preset and the invariant is kept |
| `Simulation.Simulator.SetAudioOutput` | script.js:691-698 | unchecking turns output off and leaves the other clock fields alone; checking turns it on and then changes the clock fields as `AudioAttempt` says, so a failed start turns it off again |
| `Simulation.Simulator.SetParams` | script.js:726-760 | the sliders and switches set the parameters, and the invariant is kept |

## Left out

- Canvas rendering in `draw`, the torque arrows, canvas hit-testing and the DOM
  writes (`textContent`, `classList`, button styles) are left out. The model keeps
  the state they display.
- Parsing and formatting slider values, `Math.pow(10, ·)` and `Math.log10` are left
  out. `toneHz` (`10^slider`), `toneFreq`, `detuneHz`, T1 and T2 are fields that the
  constructor and `SetParams` set.
- `blochDerivLab` reads the global `omega0`. Every handler that sets `toneFreq`
  also sets `omega0` to `2π·toneFreq` (script.js:29, 599-601), so the model
  computes it from `toneFreq`.
- The Web Audio API is left out: `AudioContext`, the script processor, the gain
  node, `resume()` and audio output itself. The outcome of creating a context is
  the parameter `success`, and its sample rate is a parameter.
- Browser timing is left out: `performance.now`, `setInterval` and
  `requestAnimationFrame`. The current time is a parameter, each interval
  callback is a call of `IntervalTick`, and each audio buffer is a call of
  `AudioProcess`.
- Concurrency between those callbacks and the handlers is not modelled. Each
  operation runs to completion.
- `setTimeout(updateToneState, 0)` at the end of a pulse (script.js:131) runs
  synchronously within the step.
- The first `pointerdown` on any control (script.js:539-541) calls
  `tryStartAudio` before that control's own handler, and so does the tone
  button's `click` handler (script.js:619-621). The model has both as calls of
  `TryStartAudio`. Each handler that calls `tryStartAudio` itself does so first,
  except the audio-output switch, which stores its state first
  (script.js:692-694), as `SetAudioOutput` does.
- Floating-point rounding is not modelled: all quantities are exact reals. The
  accuracy of RK4 against the exact Bloch solution, and the numerical experiments
  in the Python test scripts, are outside what can be stated here.
- Simulation.Simulator.TriggerPulse: requires a positive angle. The two buttons
  that call `triggerPulse` pass π/2 and π.
- Simulation.Simulator.InitAudio: the model's `audioRunning` stands for both
  `audioCtx !== null` and the installed callback. After a failed attempt
  `audioCtx` is null again (script.js:89), so the next `tryStartAudio` tries
  again; `TryStartAudio` does the same whenever `audioRunning` is false.
