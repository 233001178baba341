/** How the fallback interval of `startPhysicsInterval` cuts wall-clock time
    into integrator steps. */
module Schedule {

  /** Largest step the interval takes: 1/4000 s. */
  const SUB_DT: real := 1.0 / 4000.0

  /** Elapsed time beyond 50 ms is dropped, not caught up. */
  const MAX_ELAPSED: real := 0.05

  /** `Math.min(elapsed, 0.05)`. */
  function Capped(elapsed: real): (r: real)
    ensures r <= MAX_ELAPSED && r <= elapsed
    ensures r == elapsed || r == MAX_ELAPSED
  {
    if elapsed < MAX_ELAPSED then elapsed else MAX_ELAPSED
  }

  /** The least integer not below `x`. */
  function Ceil(x: real): int {
    -((-x).Floor)
  }

  /** How many steps the loop takes for `remaining` seconds. */
  function Ticks(remaining: real): nat {
    if remaining <= 0.0 then 0 else
      assert Ceil(remaining * 4000.0) >= 1;
      Ceil(remaining * 4000.0)
  }

  /** The `dt` values that `while (remaining > 0)` hands to `physicsStep`:
      `Math.min(remaining, SUB_DT)`, with `remaining` lowered by each. The
      steps are positive, at most `SUB_DT`, as many as `Ticks` says, and add
      up to exactly `remaining` (nothing when it is not positive). */
  function SubSteps(remaining: real): (steps: seq<real>)
    ensures |steps| == Ticks(remaining)
    ensures forall i :: 0 <= i < |steps| ==> 0.0 < steps[i] <= SUB_DT
    ensures Sum(steps) == if remaining > 0.0 then remaining else 0.0
    decreases Ticks(remaining)
  {
    if remaining <= 0.0 then []
    else
      var dt := if remaining < SUB_DT then remaining else SUB_DT;
      assert Ticks(remaining) == Ticks(remaining - dt) + 1;
      assert ([dt] + SubSteps(remaining - dt))[1..] == SubSteps(remaining - dt);
      [dt] + SubSteps(remaining - dt)
  }

  /** Total of a sequence of steps. */
  function Sum(dts: seq<real>): real {
    if dts == [] then 0.0 else dts[0] + Sum(dts[1..])
  }

  /** One pass of the loop: the first step is `min(remaining, SUB_DT)` and
      what is left takes one step fewer. */
  lemma SubStepsFirst(remaining: real)
    requires remaining > 0.0
    ensures var dt := if remaining < SUB_DT then remaining else SUB_DT;
      && SubSteps(remaining) == [dt] + SubSteps(remaining - dt)
      && Ticks(remaining - dt) < Ticks(remaining)
  {
  }

  /** One interval tick: the steps cover exactly `min(elapsed, 0.05)` seconds
      when time has passed, none at all otherwise, and never more than 200. */
  lemma TickSchedule(elapsed: real)
    ensures elapsed <= 0.0 ==> SubSteps(Capped(elapsed)) == []
    ensures elapsed > 0.0 ==> Sum(SubSteps(Capped(elapsed))) == Capped(elapsed)
    ensures |SubSteps(Capped(elapsed))| <= 200
    ensures forall i :: 0 <= i < |SubSteps(Capped(elapsed))| ==> 0.0 < SubSteps(Capped(elapsed))[i] <= SUB_DT
  {
  }
}
