/** The part of JavaScript's `Math` object the simulator relies on.
    Floating-point `Math.PI`, `Math.sin`, `Math.cos`, `Math.hypot`/`Math.sqrt`
    and `Math.atan2` are not computable over Dafny's `real`s, so the model
    carries them as an explicit value and assumes of it only the laws that
    the proofs use. */
module RealMath {

  datatype Math = Math(
    pi: real,
    sin: real -> real,
    cos: real -> real,
    sqrt: real -> real,
    atan2: (real, real) -> real)
  {
    /** Angular frequency `2 * Math.PI * hz`, in rad/s. */
    function Omega(hz: real): real {
      2.0 * pi * hz
    }

    /** `Math.hypot(x, y)`. */
    function Hypot(x: real, y: real): real {
      sqrt(x * x + y * y)
    }

    /** `sqrt(v)` is the non-negative square root of `v`. */
    ghost predicate IsRoot(v: real) {
      0.0 <= sqrt(v) && sqrt(v) * sqrt(v) == v
    }

    /** `cos(a)` and `sin(a)` lie on the unit circle. */
    ghost predicate OnCircle(a: real) {
      sin(a) * sin(a) + cos(a) * cos(a) == 1.0
    }

    /** pi is positive, sqrt is the square root on non-negative arguments,
        and sin and cos lie on the unit circle. The laws are stated through
        `IsRoot` and `OnCircle` so that a proof draws on them only where it
        names them. */
    ghost predicate Lawful() {
      && pi > 0.0
      && (forall v :: 0.0 <= v ==> IsRoot(v))
      && (forall a :: OnCircle(a))
    }
  }
}
