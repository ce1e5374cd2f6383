/**
 * The JavaScript `Math` functions the animation code calls. Their exact values are
 * not modelled: they are a parameter of the model, and `Valid` states the only facts
 * about them the proofs rely on.
 */
module Trig {
  /** `Math.sin`, `Math.cos`, `Math.sqrt` and `Math.atan2`. */
  datatype MathLib = MathLib(sin: real -> real, cos: real -> real, sqrt: real -> real, atan2: (real, real) -> real)
  {
    /** Sine and cosine lie in [-1, 1]; square roots are non-negative; atan2 is unconstrained. */
    ghost predicate Valid() {
      && (forall x :: -1.0 <= sin(x) <= 1.0)
      && (forall x :: -1.0 <= cos(x) <= 1.0)
      && (forall x :: 0.0 <= sqrt(x))
    }
  }
}
