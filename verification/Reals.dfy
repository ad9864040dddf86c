/** Arithmetic on reals shared by the models. */
module Reals {

  function Max(x: real, y: real): real { if x < y then y else x }

  lemma Scale(a: real, b: real, c: real)
    requires a <= b && c >= 0.0
    ensures a * c <= b * c
  {
  }
}
