/** Arithmetic helpers on reals shared by the engine and the server models. */
module Reals {

  /** Math.abs */
  function Abs(x: real): real { if x < 0.0 then -x else x }

}
