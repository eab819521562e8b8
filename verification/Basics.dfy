/** Small shared vocabulary. */
module Basics {

  datatype Option<+T> = None | Some(value: T)
  {
    function UnwrapOr(default: T): T { if Some? then value else default }
  }

  // Elapsed time as it is reported: never negative.
  function Milliseconds(elapsed: real): (r: real) {
    if elapsed < 0.0 then 0.0 else elapsed
  }

  // Conversion of a real number to an integer that rounds toward zero.
  function Trunc(x: real): int {
    if x >= 0.0 then x.Floor else -((-x).Floor)
  }
}
