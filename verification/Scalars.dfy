/** Products under a name, so that equal factors are seen to give equal products, and guarded shares. */
module Scalars {
  function Times(a: real, b: real): real {
    a * b
  }

  /** A share of a whole; none where there is no whole. */
  function Ratio(part: real, whole: real): real {
    if whole > 0.0 then part / whole else 0.0
  }
}
