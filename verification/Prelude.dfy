/** Stock datatypes shared by the protocol models. */
module Prelude {
  datatype Option<+T> = None | Some(value: T)

  /** 2 to the power n, the base of both retry schedules. */
  function Pow2(n: nat): (p: nat)
    ensures p >= 1
  {
    if n == 0 then 1 else 2 * Pow2(n - 1)
  }
}
