/** The optional value used wherever the dashboard reads a field that may be
    missing (`x?.price`, a failed `parseFloat`, an absent map entry). */
module Wrappers {

  datatype Option<+T> = None | Some(value: T)

  /** JavaScript's `x || d` on a number that may be missing: a missing value
      and a zero (which is falsy) both fall back to `d`. */
  function OrElse(x: Option<real>, d: real): (r: real)
    ensures x.Some? && x.value != 0.0 ==> r == x.value
    ensures x.None? || x.value == 0.0 ==> r == d
  {
    if x.Some? && x.value != 0.0 then x.value else d
  }
}
