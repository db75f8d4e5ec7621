/** An optional value: a field that may be `undefined`, or a lookup that may
    find nothing. */
module Options {

  datatype Option<+T> = None | Some(value: T)

  /** `x || 0` on an optional integer: a missing value reads as 0 (so does
      a present 0, which is the same result). */
  function OrZero(x: Option<int>): (n: int)
    ensures x.Some? ==> n == x.value
    ensures x.None? ==> n == 0
  {
    if x.Some? then x.value else 0
  }
}
