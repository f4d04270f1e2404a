/** Notions shared by every component of the adapter. */
module Prelude {

  datatype Option<+T> = None | Some(value: T)

  /** The two peer servers that the adapter wires together. */
  datatype Side = A | B {
    function Other(): Side {
      if this == A then B else A
    }
  }

  const MAX_DELAY_MS := 0x7fff_ffff

  /** The delay Node.js really uses for `setTimeout(f, ms)`: anything below 1 ms or above 2^31-1 ms becomes 1 ms. */
  function Delay(ms: int): (d: nat)
    ensures 1 <= d <= 0x7fff_ffff
    ensures d == ms || (d == 1 && (ms < 1 || ms > 0x7fff_ffff))
  {
    if 1 <= ms <= MAX_DELAY_MS then ms else 1
  }

  /** `clearTimeout(handle)` on the pending timers: a no-op when the handle is unset, fired or already cleared. */
  function Clear<T>(pending: map<nat, T>, handle: Option<nat>): (rest: map<nat, T>)
  {
    if handle.Some? then pending - {handle.value} else pending
  }
}
