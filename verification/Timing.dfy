// Nanosecond timestamps of the monotonic clock: 64 bits, added with saturation where the code does.
module Timing {
  import opened Wrappers

  const U64_MAX: nat := 0xFFFF_FFFF_FFFF_FFFF

  // The sum, or the largest timestamp if that is less.
  function SaturatingAdd(a: nat, b: nat): (r: nat)
    ensures r <= U64_MAX && r <= a + b && (r == U64_MAX || r == a + b)
  {
    if a + b > U64_MAX then U64_MAX else a + b
  }

  // When the next report may start, if anything has been accepted.
  function Earliest(last: Option<nat>, interval: nat): nat {
    if last.Some? then SaturatingAdd(last.value, interval) else 0
  }

  function PacedTarget(last: Option<nat>, interval: nat, now: nat): nat {
    if last.Some? && SaturatingAdd(last.value, interval) > now then SaturatingAdd(last.value, interval) else now
  }
}
