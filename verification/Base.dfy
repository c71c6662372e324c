/** Shared vocabulary: optional values, checked 64-bit naturals and stable identifiers. */
module Base {

  datatype Option<+T> = None | Some(value: T)

  const U64_MAX: nat := 0xFFFF_FFFF_FFFF_FFFF

  /** The range of the unsigned 64-bit counters, revisions and timestamps. */
  type U64 = n: nat | n <= U64_MAX

  /** `checked_add`: the sum, or nothing when it does not fit. */
  function CheckedAdd(a: U64, b: U64): (r: Option<U64>)
    ensures r.Some? <==> a + b <= U64_MAX
    ensures r.Some? ==> r.value == a + b
  {
    if a + b <= U64_MAX then Some(a + b) else None
  }

  /** Identifiers are opaque; the all-zero value is the nil identifier. */
  type HostId = nat
  type DisplayId = nat
  type DeviceId = nat

  const NIL: nat := 0
}
