/**
 * Machine words and the bit operations the exit handlers perform on them.
 * Registers, VMCS fields and flags are all 64-bit words (`ULONG_PTR`); the
 * arithmetic on them wraps around at 2^64 exactly as the processor's does.
 */
module Bits {
  /** A byte of guest memory; no bit operation is done on bytes, so it is kept as a number. */
  newtype u8 = x: int | 0 <= x < 256
  type u64 = bv64

  /** `v` with every bit of `mask` forced to one and the other bits kept. */
  function SetBits(v: u64, mask: u64): (r: u64)
    ensures r & mask == mask
    ensures r & !mask == v & !mask
  {
    v | mask
  }

  /** `v` with every bit of `mask` forced to zero and the other bits kept. */
  function ClearBits(v: u64, mask: u64): (r: u64)
    ensures r & mask == 0
    ensures r & !mask == v & !mask
  {
    v & !mask
  }

  /** The low 32 bits of `v`, zero-extended: `ULARGE_INTEGER::LowPart`. */
  function LowPart(v: u64): (r: u64)
    ensures r >> 32 == 0
    ensures r & 0xFFFF_FFFF == v & 0xFFFF_FFFF
  {
    v & 0xFFFF_FFFF
  }

  /**
   * The high 32 bits of `v`, shifted down: `ULARGE_INTEGER::HighPart`.
   * Together with `LowPart` it loses nothing: joining the halves again
   * gives back `v`.
   */
  function HighPart(v: u64): (r: u64)
    ensures r >> 32 == 0
    ensures MakeQuad(r, LowPart(v)) == v
  {
    v >> 32
  }

  /**
   * The 64-bit value whose high half is the low 32 bits of `high` and whose
   * low half is the low 32 bits of `low` (an `EDX:EAX` pair).
   */
  function MakeQuad(high: u64, low: u64): (r: u64)
    ensures LowPart(r) == LowPart(low)
    ensures r >> 32 == LowPart(high)
  {
    (high << 32) | (low & 0xFFFF_FFFF)
  }
}
