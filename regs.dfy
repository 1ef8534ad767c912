/** Bit layout of the SH-4 cache and MMU control registers that the cache
    controller reads and writes (CCR and MMUCR).

    The positions follow the SH-4 hardware manual: CCR.OCI is bit 3, CCR.ORA
    bit 5, CCR.OIX bit 7, CCR.ICI bit 11, and MMUCR.AT is bit 0. */
module Sh4Regs {

  /** Bit `i` of `x`, as a boolean. */
  predicate Bit(x: bv32, i: bv5)
  {
    (x >> i) & 1 == 1
  }

  // CCR: operand cache invalidate (auto-clears)
  const OCI_POS: bv5 := 3
  // CCR: operand cache RAM mode (half the operand cache used as RAM)
  const ORA_POS: bv5 := 5
  // CCR: operand cache index mode (bit 25 instead of bit 13 picks the RAM bank)
  const OIX_POS: bv5 := 7
  // CCR: instruction cache invalidate (auto-clears)
  const ICI_POS: bv5 := 11
  // MMUCR: address translation enable
  const AT_POS: bv5 := 0

  const CCR_OCI: bv32 := 0x8
  const CCR_ORA: bv32 := 0x20
  const CCR_OIX: bv32 := 0x80
  const CCR_ICI: bv32 := 0x800
  const MMUCR_AT: bv32 := 0x1

  predicate Oci(ccr: bv32) { Bit(ccr, OCI_POS) }
  predicate Ora(ccr: bv32) { Bit(ccr, ORA_POS) }
  predicate Oix(ccr: bv32) { Bit(ccr, OIX_POS) }
  predicate Ici(ccr: bv32) { Bit(ccr, ICI_POS) }
  predicate At(mmucr: bv32) { Bit(mmucr, AT_POS) }

  /** The value CCR holds after `value` is written to it. */
  function CcrStored(value: bv32): (stored: bv32)
  {
    (value & !CCR_ICI) & !CCR_OCI
  }

  /** ICI and OCI of the stored value read back as 0; every other bit is
      the written one. */
  lemma CcrStoredBits(value: bv32)
    ensures !Ici(CcrStored(value)) && !Oci(CcrStored(value))
    ensures CcrStored(value) & (CCR_ICI | CCR_OCI) == 0
    ensures CcrStored(value) & !(CCR_ICI | CCR_OCI) == value & !(CCR_ICI | CCR_OCI)
  {
  }

  /** The cache mode bits are stored as written. */
  lemma CcrStoredKeeps(value: bv32)
    ensures Ora(CcrStored(value)) == Ora(value) && Oix(CcrStored(value)) == Oix(value)
  {
  }

  /** Writing back what CCR reads as changes nothing and requests no
      invalidation: the invalidate bits behave as read-only. */
  lemma CcrStoredIdempotent(value: bv32)
    ensures CcrStored(CcrStored(value)) == CcrStored(value)
    ensures !Ici(CcrStored(value))
  {
  }
}
