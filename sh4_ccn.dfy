/** The SH-4 cache controller (CCN) as the emulator models it
    (src/guest/sh4/sh4_ccn.c): the half of the operand cache that can be used
    as RAM, the two store queues and their prefetch (flush) to guest memory,
    the instruction-cache and operand-cache-array stubs, and the write
    handlers of the CCR and MMUCR control registers. */
module Sh4Ccn {
  import opened Sh4Regs
  import opened LittleEndian
  import opened GuestMemory

  /** Bytes of operand-cache RAM: two 4 KB banks. */
  const CACHE_SIZE: nat := 0x2000
  /** Entries of the table that maps store-queue pages to physical pages. */
  const UTLB_SQ_ENTRIES: nat := 64

  // ---------------------------------------------------------------------
  // Addressing
  // ---------------------------------------------------------------------

  /** CACHE_OFFSET: the offset of `addr` in operand-cache RAM. The low 12
      bits are the offset inside a 4 KB bank; bit 12 picks the bank and is
      address bit 13, or address bit 25 when CCR.OIX is set. */
  function CacheOffset(addr: bv32, oix: bool): (off: bv32)
  {
    (if oix then (addr & 0x200_0000) >> 13 else (addr & 0x2000) >> 1) | (addr & 0xfff)
  }

  /** The offset keeps the in-bank bits and takes bit 12 from the bank
      select bit. */
  lemma CacheOffsetBits(addr: bv32, oix: bool)
    ensures CacheOffset(addr, oix) < 0x2000
    ensures CacheOffset(addr, oix) & 0xfff == addr & 0xfff
    ensures Bit(CacheOffset(addr, oix), 12) == if oix then Bit(addr, 25) else Bit(addr, 13)
  {
  }

  /** An access of 1, 2 or 4 bytes aligned to its width lies inside
      operand-cache RAM, whatever the address's upper bits and OIX. The C
      code does no bounds check; this is what the in-bounds requirement of
      the cache accesses amounts to for aligned accesses. */
  lemma AlignedAccessFits(addr: bv32, oix: bool, mask: bv32)
    requires IsAccessMask(mask) && addr & ((MaskBytes(mask) as bv32) - 1) == 0
    ensures CacheOffset(addr, oix) as nat + MaskBytes(mask) <= CACHE_SIZE
  {
    var off := CacheOffset(addr, oix);
    if mask == 0xff {
      CacheOffsetBits(addr, oix);
      assert off as nat <= 0x1fff;
    } else if mask == 0xffff {
      AlignedHalfOffset(addr, oix);
      assert off as nat <= 0x1ffe;
    } else {
      AlignedWordOffset(addr, oix);
      assert off as nat <= 0x1ffc;
    }
  }

  lemma AlignedHalfOffset(addr: bv32, oix: bool)
    requires addr & 1 == 0
    ensures CacheOffset(addr, oix) <= 0x1ffe
  {
    CacheOffsetBits(addr, oix);
  }

  lemma AlignedWordOffset(addr: bv32, oix: bool)
    requires addr & 3 == 0
    ensures CacheOffset(addr, oix) <= 0x1ffc
  {
    CacheOffsetBits(addr, oix);
  }

  /** Proof step, not a specification: CacheOffset with `oix` false
      unfolded, kept separate to keep the alias proofs cheap. */
  lemma CacheOffsetNoOix(addr: bv32)
    ensures CacheOffset(addr, false) == ((addr & 0x2000) >> 1) | (addr & 0xfff)
  {
  }

  /** Proof step, not a specification: CacheOffset with `oix` true
      unfolded, kept separate to keep the alias proofs cheap. */
  lemma CacheOffsetWithOix(addr: bv32)
    ensures CacheOffset(addr, true) == ((addr & 0x200_0000) >> 13) | (addr & 0xfff)
  {
  }

  lemma BankOffsetsEqual13(a: bv32, b: bv32)
    ensures ((a & 0x2000) >> 1) | (a & 0xfff) == ((b & 0x2000) >> 1) | (b & 0xfff) <==> a & 0x2fff == b & 0x2fff
  {
    if ((a & 0x2000) >> 1) | (a & 0xfff) == ((b & 0x2000) >> 1) | (b & 0xfff) {
      var x := ((a & 0x2000) >> 1) | (a & 0xfff);
      assert x & 0xfff == a & 0xfff;
      assert x & 0x1000 == (a & 0x2000) >> 1;
    }
  }

  lemma BankOffsetsEqual25(a: bv32, b: bv32)
    ensures ((a & 0x200_0000) >> 13) | (a & 0xfff) == ((b & 0x200_0000) >> 13) | (b & 0xfff) <==> a & 0x200_0fff == b & 0x200_0fff
  {
    if ((a & 0x200_0000) >> 13) | (a & 0xfff) == ((b & 0x200_0000) >> 13) | (b & 0xfff) {
      var x := ((a & 0x200_0000) >> 13) | (a & 0xfff);
      assert x & 0xfff == a & 0xfff;
      assert x & 0x1000 == (a & 0x200_0000) >> 13;
    }
  }

  /** Without OIX, two addresses share a byte of operand-cache RAM exactly
      when they agree on bits 13 and 11..0. */
  lemma CacheOffsetAliasNoOix(a: bv32, b: bv32)
    ensures CacheOffset(a, false) == CacheOffset(b, false) <==> a & 0x2fff == b & 0x2fff
  {
    CacheOffsetNoOix(a);
    CacheOffsetNoOix(b);
    BankOffsetsEqual13(a, b);
  }

  /** With OIX, two addresses share a byte of operand-cache RAM exactly when
      they agree on bits 25 and 11..0. */
  lemma CacheOffsetAliasWithOix(a: bv32, b: bv32)
    ensures CacheOffset(a, true) == CacheOffset(b, true) <==> a & 0x200_0fff == b & 0x200_0fff
  {
    CacheOffsetWithOix(a);
    CacheOffsetWithOix(b);
    BankOffsetsEqual25(a, b);
  }

  /** Concrete offsets: bit 13 selects the upper bank without OIX, bit 25
      with it, and other high bits are ignored. */
  lemma CacheOffsetExamples()
    ensures CacheOffset(0x2fff, false) == 0x1fff
    ensures CacheOffset(0x2000, false) == 0x1000
    ensures CacheOffset(0x200_0000, true) == 0x1000
    ensures CacheOffset(0x2fff, true) == 0x0fff
    ensures CacheOffset(0x7c00_2abc, false) == 0x1abc
  {
  }

  /** The store queue an address selects: address bit 5. */
  function SqIndex(addr: bv32): (q: nat)
    ensures q < 2
    ensures q == 1 <==> Bit(addr, 5)
  {
    ((addr & 0x20) >> 5) as nat
  }

  /** The word inside a store queue an address selects: address bits 4..2. */
  function SqWord(addr: bv32): (w: nat)
    ensures w < 8
    ensures (w % 2 == 1 <==> Bit(addr, 2)) && (w / 2 % 2 == 1 <==> Bit(addr, 3)) && (w / 4 == 1 <==> Bit(addr, 4))
  {
    ((addr & 0x1c) >> 2) as nat
  }

  /** Two addresses name the same store-queue word exactly when they agree
      on address bits 5..2. */
  lemma SqSlotAlias(a: bv32, b: bv32)
    ensures SqIndex(a) == SqIndex(b) && SqWord(a) == SqWord(b) <==> a & 0x3c == b & 0x3c
  {
    assert SqIndex(a) == ((a & 0x20) >> 5) as nat && SqIndex(b) == ((b & 0x20) >> 5) as nat;
    assert SqWord(a) == ((a & 0x1c) >> 2) as nat && SqWord(b) == ((b & 0x1c) >> 2) as nat;
  }

  /** The entry of the store-queue page table an address selects: address
      bits 25..20. */
  function UtlbIndex(addr: bv32): (i: nat)
    ensures i < UTLB_SQ_ENTRIES
  {
    ((addr >> 20) & 0x3f) as nat
  }

  /** The six bits of the page-table index are address bits 25..20. */
  lemma UtlbIndexBits(addr: bv32)
    ensures var i := UtlbIndex(addr) as bv32;
      i < 64 && (Bit(i, 0) <==> Bit(addr, 20)) && (Bit(i, 1) <==> Bit(addr, 21)) &&
      (Bit(i, 2) <==> Bit(addr, 22)) && (Bit(i, 3) <==> Bit(addr, 23)) &&
      (Bit(i, 4) <==> Bit(addr, 24)) && (Bit(i, 5) <==> Bit(addr, 25))
  {
  }

  /** Prefetch destination with address translation off: bits 4..2 of the
      queue's QACR register become address bits 28..26, bits 25..5 come from
      the prefetch address, and the rest is 0. */
  function QacrDest(addr: bv32, qacr: bv32): (dst: bv32)
  {
    ((qacr & 0x1c) << 24) | (addr & 0x3ff_ffe0)
  }

  lemma QacrDestBits(addr: bv32, qacr: bv32)
    ensures QacrDest(addr, qacr) & 0x1f == 0
    ensures QacrDest(addr, qacr) >> 29 == 0
    ensures (QacrDest(addr, qacr) >> 26) & 7 == (qacr >> 2) & 7
    ensures QacrDest(addr, qacr) & 0x3ff_ffff == addr & 0x3ff_ffe0
  {
  }

  /** Prefetch destination with address translation on: the page table
      entry supplies the upper 12 bits and the prefetch address bits 19..5.
      The destination is 32-byte aligned when the entry is. */
  function UtlbDest(addr: bv32, entry: bv32): (dst: bv32)
  {
    entry | (addr & 0xf_ffe0)
  }

  lemma UtlbDestBits(addr: bv32, entry: bv32)
    ensures UtlbDest(addr, entry) & 0x1f == entry & 0x1f
    ensures entry & 0xf_ffff == 0 ==>
      UtlbDest(addr, entry) & 0xfff0_0000 == entry && UtlbDest(addr, entry) & 0xf_ffff == addr & 0xf_ffe0
  {
  }

  /** Where a prefetch of `addr` writes its queue, given MMUCR.AT, the two
      QACR registers and the store-queue page table. */
  function PrefetchDest(addr: bv32, at: bool, qacr0: bv32, qacr1: bv32, utlb: seq<bv32>): (dst: bv32)
    requires |utlb| == UTLB_SQ_ENTRIES
  {
    if at then UtlbDest(addr, utlb[UtlbIndex(addr)])
    else QacrDest(addr, if SqIndex(addr) == 1 then qacr1 else qacr0)
  }

  /** With translation off the destination is 32-byte aligned, has bits
      31..29 clear, takes bits 28..26 from bits 4..2 of QACR0 or QACR1 (as
      address bit 5 picks the queue) and bits 25..5 from the address. */
  lemma PrefetchDestTranslationOff(addr: bv32, qacr0: bv32, qacr1: bv32, utlb: seq<bv32>)
    requires |utlb| == UTLB_SQ_ENTRIES
    ensures var dst := PrefetchDest(addr, false, qacr0, qacr1, utlb);
      var qacr := if Bit(addr, 5) then qacr1 else qacr0;
      dst & 0x1f == 0 && dst >> 29 == 0 && (dst >> 26) & 7 == (qacr >> 2) & 7 &&
      dst & 0x3ff_ffff == addr & 0x3ff_ffe0
  {
    QacrDestBits(addr, if SqIndex(addr) == 1 then qacr1 else qacr0);
  }

  /** With translation on the destination is the store-queue page table
      entry for address bits 25..20 with address bits 19..5 merged in; when
      the entry holds only a page number (its low 20 bits clear), its upper
      12 bits are the entry's and the destination is 32-byte aligned. */
  lemma PrefetchDestTranslationOn(addr: bv32, qacr0: bv32, qacr1: bv32, utlb: seq<bv32>)
    requires |utlb| == UTLB_SQ_ENTRIES
    ensures var dst := PrefetchDest(addr, true, qacr0, qacr1, utlb);
      var entry := utlb[UtlbIndex(addr)];
      dst & 0x1f == entry & 0x1f &&
      (entry & 0xf_ffff == 0 ==> dst & 0xfff0_0000 == entry && dst & 0xf_ffff == addr & 0xf_ffe0)
  {
    UtlbDestBits(addr, utlb[UtlbIndex(addr)]);
  }

  /** A prefetch of the second queue's area with translation off and
      QACR1 = 0x1c goes to 0x1c000020. */
  lemma PrefetchDestExample(utlb: seq<bv32>)
    requires |utlb| == UTLB_SQ_ENTRIES
    ensures SqIndex(0xe000_0020) == 1
    ensures PrefetchDest(0xe000_0020, false, 0, 0x1c, utlb) == 0x1c00_0020
  {
  }

  /** After a queue is copied to `dst`, byte `b` of word `j` is at
      `dst + 4 * j + b`, and every other byte of guest memory is as before:
      exactly the 4 * |ws| bytes from `dst` up change. */
  lemma CopyWordsBytes(mem: map<nat, bv8>, dst: nat, ws: seq<bv32>)
    ensures var r := CopyTo(mem, dst, WordsToBytes(ws));
      (forall j, b :: 0 <= j < |ws| && 0 <= b < 4 ==> dst + 4 * j + b in r && r[dst + 4 * j + b] == ByteAt(ws[j], b)) &&
      (forall a :: a in mem && !(dst <= a < dst + 4 * |ws|) ==> a in r && r[a] == mem[a]) &&
      (forall a :: a in r ==> a in mem || dst <= a < dst + 4 * |ws|)
  {
    var r := CopyTo(mem, dst, WordsToBytes(ws));
    forall j, b | 0 <= j < |ws| && 0 <= b < 4
      ensures r[dst + 4 * j + b] == ByteAt(ws[j], b)
    {
      assert (4 * j + b) / 4 == j && (4 * j + b) % 4 == b;
    }
  }

  // ---------------------------------------------------------------------
  // Stubs
  // ---------------------------------------------------------------------

  /** sh4_ccn_icache_read: the instruction cache arrays are not modelled and
      read as an invalid (all-zero) entry. */
  function IcacheRead(addr: bv32, mask: bv32): (r: bv32)
    ensures r == 0
  {
    0
  }

  /** sh4_ccn_ocache_read: the operand cache arrays are not modelled and read
      as an invalid (all-zero) entry. */
  function OcacheRead(addr: bv32, mask: bv32): (r: bv32)
    ensures r == 0
  {
    0
  }

  // ---------------------------------------------------------------------
  // State
  // ---------------------------------------------------------------------

  /** The part of the CPU state the cache controller reads and writes. The
      QACR registers and the store-queue page table are written elsewhere
      (the generic register handlers and the MMU) and are inputs here. */
  class Sh4 {
    var ccr: bv32
    var mmucr: bv32
    var qacr0: bv32
    var qacr1: bv32
    /** ctx.sq: two store queues of eight 32-bit words. */
    const sq: array2<bv32>
    /** ctx.cache: operand-cache RAM. */
    const cache: array<bv8>
    /** utlb_sq_map: physical page (upper 12 bits) per store-queue page. */
    const utlbSqMap: array<bv32>
    /** The guest memory a prefetch copies into. */
    const space: AddressSpace
    /** How many times jit_invalidate_blocks has been called. */
    ghost var invalidations: nat

    ghost predicate Valid()
      reads this
    {
      sq.Length0 == 2 && sq.Length1 == 8 && cache.Length == CACHE_SIZE &&
      utlbSqMap.Length == UTLB_SQ_ENTRIES
    }

    constructor (space: AddressSpace)
      ensures Valid() && this.space == space
      ensures fresh(sq) && fresh(cache) && fresh(utlbSqMap)
      ensures ccr == 0 && mmucr == 0 && qacr0 == 0 && qacr1 == 0 && invalidations == 0
    {
      sq := new bv32[2, 8];
      cache := new bv8[CACHE_SIZE];
      utlbSqMap := new bv32[UTLB_SQ_ENTRIES];
      this.space := space;
      ccr, mmucr, qacr0, qacr1 := 0, 0, 0, 0;
      invalidations := 0;
    }

    /** Proof helper, not a specification: the eight words of store queue
        `q` as a sequence, the view `ctx.sq[sqi]` that a prefetch copies. */
    function Queue(q: nat): (ws: seq<bv32>)
      requires Valid() && q < 2
      reads this, sq
      ensures |ws| == 8 && forall j :: 0 <= j < 8 ==> ws[j] == sq[q, j]
    {
      [sq[q, 0], sq[q, 1], sq[q, 2], sq[q, 3], sq[q, 4], sq[q, 5], sq[q, 6], sq[q, 7]]
    }

    /** sh4_ccn_reset: throw away every translated block. */
    method Reset()
      modifies this`invalidations
      ensures invalidations == old(invalidations) + 1
    {
      invalidations := invalidations + 1;
    }

    /** Where `addr` falls in operand-cache RAM under the current CCR.OIX. */
    function CacheIndex(addr: bv32): (off: nat)
      reads this
    {
      CacheOffset(addr, Oix(ccr)) as nat
    }

    /** sh4_ccn_cache_read: the `mask`-wide little-endian value at the
        address's offset in operand-cache RAM. Only called with CCR.ORA set;
        the access must lie inside the buffer. */
    function CacheRead(addr: bv32, mask: bv32): (data: bv32)
      requires Valid() && Ora(ccr) && IsAccessMask(mask)
      requires CacheIndex(addr) + MaskBytes(mask) <= CACHE_SIZE
      reads this, cache
      ensures forall k :: 0 <= k < 4 ==>
        ByteAt(data, k) == if k < MaskBytes(mask) then cache[CacheIndex(addr) + k] else 0
    {
      LoadLEBytes(cache[..], CacheIndex(addr), MaskBytes(mask));
      LoadLE(cache[..], CacheIndex(addr), MaskBytes(mask))
    }

    /** sh4_ccn_cache_write: store the low `mask` bytes of `data`, little
        endian, at the address's offset in operand-cache RAM; a read of the
        same address and width then returns them, and no other byte of the
        RAM changes. */
    method CacheWrite(addr: bv32, data: bv32, mask: bv32)
      requires Valid() && Ora(ccr) && IsAccessMask(mask)
      requires CacheIndex(addr) + MaskBytes(mask) <= CACHE_SIZE
      modifies cache
      ensures cache[..] == StoreLE(old(cache[..]), CacheIndex(addr), MaskBytes(mask), data)
      ensures CacheRead(addr, mask) == data & mask
      ensures forall k :: 0 <= k < CACHE_SIZE && !(CacheIndex(addr) <= k < CacheIndex(addr) + MaskBytes(mask)) ==>
        cache[k] == old(cache[k])
    {
      var off := CacheIndex(addr);
      var n := MaskBytes(mask);
      forall k | off <= k < off + n {
        cache[k] := ByteAt(data, k - off);
      }
      ghost var expected := StoreLE(old(cache[..]), off, n, data);
      assert cache[..] == expected;
      StoreLoadLE(old(cache[..]), off, mask, data);
    }

    /** sh4_ccn_sq_read: the store-queue word the address selects; the
        access mask is ignored. */
    function SqRead(addr: bv32, mask: bv32): (data: bv32)
      requires Valid()
      reads this, sq
    {
      sq[SqIndex(addr), SqWord(addr)]
    }

    /** sh4_ccn_sq_write: replace the store-queue word the address selects,
        whatever the access mask; the other fifteen words keep their values. */
    method SqWrite(addr: bv32, data: bv32, mask: bv32)
      requires Valid()
      modifies sq
      ensures forall m :: SqRead(addr, m) == data
      ensures forall i, j :: 0 <= i < 2 && 0 <= j < 8 && (i != SqIndex(addr) || j != SqWord(addr)) ==>
        sq[i, j] == old(sq[i, j])
    {
      var sqi := SqIndex(addr);
      var idx := SqWord(addr);
      sq[sqi, idx] := data;
    }

    /** sh4_ccn_sq_prefetch: copy the 32 bytes of the queue address bit 5
        selects, as they lie in host memory, to the guest address
        PrefetchDest computes. Only guest memory changes. */
    method SqPrefetch(addr: bv32)
      requires Valid()
      requires 0xe000_0000 <= addr <= 0xe3ff_ffff
      modifies space
      ensures space.bytes ==
        CopyTo(old(space.bytes), PrefetchDest(addr, At(mmucr), qacr0, qacr1, utlbSqMap[..]) as nat,
               WordsToBytes(Queue(SqIndex(addr))))
    {
      var sqi := SqIndex(addr);
      var dst := PrefetchDest(addr, At(mmucr), qacr0, qacr1, utlbSqMap[..]);
      space.MemcpyToGuest(dst as nat, WordsToBytes(Queue(sqi)));
    }

    /** sh4_ccn_icache_write: writes to the instruction cache arrays are
        ignored. */
    method IcacheWrite(addr: bv32, data: bv32, mask: bv32)
      ensures unchanged(this, sq, cache, utlbSqMap, space)
    {
    }

    /** sh4_ccn_ocache_write: writes to the operand cache arrays are ignored. */
    method OcacheWrite(addr: bv32, data: bv32, mask: bv32)
      ensures unchanged(this, sq, cache, utlbSqMap, space)
    {
    }

    /** MMUCR write handler: the value is stored as written and no
        translated block is invalidated. */
    method WriteMmucr(value: bv32)
      modifies this`mmucr
      ensures mmucr == value
      ensures invalidations == old(invalidations)
    {
      mmucr := value;
    }

    /** CCR write handler: store the value; if it sets ICI, invalidate every
        translated block once; ICI and OCI then read back as 0. */
    method WriteCcr(value: bv32)
      modifies this`ccr, this`invalidations
      ensures ccr == CcrStored(value)
      ensures invalidations == old(invalidations) + (if Ici(value) then 1 else 0)
    {
      var full := value;
      if Ici(full) {
        Reset();
      }
      full := full & !CCR_ICI;
      full := full & !CCR_OCI;
      ccr := full;
    }
  }
}
