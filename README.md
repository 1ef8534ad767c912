# SH-4 cache controller (CCN) model

A Dafny model of the guest SH-4 cache controller of the emulator
(`src/guest/sh4/sh4_ccn.c`), with proofs about it. It covers:

- the addressing of the half of the operand cache that can be used as RAM;
- reads and writes of that RAM;
- reads and writes of the two 32-byte store queues;
- the store-queue prefetch, which copies a queue to guest memory;
- the stubs for the instruction-cache and operand-cache arrays;
- the write handlers of the CCR and MMUCR control registers.

Modules:

- `Sh4Regs` (`regs.dfy`): the CCR and MMUCR bits the controller uses, and
  the value CCR holds after a write.
- `LittleEndian` (`bytes.dfy`): how a 32-bit word lies in a byte buffer on
  the little-endian host, and what the 8-, 16- and 32-bit data masks cover.
- `GuestMemory` (`memory.dfy`): guest memory as a map from addresses to
  bytes, and the copy a prefetch performs into it.
- `Sh4Ccn` (`sh4_ccn.dfy`): the controller itself.
  - The address computations are pure functions with lemmas about them.
  - The state is the class `Sh4`. Its fields are the control registers,
    the store queues (a 2×8 `array2`), the cache RAM (an `array` of bytes),
    the store-queue page table and the guest address space.
  - Its methods change that state as the C functions do.

`jit_invalidate_blocks` is modelled by a ghost counter `invalidations`.
The counter records how many times every translated block was thrown away.

Without OIX the bank bit is address bit 13 (`(addr & 0x2000) >> 1`,
sh4_ccn.c:12), so address 0x2FFF maps to offset 0x1FFF
(`Sh4Ccn.CacheOffsetExamples`).

## Model

| member | source | states |
|---|---|---|
| Sh4Ccn.CacheOffsetBits | src/guest/sh4/sh4_ccn.c:10-12 | The cache offset is below 0x2000. Its low 12 bits are the address's low 12 bits. Its bit 12 is address bit 13, or address bit 25 when OIX is set. |
| Sh4Ccn.CacheOffset | src/guest/sh4/sh4_ccn.c:10-12 | CACHE_OFFSET. Its meaning is given by CacheOffsetBits and the two alias lemmas. |
| Sh4Ccn.AlignedAccessFits | src/guest/sh4/sh4_ccn.c:69-77 | An access aligned to its own width (1, 2 or 4 bytes) ends inside the 8 KB cache RAM, for every address and both OIX settings. So the in-bounds precondition of CacheRead and CacheWrite holds for every aligned access. |
| Sh4Ccn.CacheOffsetAliasNoOix | src/guest/sh4/sh4_ccn.c:10-12 | Without OIX, two addresses map to the same cache byte if and only if they agree on bits 13 and 11..0. |
| Sh4Ccn.CacheOffsetAliasWithOix | src/guest/sh4/sh4_ccn.c:10-12 | With OIX, two addresses map to the same cache byte if and only if they agree on bits 25 and 11..0. |
| Sh4Ccn.CacheOffsetExamples | src/guest/sh4/sh4_ccn.c:11-12 | Concrete offsets include 0x2FFF → 0x1FFF without OIX and 0x2000000 → 0x1000 with OIX. |
| Sh4Ccn.SqIndex | src/guest/sh4/sh4_ccn.c:40 | The store queue selected is 0 or 1, and it is 1 exactly when address bit 5 is set. |
| Sh4Ccn.SqWord | src/guest/sh4/sh4_ccn.c:82 | The word index is below 8, and its three bits are address bits 2, 3 and 4. |
| Sh4Ccn.SqSlotAlias | src/guest/sh4/sh4_ccn.c:81-82 | Two addresses name the same store-queue word if and only if they agree on address bits 5..2. |
| Sh4Ccn.UtlbIndex | src/guest/sh4/sh4_ccn.c:44-45 | The page-table index is below 64, so the lookup stays inside the table. |
| Sh4Ccn.UtlbIndexBits | src/guest/sh4/sh4_ccn.c:44-45 | The six bits of the page-table index are address bits 25..20. |
| Sh4Ccn.QacrDest | src/guest/sh4/sh4_ccn.c:50-58 | The translation-off destination. QacrDestBits gives its meaning. |
| Sh4Ccn.QacrDestBits | src/guest/sh4/sh4_ccn.c:50-58 | The translation-off destination is 32-byte aligned and has bits 31..29 clear. Its bits 28..26 are QACR bits 4..2, and its bits 25..0 are the address's bits 25..5 with the low 5 bits cleared. |
| Sh4Ccn.UtlbDest | src/guest/sh4/sh4_ccn.c:43-48 | The translation-on destination. UtlbDestBits gives its meaning. |
| Sh4Ccn.UtlbDestBits | src/guest/sh4/sh4_ccn.c:43-48 | The translation-on destination keeps the entry's low 5 bits. When the entry holds only a page number, the destination's upper 12 bits are the entry and its low 20 bits are address bits 19..5. |
| Sh4Ccn.PrefetchDest | src/guest/sh4/sh4_ccn.c:39-59 | The prefetch destination: it chooses between the two branches on MMUCR.AT. PrefetchDestTranslationOff and PrefetchDestTranslationOn give its meaning. |
| Sh4Ccn.PrefetchDestTranslationOff | src/guest/sh4/sh4_ccn.c:39-59 | With MMUCR.AT clear, the destination is ((QACRn & 0x1c) << 24) \| (addr & 0x3ffffe0), where n is address bit 5. It is 32-byte aligned with bits 31..29 clear. |
| Sh4Ccn.PrefetchDestTranslationOn | src/guest/sh4/sh4_ccn.c:42-48 | With MMUCR.AT set, the destination is the page-table entry at UtlbIndex(addr), with address bits 19..5 merged in. UtlbIndexBits shows that this index is address bits 25..20. |
| Sh4Ccn.PrefetchDestExample | src/guest/sh4/sh4_ccn.c:39-59 | With translation off and QACR1 = 0x1C, a prefetch of 0xE0000020 uses queue 1 and goes to 0x1C000020. |
| Sh4Ccn.CopyWordsBytes | src/guest/sh4/sh4_ccn.c:61 | After a queue is copied, byte b of word j is at dst + 4j + b. Every guest byte outside the 4·(number of words) bytes from dst is unchanged, and no other address is added. |
| Sh4Ccn.Sh4.SqPrefetch | src/guest/sh4/sh4_ccn.c:31-64 | It accepts only addresses 0xE0000000..0xE3FFFFFF. Guest memory afterwards is the old memory with the queue's 32 bytes copied to PrefetchDest, and nothing else changes. |
| Sh4Ccn.Sh4.CacheIndex | src/guest/sh4/sh4_ccn.c:69 | The cache offset under the current CCR.OIX, used for both cache reads and writes. |
| Sh4Ccn.Sh4.CacheRead | src/guest/sh4/sh4_ccn.c:66-71 | It requires CCR.ORA. The result's low mask-width bytes are the cache bytes at the offset, in little-endian order, and its other bytes are 0. |
| Sh4Ccn.Sh4.CacheWrite | src/guest/sh4/sh4_ccn.c:73-78 | It requires CCR.ORA. The RAM becomes the old RAM with the mask-width bytes of data stored at the offset, and every other byte is unchanged. A read of the same address and mask then returns data & mask. |
| Sh4Ccn.Sh4.SqRead | src/guest/sh4/sh4_ccn.c:80-84 | The store-queue word at bits 5..2 of the address, with the mask ignored. Its partner is SqWrite, whose `forall m :: SqRead(addr, m) == data` shows that a read with any mask returns the last word written. |
| Sh4Ccn.Sh4.SqWrite | src/guest/sh4/sh4_ccn.c:80-91 | A read of the same address with any mask returns the data, whatever the write's mask. The other 15 store-queue words are unchanged. |
| Sh4Ccn.Sh4.Reset | src/guest/sh4/sh4_ccn.c:14-29 | Every translated block is invalidated exactly once. |
| Sh4Ccn.Sh4.WriteCcr | src/guest/sh4/sh4_ccn.c:133-147 | CCR holds the written value with ICI and OCI cleared. Blocks are invalidated exactly once if the written ICI is 1, and not at all otherwise. |
| Sh4Ccn.Sh4.WriteMmucr | src/guest/sh4/sh4_ccn.c:123-131 | MMUCR holds the written value verbatim, and nothing is invalidated. |
| Sh4Ccn.IcacheRead | src/guest/sh4/sh4_ccn.c:93-99 | An instruction-cache array read returns 0, an invalid entry. |
| Sh4Ccn.Sh4.IcacheWrite | src/guest/sh4/sh4_ccn.c:101-106 | An instruction-cache array write changes nothing. |
| Sh4Ccn.OcacheRead | src/guest/sh4/sh4_ccn.c:108-114 | An operand-cache array read returns 0, an invalid entry. |
| Sh4Ccn.Sh4.OcacheWrite | src/guest/sh4/sh4_ccn.c:116-121 | An operand-cache array write changes nothing. |
| Sh4Regs.CcrStored | src/guest/sh4/sh4_ccn.c:138-146 | The value CCR holds after a write. CcrStoredBits, CcrStoredKeeps and CcrStoredIdempotent give its meaning. |
| Sh4Regs.CcrStoredBits | src/guest/sh4/sh4_ccn.c:138-146 | The stored CCR has ICI and OCI clear, and every other bit is the written one. |
| Sh4Regs.CcrStoredKeeps | src/guest/sh4/sh4_ccn.c:138-146 | The cache mode bits ORA and OIX are stored as written. |
| Sh4Regs.CcrStoredIdempotent | src/guest/sh4/sh4_ccn.c:144-146 | Writing back what CCR holds changes nothing and requests no invalidation. |
| LittleEndian.LoadLE | src/guest/sh4/sh4_ccn.c:70 | READ_DATA: a little-endian load of the mask's width. LoadLEBytes and StoreLoadLE give its meaning. |
| LittleEndian.LoadLEBytes | src/guest/sh4/sh4_ccn.c:70 | A loaded value's byte k is buffer byte off + k for the loaded width, and 0 above it. |
| LittleEndian.StoreLE | src/guest/sh4/sh4_ccn.c:77 | The store writes the low n bytes of the word at off, least significant first, and leaves every other byte unchanged. |
| LittleEndian.StoreLoadLE | src/guest/sh4/sh4_ccn.c:70-77 | Loading what was stored at the same offset and mask gives back the word under the mask. |
| LittleEndian.MaskedBytes | src/guest/sh4/sh4_ccn.c:70-77 | Applying an 8-, 16- or 32-bit data mask keeps the bytes the access covers and clears the others. |
| LittleEndian.WordsToBytes | src/guest/sh4/sh4_ccn.c:61 | A queue's bytes as copied from host memory: byte k is byte k mod 4 of word k / 4. |
| LittleEndian.WordsToBytesRoundTrip | src/guest/sh4/sh4_ccn.c:61 | Reading word j back out of the copied bytes gives word j of the queue. |
| GuestMemory.CopyTo | src/guest/sh4/sh4_ccn.c:61 | Copying n bytes to dst puts byte i at dst + i and leaves every other address as it was. |
| GuestMemory.AddressSpace.MemcpyToGuest | src/guest/sh4/sh4_ccn.c:61 | Guest memory after the copy is CopyTo of the memory before it. |

## Left out

- Logging and profiling (`LOG_INFO`, `LOG_CCN`, `PROF_ENTER`/`PROF_LEAVE`) and the MMUCR "MMU not fully supported" warning: they have no effect on state.
- When the invalidation takes effect is not modelled. Per the FIXME at src/guest/sh4/sh4_ccn.c:15-25, it takes effect at the end of the current block. The model counts the calls to `jit_invalidate_blocks`.
- `jit_invalidate_blocks`: what it does inside the JIT is not part of this model. Only the number of calls is kept, in the ghost counter `invalidations`.
- `as_memcpy_to_guest`: the page lookup and device dispatch behind it are not part of this model. Guest memory is a map from unbounded addresses to bytes, so a destination near the top of the 32-bit space does not wrap.
- `READ_DATA` and `WRITE_DATA` are defined in a header that is not part of this model. They are modelled as little-endian accesses of the width the data mask gives (8, 16 or 32 bits). 64-bit accesses are not modelled.
- Sh4Ccn.Sh4.CacheRead: requires the access to lie inside the 8 KB cache buffer. The C code does not check this. `Sh4Ccn.AlignedAccessFits` proves that every access of 1, 2 or 4 bytes aligned to its width fits.
- Sh4Ccn.Sh4.CacheWrite: the same in-bounds requirement as CacheRead, for the same reason.
- The bit positions of CCR (OCI 3, ORA 5, OIX 7, ICI 11) and MMUCR (AT 0) come from the SH-4 hardware manual. The register unions that define them are not part of this model.
- Sh4Ccn.Sh4.SqPrefetch: the `DCHECK` on the address range is a debug-build assertion, modelled as a precondition. The per-byte layout of the copy is a separate lemma (`CopyWordsBytes`), not an ensures clause of the method.
- The QACR0/QACR1 writes and the upkeep of `utlb_sq_map` are done by the generic register handlers and the MMU. Here these values are inputs: fields of `Sh4` that no method changes.
- The `REG_W32` registration plumbing and the `dc->sh4` lookup.
- The assembler's jump-encoding tests (`jmp.cpp`) and the translator lookup (`sh4_translate.h`) are outside the cache controller and are not modelled.
