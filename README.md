# seL4 ARM32 machine-hardware constants

A Dafny model of the ARM32 architecture-constants header of the seL4 kernel
(`include/arch/arm/arch/32/mode/machine/hardware.h`). The header fixes, at
build time, the facts the rest of the kernel reads about the processor:

- the page-size classes of the MMU and the runtime function
  `pageBitsForSize`, which maps a `vm_page_size` word to the bit-width of
  that mapping size;
- the first-level cache-line size `L1_CACHE_LINE_SIZE_BITS`, picked by an
  `#if/#elif` chain over the microarchitecture selectors, and
  `L1_CACHE_LINE_SIZE`;
- the bit positions `CONTROL_*` of the System Control Register (SCTLR,
  section B4.1.130 of the ARMv7-A Architecture Reference Manual);
- the CPSR mode encodings `PMODE_*` and the exception-mask bits `PMASK_*`
  (sections B1.3.1 and B1.3.3 of the same manual), and the kernel and idle
  modes `PMODE_KERNEL` / `PMODE_IDLE`, chosen by hypervisor support;
- on the HiKey platform, the Cortex-A53 CPU Extended Control Register
  prefetcher pattern `PREFETCHER` and its `PREFETCHER_MASK`.

Every preprocessor choice becomes a function of a `BuildConfig` record
(the set of defined microarchitecture selectors, the hypervisor flag, the
HiKey and debug-disable flags, and the prefetcher tuning values). Register
words are `bv32`. The header is purely declarative, so the model is made
of datatypes, functions and lemmas: no state and no loops.

Files:

- `wrappers.dfy` — `Option`, for a selection that yields no definition
  (`#error`) or a call that yields no value (`fail`).
- `bits.dfy` — single bits and words composed from flags by OR, with the
  lemmas that a flag in a composed word can be tested on its own.
- `hardware.dfy` — module `Hardware32`, the header itself.

Three facts about the header shape the model:

- The header takes the four page bit-widths from another header and
  orders none of them, so the model assumes no order.
  `PageBitsForSizeMonotone` shows that an order a platform supplies carries
  over to `pageBitsForSize`.
- The production prefetcher mask `0xDAE000` leaves out bit 18, the upper
  bit of the stride field. A stride of 4 or 5 therefore sets a bit outside
  the mask (`StrideEscapesMask`). The mask contains the pattern for a
  stride of 2 or 3 (`PrefetcherWithinMask`).
- With a stride of 6, the stride field spills into the stream-count
  field (`PrefetcherStrideSixOverlapsStreams`).

## Model

| member | source | states |
|---|---|---|
| `Hardware32.PageSizeValue` | include/arch/arm/arch/32/mode/machine/hardware.h:130-136 | each `vm_page_size` enumerator is a word below 4 |
| `Hardware32.PageSizeOfValue` | include/arch/arm/arch/32/mode/machine/hardware.h:130-136 | a word is an enumerator exactly when it is below 4, and then it is that enumerator's value |
| `Hardware32.PageSizeValueRoundTrip` | include/arch/arm/arch/32/mode/machine/hardware.h:130-135 | the four enumerator values are distinct: reading a value back gives the same page size |
| `Hardware32.FrameBits` | include/arch/arm/arch/32/mode/machine/hardware.h:138-143 | each `frameSizeConstants` entry is one of the four `seL4_*Bits` values, `ARMSmallPageBits` the small-page one and `ARMSuperSectionBits` the supersection one |
| `Hardware32.PageBitsForSize` | include/arch/arm/arch/32/mode/machine/hardware.h:145-164 | a result exists exactly for words 0..3; they give `ARMSmallPageBits`, `ARMLargePageBits`, `ARMSectionBits`, `ARMSuperSectionBits` in that order; any word of 4 or more reaches `fail` and has no result |
| `Hardware32.PageBitsForSizeTotal` | include/arch/arm/arch/32/mode/machine/hardware.h:138-159 | every page size is answered with its own `frameSizeConstants` entry |
| `Hardware32.PageBitsForSizeMatchesTable` | include/arch/arm/arch/32/mode/machine/hardware.h:145-164 | for every word, the switch agrees with the table on enumerator values and fails on all others |
| `Hardware32.PageBitsIsSmallPage` | include/arch/arm/arch/32/mode/machine/hardware.h:17 | `PAGE_BITS` is what `pageBitsForSize(ARMSmallPage)` returns |
| `Hardware32.PageBits` | include/arch/arm/arch/32/mode/machine/hardware.h:17 | `PAGE_BITS` is the small-page entry of the `frameSizeConstants` table |
| `Hardware32.PageBitsForSizeMonotone` | include/arch/arm/arch/32/mode/machine/hardware.h:138-143 | when the platform's four constants are increasing, so is `pageBitsForSize` over the words 0..3 |
| `Hardware32.L1CacheLineSizeBits` | include/arch/arm/arch/32/mode/machine/hardware.h:21-42 | the line size is undefined (`#error`) exactly when no selector is defined, and otherwise is 5 or 6 |
| `Hardware32.LineBitsOf` | include/arch/arm/arch/32/mode/machine/hardware.h:21-38 | each selector's own branch defines 5 or 6 bits, and 5 exactly for ARM1136JF-S and Cortex-A9 |
| `Hardware32.ChainRank` | include/arch/arm/arch/32/mode/machine/hardware.h:21-38 | each branch of the `#if/#elif` chain sits at one of six positions |
| `Hardware32.ChainRankDistinct` | include/arch/arm/arch/32/mode/machine/hardware.h:21-38 | no two branches of the chain share a position, so the first defined selector is unique |
| `Hardware32.L1CacheLineSizeBitsFirstMatch` | include/arch/arm/arch/32/mode/machine/hardware.h:21-38 | when several selectors are defined, the one earliest in the chain decides |
| `Hardware32.L1CacheLineSizeBitsSingle` | include/arch/arm/arch/32/mode/machine/hardware.h:21-38 | one selector gives 5 bits exactly for ARM1136JF-S and Cortex-A9, and 6 for Cortex-A8, A7, A15 and A53 |
| `Hardware32.L1CacheLineSize` | include/arch/arm/arch/32/mode/machine/hardware.h:44 | `BIT(L1_CACHE_LINE_SIZE_BITS)` is defined exactly when the bits are, and is 32 bytes for 5 bits, otherwise 64 |
| `Hardware32.ControlPosition` | include/arch/arm/arch/32/mode/machine/hardware.h:50-67 | every SCTLR field position lies within the 32-bit register |
| `Hardware32.ControlPositionsDistinct` | include/arch/arm/arch/32/mode/machine/hardware.h:50-67 | two SCTLR fields share a position only if they are the same field |
| `Hardware32.ControlBit` | include/arch/arm/arch/32/mode/machine/hardware.h:50-67 | the single-bit word of each field is nonzero |
| `Hardware32.ControlWordTest` | include/arch/arm/arch/32/mode/machine/hardware.h:49-67 | in a word that sets any list of fields, each field reads as set exactly when it was in the list |
| `Hardware32.ModeEncoding` | include/arch/arm/arch/32/mode/machine/hardware.h:103-111 | every `PMODE_*` encoding lies in 0x10..0x1f and so fits the 5-bit mode field |
| `Hardware32.DecodeMode` | include/arch/arm/arch/32/mode/machine/hardware.h:103-111 | a mode field that decodes to a mode is that mode's encoding |
| `Hardware32.ModeEncodingRoundTrip` | include/arch/arm/arch/32/mode/machine/hardware.h:104-111 | the eight encodings are pairwise distinct: each decodes back to its own mode |
| `Hardware32.MaskPosition` | include/arch/arm/arch/32/mode/machine/hardware.h:112-115 | the A, I and F mask bits sit at positions 6..8 |
| `Hardware32.MaskBit` | include/arch/arm/arch/32/mode/machine/hardware.h:112-115 | each `PMASK_*` is a nonzero word disjoint from the mode field (bits 0-4) |
| `Hardware32.MaskBitsDistinct` | include/arch/arm/arch/32/mode/machine/hardware.h:113-115 | two mask bits overlap exactly when they are the same |
| `Hardware32.MaskWordTest` | include/arch/arm/arch/32/mode/machine/hardware.h:112-115 | in a word that sets any list of mask bits, each reads as set exactly when it was in the list |
| `Hardware32.ModeFieldPreserved` | include/arch/arm/arch/32/mode/machine/hardware.h:103-115 | OR-ing mask bits into a mode encoding leaves `& 0x1f` equal to the mode for every mode and set of masks, so the mode still decodes |
| `Hardware32.KernelMode` | include/arch/arm/arch/32/mode/machine/hardware.h:117-124 | `PMODE_KERNEL` is Hypervisor (0x1a) exactly with hypervisor support, otherwise Supervisor (0x13) |
| `Hardware32.IdleMode` | include/arch/arm/arch/32/mode/machine/hardware.h:117-124 | `PMODE_IDLE` is Hypervisor (0x1a) exactly with hypervisor support, otherwise System (0x1f) |
| `Hardware32.OperatingModesSelection` | include/arch/arm/arch/32/mode/machine/hardware.h:117-124 | kernel and idle modes coincide exactly with hypervisor support, and no other configuration choice changes either |
| `Hardware32.StbpfdisField` | include/arch/arm/arch/32/mode/machine/hardware.h:82-86 | the `STBPFDIS` contribution is zero or bit 22 alone, and nonzero exactly when `STBPFDIS` is not defined |
| `Hardware32.StbpfrsField` | include/arch/arm/arch/32/mode/machine/hardware.h:88-92 | the `STBPFRS` contribution is zero or bit 23 alone, and nonzero exactly when `STBPFRS` is defined |
| `Hardware32.L1pctlField` | include/arch/arm/arch/32/mode/machine/hardware.h:78 | `L1PCTL` leaves bits 0-12 clear and shifting it back by 13 gives the outstanding-stream count |
| `Hardware32.StrideField` | include/arch/arm/arch/32/mode/machine/hardware.h:79 | `STRIDE` leaves bits 0-16 clear and shifting it back by 17 gives the stride less two |
| `Hardware32.NpfstrmField` | include/arch/arm/arch/32/mode/machine/hardware.h:80 | `NPFSTRM` leaves bits 0-18 clear and shifting it back by 19 gives the stream count less one |
| `Hardware32.ProductionPattern` | include/arch/arm/arch/32/mode/machine/hardware.h:94-98 | `PREFETCHER` on the production path leaves bits 0-12 clear, sets bit 22 whenever `STBPFDIS` is undefined and bit 23 whenever `STBPFRS` is defined |
| `Hardware32.HikeyPrefetcher` | include/arch/arm/arch/32/mode/machine/hardware.h:69-101 | the setting exists exactly on HiKey; the debug path gives pattern 0 and mask 0xE000 (:73-74); the production path gives the `PREFETCHER` OR of :94-98 and mask 0xDAE000 (:99); the production shifts must be defined C |
| `Hardware32.HikeyPrefetcherWithinMask` | include/arch/arm/arch/32/mode/machine/hardware.h:69-101 | on HiKey, on the debug path or with tuning inside the mask ranges, `PREFETCHER & ~PREFETCHER_MASK == 0` |
| `Hardware32.PrefetcherFieldsDisjoint` | include/arch/arm/arch/32/mode/machine/hardware.h:78-98 | with at most 7 outstanding streams, a stride of 2 or 3 and 1 to 4 streams, the five fields occupy disjoint bits |
| `Hardware32.PrefetcherWithinMask` | include/arch/arm/arch/32/mode/machine/hardware.h:94-99 | under those ranges `PREFETCHER & ~PREFETCHER_MASK == 0` |
| `Hardware32.PrefetcherFieldsRoundTrip` | include/arch/arm/arch/32/mode/machine/hardware.h:78-98 | under those ranges every tuning value reads back from its field; bit 22 is set exactly when `STBPFDIS` is not defined and bit 23 exactly when `STBPFRS` is |
| `Hardware32.StrideEscapesMask` | include/arch/arm/arch/32/mode/machine/hardware.h:79-99 | a stride whose field sets bit 18 (e.g. 4 or 5) leaves a pattern bit outside the mask |
| `Hardware32.PrefetcherStrideSixOverlapsStreams` | include/arch/arm/arch/32/mode/machine/hardware.h:78-98 | with 4 outstanding, stride 6 and 3 streams the pattern is 0x588000 and its stream field reads back as 4 streams |
| `Hardware32.DebugPrefetcherIgnoresTuning` | include/arch/arm/arch/32/mode/machine/hardware.h:71-74 | on the debug path the setting is (0, 0xE000) whatever the tuning values |

## Left out

- The values of `seL4_PageBits`, `seL4_LargePageBits`, `seL4_SectionBits` and `seL4_SuperSectionBits` come from `mode/api/constants.h`, which is not part of this model. They are the fields of a `FrameSizeConstants` parameter, and nothing is assumed about them.
- `BIT` comes from a header that is not part of this model. It is modelled as `1 << n` on a 32-bit word (`Bits.Bit`) and as a power of two on integers (`Hardware32.Pow2`).
- `fail` is a kernel panic outside this header. It is modelled as the absence of a result (`None`).
- `PPTR_VECTOR_TABLE` and `ARM1136_R0PX` are bare constants that nothing in the header uses.
- Reading or writing SCTLR, the CPSR and the auxiliary control register, the CPS instruction, and the cache-maintenance loops that use the line size are hardware access outside the header.
- The include guards, the `__ASSEMBLER__` split and `#include` lines are preprocessor mechanics with no behaviour of their own.
- Hardware32.PageBitsForSize: returns an unbounded `nat` rather than a `word_t`. The C enumerators of `frameSizeConstants` are small bit counts, and no value is assumed for them.
- Hardware32.HikeyPrefetcher: requires each production-path shift to be defined C, with a non-negative operand and a result that fits a signed `int`. The header has no guard; an out-of-range Kconfig value would be undefined behaviour, not a value.
- Repeated resolution with the same configuration gives the same result because every member is a pure function. There is no separate lemma for this.
