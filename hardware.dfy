/** The ARM32 machine-hardware constants of the seL4 kernel: page geometry,
    first-level cache-line size, System Control Register bit positions,
    processor-mode encodings and exception-mask bits, the kernel and idle
    operating modes, and the HiKey (Cortex-A53) prefetcher pattern.

    Everything the C header fixes with the preprocessor is a function of a
    `BuildConfig` record here; the one runtime function, `pageBitsForSize`,
    is `PageBitsForSize`. */
module Hardware32 {

  import opened Wrappers
  import opened Bits

  // ------------------------------------------------------------------
  // Build configuration
  // ------------------------------------------------------------------

  /** The microarchitecture selectors `CONFIG_ARM1136JF_S`,
      `CONFIG_ARM_CORTEX_A8`, `_A9`, `_A7`, `_A15` and `_A53`. */
  datatype Microarch = Arm1136jfS | CortexA8 | CortexA9 | CortexA7 | CortexA15 | CortexA53

  /** The HiKey prefetcher tuning values. The three numbers are the Kconfig
      integers `CONFIG_ARM_HIKEY_OUTSTANDING_PREFETCHERS`,
      `CONFIG_ARM_HIKEY_PREFETCHER_STRIDE` and
      `CONFIG_ARM_HIKEY_PREFETCHER_NPFSTRM`; the two booleans say whether
      `CONFIG_ARM_HIKEY_PREFETCHER_STBPFDIS` and `..._STBPFRS` are defined. */
  datatype PrefetcherTuning = PrefetcherTuning(
    outstanding: int,
    stride: int,
    npfstrm: int,
    stbpfdis: bool,
    stbpfrs: bool)

  /** Every build-time choice the header reads. `cpus` is the set of
      microarchitecture selectors that are defined (the header does not
      forbid defining several). */
  datatype BuildConfig = BuildConfig(
    cpus: set<Microarch>,
    hypervisorSupport: bool,
    platHikey: bool,
    debugDisablePrefetchers: bool,
    prefetcher: PrefetcherTuning)

  // ------------------------------------------------------------------
  // Page geometry: vm_page_size, frameSizeConstants, pageBitsForSize
  // ------------------------------------------------------------------

  /** `word_t` on ARM32. */
  type Word = w: int | 0 <= w < 0x1_0000_0000

  /** The C enumeration `vm_page_size`. */
  datatype VmPageSize = ARMSmallPage | ARMLargePage | ARMSection | ARMSuperSection

  /** The C value of each `vm_page_size` enumerator. */
  function PageSizeValue(s: VmPageSize): (w: Word)
    ensures w < 4
  {
    match s
    case ARMSmallPage => 0
    case ARMLargePage => 1
    case ARMSection => 2
    case ARMSuperSection => 3
  }

  /** Reads a `vm_page_size_t` word back as an enumerator, if it is one. */
  function PageSizeOfValue(w: Word): (r: Option<VmPageSize>)
    ensures r.Some? <==> w < 4
    ensures r.Some? ==> PageSizeValue(r.value) == w
  {
    if w == 0 then Some(ARMSmallPage)
    else if w == 1 then Some(ARMLargePage)
    else if w == 2 then Some(ARMSection)
    else if w == 3 then Some(ARMSuperSection)
    else None
  }

  /** The enumerator values are distinct, so the word identifies the size. */
  lemma PageSizeValueRoundTrip(s: VmPageSize)
    ensures PageSizeOfValue(PageSizeValue(s)) == Some(s)
  {
  }

  /** The values `seL4_PageBits`, `seL4_LargePageBits`, `seL4_SectionBits`
      and `seL4_SuperSectionBits`, which the header takes from another
      header; nothing is assumed about their values or their order. */
  datatype FrameSizeConstants = FrameSizeConstants(
    smallPageBits: nat,
    largePageBits: nat,
    sectionBits: nat,
    superSectionBits: nat)

  /** `PAGE_BITS`, the small-page size. */
  function PageBits(t: FrameSizeConstants): (b: nat)
    ensures b == FrameBits(t, ARMSmallPage)
  {
    t.smallPageBits
  }

  /** `PAGE_BITS` is what `pageBitsForSize` gives for `ARMSmallPage`. */
  lemma PageBitsIsSmallPage(t: FrameSizeConstants)
    ensures PageBitsForSize(t, PageSizeValue(ARMSmallPage)) == Some(PageBits(t))
  {
  }

  /** The `frameSizeConstants` table: `ARMSmallPageBits` .. `ARMSuperSectionBits`. */
  function FrameBits(t: FrameSizeConstants, s: VmPageSize): (b: nat)
    ensures b == t.smallPageBits || b == t.largePageBits || b == t.sectionBits || b == t.superSectionBits
    ensures s == ARMSmallPage ==> b == t.smallPageBits
    ensures s == ARMSuperSection ==> b == t.superSectionBits
  {
    match s
    case ARMSmallPage => t.smallPageBits
    case ARMLargePage => t.largePageBits
    case ARMSection => t.sectionBits
    case ARMSuperSection => t.superSectionBits
  }

  /** `pageBitsForSize`: a switch on the page-size word. Any word other
      than the four enumerator values reaches `fail("Invalid page size")`,
      which never returns; that path is `None`. */
  function PageBitsForSize(t: FrameSizeConstants, pagesize: Word): (r: Option<nat>)
    ensures r.Some? <==> pagesize < 4
    ensures pagesize == 0 ==> r == Some(t.smallPageBits)
    ensures pagesize == 1 ==> r == Some(t.largePageBits)
    ensures pagesize == 2 ==> r == Some(t.sectionBits)
    ensures pagesize == 3 ==> r == Some(t.superSectionBits)
  {
    if pagesize == 0 then Some(t.smallPageBits)
    else if pagesize == 1 then Some(t.largePageBits)
    else if pagesize == 2 then Some(t.sectionBits)
    else if pagesize == 3 then Some(t.superSectionBits)
    else None
  }

  /** Totality over the enumeration: every `vm_page_size` value is answered
      with its own `frameSizeConstants` entry. */
  lemma PageBitsForSizeTotal(t: FrameSizeConstants, s: VmPageSize)
    ensures PageBitsForSize(t, PageSizeValue(s)) == Some(FrameBits(t, s))
  {
  }

  /** The switch agrees with the table for every word: an enumerator value
      gets that enumerator's entry, anything else gets no result. */
  lemma PageBitsForSizeMatchesTable(t: FrameSizeConstants, pagesize: Word)
    ensures PageBitsForSize(t, pagesize) ==
      match PageSizeOfValue(pagesize)
      case Some(s) => Some(FrameBits(t, s))
      case None => None
  {
  }

  /** The four sizes in increasing order of mapping granularity. */
  predicate IncreasingFrameSizes(t: FrameSizeConstants)
  {
    t.smallPageBits < t.largePageBits < t.sectionBits < t.superSectionBits
  }

  /** When the platform's constants grow with the size class, so does the
      answer of `pageBitsForSize`; the header itself does not require this. */
  lemma PageBitsForSizeMonotone(t: FrameSizeConstants, w1: Word, w2: Word)
    requires IncreasingFrameSizes(t)
    requires w1 < w2 < 4
    ensures PageBitsForSize(t, w1).value < PageBitsForSize(t, w2).value
  {
  }

  // ------------------------------------------------------------------
  // L1 cache-line size
  // ------------------------------------------------------------------

  /** The line size, in bits, that each microarchitecture's own branch of
      the selection chain defines. */
  function LineBitsOf(m: Microarch): (b: nat)
    ensures b == 5 || b == 6
    ensures b == 5 <==> m == Arm1136jfS || m == CortexA9
  {
    match m
    case Arm1136jfS => 5
    case CortexA8 => 6
    case CortexA9 => 5
    case CortexA7 => 6
    case CortexA15 => 6
    case CortexA53 => 6
  }

  /** The position of each selector's branch in the `#if/#elif` chain. */
  function ChainRank(m: Microarch): (r: nat)
    ensures r < 6
  {
    match m
    case Arm1136jfS => 0
    case CortexA8 => 1
    case CortexA9 => 2
    case CortexA7 => 3
    case CortexA15 => 4
    case CortexA53 => 5
  }

  /** Every branch of the chain has a position of its own. */
  lemma ChainRankDistinct(m: Microarch, n: Microarch)
    ensures ChainRank(m) == ChainRank(n) <==> m == n
  {
  }

  /** A selector set that defines none of the six selectors is empty. */
  lemma NoSelectorDefined(cpus: set<Microarch>)
    requires Arm1136jfS !in cpus && CortexA8 !in cpus && CortexA9 !in cpus
    requires CortexA7 !in cpus && CortexA15 !in cpus && CortexA53 !in cpus
    ensures cpus == {}
  {
    forall m: Microarch ensures m !in cpus {
      match m
      case Arm1136jfS =>
      case CortexA8 =>
      case CortexA9 =>
      case CortexA7 =>
      case CortexA15 =>
      case CortexA53 =>
    }
  }

  /** `L1_CACHE_LINE_SIZE_BITS`: the first defined selector of the chain
      decides; with no selector defined the build stops with `#error`, which
      is `None`. */
  function L1CacheLineSizeBits(c: BuildConfig): (r: Option<nat>)
    ensures r.None? <==> c.cpus == {}
    ensures r.Some? ==> r.value == 5 || r.value == 6
  {
    if Arm1136jfS in c.cpus then Some(5)
    else if CortexA8 in c.cpus then Some(6)
    else if CortexA9 in c.cpus then Some(5)
    else if CortexA7 in c.cpus then Some(6)
    else if CortexA15 in c.cpus then Some(6)
    else if CortexA53 in c.cpus then Some(6)
    else
      NoSelectorDefined(c.cpus);
      None
  }

  /** First match wins: the selector earliest in the chain among those
      defined gives the line size. */
  lemma L1CacheLineSizeBitsFirstMatch(c: BuildConfig, m: Microarch)
    requires m in c.cpus
    requires forall n | n in c.cpus :: ChainRank(m) <= ChainRank(n)
    ensures L1CacheLineSizeBits(c) == Some(LineBitsOf(m))
  {
  }

  /** With a single selector: 5 bits for ARM1136JF-S and Cortex-A9, 6 for
      Cortex-A8, A7, A15 and A53. */
  lemma L1CacheLineSizeBitsSingle(c: BuildConfig, m: Microarch)
    requires c.cpus == {m}
    ensures L1CacheLineSizeBits(c) == Some(LineBitsOf(m))
    ensures LineBitsOf(m) == 5 <==> m == Arm1136jfS || m == CortexA9
  {
    L1CacheLineSizeBitsFirstMatch(c, m);
  }

  /** 2 to the power `n`: `BIT(n)` on an unbounded integer. */
  function Pow2(n: nat): (r: nat)
    ensures r >= 1
  {
    if n == 0 then 1 else 2 * Pow2(n - 1)
  }

  /** `L1_CACHE_LINE_SIZE`, `BIT(L1_CACHE_LINE_SIZE_BITS)`: the line size in
      bytes, 32 or 64, defined exactly when the bit-width is. */
  function L1CacheLineSize(c: BuildConfig): (r: Option<nat>)
    ensures r.Some? <==> L1CacheLineSizeBits(c).Some?
    ensures r.Some? ==> r.value == 32 || r.value == 64
    ensures r.Some? ==> (r.value == 32 <==> L1CacheLineSizeBits(c) == Some(5))
  {
    match L1CacheLineSizeBits(c)
    case None => None
    case Some(bits) =>
      assert Pow2(5) == 32 && Pow2(6) == 64;
      Some(Pow2(bits))
  }

  // ------------------------------------------------------------------
  // System Control Register (SCTLR) bit positions
  // ------------------------------------------------------------------

  /** The named SCTLR fields `CONTROL_M` .. `CONTROL_AP`. */
  datatype ControlField =
    | ControlM | ControlA | ControlC | ControlW | ControlB | ControlS
    | ControlR | ControlZ | ControlI | ControlV | ControlRR | ControlFI
    | ControlU | ControlXP | ControlVE | ControlEE | ControlTRE | ControlAP

  /** The bit position of each field within the 32-bit register. */
  function ControlPosition(f: ControlField): (p: nat)
    ensures p < 32
  {
    match f
    case ControlM => 0
    case ControlA => 1
    case ControlC => 2
    case ControlW => 3
    case ControlB => 7
    case ControlS => 8
    case ControlR => 9
    case ControlZ => 11
    case ControlI => 12
    case ControlV => 13
    case ControlRR => 14
    case ControlFI => 21
    case ControlU => 22
    case ControlXP => 23
    case ControlVE => 24
    case ControlEE => 25
    case ControlTRE => 28
    case ControlAP => 29
  }

  /** No two SCTLR fields share a position. */
  lemma ControlPositionsDistinct(f: ControlField, g: ControlField)
    ensures ControlPosition(f) == ControlPosition(g) <==> f == g
  {
  }

  /** The word with only field `f` set: `BIT(CONTROL_x)`. */
  function ControlBit(f: ControlField): (b: bv32)
    ensures b != 0
  {
    Bit(ControlPosition(f))
  }

  /** The SCTLR value a caller composes by setting the fields `fs`. */
  function ControlWord(fs: seq<ControlField>): bv32
  {
    OrBits(fs, ControlBit)
  }

  /** Any subset of the fields can be set in one word, and each field can
      then be tested on its own: field `f` reads as set exactly when it was
      one of those set. */
  lemma ControlWordTest(fs: seq<ControlField>, f: ControlField)
    ensures (ControlWord(fs) & ControlBit(f) != 0) <==> f in fs
  {
    forall g: ControlField | g != f
      ensures ControlBit(g) & ControlBit(f) == 0
    {
      ControlPositionsDistinct(g, f);
      BitsDisjoint(ControlPosition(g), ControlPosition(f));
    }
    OrBitsTest(fs, ControlBit, f);
  }

  // ------------------------------------------------------------------
  // Processor modes (CPSR M[4:0]) and exception-mask bits (A, I, F)
  // ------------------------------------------------------------------

  /** The modes named by `PMODE_USER` .. `PMODE_SYSTEM`. */
  datatype ProcessorMode = User | Fiq | Irq | Supervisor | Abort | Hypervisor | Undefined | System

  /** The CPSR mode-field encoding of each mode. */
  function ModeEncoding(m: ProcessorMode): (e: bv32)
    ensures 0x10 <= e <= 0x1f
    ensures e & !0x1f == 0
  {
    match m
    case User => 0x10
    case Fiq => 0x11
    case Irq => 0x12
    case Supervisor => 0x13
    case Abort => 0x17
    case Hypervisor => 0x1a
    case Undefined => 0x1b
    case System => 0x1f
  }

  /** Reads a 5-bit mode field back as a mode, if it encodes one. */
  function DecodeMode(field: bv32): (r: Option<ProcessorMode>)
    ensures r.Some? ==> ModeEncoding(r.value) == field
  {
    if field == 0x10 then Some(User)
    else if field == 0x11 then Some(Fiq)
    else if field == 0x12 then Some(Irq)
    else if field == 0x13 then Some(Supervisor)
    else if field == 0x17 then Some(Abort)
    else if field == 0x1a then Some(Hypervisor)
    else if field == 0x1b then Some(Undefined)
    else if field == 0x1f then Some(System)
    else None
  }

  /** The eight encodings are pairwise distinct: decoding an encoding gives
      back the mode it came from. */
  lemma ModeEncodingRoundTrip(m: ProcessorMode)
    ensures DecodeMode(ModeEncoding(m)) == Some(m)
  {
  }

  /** The exception classes masked by `PMASK_ASYNC_ABORT`, `PMASK_IRQ` and
      `PMASK_FIRQ`. */
  datatype ExceptionMask = AsyncAbortMask | IrqMask | FirqMask

  /** The bit position of each mask bit. */
  function MaskPosition(k: ExceptionMask): (p: nat)
    ensures 6 <= p <= 8
  {
    match k
    case AsyncAbortMask => 8
    case IrqMask => 7
    case FirqMask => 6
  }

  /** `PMASK_x`, `1 << position`. */
  function MaskBit(k: ExceptionMask): (b: bv32)
    ensures b != 0
    ensures b & 0x1f == 0
  {
    Bit(MaskPosition(k))
  }

  /** The mask bits are pairwise disjoint. */
  lemma MaskBitsDistinct(k: ExceptionMask, l: ExceptionMask)
    ensures MaskBit(k) & MaskBit(l) == 0 <==> k != l
  {
    if k != l {
      BitsDisjoint(MaskPosition(k), MaskPosition(l));
    }
  }

  /** The word with the mask bits `ks` set. */
  function MaskWord(ks: seq<ExceptionMask>): bv32
  {
    OrBits(ks, MaskBit)
  }

  /** Each exception class can be masked and tested independently. */
  lemma MaskWordTest(ks: seq<ExceptionMask>, k: ExceptionMask)
    ensures (MaskWord(ks) & MaskBit(k) != 0) <==> k in ks
  {
    forall l: ExceptionMask | l != k
      ensures MaskBit(l) & MaskBit(k) == 0
    {
      BitsDisjoint(MaskPosition(l), MaskPosition(k));
    }
    OrBitsTest(ks, MaskBit, k);
  }

  /** Adding mask bits to a mode encoding leaves the mode field untouched:
      `(mode | masks) & 0x1f == mode`, so the mode still decodes. */
  lemma ModeFieldPreserved(m: ProcessorMode, ks: seq<ExceptionMask>)
    ensures (ModeEncoding(m) | MaskWord(ks)) & 0x1f == ModeEncoding(m)
    ensures DecodeMode((ModeEncoding(m) | MaskWord(ks)) & 0x1f) == Some(m)
  {
    OrBitsWithin(ks, MaskBit, !0x1f);
    ModeEncodingRoundTrip(m);
  }

  // ------------------------------------------------------------------
  // Kernel and idle operating modes
  // ------------------------------------------------------------------

  /** `PMODE_KERNEL`. */
  function KernelMode(c: BuildConfig): (m: ProcessorMode)
    ensures m == Hypervisor <==> c.hypervisorSupport
    ensures ModeEncoding(m) == (if c.hypervisorSupport then 0x1a else 0x13)
  {
    if c.hypervisorSupport then Hypervisor else Supervisor
  }

  /** `PMODE_IDLE`. */
  function IdleMode(c: BuildConfig): (m: ProcessorMode)
    ensures m == Hypervisor <==> c.hypervisorSupport
    ensures ModeEncoding(m) == (if c.hypervisorSupport then 0x1a else 0x1f)
  {
    if c.hypervisorSupport then Hypervisor else System
  }

  /** The kernel and idle modes coincide exactly with hypervisor support,
      and no other part of the configuration influences either of them. */
  lemma OperatingModesSelection(c1: BuildConfig, c2: BuildConfig)
    ensures KernelMode(c1) == IdleMode(c1) <==> c1.hypervisorSupport
    ensures c1.hypervisorSupport == c2.hypervisorSupport ==>
              KernelMode(c1) == KernelMode(c2) && IdleMode(c1) == IdleMode(c2)
  {
  }

  // ------------------------------------------------------------------
  // HiKey prefetcher: the Cortex-A53 CPU Extended Control Register pattern
  // ------------------------------------------------------------------

  /** A pattern to write into the register and the mask of bits it owns. */
  datatype PrefetcherSetting = PrefetcherSetting(pattern: bv32, mask: bv32)

  /** `PREFETCHER_MASK` on the debug path: the L1PCTL field only. */
  const DebugPrefetcherMask: bv32 := 0xE000

  /** `PREFETCHER_MASK` on the production path. */
  const ProductionPrefetcherMask: bv32 := 0xDAE000

  /** The C shifts of the production path are well defined: each shifted
      operand is non-negative and the shifted value fits a signed `int`. */
  predicate ShiftsDefined(p: PrefetcherTuning)
  {
    && 0 <= p.outstanding < 0x4_0000
    && 0 <= p.stride - 2 < 0x4000
    && 0 <= p.npfstrm - 1 < 0x1000
  }

  /** `L1PCTL`: the outstanding-prefetch count shifted to bit 13. */
  function L1pctlField(p: PrefetcherTuning): (f: bv32)
    requires ShiftsDefined(p)
    ensures f & 0x1FFF == 0
    ensures f >> 13 == p.outstanding as bv32
  {
    (p.outstanding as bv32) << 13
  }

  /** `STRIDE`: the stride threshold less two, shifted to bit 17. */
  function StrideField(p: PrefetcherTuning): (f: bv32)
    requires ShiftsDefined(p)
    ensures f & 0x1_FFFF == 0
    ensures f >> 17 == (p.stride - 2) as bv32
  {
    ((p.stride - 2) as bv32) << 17
  }

  /** `NPFSTRM`: the independent-stream count less one, shifted to bit 19. */
  function NpfstrmField(p: PrefetcherTuning): (f: bv32)
    requires ShiftsDefined(p)
    ensures f & 0x7_FFFF == 0
    ensures f >> 19 == (p.npfstrm - 1) as bv32
  {
    ((p.npfstrm - 1) as bv32) << 19
  }

  /** `STBPFDIS`: bit 22, set unless its option is defined. */
  function StbpfdisField(p: PrefetcherTuning): (b: bv32)
    ensures b == 0 || b == Bit(22)
    ensures b != 0 <==> !p.stbpfdis
  {
    if !p.stbpfdis then 1 << 22 else 0 << 22
  }

  /** `STBPFRS`: bit 23, set when its option is defined. */
  function StbpfrsField(p: PrefetcherTuning): (b: bv32)
    ensures b == 0 || b == Bit(23)
    ensures b != 0 <==> p.stbpfrs
  {
    if p.stbpfrs then 1 << 23 else 0 << 23
  }

  /** `PREFETCHER` on the production path: the OR of the five fields. */
  function ProductionPattern(p: PrefetcherTuning): (r: bv32)
    requires ShiftsDefined(p)
    ensures r & 0x1FFF == 0
    ensures !p.stbpfdis ==> r & Bit(22) != 0
    ensures p.stbpfrs ==> r & Bit(23) != 0
  {
    L1pctlField(p) | StrideField(p) | NpfstrmField(p) | StbpfdisField(p) | StbpfrsField(p)
  }

  /** `PREFETCHER` and `PREFETCHER_MASK`: defined only for the HiKey
      platform; the debug option forces the pattern to zero whatever the
      tuning values are. */
  function HikeyPrefetcher(c: BuildConfig): (r: Option<PrefetcherSetting>)
    requires c.platHikey && !c.debugDisablePrefetchers ==> ShiftsDefined(c.prefetcher)
    ensures r.Some? <==> c.platHikey
    ensures r.Some? && c.debugDisablePrefetchers ==>
              r.value.pattern == 0 && r.value.mask == DebugPrefetcherMask
    ensures r.Some? && !c.debugDisablePrefetchers ==>
              r.value.pattern == ProductionPattern(c.prefetcher) &&
              r.value.mask == ProductionPrefetcherMask
  {
    if !c.platHikey then None
    else if c.debugDisablePrefetchers then
      Some(PrefetcherSetting(0x0, DebugPrefetcherMask))
    else
      Some(PrefetcherSetting(ProductionPattern(c.prefetcher), ProductionPrefetcherMask))
  }

  /** The tuning ranges whose fields fit the bits of the production mask:
      at most 7 outstanding streams, a stride of 2 or 3, 1 to 4 streams. */
  predicate WithinMaskRanges(p: PrefetcherTuning)
  {
    && 0 <= p.outstanding <= 7
    && 2 <= p.stride <= 3
    && 1 <= p.npfstrm <= 4
  }

  /** The field of `width` bits at bit `lo` of `w`. */
  function FieldAt(w: bv32, lo: nat, width: nat): bv32
    requires lo + width <= 32
  {
    (w >> lo) & (((1 as bv32) << width) - 1)
  }

  /** Within those ranges the five fields occupy disjoint bits. */
  lemma PrefetcherFieldsDisjoint(p: PrefetcherTuning)
    requires WithinMaskRanges(p)
    ensures L1pctlField(p) & StrideField(p) == 0
    ensures L1pctlField(p) & NpfstrmField(p) == 0
    ensures (L1pctlField(p) | StrideField(p) | NpfstrmField(p)) & (StbpfdisField(p) | StbpfrsField(p)) == 0
    ensures StrideField(p) & NpfstrmField(p) == 0
    ensures StbpfdisField(p) & StbpfrsField(p) == 0
  {
  }

  /** Within those ranges the production pattern stays inside
      `PREFETCHER_MASK`. */
  lemma PrefetcherWithinMask(p: PrefetcherTuning)
    requires WithinMaskRanges(p)
    ensures ProductionPattern(p) & !ProductionPrefetcherMask == 0
  {
  }

  /** Within those ranges every tuning value can be read back from its
      field, and the two toggles have opposite polarity: bit 22 is set
      exactly when `STBPFDIS` is not defined, bit 23 exactly when `STBPFRS`
      is. */
  lemma PrefetcherFieldsRoundTrip(p: PrefetcherTuning)
    requires WithinMaskRanges(p)
    ensures FieldAt(ProductionPattern(p), 13, 3) as int == p.outstanding
    ensures FieldAt(ProductionPattern(p), 17, 1) as int == p.stride - 2
    ensures FieldAt(ProductionPattern(p), 19, 2) as int == p.npfstrm - 1
    ensures FieldAt(ProductionPattern(p), 22, 1) == 1 <==> !p.stbpfdis
    ensures FieldAt(ProductionPattern(p), 23, 1) == 1 <==> p.stbpfrs
  {
  }

  /** The production mask leaves out bit 18, so a stride whose field sets
      that bit (a stride of 4 or 5, for instance) puts a bit outside
      `PREFETCHER_MASK`. */
  lemma StrideEscapesMask(p: PrefetcherTuning)
    requires ShiftsDefined(p)
    requires ((p.stride - 2) as bv32) & 2 != 0
    ensures ProductionPattern(p) & !ProductionPrefetcherMask != 0
  {
  }

  /** Outside those ranges the fields run into each other: with 4
      outstanding streams, a stride of 6 and 3 independent streams, the
      stride field lands on bit 19, and the two-bit stream field then reads
      back as 4 streams and the one-bit stride field as a stride of 2. */
  lemma PrefetcherStrideSixOverlapsStreams(p: PrefetcherTuning)
    requires p.outstanding == 4 && p.stride == 6 && p.npfstrm == 3
    requires !p.stbpfdis && !p.stbpfrs
    ensures ProductionPattern(p) == 0x58_8000
    ensures ProductionPattern(p) & !ProductionPrefetcherMask == 0
    ensures FieldAt(ProductionPattern(p), 19, 2) as int == 3
    ensures FieldAt(ProductionPattern(p), 17, 1) == 0
  {
  }

  /** On either path, with the production tuning inside the mask ranges,
      the pattern written never sets a bit outside its own mask. */
  lemma HikeyPrefetcherWithinMask(c: BuildConfig)
    requires c.platHikey
    requires c.debugDisablePrefetchers || WithinMaskRanges(c.prefetcher)
    ensures HikeyPrefetcher(c).value.pattern & !HikeyPrefetcher(c).value.mask == 0
  {
    if !c.debugDisablePrefetchers {
      PrefetcherWithinMask(c.prefetcher);
    }
  }

  /** On the debug path the setting does not depend on the tuning values. */
  lemma DebugPrefetcherIgnoresTuning(c1: BuildConfig, c2: BuildConfig)
    requires c1.platHikey && c1.debugDisablePrefetchers
    requires c2.platHikey && c2.debugDisablePrefetchers
    ensures HikeyPrefetcher(c1) == HikeyPrefetcher(c2) == Some(PrefetcherSetting(0, 0xE000))
  {
  }

}
