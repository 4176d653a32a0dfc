/** The per-architecture predicates `i_can_has_<name>`. The source emits one
    C function per descriptor of the architecture list; here one function
    over the descriptor gives all of them. */
module Capabilities {
  import opened Machine
  import opened Bits
  import opened Registers
  import opened Auxv

  /** CPUID leaf whose EAX is the highest extended leaf the processor answers. */
  const EXT_MAX_LEAF: bv32 := 0x8000_0000
  /** CPUID extended feature leaf. */
  const EXT_FEATURE_LEAF: bv32 := 0x8000_0001

  /** The value a descriptor expects the probed bit to have. */
  type Flag = v: nat | v <= 1

  /** A prerequisite a leaf-1 descriptor may name: one of the file's
      argument-less probes. */
  datatype Check = XgetbvCheck | HasNeonCheck | HasPpcCheck

  /** One entry of the architecture list: its name, its family (`kind`:
      "x86", "powerpc", "arm", "all", ...), the `no_test` marker, the CPUID
      leaf `op` if any, the register letter, the bit `shift`, the expected
      bit value `val` and the optional prerequisite `check`. */
  datatype Arch = Arch(name: string, kind: string, noTest: bool, op: Option<nat>,
                       reg: Reg, shift: BitIndex, val: Flag, check: Option<Check>)

  /** The detection strategies, one per branch of the generated function. */
  datatype Branch = NoTestX86 | Leaf1 | ExtendedLeaf | PowerPcConst | ArmNeon | AllArchs | Unmatched

  /** The branch the generator picks for a descriptor: the first that
      applies, in the order the template tests them. */
  function BranchOf(a: Arch): (b: Branch)
    ensures a.kind == "x86" && a.noTest ==> b == NoTestX86
    ensures b == Leaf1 <==> !(a.kind == "x86" && a.noTest) && a.op == Some(1)
    ensures b == ExtendedLeaf <==> !(a.kind == "x86" && a.noTest) && a.op == Some(0x8000_0001)
    ensures b in {PowerPcConst, ArmNeon, AllArchs, Unmatched} <==>
              !(a.kind == "x86" && a.noTest) && a.op != Some(1) && a.op != Some(0x8000_0001)
    ensures b == PowerPcConst ==> a.kind == "powerpc"
    ensures b == ArmNeon ==> a.kind == "arm"
    ensures b == AllArchs ==> a.kind == "all"
    ensures b == Unmatched ==> a.kind !in {"x86", "powerpc", "arm", "all"} || (a.kind == "x86" && !a.noTest)
  {
    if a.kind == "x86" && a.noTest then NoTestX86
    else if a.op == Some(1) then Leaf1
    else if a.op == Some(0x8000_0001) then ExtendedLeaf
    else if a.kind == "powerpc" then PowerPcConst
    else if a.kind == "arm" then ArmNeon
    else if a.kind == "all" then AllArchs
    else Unmatched
  }

  /** `has_ppc()`: 1 on a PowerPC build, 0 otherwise. */
  function HasPpc(platform: Platform): (r: nat)
    ensures r <= 1
    ensures r == 1 <==> platform == PowerPc
  {
    if platform == PowerPc then 1 else 0
  }

  /** The value a prerequisite probe returns; the caller only compares it
      with 0. */
  function CheckResult(c: Check, h: Host): (r: nat)
    ensures c == XgetbvCheck ==> (r != 0 <==> OsXsaveEnabled(h.cpuid) && h.xcr0 & XCR0_SSE_AVX != 0)
    ensures c == HasNeonCheck ==> r == NeonScan(h.platform, h.auxv)
    ensures c == HasPpcCheck ==> r == HasPpc(h.platform)
  {
    match c
    case XgetbvCheck => Xgetbv(h.cpuid, h.xcr0) as nat
    case HasNeonCheck => NeonScan(h.platform, h.auxv)
    case HasPpcCheck => HasPpc(h.platform)
  }

  /** The `hwcap` computation: 1 when bit `shift` of `word` equals `val`,
      0 otherwise. */
  function BitTest(word: bv32, shift: BitIndex, val: Flag): (r: nat)
    ensures r <= 1
    ensures r == 1 <==> BitOf(word, shift) == val
  {
    if BitOf(word, shift) == val then 1 else 0
  }

  /** The two polarities of a bit test are complementary: a descriptor
      expecting the bit clear answers exactly when one expecting it set
      does not. */
  lemma BitTestPolarity(word: bv32, shift: BitIndex)
    ensures BitTest(word, shift, 1) + BitTest(word, shift, 0) == 1
    ensures BitTest(word, shift, 1) == 1 <==> (word >> shift) & 1 == 1
  {
  }

  /** The leaf-1 branch: a bit of CPUID leaf 1, forced to 0 when the
      prerequisite reports 0, and 0 on every non-x86 build. */
  function Leaf1Probe(a: Arch, h: Host): (r: nat)
    ensures r <= 1
    ensures h.platform != X86 ==> r == 0
    ensures a.check.Some? && CheckResult(a.check.value, h) == 0 ==> r == 0
    ensures h.platform == X86 && (a.check.None? || CheckResult(a.check.value, h) != 0) ==>
              (r == 1 <==> BitOf(Cpuid(h.cpuid, a.reg, FEATURE_LEAF), a.shift) == a.val)
  {
    if h.platform != X86 then 0
    else
      var hwcap := BitTest(Cpuid(h.cpuid, a.reg, FEATURE_LEAF), a.shift, a.val);
      if a.check.Some? && CheckResult(a.check.value, h) == 0 then 0 else hwcap
  }

  /** The extended-leaf branch: when the processor does not answer leaf
      0x80000001 the result is the complement of `val`; otherwise a bit of
      that leaf. 0 on every non-x86 build. */
  function ExtendedLeafProbe(a: Arch, h: Host): (r: nat)
    ensures r <= 1
    ensures h.platform != X86 ==> r == 0
    ensures h.platform == X86 && Cpuid(h.cpuid, EAX, EXT_MAX_LEAF) < EXT_FEATURE_LEAF ==> r == 1 - a.val
    ensures h.platform == X86 && Cpuid(h.cpuid, EAX, EXT_MAX_LEAF) >= EXT_FEATURE_LEAF ==>
              (r == 1 <==> BitOf(Cpuid(h.cpuid, a.reg, EXT_FEATURE_LEAF), a.shift) == a.val)
  {
    if h.platform != X86 then 0
    else
      var extendedFctCount := Cpuid(h.cpuid, EAX, EXT_MAX_LEAF);
      if extendedFctCount < EXT_FEATURE_LEAF then ((a.val as bv32) ^ 1) as nat
      else BitTest(Cpuid(h.cpuid, a.reg, EXT_FEATURE_LEAF), a.shift, a.val)
  }

  /** `i_can_has_<name>()` for descriptor `a` on host `h`: always 0 or 1. */
  function CanHas(a: Arch, h: Host): (r: nat)
    ensures r <= 1
  {
    match BranchOf(a)
    case NoTestX86 => if h.platform == X86 then 1 else 0
    case Leaf1 => Leaf1Probe(a, h)
    case ExtendedLeaf => ExtendedLeafProbe(a, h)
    case PowerPcConst => HasPpc(h.platform)
    case ArmNeon => NeonScan(h.platform, h.auxv)
    case AllArchs => 1
    case Unmatched => 0
  }

  /** The branches that probe nothing give a value fixed by the build target
      alone: two hosts on the same target agree, whatever their registers,
      XCR0 and auxiliary vector. */
  lemma ConstantBranchesIgnoreProbes(a: Arch, h: Host, g: Host)
    requires BranchOf(a) in {NoTestX86, PowerPcConst, AllArchs, Unmatched}
    requires h.platform == g.platform
    ensures CanHas(a, h) == CanHas(a, g)
    ensures BranchOf(a) == NoTestX86 ==> (CanHas(a, h) == 1 <==> h.platform == X86)
    ensures BranchOf(a) == PowerPcConst ==> CanHas(a, h) == HasPpc(h.platform)
    ensures BranchOf(a) == AllArchs ==> CanHas(a, h) == 1
    ensures BranchOf(a) == Unmatched ==> CanHas(a, h) == 0
  {
  }

  /** Every x86 probe answers 0 off x86, and so does the NEON scan off ARM
      Linux. */
  lemma ProbesOffTheirPlatform(a: Arch, h: Host)
    ensures BranchOf(a) in {Leaf1, ExtendedLeaf} && h.platform != X86 ==> CanHas(a, h) == 0
    ensures BranchOf(a) == ArmNeon && h.platform != ArmLinux ==> CanHas(a, h) == 0
  {
  }

  /** The fallback polarity of the extended leaf: a descriptor expecting the
      bit set is reported absent, one expecting it clear is reported present. */
  lemma ExtendedLeafFallback(a: Arch, h: Host)
    requires BranchOf(a) == ExtendedLeaf && h.platform == X86
    requires Cpuid(h.cpuid, EAX, EXT_MAX_LEAF) < EXT_FEATURE_LEAF
    ensures a.val == 1 ==> CanHas(a, h) == 0
    ensures a.val == 0 ==> CanHas(a, h) == 1
  {
  }
}
