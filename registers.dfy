/** The x86 register reader and the XCR0 reader. The CPUID instruction is
    an oracle field of the host; the four `cpuid_e?x` accessors are its
    projections, one query per call. */
module Registers {
  import opened Machine
  import opened Bits

  /** CPUID leaf 1, the basic feature leaf. */
  const FEATURE_LEAF: bv32 := 0x1
  /** CPUID ECX bit 27 of leaf 1: the OS has enabled XSAVE/XGETBV (OSXSAVE). */
  const OSXSAVE_BIT: BitIndex := 27
  /** XCR0 bits 1 and 2: SSE and AVX register state enabled by the OS. */
  const XCR0_SSE_AVX: bv32 := 0x6

  /** `cpuid_eax`, `cpuid_ebx`, `cpuid_ecx` and `cpuid_edx`: one register of
      the quadruple CPUID returns for leaf `op`. */
  function Cpuid(cpu: CpuidOracle, reg: Reg, op: bv32): (r: bv32)
    ensures reg == EAX ==> r == cpu(op).eax
    ensures reg == EBX ==> r == cpu(op).ebx
    ensures reg == ECX ==> r == cpu(op).ecx
    ensures reg == EDX ==> r == cpu(op).edx
  {
    var regs := cpu(op);
    match reg
    case EAX => regs.eax
    case EBX => regs.ebx
    case ECX => regs.ecx
    case EDX => regs.edx
  }

  /** The OS has enabled the extended state the XGETBV instruction reports. */
  predicate OsXsaveEnabled(cpu: CpuidOracle)
  {
    BitOf(Cpuid(cpu, ECX, FEATURE_LEAF), OSXSAVE_BIT) == 1
  }

  /** `xgetbv()`: XCR0 restricted to the SSE and AVX state bits, or 0 when
      the OS has not enabled XGETBV (the register is then never read). */
  function Xgetbv(cpu: CpuidOracle, xcr0: bv32): (r: bv32)
    ensures !OsXsaveEnabled(cpu) ==> r == 0
    ensures r & !XCR0_SSE_AVX == 0
    ensures OsXsaveEnabled(cpu) ==> r & XCR0_SSE_AVX == xcr0 & XCR0_SSE_AVX
  {
    var enabled := BitOf(Cpuid(cpu, ECX, FEATURE_LEAF), OSXSAVE_BIT);
    if enabled == 0 then 0 else xcr0 & XCR0_SSE_AVX
  }

  /** With OSXSAVE clear the result does not depend on XCR0 at all. */
  lemma XgetbvIgnoresXcr0WhenDisabled(cpu: CpuidOracle, xcr0: bv32, other: bv32)
    requires !OsXsaveEnabled(cpu)
    ensures Xgetbv(cpu, xcr0) == Xgetbv(cpu, other) == 0
  {
  }
}
