/** The host state the capability probes observe. Every hardware or OS access
    of the detection code (CPUID, XGETBV, the auxiliary-vector file, the build
    target) becomes a field of a `Host` value. */
module Machine {

  datatype Option<+T> = None | Some(value: T)

  /** The processor family the library is built for. The families are
      exclusive: `X86` is any of the i386/x86-64 targets, `ArmLinux` is 32-bit
      ARM on Linux (the only target that scans the auxiliary vector),
      `OtherTarget` is everything else (including ARM without Linux). */
  datatype Platform = X86 | PowerPc | ArmLinux | OtherTarget

  /** The four registers one CPUID query fills. */
  datatype Regs = Regs(eax: bv32, ebx: bv32, ecx: bv32, edx: bv32)

  /** The register a descriptor names by its letter a, b, c or d. */
  datatype Reg = EAX | EBX | ECX | EDX

  /** The processor's answer to CPUID, for every leaf. */
  type CpuidOracle = bv32 -> Regs

  /** One (key, value) record of the auxiliary vector; `unsigned long` is
      32 bits wide on 32-bit ARM. */
  datatype AuxPair = AuxPair(key: bv32, value: bv32)

  /** The auxiliary-vector pseudo-file: either it cannot be opened, or it
      yields a finite stream of pairs. */
  datatype AuxvFile = OpenFailed | Opened(pairs: seq<AuxPair>)

  /** Everything the probes read: the build target, CPUID, the value XGETBV
      would return for XCR0, and the auxiliary-vector file. */
  datatype Host = Host(platform: Platform, cpuid: CpuidOracle, xcr0: bv32, auxv: AuxvFile)
}
