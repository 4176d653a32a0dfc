# VOLK CPU capability detection, modelled in Dafny

This project models the capability-decision core of VOLK (the Vector-Optimized
Library of Kernels): the template `tmpl/volk_cpu.tmpl.c`. From it, the build
generates one predicate `i_can_has_<arch>()` per entry of the architecture
list. `volk_cpu_init()` stores pointers to those predicates in the global
`struct VOLK_CPU`. `volk_get_lvarch()` packs their answers into one
`unsigned int`, at the bit positions `LV_<ARCH>`.

The hardware and the OS are inputs, held in a `Machine.Host` value:

- the build target (`X86`, `PowerPc`, `ArmLinux` or `OtherTarget`). This replaces the `VOLK_CPU_x86`, `__PPC__` and `VOLK_CPU_ARM` macros;
- a CPUID oracle from leaf to the four registers;
- the XCR0 value that XGETBV returns;
- the auxiliary-vector file, which either fails to open or yields a finite stream of (key, value) words.

The architecture list and the `LV_*` index map are parameters.

Modules, leaf first:

- `Machine` (machine.dfy): the host inputs.
- `Bits` (bits.dfy): bit positions, `unsigned int` addition, and the bit-level lemmas the mask proofs use.
- `Registers` (registers.dfy): the `cpuid_e?x` accessors and `xgetbv()`.
- `Auxv` (auxv.dfy): `has_neon()`, plus the source loop as written (see Findings).
- `Capabilities` (capabilities.dfy): the descriptor, the template's branch selection, and `i_can_has_<arch>()` as `CanHas`.
- `CpuTable` (cpu_table.dfy): the class `VolkCpu` for the global table, with `volk_cpu_init()` and `volk_get_lvarch()`, and the mask and its lemmas.
- `MaskExample` (mask_example.dfy): a two-entry list worked end to end.

## Notes on the source

- `xgetbv()` masks XCR0 with `0x6`, which keeps bits 1 and 2 (SSE and AVX state) and clears every other bit.
- The mask is built with `+=` on an `unsigned int`. `CpuTable.MaskIsOr` proves that this equals `|=` here, because no two descriptors share a bit index.
- `i_can_has_<arch>()` has seven branches: x86 without a test, the leaf-1 probe, the extended-leaf probe, PowerPC, ARM, "all", and a final `return 0`. A descriptor that matches none of them yields 0.
- The NEON scan has no exit at end of file (see Findings).

## Model

| member | source | states |
|---|---|---|
| `Registers.Cpuid` | tmpl/volk_cpu.tmpl.c:69-91 | each accessor returns its own register (EAX, EBX, ECX or EDX) of the quadruple CPUID returns for leaf `op` |
| `Registers.Xgetbv` | tmpl/volk_cpu.tmpl.c:93-98 | result is 0 when CPUID.1:ECX bit 27 (OSXSAVE) is clear; it never has a bit outside `0x6`; when OSXSAVE is set it equals XCR0's bits 1 and 2 |
| `Registers.XgetbvIgnoresXcr0WhenDisabled` | tmpl/volk_cpu.tmpl.c:95-96 | with OSXSAVE clear, any two XCR0 values give the same result, 0: the register is not consulted |
| `Auxv.NeonScan` | tmpl/volk_cpu.tmpl.c:110-131 | the reference answer of `has_neon()` is 0 or 1 |
| `Auxv.HasNeon` | tmpl/volk_cpu.tmpl.c:110-131 | returns 0 off ARM Linux or when the file fails to open; otherwise returns 1 iff some pair has key `AT_HWCAP` and the `HWCAP_NEON` bit set; the ghost count of pairs read shows that it stops right after the first such pair (no earlier pair matches), or at the end of the stream |
| `Auxv.AsWrittenScanNeverExits` | tmpl/volk_cpu.tmpl.c:120-124 | the loop as written, on a stream with no NEON record, still has its guard true after any number of iterations |
| `Auxv.AsWrittenStep` | tmpl/volk_cpu.tmpl.c:120-124 | one pass of the loop body as written: before the end of the stream it reads the next pair into the buffer; at the end it leaves position and buffer unchanged; the flag becomes 1 when the buffer is a NEON record, else keeps its value |
| `Auxv.AsWrittenRun` | tmpl/volk_cpu.tmpl.c:120-124 | the loop as written, run for at most `n` passes: with no pass left or the flag already set the state is unchanged, and the flag can only change to 1, with a NEON record in the buffer |
| `Auxv.AsWrittenScanHangsWithoutNeon` | tmpl/volk_cpu.tmpl.c:120-124 | concrete case: for a stream holding `AT_HWCAP` with NEON clear, then the null record, the loop as written never exits, while the bounded scan reports 0 |
| `Auxv.AsWrittenScanFindsFirstNeon` | tmpl/volk_cpu.tmpl.c:120-124 | when a NEON record exists, the loop as written stops after reading exactly the first one, with the flag set |
| `Capabilities.HasPpc` | tmpl/volk_cpu.tmpl.c:133-139 | 1 exactly on a PowerPC build, 0 otherwise |
| `Capabilities.BranchOf` | tmpl/volk_cpu.tmpl.c:144-185 | the template's branch choice: an x86 no-test descriptor takes the no-test branch; otherwise `op = 1` selects the leaf-1 probe and `op = 0x80000001` the extended-leaf probe, and exactly the other descriptors reach the PowerPC, ARM, "all" or unmatched branch, each only for its own `type`; unmatched is an unknown `type` or an x86 descriptor that does not say no-test |
| `Capabilities.CheckResult` | tmpl/volk_cpu.tmpl.c:156-157 | a prerequisite `xgetbv` passes (is non-zero) iff OSXSAVE is set and XCR0 has SSE or AVX state enabled; `has_neon` and `has_ppc` give the scan and the platform constant |
| `Capabilities.BitTest` | tmpl/volk_cpu.tmpl.c:155 | `hwcap` is 1 iff bit `shift` of the register equals `val`, else 0 |
| `Capabilities.BitTestPolarity` | tmpl/volk_cpu.tmpl.c:155 | `val = 0` and `val = 1` always give complementary answers; `val = 1` answers whether the bit is set |
| `Capabilities.Leaf1Probe` | tmpl/volk_cpu.tmpl.c:151-162 | the leaf-1 branch is 0 or 1; it is 0 off x86; it is 0 whenever the prerequisite returns 0, whatever the register; otherwise it is 1 iff the leaf-1 register bit equals `val` |
| `Capabilities.ExtendedLeafProbe` | tmpl/volk_cpu.tmpl.c:164-174 | the extended-leaf branch is 0 or 1; it is 0 off x86; if CPUID.80000000h:EAX < 0x80000001 it is `1 - val`; otherwise it is 1 iff the bit of leaf 0x80000001 equals `val` |
| `Capabilities.CanHas` | tmpl/volk_cpu.tmpl.c:141-188 | every generated predicate returns 0 or 1, for every register, XCR0 and file state |
| `Capabilities.ConstantBranchesIgnoreProbes` | tmpl/volk_cpu.tmpl.c:141-188 | the x86 no-test, powerpc, "all" and unmatched branches depend only on the build target. No-test is 1 iff x86, powerpc equals `has_ppc()`, "all" is 1 and unmatched is 0 |
| `Capabilities.ProbesOffTheirPlatform` | tmpl/volk_cpu.tmpl.c:151-180 | both x86 probe branches give 0 on a non-x86 build; the ARM branch gives 0 off ARM Linux |
| `Capabilities.ExtendedLeafFallback` | tmpl/volk_cpu.tmpl.c:167-169 | when the extended leaf is unsupported, `val = 1` gives 0 and `val = 0` gives 1 |
| `CpuTable.Table` | tmpl/volk_cpu.tmpl.c:193-195 | the table after the init assignments in list order; its slots are exactly the descriptor names |
| `CpuTable.TableLookup` | tmpl/volk_cpu.tmpl.c:192-196 | after the init assignments, with unique names, the table's slots are exactly the descriptor names, and each slot holds its own descriptor |
| `CpuTable.TableFromSlots` | tmpl/volk_cpu.tmpl.c:192-196 | with unique names, any table whose slots are among the names and where each name's slot holds its own descriptor is the initialised table |
| `CpuTable.VolkCpu.constructor` | tmpl/volk_cpu.tmpl.c:26 | the global table starts with no slot set |
| `CpuTable.VolkCpu.Init` | tmpl/volk_cpu.tmpl.c:192-196 | the new table is `Table(archs)`, whatever the old one held; so a second call rebuilds the same table |
| `CpuTable.VolkCpu.CallSlot` | tmpl/volk_cpu.tmpl.c:202 | calling a slot gives the predicate of the descriptor it holds; the ARM branch runs the stream scan |
| `CpuTable.VolkCpu.GetLvarch` | tmpl/volk_cpu.tmpl.c:198-205 | initialises the table, then returns the `+=` accumulation `Mask`. Bit `LV_i` of the result equals predicate `i`, and a bit is set iff some descriptor with that index reports its architecture present |
| `CpuTable.Contribution` | tmpl/volk_cpu.tmpl.c:202 | `pred() << LV` has bit `LV` equal to the predicate and every other bit clear |
| `CpuTable.Accumulate` | tmpl/volk_cpu.tmpl.c:199-204 | `retval` after the `+=` loop over the terms, in 32-bit unsigned arithmetic; `CpuTable.AccumulateIsOr` proves it is the bitwise OR of the terms when their indices are distinct |
| `CpuTable.AccumulateOrBit` | tmpl/volk_cpu.tmpl.c:201-203 | a bit of the OR accumulation is set iff some term at that index has value 1 |
| `CpuTable.AddTermIsOr` | tmpl/volk_cpu.tmpl.c:202 | adding a term whose bit is clear in the running value equals OR-ing it in |
| `CpuTable.AccumulateIsOr` | tmpl/volk_cpu.tmpl.c:201-203 | with distinct indices, `+=` accumulation equals `|=` accumulation |
| `CpuTable.Slots` | tmpl/volk_cpu.tmpl.c:201-203 | there is one term per descriptor, in list order, namely (its `LV` index, its predicate) |
| `CpuTable.Mask` | tmpl/volk_cpu.tmpl.c:199-204 | the value `volk_get_lvarch()` returns: the accumulation of one term per descriptor; `CpuTable.MaskBits` proves bit `LV_i` is predicate `i` and no other bit is set |
| `CpuTable.SlotsDistinct` | tmpl/volk_cpu.tmpl.c:202 | unique names and an injective `LV` map give terms at distinct bit indices |
| `CpuTable.MaskStep` | tmpl/volk_cpu.tmpl.c:201-203 | after `i + 1` descriptors, the accumulation equals the one after `i` plus descriptor `i`'s term |
| `CpuTable.MaskBit` | tmpl/volk_cpu.tmpl.c:198-205 | bit `k` of the mask is set iff some descriptor with `LV` index `k` reports its architecture present |
| `CpuTable.MaskBits` | tmpl/volk_cpu.tmpl.c:198-205 | the mask has bit `LV_i` equal to predicate `i` for every descriptor, and no bit outside the descriptors' indices |
| `CpuTable.MaskIsOr` | tmpl/volk_cpu.tmpl.c:202 | the `+=` accumulation equals the bitwise OR of the terms |
| `CpuTable.MaskOrderIndependent` | tmpl/volk_cpu.tmpl.c:201-203 | any permutation of the descriptor list gives the same mask |
| `MaskExample.ExampleMask` | tmpl/volk_cpu.tmpl.c:198-205 | for the list {x86 baseline at bit 0, leaf-1 EDX bit 25 at bit 1}, the mask is 1 plus 2 exactly when EDX bit 25 is set |
| `MaskExample.ExampleMasks` | tmpl/volk_cpu.tmpl.c:198-205 | for that list, EDX `0x02000000` gives mask 3 and EDX 0 gives mask 1 |

## Left out

- The CPUID and XGETBV instructions (`__get_cpuid`, `__cpuid`, the inline `xgetbv` assembly and `_xgetbv`) are foreign hardware calls. They become the `cpuid` oracle and the `xcr0` value. The MSVC build without `_XCR_XFEATURE_ENABLED_MASK` corresponds to `xcr0 = 0`. The uninitialised `index` passed in ECX to the inline assembly is not modelled: the XCR0 value is an input.
- The oracle is a function, so repeated queries of one leaf return the same registers. The source re-issues the query on each accessor call.
- `fopen`, `fread` and `fclose` on `/proc/self/auxv` are OS file I/O. They become `AuxvFile`: an open failure, or a finite stream of whole (key, value) pairs. A read of half a pair is not modelled.
- `AT_HWCAP` (16) and `HWCAP_NEON` (`1 << 12`) come from the Linux headers linux/auxvec.h and asm/hwcap.h. Those headers are not part of this model.
- Preprocessor platform detection and the `#error` for compilers without CPUID support are replaced by the `Platform` value.
- The Cheetah generator (`#for`, `#set`, `hex()`) is not modelled. `CanHas` over a descriptor stands for every generated `i_can_has_<arch>`.
- The `LV_*` enumeration (volk_cpu.h) is not part of this model. It is a parameter: a map from name to a bit index below 32, injective over the descriptors. The `.upper()` spelling of the enumerator names is not modelled.
- Function pointers in `struct VOLK_CPU` are modelled as a map from name to the descriptor whose predicate the pointer designates.
- `Capabilities.Arch`: a descriptor's `val` is restricted to 0 or 1, and its `shift` to 0..31. With `val = 2`, `val ^ 1` would be 3, which spills into the next mask bit. A shift of 32 or more is undefined in C.
- `Capabilities.Check`: a prerequisite may be `xgetbv`, `has_neon` or `has_ppc`, the file's argument-less probes. A prerequisite naming another generated `i_can_has_<arch>` is not modelled.
- `CpuTable.VolkCpu.GetLvarch`: shifting an `int` 1 into bit 31 is formally undefined in C. The model treats it as the unsigned shift the compiler performs.
- Concurrent calls of `volk_cpu_init` (a data race on the global) are not modelled.

## Findings

| source | as written | input that shows it | evidently intended | confidence | as-written member | corrected member |
|---|---|---|---|---|---|---|
| tmpl/volk_cpu.tmpl.c:120-124 | the loop `while(!found_neon && auxvec_f)` exits only when NEON is found. The result of `fread` is ignored, so at end of file the buffer keeps its last pair and the loop spins forever | ARM Linux with no NEON, e.g. the auxiliary vector `[(AT_HWCAP, 0), (AT_NULL, 0)]` | stop at end of stream and return 0 | high; not executed | `Auxv.AsWrittenScanHangsWithoutNeon` | `Auxv.HasNeon` |
