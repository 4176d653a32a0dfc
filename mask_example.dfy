/** A two-entry architecture list: an x86 baseline and a leaf-1 EDX bit-25
    test, at bits 0 and 1. */
module MaskExample {
  import opened Machine
  import opened Bits
  import opened Capabilities
  import opened CpuTable

  const Baseline := Arch("x86base", "x86", true, None, EAX, 0, 1, None)
  const Sse := Arch("sse", "x86", false, Some(1), EDX, 25, 1, None)
  const ExampleIndices: map<string, BitIndex> := map["x86base" := 0, "sse" := 1]

  function ExampleHost(edx: bv32): Host
  {
    Host(X86, _ => Regs(0, 0, 0, edx), 0, OpenFailed)
  }

  /** The mask of the two-entry list is the baseline bit plus the SSE bit
      shifted to position 1. */
  lemma ExampleMask(edx: bv32)
    ensures Mask([Baseline, Sse], ExampleHost(edx), ExampleIndices) ==
            Add32(1, if BitOf(edx, 25) == 1 then 2 else 0)
  {
    var h := ExampleHost(edx);
    var sse := CanHas(Sse, h);
    assert sse == BitOf(edx, 25);
    var slots := Slots([Baseline, Sse], h, ExampleIndices);
    assert slots == [Slot(0, 1), Slot(1, sse)];
    assert slots[..1] == [Slot(0, 1)];
    assert Accumulate([Slot(0, 1)]) == 1;
    assert Contribution(Slot(1, sse)) == if sse == 1 then 2 else 0;
  }

  /** With EDX bit 25 set both bits are set; with it clear only the baseline
      bit is. */
  lemma ExampleMasks()
    ensures Mask([Baseline, Sse], ExampleHost(0x0200_0000), ExampleIndices) == 3
    ensures Mask([Baseline, Sse], ExampleHost(0), ExampleIndices) == 1
  {
    ExampleMask(0x0200_0000);
    ExampleMask(0);
  }
}
