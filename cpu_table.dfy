/** The process-wide predicate table (`struct VOLK_CPU`), its initialiser and
    the capability mask. A slot of the table holds the descriptor whose
    generated predicate the C function pointer designates. */
module CpuTable {
  import opened Machine
  import opened Bits
  import opened Auxv
  import opened Capabilities

  /** No two descriptors share a name: each names one field of the table. */
  predicate UniqueNames(archs: seq<Arch>)
  {
    forall i, j :: 0 <= i < j < |archs| ==> archs[i].name != archs[j].name
  }

  /** The `LV_<NAME>` bit indices cover every descriptor and are injective. */
  predicate Indexed(archs: seq<Arch>, lv: map<string, BitIndex>)
  {
    && (forall a :: a in archs ==> a.name in lv)
    && (forall a, b ::
          a in archs && b in archs && a.name in lv && b.name in lv && lv[a.name] == lv[b.name] ==>
          a.name == b.name)
  }

  /** The names of the descriptors, that is, the fields of the table. */
  function Names(archs: seq<Arch>): set<string>
  {
    set a | a in archs :: a.name
  }

  /** The table after the assignments of `volk_cpu_init`, one per
      descriptor in list order. */
  function Table(archs: seq<Arch>): (t: map<string, Arch>)
    ensures t.Keys == Names(archs)
  {
    if archs == [] then map[]
    else
      var init, last := archs[..|archs| - 1], archs[|archs| - 1];
      assert archs == init + [last];
      assert Names(archs) == Names(init) + {last.name};
      Table(init)[last.name := last]
  }

  /** After initialisation every descriptor's slot holds that descriptor's
      predicate, and there is no other slot. */
  lemma {:induction false} TableLookup(archs: seq<Arch>)
    requires UniqueNames(archs)
    ensures Table(archs).Keys == Names(archs)
    ensures forall i :: 0 <= i < |archs| ==> Table(archs)[archs[i].name] == archs[i]
  {
    if archs != [] {
      var init, last := archs[..|archs| - 1], archs[|archs| - 1];
      TableLookup(init);
      forall i | 0 <= i < |archs| ensures Table(archs)[archs[i].name] == archs[i] {
        if i < |init| {
          assert archs[i] == init[i] && archs[i].name != last.name;
        }
      }
    }
  }

  /** A map whose slots are exactly the descriptors' names, each holding its
      own descriptor, is the initialised table. */
  lemma TableFromSlots(archs: seq<Arch>, m: map<string, Arch>)
    requires UniqueNames(archs) && m.Keys <= Names(archs)
    requires forall j :: 0 <= j < |archs| ==> archs[j].name in m && m[archs[j].name] == archs[j]
    ensures m == Table(archs)
  {
    TableLookup(archs);
    forall n | n in Names(archs) ensures n in m && m[n] == Table(archs)[n] {
      var a :| a in archs && a.name == n;
      var j :| 0 <= j < |archs| && archs[j] == a;
    }
  }

  /** One term `pred() << LV_<NAME>` of the accumulation: the predicate's
      value and the bit index it is shifted to. */
  datatype Slot = Slot(index: BitIndex, value: Flag)

  /** A term shifted into place: exactly bit `index` holds `value`. */
  function Contribution(s: Slot): (c: bv32)
    ensures forall j: BitIndex :: BitOf(c, j) == if j == s.index then s.value else 0
  {
    if s.value == 0 then 0
    else
      var c := (1 as bv32) << s.index;
      forall j: BitIndex ensures BitOf(c, j) == if j == s.index then 1 else 0 {
        ShiftedOneBit(s.index, j);
      }
      c
  }

  /** `retval += term` over the terms in order, in 32-bit unsigned arithmetic. */
  function Accumulate(slots: seq<Slot>): bv32
  {
    if slots == [] then 0
    else Add32(Accumulate(slots[..|slots| - 1]), Contribution(slots[|slots| - 1]))
  }

  /** The same accumulation with bitwise OR in place of `+`. */
  function AccumulateOr(slots: seq<Slot>): bv32
  {
    if slots == [] then 0
    else AccumulateOr(slots[..|slots| - 1]) | Contribution(slots[|slots| - 1])
  }

  /** No two terms are shifted to the same bit. */
  predicate DistinctIndices(slots: seq<Slot>)
  {
    forall i, j :: 0 <= i < j < |slots| ==> slots[i].index != slots[j].index
  }

  /** Bit `k` of the OR accumulation is set iff some term with index `k`
      has value 1. */
  lemma {:induction false} AccumulateOrBit(slots: seq<Slot>, k: BitIndex)
    ensures BitOf(AccumulateOr(slots), k) == 1 <==>
            exists i :: 0 <= i < |slots| && slots[i].index == k && slots[i].value == 1
  {
    if slots != [] {
      var init, last := slots[..|slots| - 1], slots[|slots| - 1];
      AccumulateOrBit(init, k);
      OrStepBit(init, last, k);
      assert slots == init + [last];
      SetAtIndex(init, last, k);
    }
  }

  /** OR-ing one more term into the accumulation sets bit `k` iff it was
      set already or the new term sets it. */
  lemma OrStepBit(init: seq<Slot>, last: Slot, k: BitIndex)
    ensures BitOf(AccumulateOr(init + [last]), k) == 1 <==>
            BitOf(AccumulateOr(init), k) == 1 || (last.index == k && last.value == 1)
  {
    var x, c := AccumulateOr(init), Contribution(last);
    OrStepUnfold(init, last);
    assert BitOf(x | c, k) == 1 <==> BitOf(x, k) == 1 || BitOf(c, k) == 1 by {
      OrBit(x, c, k);
    }
    assert BitOf(c, k) == 1 <==> last.index == k && last.value == 1 by {
      ContributionBitSet(last, k);
    }
  }

  /** The OR accumulation of `init + [last]` ORs `last`'s term into that of
      `init`. */
  lemma OrStepUnfold(init: seq<Slot>, last: Slot)
    ensures AccumulateOr(init + [last]) == AccumulateOr(init) | Contribution(last)
  {
    assert (init + [last])[..|init|] == init;
  }

  /** A term sets bit `k` iff it is shifted to `k` and its value is 1. */
  lemma ContributionBitSet(s: Slot, k: BitIndex)
    ensures BitOf(Contribution(s), k) == 1 <==> s.index == k && s.value == 1
  {
  }

  /** Some term of `init + [last]` sets bit `k` iff some term of `init`
      does or `last` does. */
  lemma SetAtIndex(init: seq<Slot>, last: Slot, k: BitIndex)
    ensures (exists i :: 0 <= i < |init + [last]| && (init + [last])[i].index == k && (init + [last])[i].value == 1) <==>
            (exists i :: 0 <= i < |init| && init[i].index == k && init[i].value == 1) || (last.index == k && last.value == 1)
  {
    var slots := init + [last];
    assert slots[|init|] == last;
    if exists i :: 0 <= i < |init| && init[i].index == k && init[i].value == 1 {
      var i :| 0 <= i < |init| && init[i].index == k && init[i].value == 1;
      assert slots[i] == init[i];
    }
    if exists i :: 0 <= i < |slots| && slots[i].index == k && slots[i].value == 1 {
      var i :| 0 <= i < |slots| && slots[i].index == k && slots[i].value == 1;
      if i < |init| {
        assert init[i] == slots[i];
      }
    }
  }

  /** Adding a term whose bit is clear in `x` equals OR-ing it in. */
  lemma AddTermIsOr(x: bv32, s: Slot)
    requires s.value == 1 ==> BitOf(x, s.index) == 0
    ensures Add32(x, Contribution(s)) == x | Contribution(s)
  {
    if s.value == 1 {
      AddFreshBit(x, s.index);
    }
  }

  /** With distinct indices the terms occupy disjoint bits, so `+=` never
      carries and equals `|=`. */
  lemma {:induction false} AccumulateIsOr(slots: seq<Slot>)
    requires DistinctIndices(slots)
    ensures Accumulate(slots) == AccumulateOr(slots)
  {
    if slots != [] {
      var init, last := slots[..|slots| - 1], slots[|slots| - 1];
      assert DistinctIndices(init);
      AccumulateIsOr(init);
      var x := AccumulateOr(init);
      if last.value == 1 {
        forall i | 0 <= i < |init| ensures init[i].index != last.index {
          assert init[i] == slots[i];
        }
        AccumulateOrBit(init, last.index);
      }
      AddTermIsOr(x, last);
    }
  }

  /** The terms `pred() << LV_<NAME>` of the descriptors, in list order. */
  function Slots(archs: seq<Arch>, h: Host, lv: map<string, BitIndex>): (slots: seq<Slot>)
    requires forall a :: a in archs ==> a.name in lv
    ensures |slots| == |archs|
    ensures forall i :: 0 <= i < |archs| ==> slots[i] == Slot(lv[archs[i].name], CanHas(archs[i], h))
  {
    if archs == [] then []
    else
      var last := archs[|archs| - 1];
      Slots(archs[..|archs| - 1], h, lv) + [Slot(lv[last.name], CanHas(last, h))]
  }

  /** The value `volk_get_lvarch` returns. */
  function Mask(archs: seq<Arch>, h: Host, lv: map<string, BitIndex>): bv32
    requires forall a :: a in archs ==> a.name in lv
  {
    Accumulate(Slots(archs, h, lv))
  }

  /** The accumulation of the first `i + 1` descriptors adds descriptor
      `i`'s term to that of the first `i`. */
  lemma MaskStep(archs: seq<Arch>, h: Host, lv: map<string, BitIndex>, i: nat)
    requires Indexed(archs, lv) && i < |archs|
    ensures forall a :: a in archs[..i] ==> a.name in lv
    ensures forall a :: a in archs[..i + 1] ==> a.name in lv
    ensures Mask(archs[..i + 1], h, lv) ==
            Add32(Mask(archs[..i], h, lv), Contribution(Slot(lv[archs[i].name], CanHas(archs[i], h))))
  {
    assert forall a :: a in archs[..i + 1] ==> a in archs;
    assert archs[..i + 1][..i] == archs[..i];
  }

  /** The reference meaning of the mask: bit `k` is set iff some descriptor
      with index `k` reports its architecture present. */
  ghost predicate MaskMeaning(archs: seq<Arch>, h: Host, lv: map<string, BitIndex>, m: bv32)
    requires forall a :: a in archs ==> a.name in lv
  {
    forall k: BitIndex :: BitOf(m, k) == 1 <==> exists a :: a in archs && lv[a.name] == k && CanHas(a, h) == 1
  }

  /** Distinct names and injective `LV_*` indices give terms with distinct
      indices. */
  lemma SlotsDistinct(archs: seq<Arch>, h: Host, lv: map<string, BitIndex>)
    requires UniqueNames(archs) && Indexed(archs, lv)
    ensures DistinctIndices(Slots(archs, h, lv))
  {
    var slots := Slots(archs, h, lv);
    forall i, j | 0 <= i < j < |slots| ensures slots[i].index != slots[j].index {
      assert archs[i].name != archs[j].name;
      assert archs[i] in archs && archs[j] in archs;
    }
  }

  /** Bit `k` of the mask is set iff some descriptor with index `k` reports
      its architecture present. */
  lemma MaskBit(archs: seq<Arch>, h: Host, lv: map<string, BitIndex>, k: BitIndex)
    requires UniqueNames(archs) && Indexed(archs, lv)
    ensures BitOf(Mask(archs, h, lv), k) == 1 <==> exists a :: a in archs && lv[a.name] == k && CanHas(a, h) == 1
  {
    var slots := Slots(archs, h, lv);
    SlotsDistinct(archs, h, lv);
    AccumulateIsOr(slots);
    AccumulateOrBit(slots, k);
    if exists a :: a in archs && lv[a.name] == k && CanHas(a, h) == 1 {
      var a :| a in archs && lv[a.name] == k && CanHas(a, h) == 1;
      var i :| 0 <= i < |archs| && archs[i] == a;
      assert slots[i].index == k && slots[i].value == 1;
    }
    if BitOf(Mask(archs, h, lv), k) == 1 {
      var i :| 0 <= i < |slots| && slots[i].index == k && slots[i].value == 1;
      assert archs[i] in archs;
    }
  }

  /** The mask `volk_get_lvarch` returns: bit `LV_<NAME>` carries that
      descriptor's predicate and no other bit is set. */
  lemma MaskBits(archs: seq<Arch>, h: Host, lv: map<string, BitIndex>)
    requires UniqueNames(archs) && Indexed(archs, lv)
    ensures MaskMeaning(archs, h, lv, Mask(archs, h, lv))
    ensures forall i :: 0 <= i < |archs| ==> BitOf(Mask(archs, h, lv), lv[archs[i].name]) == CanHas(archs[i], h)
  {
    var m := Mask(archs, h, lv);
    forall k: BitIndex ensures BitOf(m, k) == 1 <==> exists a :: a in archs && lv[a.name] == k && CanHas(a, h) == 1 {
      MaskBit(archs, h, lv, k);
    }
    forall i | 0 <= i < |archs| ensures BitOf(m, lv[archs[i].name]) == CanHas(archs[i], h) {
      MaskBit(archs, h, lv, lv[archs[i].name]);
      if BitOf(m, lv[archs[i].name]) == 1 {
        var a :| a in archs && lv[a.name] == lv[archs[i].name] && CanHas(a, h) == 1;
        assert a.name == archs[i].name;
        var j :| 0 <= j < |archs| && archs[j] == a;
        assert i == j;
      }
    }
  }

  /** `+=` never carries: the mask equals the OR of the terms. */
  lemma MaskIsOr(archs: seq<Arch>, h: Host, lv: map<string, BitIndex>)
    requires UniqueNames(archs) && Indexed(archs, lv)
    ensures Mask(archs, h, lv) == AccumulateOr(Slots(archs, h, lv))
  {
    SlotsDistinct(archs, h, lv);
    AccumulateIsOr(Slots(archs, h, lv));
  }

  /** The mask does not depend on the order of the descriptor list. */
  lemma MaskOrderIndependent(archs: seq<Arch>, other: seq<Arch>, h: Host, lv: map<string, BitIndex>)
    requires multiset(archs) == multiset(other)
    requires UniqueNames(archs) && Indexed(archs, lv)
    requires UniqueNames(other) && Indexed(other, lv)
    ensures Mask(archs, h, lv) == Mask(other, h, lv)
  {
    MaskBits(archs, h, lv);
    MaskBits(other, h, lv);
    var x, y := Mask(archs, h, lv), Mask(other, h, lv);
    forall k: BitIndex ensures BitOf(x, k) == BitOf(y, k) {
      if BitOf(x, k) == 1 {
        var a :| a in archs && lv[a.name] == k && CanHas(a, h) == 1;
        assert a in multiset(other);
      }
      if BitOf(y, k) == 1 {
        var a :| a in other && lv[a.name] == k && CanHas(a, h) == 1;
        assert a in multiset(archs);
      }
    }
    BitsDetermineWord(x, y);
  }

  /** The global `volk_cpu`: one predicate slot per descriptor of the
      architecture list the library was generated from. */
  class VolkCpu {
    const archs: seq<Arch>
    var has: map<string, Arch>

    ghost predicate Valid()
      reads this
    {
      UniqueNames(archs) && has.Keys <= Names(archs)
    }

    /** The zero-initialised global: no slot is set yet. */
    constructor (archs: seq<Arch>)
      requires UniqueNames(archs)
      ensures Valid() && this.archs == archs && has == map[]
    {
      this.archs := archs;
      has := map[];
    }

    /** `volk_cpu_init()`: point every slot at its descriptor's predicate.
        The new table does not depend on the old one, so a second call
        rebuilds the same table. */
    method Init()
      requires Valid()
      modifies this
      ensures Valid() && has == Table(archs)
    {
      for i := 0 to |archs|
        invariant Valid()
        invariant forall j :: 0 <= j < i ==> archs[j].name in has && has[archs[j].name] == archs[j]
      {
        has := has[archs[i].name := archs[i]];
      }
      TableFromSlots(archs, has);
    }

    /** `volk_cpu.has_<name>()`: call the predicate a slot points to; the
        ARM branch runs the stream scan. */
    method CallSlot(name: string, h: Host) returns (v: nat)
      requires name in has
      ensures v == CanHas(has[name], h)
    {
      var arch := has[name];
      if BranchOf(arch) == ArmNeon {
        ghost var consumed;
        v, consumed := HasNeon(h.platform, h.auxv);
      } else {
        v := CanHas(arch, h);
      }
    }

    /** `volk_get_lvarch()`: initialise the table, then add each slot's
        predicate shifted to its `LV_<NAME>` bit. */
    method GetLvarch(h: Host, lv: map<string, BitIndex>) returns (retval: bv32)
      requires Valid() && Indexed(archs, lv)
      modifies this
      ensures Valid() && has == Table(archs)
      ensures retval == Mask(archs, h, lv)
      ensures MaskMeaning(archs, h, lv, retval)
      ensures forall i :: 0 <= i < |archs| ==> BitOf(retval, lv[archs[i].name]) == CanHas(archs[i], h)
    {
      Init();
      TableLookup(archs);
      retval := 0;
      for i := 0 to |archs|
        invariant has == Table(archs)
        invariant retval == Mask(archs[..i], h, lv)
      {
        var v := CallSlot(archs[i].name, h);
        MaskStep(archs, h, lv, i);
        retval := Add32(retval, Contribution(Slot(lv[archs[i].name], v)));
      }
      assert archs[..|archs|] == archs;
      MaskBits(archs, h, lv);
    }
  }
}
