/** NEON detection on 32-bit ARM Linux: a scan of the auxiliary vector for
    the hardware-capability record. The constants are the Linux values of
    `AT_HWCAP` (linux/auxvec.h) and `HWCAP_NEON` (asm/hwcap.h on ARM). */
module Auxv {
  import opened Machine

  const AT_HWCAP: bv32 := 16
  const HWCAP_NEON: bv32 := 0x1000

  /** The record the scan looks for: the hardware-capability key with the
      NEON bit set in its value. */
  predicate IsNeonHwcap(p: AuxPair)
  {
    p.key == AT_HWCAP && p.value & HWCAP_NEON != 0
  }

  /** What `has_neon()` reports: 1 exactly when the target is ARM Linux, the
      file opens, and some record of the stream is a NEON hardware-capability
      record; 0 otherwise. */
  function NeonScan(platform: Platform, auxv: AuxvFile): (r: nat)
    ensures r <= 1
  {
    if platform == ArmLinux && auxv.Opened? &&
       exists i :: 0 <= i < |auxv.pairs| && IsNeonHwcap(auxv.pairs[i])
    then 1 else 0
  }

  /** `has_neon()`, reading the stream pair by pair and stopping at the first
      NEON record or at the end of the stream. `consumed` is the number of
      pairs read, a ghost record of how far the scan went. */
  method HasNeon(platform: Platform, auxv: AuxvFile) returns (found: nat, ghost consumed: nat)
    ensures found == NeonScan(platform, auxv)
    ensures platform != ArmLinux || auxv.OpenFailed? ==> found == 0 && consumed == 0
    ensures found == 1 ==>
      && auxv.Opened? && 0 < consumed <= |auxv.pairs|
      && IsNeonHwcap(auxv.pairs[consumed - 1])
      && forall j :: 0 <= j < consumed - 1 ==> !IsNeonHwcap(auxv.pairs[j])
    ensures found == 0 && platform == ArmLinux && auxv.Opened? ==> consumed == |auxv.pairs|
  {
    found, consumed := 0, 0;
    if platform != ArmLinux || auxv.OpenFailed? {
      return;
    }
    var pairs := auxv.pairs;
    var read := 0;
    while found == 0 && read < |pairs|
      invariant read <= |pairs| && found <= 1
      invariant found == 0 ==> forall j :: 0 <= j < read ==> !IsNeonHwcap(pairs[j])
      invariant found == 1 ==>
        && 0 < read && IsNeonHwcap(pairs[read - 1])
        && forall j :: 0 <= j < read - 1 ==> !IsNeonHwcap(pairs[j])
      decreases |pairs| - read
    {
      var entry := pairs[read];
      read := read + 1;
      if IsNeonHwcap(entry) {
        found := 1;
      }
    }
    consumed := read;
  }

  /* The loop as the source writes it. Its guard is `!found_neon && auxvec_f`
     and the file handle is never reset, so the only exit is finding NEON;
     the result of `fread` is ignored, and a read at the end of the file
     leaves the buffer as it was. */

  /** The state of the source loop: pairs read so far, the two-word buffer
      (uninitialised before the first read) and the flag. */
  datatype ScanState = ScanState(pos: nat, buffer: AuxPair, found: nat)

  /** One iteration of the source loop body over the stream `pairs`. */
  function AsWrittenStep(pairs: seq<AuxPair>, s: ScanState): (t: ScanState)
    ensures s.pos < |pairs| ==> t.pos == s.pos + 1 && t.buffer == pairs[s.pos]
    ensures s.pos >= |pairs| ==> t.pos == s.pos && t.buffer == s.buffer
    ensures t.found == if IsNeonHwcap(t.buffer) then 1 else s.found
  {
    var buffer := if s.pos < |pairs| then pairs[s.pos] else s.buffer;
    ScanState(if s.pos < |pairs| then s.pos + 1 else s.pos, buffer,
              if IsNeonHwcap(buffer) then 1 else s.found)
  }

  /** The state after at most `n` iterations of the source loop, stopping
      early when its guard becomes false. */
  function AsWrittenRun(pairs: seq<AuxPair>, s: ScanState, n: nat): (r: ScanState)
    ensures n == 0 || s.found != 0 ==> r == s
    ensures r.found != s.found ==> r.found == 1 && IsNeonHwcap(r.buffer)
    decreases n
  {
    if n == 0 || s.found != 0 then s else AsWrittenRun(pairs, AsWrittenStep(pairs, s), n - 1)
  }

  /** On a stream with no NEON record, the source loop's guard holds after
      every number of iterations: the loop never exits. */
  lemma {:induction false} AsWrittenScanNeverExits(pairs: seq<AuxPair>, s: ScanState, n: nat)
    requires forall j :: 0 <= j < |pairs| ==> !IsNeonHwcap(pairs[j])
    requires s.found == 0 && !IsNeonHwcap(s.buffer)
    ensures AsWrittenRun(pairs, s, n).found == 0
    decreases n
  {
    if n > 0 {
      AsWrittenScanNeverExits(pairs, AsWrittenStep(pairs, s), n - 1);
    }
  }

  /** A board without NEON: the hardware-capability record is present with
      the NEON bit clear, then the terminating null record. The source loop
      is still running after any number of iterations, while the scan that
      stops at the end of the stream reports 0. */
  lemma AsWrittenScanHangsWithoutNeon(n: nat)
    ensures AsWrittenRun([AuxPair(AT_HWCAP, 0), AuxPair(0, 0)], ScanState(0, AuxPair(0, 0), 0), n).found == 0
    ensures NeonScan(ArmLinux, Opened([AuxPair(AT_HWCAP, 0), AuxPair(0, 0)])) == 0
  {
    AsWrittenScanNeverExits([AuxPair(AT_HWCAP, 0), AuxPair(0, 0)], ScanState(0, AuxPair(0, 0), 0), n);
  }

  /** When the stream holds a NEON record at index `i` and none before it,
      the source loop stops after exactly `i + 1` iterations with the flag
      set: the two versions differ only when no NEON record exists. */
  lemma {:induction false} AsWrittenScanFindsFirstNeon(pairs: seq<AuxPair>, s: ScanState, i: nat)
    requires s.found == 0 && s.pos <= i < |pairs| && IsNeonHwcap(pairs[i])
    requires forall j :: s.pos <= j < i ==> !IsNeonHwcap(pairs[j])
    ensures AsWrittenRun(pairs, s, i + 1 - s.pos) == ScanState(i + 1, pairs[i], 1)
    decreases i - s.pos
  {
    var t := AsWrittenStep(pairs, s);
    if s.pos < i {
      AsWrittenScanFindsFirstNeon(pairs, t, i);
    }
  }
}
