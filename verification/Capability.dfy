/** Capability words of the kernel: their fields, their validity test and the
    address arithmetic that memory and PMP capabilities share. */
module Capability {
  import opened Arith

  /** Build-time parameters of the kernel (s3k_conf.h and the platform header); `smp` is the
      multicore build. */
  datatype Config = Config(
    procCnt: nat, capCnt: nat, slotCnt: nat, chanCnt: nat, pmpCnt: nat,
    minHart: nat, maxHart: nat, slotLen: nat, schedTime: nat, smp: bool)

  /** What the packed schedule needs of the parameters: a lane holds an 8-bit
      process number and an 8-bit length, and a word holds four lanes. */
  predicate ValidConfig(c: Config) {
    && 0 < c.procCnt <= 256
    && 0 < c.capCnt
    && 0 < c.slotCnt < 256
    && c.minHart <= c.maxHart < c.minHart + 4
    && c.schedTime <= c.slotLen
  }

  function TableSize(c: Config): nat {
    c.procCnt * c.capCnt
  }

  /** Owner of a table entry. */
  function Pid(c: Config, idx: nat): (pid: nat)
    requires ValidConfig(c) && idx < TableSize(c)
    ensures pid < c.procCnt
  {
    PidInRange(c, idx);
    idx / c.capCnt
  }

  lemma PidInRange(c: Config, idx: nat)
    requires ValidConfig(c) && idx < TableSize(c)
    ensures 0 <= idx / c.capCnt < c.procCnt
  {
    DivLess(idx, c.procCnt, c.capCnt);
  }

  /** The 48-bit address field of a PMP capability. */
  type Napot = a: bv64 | a < 0x1_0000_0000_0000 witness 0

  /** Memory permissions: bits 1 (read), 2 (write) and 4 (execute). */
  datatype Rwx = Rwx(r: bool, w: bool, x: bool)

  /** `(a & b) == a`. */
  predicate RwxLe(a: Rwx, b: Rwx) {
    (a.r ==> b.r) && (a.w ==> b.w) && (a.x ==> b.x)
  }

  datatype Cap =
    | None
    | Time(hart: nat, bgn: nat, mrk: nat, end: nat)
    | Memory(tag: nat, rwx: Rwx, lck: bool, bgn: nat, mrk: nat, end: nat)
    | Pmp(addr: Napot, rwx: Rwx, used: bool, slot: nat)
    | Monitor(bgn: nat, mrk: nat, end: nat)
    | Channel(bgn: nat, mrk: nat, end: nat)
    | Socket(chan: nat, mode: nat, perm: bv8, tok: nat)

  datatype Err =
    | Success | Empty | SrcEmpty | DstOccupied | InvalidDerivation
    | InvalidPmp | InvalidMonitor | InvalidState | Preempted | Continue

  /** The kernel's test on capability words that user code hands in. */
  predicate CapIsValid(c: Cap) {
    match c
    case None => false
    case Time(_, bgn, mrk, end) => bgn < end && bgn == mrk
    case Memory(_, _, lck, bgn, mrk, end) => !lck && bgn < end && mrk == bgn
    case Pmp(_, _, used, slot) => !used && slot == 0
    case Monitor(bgn, mrk, end) => bgn < end && bgn == mrk
    case Channel(bgn, mrk, end) => bgn < end && bgn == mrk
    case Socket(_, mode, _, _) => mode == 1 || mode == 0
  }

  const MIN_BLOCK := 4096
  const MAX_BLOCK := 134217728

  /** Byte address of a memory block. */
  function BlockAddr(tag: nat, block: nat): nat {
    tag * MAX_BLOCK + block * MIN_BLOCK
  }

  function NapotBase(a: bv64): bv64 {
    ((a + 1) & a) << 2
  }

  function NapotSize(a: bv64): bv64 {
    (((a + 1) ^ a) + 1) << 2
  }

  function NapotEncode(base: bv64, size: bv64): bv64 {
    (base | (size / 2 - 1)) >> 2
  }

  /** First byte of a PMP frame. */
  function FrameBegin(a: Napot): nat {
    NapotBase(a) as nat
  }

  /** First byte after a PMP frame. */
  function FrameEnd(a: Napot): (end: nat)
    ensures FrameBegin(a) < end
  {
    NapotNonEmpty(a);
    FrameBegin(a) + NapotSize(a) as nat
  }

  lemma NapotNonEmpty(a: Napot)
    ensures NapotSize(a) as nat > 0
  {
    assert NapotSize(a) >= 8;
  }

  /** Encoding after decoding gives back every 48-bit address word. */
  lemma EncodeDecode(a: Napot)
    ensures NapotEncode(NapotBase(a), NapotSize(a)) == a
    ensures NapotSize(a) >= 8
    ensures NapotSize(a) & (NapotSize(a) - 1) == 0
    ensures NapotBase(a) & (NapotSize(a) - 1) == 0
  {
  }

  /** Decoding after encoding gives back every naturally aligned power-of-two range
      of at least eight bytes. */
  lemma DecodeEncode(base: bv64, size: bv64)
    requires 8 <= size
    requires size & (size - 1) == 0
    requires base & (size - 1) == 0
    ensures NapotBase(NapotEncode(base, size)) == base
    ensures NapotSize(NapotEncode(base, size)) == size
  {
    hide NapotBase, NapotSize, NapotEncode;
    var ones := HalfSize(base, size);
    EncodeParts(base, ones);
  }

  lemma HalfSize(base: bv64, size: bv64) returns (ones: bv64)
    requires 8 <= size
    requires size & (size - 1) == 0 && base & (size - 1) == 0
    ensures NapotEncode(base, size) == (base | ones) >> 2
    ensures 3 <= ones < 0x4000_0000_0000_0000
    ensures ones & (ones + 1) == 0
    ensures base & (ones + (ones + 1)) == 0
    ensures (ones + 1) << 1 == size
  {
    ones := size / 2 - 1;
  }

  /** Ranges below 2^50 fit the 48-bit field. */
  lemma EncodeFits(base: bv64, size: bv64)
    requires 8 <= size <= 0x8_0000_0000_0000
    requires base < 0x4_0000_0000_0000
    ensures NapotEncode(base, size) < 0x1_0000_0000_0000
  {
  }

  lemma EncodeParts(base: bv64, ones: bv64)
    requires 3 <= ones < 0x4000_0000_0000_0000
    requires ones & (ones + 1) == 0
    requires base & (ones + (ones + 1)) == 0
    ensures NapotBase((base | ones) >> 2) == base
    ensures NapotSize((base | ones) >> 2) == (ones + 1) << 1
  {
  }

  /** The encoding of section 3.7.1 of the RISC-V Privileged Architecture: an address
      word that ends in a zero followed by k ones names 2^(k+3) bytes, and its base is
      the word with those ones cleared, in units of four bytes. `ones` is 2^k - 1. */
  lemma TrailingOnes(a: Napot, ones: bv64)
    requires ones <= 0xFFFF_FFFF_FFFF
    requires ones & (ones + 1) == 0
    requires a & (ones + (ones + 1)) == ones
    ensures NapotSize(a) == (ones + 1) << 3
    ensures NapotBase(a) == (a & !ones) << 2
  {
  }
}
