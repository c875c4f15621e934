/** A board's boot table meets what the invariant asks of it, and a state in which the
    neighbour test of revocation goes wrong. */
module Platforms {
  import opened Capability
  import opened CapList
  import opened Schedule
  import opened CapOps
  import opened Authority
  import opened Exactness
  import opened CapTable
  import opened Runs
  import opened Guarantees

  const RWX := Rwx(true, true, true)
  const RW := Rwx(true, true, false)
  const RO := Rwx(true, false, false)

  function MkTime(hart: nat, end: nat): Cap {
    Time(hart, 0, 0, end)
  }

  /** cap_mk_memory, with the tag and the block numbers of its two addresses. */
  function MkMemory(tag: nat, bgn: nat, end: nat, rwx: Rwx): Cap {
    Memory(tag, rwx, false, bgn, bgn, end)
  }

  /** The boot table of the four-hart QEMU board. The memory regions start at bytes
      0x80020000, 0x10000000, 0x200b000 and 0x4000000. */
  function QemuVirt4(cfg: Config): (caps: seq<Cap>)
    ensures |caps| == 26
  {
    [Pmp(0x2007_ffff, RWX, false, 0),
     MkMemory(16, 0x20, 0x8000, RWX),
     MkMemory(2, 0, 2, RW),
     MkMemory(0, 0x200b, 0x200c, RO),
     MkTime(0, cfg.slotCnt), MkTime(1, cfg.slotCnt), MkTime(2, cfg.slotCnt), MkTime(3, cfg.slotCnt),
     Monitor(0, 0, cfg.procCnt),
     Channel(0, 0, cfg.chanCnt)]
    + seq(15, _ => None)
    + [MkMemory(0, 0x4000, 0x4010, RW)]
  }

  /** The memory of that table in bytes: main memory behind the kernel's, the serial port and the
      disk, the read-only clock, and the inter-processor interrupts. */
  lemma QemuVirt4Memory(cfg: Config)
    ensures var caps := QemuVirt4(cfg);
            && Lo(caps[1]) == 0x8002_0000 && Hi(caps[1]) == 0x8800_0000
            && Lo(caps[2]) == 0x1000_0000 && Hi(caps[2]) == 0x1000_2000
            && Lo(caps[3]) == 0x200_b000 && Hi(caps[3]) == 0x200_c000
            && Lo(caps[25]) == 0x400_0000 && Hi(caps[25]) == 0x401_0000
            && forall i: nat :: i < 26 && caps[i].Memory? ==> Mark(caps[i]) == Lo(caps[i]) && !caps[i].lck
  {
  }

  lemma BootFrame()
    ensures FrameBegin(0x2007_ffff) == 0x8000_0000
  {
    assert NapotBase(0x2007_ffff) == 0x8000_0000;
  }

  lemma {:induction false} Descending(caps: seq<Cap>, k: nat)
    requires 0 < k <= |caps| && forall i: nat :: i < k ==> !caps[i].None?
    ensures |BootOrder(caps, k)| == k
    ensures forall j: nat :: 0 < j < k ==> BootOrder(caps, k)[j] == k - j
  {
    if k > 1 { Descending(caps, k - 1); }
  }

  lemma {:induction false} SkipEmpty(caps: seq<Cap>, i: nat, k: nat)
    requires 0 < i <= k <= |caps| && !caps[0].None?
    requires forall j: nat :: i <= j < k ==> caps[j].None?
    ensures BootOrder(caps, k) == BootOrder(caps, i)
    decreases k
  {
    if i < k { SkipEmpty(caps, i, k - 1); }
  }

  /** The table in list order: entry 0, entry 25, then entries 9 down to 1. */
  lemma QemuVirt4List(cfg: Config)
    ensures var caps := QemuVirt4(cfg);
            && |BootList(caps)| == |BootCaps(caps)| == 11
            && forall f: nat :: f < 11 ==>
                 var idx := if f == 0 then 0 else if f == 1 then 25 else 11 - f;
                 BootList(caps)[f] == Node(idx, caps[idx], f) && BootCaps(caps)[f] == caps[idx]
  {
    var caps := QemuVirt4(cfg);
    Descending(caps, 10);
    SkipEmpty(caps, 10, 25);
  }

  ghost predicate QemuConfig(cfg: Config) {
    && ValidConfig(cfg) && 0 < cfg.chanCnt && 0 < cfg.pmpCnt && cfg.capCnt >= 26
    && cfg.minHart == 0 && cfg.maxHart == 3
  }

  /** The boot capabilities of that board, in list order. */
  predicate QemuBoot(cfg: Config, boot: seq<Cap>) {
    && |boot| == 11
    && boot[0] == Pmp(0x2007_ffff, RWX, false, 0)
    && boot[1] == MkMemory(0, 0x4000, 0x4010, RW)
    && boot[2] == Channel(0, 0, cfg.chanCnt)
    && boot[3] == Monitor(0, 0, cfg.procCnt)
    && (forall f: nat :: 4 <= f <= 7 ==> boot[f] == MkTime(7 - f, cfg.slotCnt))
    && boot[8] == MkMemory(0, 0x200b, 0x200c, RO)
    && boot[9] == MkMemory(2, 0, 2, RW)
    && boot[10] == MkMemory(16, 0x20, 0x8000, RWX)
  }

  lemma QemuApart(cfg: Config, boot: seq<Cap>, f: nat, g: nat)
    requires QemuBoot(cfg, boot) && f < g < 11
    ensures Apart(boot[f], boot[g])
  {
    assert 4 <= f <= 7 || f == 0 || f == 1 || f == 2 || f == 3 || f >= 8;
    assert 4 <= g <= 7 || g == 1 || g == 2 || g == 3 || g == 8 || g == 9 || g == 10;
  }

  lemma QemuCapOk(cfg: Config, boot: seq<Cap>, f: nat)
    requires QemuConfig(cfg) && QemuBoot(cfg, boot) && f < 11
    ensures CapOk(cfg, boot[f]) && (0 < f ==> Ranged(boot[f]) && CapIsValid(boot[f]))
  {
    assert f == 0 || f == 1 || f == 2 || f == 3 || 4 <= f <= 7 || f == 8 || f == 9 || f == 10;
  }

  lemma QemuAllApart(cfg: Config, boot: seq<Cap>)
    requires QemuBoot(cfg, boot)
    ensures forall f: nat, g: nat :: f < g < |boot| ==> Apart(boot[f], boot[g])
  {
    hide Apart;
    forall f: nat, g: nat | f < g < |boot| ensures Apart(boot[f], boot[g]) { QemuApart(cfg, boot, f, g); }
  }

  lemma QemuAllOk(cfg: Config, boot: seq<Cap>)
    requires QemuConfig(cfg) && QemuBoot(cfg, boot)
    ensures forall f: nat :: f < |boot| ==> CapOk(cfg, boot[f])
    ensures forall f: nat :: 0 < f < |boot| ==> Ranged(boot[f]) && CapIsValid(boot[f])
  {
    hide CapOk, CapIsValid;
    forall f: nat | f < |boot| ensures CapOk(cfg, boot[f]) && (0 < f ==> Ranged(boot[f]) && CapIsValid(boot[f])) {
      QemuCapOk(cfg, boot, f);
    }
  }

  lemma QemuIsBoot(cfg: Config)
    ensures QemuBoot(cfg, BootCaps(QemuVirt4(cfg)))
  {
    QemuVirt4List(cfg);
    hide BootCaps, BootList;
  }

  lemma QemuLast(cfg: Config, boot: seq<Cap>, f: nat)
    requires QemuBoot(cfg, boot) && f < |boot| && LastMemory(boot, f)
    ensures FrameBegin(boot[0].addr) < Lo(boot[f])
  {
    hide FrameBegin;
    assert boot[10].Memory?;
    assert f == 10;
    BootFrame();
    MainMemory();
  }

  lemma QemuVirt4BootOk(cfg: Config)
    requires QemuConfig(cfg)
    ensures BootOk(cfg, BootCaps(QemuVirt4(cfg)))
  {
    var boot := BootCaps(QemuVirt4(cfg));
    QemuIsBoot(cfg);
    QemuAllApart(cfg, boot);
    QemuAllOk(cfg, boot);
    hide BootCaps, QemuVirt4, Apart, CapOk, CapIsValid, FrameBegin, MkMemory, MkTime, LastMemory;
    forall f: nat | f < |boot| && LastMemory(boot, f) ensures FrameBegin(boot[0].addr) < Lo(boot[f]) {
      QemuLast(cfg, boot, f);
    }
  }

  lemma MainMemory()
    ensures Lo(MkMemory(16, 0x20, 0x8000, RWX)) == 0x8002_0000
  {
  }

  lemma QemuVirt4Ok(cfg: Config)
    requires QemuConfig(cfg)
    ensures PlatformOk(cfg, QemuVirt4(cfg))
  {
    var caps := QemuVirt4(cfg);
    QemuVirt4BootOk(cfg);
    QemuVirt4List(cfg);
    hide BootCaps, BootOk;
    forall h: nat | HartOk(cfg, h) ensures FullHart(cfg, caps, h) {
      assert BootList(caps)[7 - h] == Node(4 + h, caps[4 + h], 7 - h);
      assert BootList(caps)[7 - h] in BootList(caps);
    }
  }

  // ----- why the heads of memory families have to stay -----

  /** A frame of the device memory at 0x10000000, the region of boot entry 2. */
  const FRAME := Pmp(0x0400_01ff, RW, false, 0)

  lemma FrameRange()
    ensures FrameBegin(0x0400_01ff) == 0x1000_0000 && FrameEnd(0x0400_01ff) == 0x1000_1000
  {
    assert NapotBase(0x0400_01ff) == 0x1000_0000;
    assert NapotSize(0x0400_01ff) == 0x1000;
  }

  /** The list after boot, after deriving the frame from entry 2 into entry 10, and after deleting
      entry 2, as far as it matters: which entries sit where. */
  predicate Layout(cfg: Config, l: List, step: nat) {
    && |l| == (if step == 1 then 12 else 11)
    && (forall f: nat :: f < 9 ==> l[f].idx == if f == 0 then 0 else if f == 1 then 25 else 11 - f)
    && l[8] == Node(3, MkMemory(0, 0x200b, 0x200c, RO), 8)
    && (if step == 0 then l[9] == Node(2, MkMemory(2, 0, 2, RW), 9) && l[10].idx == 1
        else if step == 1 then l[9].idx == 2 && l[10] == Node(10, FRAME, 9) && l[11].idx == 1
        else l[9] == Node(10, FRAME, 9) && l[10].idx == 1)
  }

  /** Where the entries are found, and that entry 10 is free after boot. */
  lemma LayoutPos(cfg: Config, l: List, step: nat)
    requires Layout(cfg, l, step) && step <= 2
    ensures Pos(l, 3) == 8
    ensures step <= 1 ==> Pos(l, 2) == 9
    ensures step == 0 ==> Pos(l, 10) == |l|
  {
    hide MkMemory;
    assert Distinct(l);
    PosUnique(l, 8);
    PosUnique(l, 9);
    PosUnlisted(l, 10);
  }

  /** The board's state after boot. */
  ghost predicate Booted(cfg: Config, pmp: seq<seq<PmpReg>>, s: State) {
    && QemuConfig(cfg) && RegistersFree(cfg, pmp) && PlatformOk(cfg, QemuVirt4(cfg))
    && Bounded(cfg, BootTables(cfg, QemuVirt4(cfg), pmp)) && 0 < TableSize(cfg)
    && s == PmpLoad(cfg, BootTables(cfg, QemuVirt4(cfg), pmp), 0, 0).0
    && Inv(cfg, BootCaps(QemuVirt4(cfg)), s)
  }

  lemma BootLayout(cfg: Config, pmp: seq<seq<PmpReg>>) returns (s: State)
    requires QemuConfig(cfg) && RegistersFree(cfg, pmp)
    ensures Booted(cfg, pmp, s) && Layout(cfg, s.list, 0)
  {
    var caps := QemuVirt4(cfg);
    QemuVirt4Ok(cfg);
    BootKeepsInv(cfg, caps, pmp);
    hide PlatformOk, BootCaps, Bounded, ListInv, ScheduleAgrees, RegistersAgree, BootOk, Init, Layout, QemuConfig,
         RegistersFree;
    s := PmpLoad(cfg, BootTables(cfg, caps, pmp), 0, 0).0;
    LoadedLayout(cfg, s.list[0].cap);
  }

  lemma LoadedLayout(cfg: Config, c: Cap)
    ensures Layout(cfg, SetCap(BootList(QemuVirt4(cfg)), 0, c), 0)
    ensures BootList(QemuVirt4(cfg))[0].idx == 0
  {
    QemuVirt4List(cfg);
    hide BootList, BootCaps;
  }

  lemma FirstEntries(cfg: Config)
    requires QemuConfig(cfg)
    ensures 26 <= TableSize(cfg)
  {
    FirstTable(cfg, 25);
  }

  const DERIVE := DeriveCap(2, 10, FRAME)
  const DELETE := DeleteCap(2)
  const REVOKE := RevokePass(3)

  lemma DeriveLayout(cfg: Config, boot: seq<Cap>, s: State)
    requires Bounded(cfg, s) && Layout(cfg, s.list, 0) && 26 <= TableSize(cfg)
    ensures Admissible(cfg, boot, s, DERIVE) && Layout(cfg, Apply(cfg, boot, s, DERIVE).list, 1)
  {
    hide TableSize, Pid, Update, CapOk, Bounded;
    LayoutPos(cfg, s.list, 0);
    FrameRange();
    var c := s.list[9].cap;
    assert CanDerive(c, FRAME);
    var r := Apply(cfg, boot, s, DERIVE).list;
    assert r == InsertAfter(SetCap(s.list, 9, Charged(c, FRAME)), 9, 10, FRAME);
  }

  lemma DeleteLayout(cfg: Config, boot: seq<Cap>, s: State)
    requires Bounded(cfg, s) && Layout(cfg, s.list, 1) && 26 <= TableSize(cfg)
    ensures Admissible(cfg, boot, s, DELETE) && Layout(cfg, Apply(cfg, boot, s, DELETE).list, 2)
  {
    hide TableSize, Pid, Update, CapOk, Bounded;
    LayoutPos(cfg, s.list, 1);
    assert Apply(cfg, boot, s, DELETE).list == RemoveAt(s.list, 9);
  }

  lemma RevokeLayout(cfg: Config, boot: seq<Cap>, s: State)
    requires Bounded(cfg, s) && Layout(cfg, s.list, 2) && 26 <= TableSize(cfg)
    ensures Overreach(s.list, 8) && Hi(s.list[8].cap) < Lo(FRAME) && !Clean(s.list, 8)
    ensures Admissible(cfg, boot, s, REVOKE) && Apply(cfg, boot, s, REVOKE).list == RemoveAt(s.list, 9)
  {
    hide TableSize, Pid, Update, CapOk, Bounded;
    LayoutPos(cfg, s.list, 2);
    FrameRange();
    assert Behind(s.list, 8, 9) == 9;
    assert SetCap(s.list, 8, s.list[8].cap) == s.list;
  }

  /** On the four-hart board: derive a frame from the memory of entry 2, delete entry 2, and revoke
      entry 3, whose memory is elsewhere. The first pass removes the frame. */
  lemma OrphanIsEaten(cfg: Config, pmp: seq<seq<PmpReg>>) returns (s: State)
    requires QemuConfig(cfg) && RegistersFree(cfg, pmp)
    ensures Reachable(cfg, QemuVirt4(cfg), s)
    ensures var p := Pos(s.list, 3);
            && p + 1 < |s.list| && s.list[p + 1].idx == 10 && s.list[p + 1].cap == FRAME
            && Overreach(s.list, p) && Hi(s.list[p].cap) < Lo(FRAME) && !Clean(s.list, p)
    ensures var boot := BootCaps(QemuVirt4(cfg));
            && Bounded(cfg, s) && Admissible(cfg, boot, s, REVOKE)
            && Pos(Apply(cfg, boot, s, REVOKE).list, 10) == |Apply(cfg, boot, s, REVOKE).list|
  {
    var boot := BootCaps(QemuVirt4(cfg));
    FirstEntries(cfg);
    var s0 := BootLayout(cfg, pmp);
    hide TableSize, Layout, PlatformOk, RegistersFree, BootTables, Apply, Admissible, ListInv, ScheduleAgrees,
         RegistersAgree, BootOk, IsRun, Overreach, Clean, BootCaps;
    DeriveLayout(cfg, boot, s0);
    StepKeepsInv(cfg, boot, s0, DERIVE);
    var s1 := Apply(cfg, boot, s0, DERIVE);
    DeleteLayout(cfg, boot, s1);
    StepKeepsInv(cfg, boot, s1, DELETE);
    s := Apply(cfg, boot, s1, DELETE);
    TwoSteps(cfg, boot, s0, s1, s, DERIVE, DELETE);
    assert ReachedBy(cfg, QemuVirt4(cfg), pmp, [DERIVE, DELETE], s);
    RevokeLayout(cfg, boot, s);
    GoneAfter(cfg, s.list);
  }

  lemma TwoSteps(cfg: Config, boot: seq<Cap>, s0: State, s1: State, s2: State, a: Op, b: Op)
    requires Bounded(cfg, s0) && Admissible(cfg, boot, s0, a) && s1 == Apply(cfg, boot, s0, a)
    requires Bounded(cfg, s1) && Admissible(cfg, boot, s1, b) && s2 == Apply(cfg, boot, s1, b)
    ensures IsRun(cfg, boot, s0, [a, b], s2)
  {
    hide Bounded, Admissible, Apply;
    NoOps(cfg, boot, s2);
    OpThen(cfg, boot, s1, b, [], s2);
    OpThen(cfg, boot, s0, a, [b] + [], s2);
    assert [a] + ([b] + []) == [a, b];
  }

  lemma GoneAfter(cfg: Config, l: List)
    requires Layout(cfg, l, 2)
    ensures Pos(l, 3) == 8 && |l| == 11 && l[9] == Node(10, FRAME, 9)
    ensures Pos(RemoveAt(l, 9), 10) == |RemoveAt(l, 9)|
  {
    LayoutPos(cfg, l, 2);
    PosUnlisted(RemoveAt(l, 9), 10);
  }
}
