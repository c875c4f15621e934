/** A run of the four-hart board after which two harts take the same process in one slot. */
module Ties {
  import opened Capability
  import opened CapList
  import opened Schedule
  import opened CapOps
  import opened Authority
  import opened Derivations
  import opened CapTable
  import opened Runs
  import opened Guarantees
  import opened Platforms

  /** Entry `idx` is listed and holds `c`. */
  ghost predicate Has(l: List, idx: nat, c: Cap) {
    exists n :: n in l && n.idx == idx && n.cap == c
  }

  /** Entry `src` hands the first slot of its hart to entry `dst`. */
  function FirstSlot(src: nat, dst: nat, h: nat): Op {
    DeriveCap(src, dst, Time(h, 0, 0, 1))
  }

  lemma HasPos(l: List, idx: nat, c: Cap)
    requires Distinct(l) && Has(l, idx, c)
    ensures Pos(l, idx) < |l| && l[Pos(l, idx)].cap == c
  {
    var n :| n in l && n.idx == idx && n.cap == c;
    var i: nat :| i < |l| && l[i] == n;
    PosUnique(l, i);
  }

  /** What the derivation does to the entries. */
  lemma HandOut(cfg: Config, boot: seq<Cap>, s: State, src: nat, dst: nat, h: nat)
    requires Inv(cfg, boot, s) && src < TableSize(cfg) && dst < TableSize(cfg) && src != dst
    requires Has(s.list, src, Time(h, 0, 0, cfg.slotCnt)) && Unlisted(s.list, dst)
    ensures Admissible(cfg, boot, s, FirstSlot(src, dst, h))
    ensures var r := Apply(cfg, boot, s, FirstSlot(src, dst, h));
            && Inv(cfg, boot, r) && Has(r.list, dst, Time(h, 0, 0, 1))
            && (forall i: nat, c: Cap :: i != src && Has(s.list, i, c) ==> Has(r.list, i, c))
            && (forall i: nat :: i != dst && Unlisted(s.list, i) ==> Unlisted(r.list, i))
  {
    hide ScheduleAgrees, RegistersAgree, BootOk, TableSize, Pid, Update, CapOk;
    var op := FirstSlot(src, dst, h);
    StepKeepsInv(cfg, boot, s, op);
    HasPos(s.list, src, Time(h, 0, 0, cfg.slotCnt));
    PosUnlisted(s.list, dst);
    var p := Pos(s.list, src);
    DeriveMembers(cfg, s, p, dst, op.ncap);
    var r := Apply(cfg, boot, s, op);
    hide ListInv, CanDerive, Apply, DeriveAt, Charged, Bounded;
    assert Node(dst, op.ncap, s.list[p].fam) in r.list;
    forall i: nat, c: Cap | i != src && Has(s.list, i, c) ensures Has(r.list, i, c) {
      var n :| n in s.list && n.idx == i && n.cap == c;
      assert n in r.list;
    }
    forall i: nat | i != dst && Unlisted(s.list, i) ensures Unlisted(r.list, i) {
      forall k: nat | k < |r.list| ensures r.list[k].idx != i {
        assert r.list[k] in r.list;
      }
    }
  }

  /** The lane of slot 0 that a time capability of process 0 owns from its begin. */
  lemma FirstLane(cfg: Config, boot: seq<Cap>, s: State, idx: nat, h: nat, end: nat)
    requires Inv(cfg, boot, s) && idx < cfg.capCnt && HartOk(cfg, h) && 0 < end <= cfg.slotCnt
    requires Has(s.list, idx, Time(h, 0, 0, end))
    ensures At(cfg, s.slots, h, 0) == Entry(0, end)
  {
    hide ListInv, RegistersAgree, BootOk, At, Entry, Pid, TableSize;
    FirstTable(cfg, idx);
    assert SlotAgrees(cfg, s, h, 0);
    var n :| n in s.list && n.idx == idx && n.cap == Time(h, 0, 0, end);
    assert Owns(n, h, 0);
  }

  /** The table after boot holds a whole period for every hart, and entries 10 to 12 are free. */
  lemma BootHas(cfg: Config, c: Cap)
    requires QemuConfig(cfg)
    ensures var l := SetCap(BootList(QemuVirt4(cfg)), 0, c);
            && (forall h: nat :: h < 4 ==> Has(l, 4 + h, Time(h, 0, 0, cfg.slotCnt)))
            && Unlisted(l, 10) && Unlisted(l, 11) && Unlisted(l, 12)
  {
    QemuVirt4List(cfg);
    hide BootList, BootCaps;
    var l := SetCap(BootList(QemuVirt4(cfg)), 0, c);
    forall h: nat | h < 4 ensures Has(l, 4 + h, Time(h, 0, 0, cfg.slotCnt)) {
      assert l[7 - h] == Node(4 + h, MkTime(h, cfg.slotCnt), 7 - h);
      assert l[7 - h] in l;
    }
  }

  const HANDOUTS := [FirstSlot(4, 10, 0), FirstSlot(5, 11, 1), FirstSlot(6, 12, 2)]

  lemma ThreeHandOuts(cfg: Config, boot: seq<Cap>, s0: State) returns (s: State)
    requires Inv(cfg, boot, s0) && QemuConfig(cfg) && cfg.slotCnt >= 2
    requires forall h: nat :: h < 4 ==> Has(s0.list, 4 + h, Time(h, 0, 0, cfg.slotCnt))
    requires Unlisted(s0.list, 10) && Unlisted(s0.list, 11) && Unlisted(s0.list, 12)
    ensures IsRun(cfg, boot, s0, HANDOUTS, s) && Bounded(cfg, s)
    ensures TwoWin(cfg, s.slots, 0, 0) && Wins(cfg, s.slots, 0, 0, 0) && Wins(cfg, s.slots, 3, 0, 0)
  {
    FirstEntries(cfg);
    hide ListInv, ScheduleAgrees, RegistersAgree, BootOk, Apply, Admissible, IsRun, Has, TableSize, Unlisted, FirstSlot, QemuConfig;
    assert Has(s0.list, 4 + 0, Time(0, 0, 0, cfg.slotCnt)) && Has(s0.list, 4 + 1, Time(1, 0, 0, cfg.slotCnt));
    assert Has(s0.list, 4 + 2, Time(2, 0, 0, cfg.slotCnt)) && Has(s0.list, 4 + 3, Time(3, 0, 0, cfg.slotCnt));
    HandOut(cfg, boot, s0, 4, 10, 0);
    var s1 := Apply(cfg, boot, s0, FirstSlot(4, 10, 0));
    HandOut(cfg, boot, s1, 5, 11, 1);
    var s2 := Apply(cfg, boot, s1, FirstSlot(5, 11, 1));
    HandOut(cfg, boot, s2, 6, 12, 2);
    s := Apply(cfg, boot, s2, FirstSlot(6, 12, 2));
    ThreeSteps(cfg, boot, s0, s1, s2, s);
    TieOf(cfg, boot, s);
  }

  /** Process 0 hands the first slots of harts 0, 1 and 2 to other entries of its own table. In
      that slot harts 0 to 2 then have one slot left, hart 3 the whole period, and both hart 0 and
      hart 3 go on. */
  lemma LastHartTie(cfg: Config, pmp: seq<seq<PmpReg>>) returns (s: State)
    requires QemuConfig(cfg) && cfg.slotCnt >= 2 && RegistersFree(cfg, pmp)
    ensures Reachable(cfg, QemuVirt4(cfg), s) && Bounded(cfg, s)
    ensures TwoWin(cfg, s.slots, 0, 0) && Wins(cfg, s.slots, 0, 0, 0) && Wins(cfg, s.slots, 3, 0, 0)
  {
    var boot := BootCaps(QemuVirt4(cfg));
    var s0 := BootLayout(cfg, pmp);
    BootedList(cfg, pmp, s0);
    BootHas(cfg, s0.list[0].cap);
    hide Layout, PlatformOk, RegistersFree, BootTables, ListInv, ScheduleAgrees, RegistersAgree, BootOk, IsRun, BootCaps,
         BootList, Has, TableSize, Unlisted, TwoWin, Wins, QemuConfig;
    s := ThreeHandOuts(cfg, boot, s0);
    assert ReachedBy(cfg, QemuVirt4(cfg), pmp, HANDOUTS, s);
  }

  lemma BootedList(cfg: Config, pmp: seq<seq<PmpReg>>, s: State)
    requires Booted(cfg, pmp, s)
    ensures |s.list| > 0 && s.list == SetCap(BootList(QemuVirt4(cfg)), 0, s.list[0].cap)
  {
    LoadedLayout(cfg, s.list[0].cap);
    hide BootCaps, Bounded, ListInv, ScheduleAgrees, RegistersAgree, BootOk, Init, PlatformOk, RegistersFree;
  }

  lemma ThreeSteps(cfg: Config, boot: seq<Cap>, s0: State, s1: State, s2: State, s3: State)
    requires Inv(cfg, boot, s0) && Admissible(cfg, boot, s0, FirstSlot(4, 10, 0)) && s1 == Apply(cfg, boot, s0, FirstSlot(4, 10, 0))
    requires Inv(cfg, boot, s1) && Admissible(cfg, boot, s1, FirstSlot(5, 11, 1)) && s2 == Apply(cfg, boot, s1, FirstSlot(5, 11, 1))
    requires Inv(cfg, boot, s2) && Admissible(cfg, boot, s2, FirstSlot(6, 12, 2)) && s3 == Apply(cfg, boot, s2, FirstSlot(6, 12, 2))
    ensures IsRun(cfg, boot, s0, [FirstSlot(4, 10, 0), FirstSlot(5, 11, 1), FirstSlot(6, 12, 2)], s3)
  {
    hide ListInv, ScheduleAgrees, RegistersAgree, BootOk, Admissible, Apply, IsRun, FirstSlot;
    var a, b, c := FirstSlot(4, 10, 0), FirstSlot(5, 11, 1), FirstSlot(6, 12, 2);
    TwoSteps(cfg, boot, s1, s2, s3, b, c);
    OpThen(cfg, boot, s0, a, [b, c], s3);
    assert [a] + [b, c] == [a, b, c];
  }

  lemma TieOf(cfg: Config, boot: seq<Cap>, s: State)
    requires Inv(cfg, boot, s) && QemuConfig(cfg) && cfg.slotCnt >= 2
    requires Has(s.list, 10, Time(0, 0, 0, 1)) && Has(s.list, 11, Time(1, 0, 0, 1)) && Has(s.list, 12, Time(2, 0, 0, 1))
    requires Has(s.list, 7, Time(3, 0, 0, cfg.slotCnt))
    ensures Bounded(cfg, s) && TwoWin(cfg, s.slots, 0, 0)
    ensures Wins(cfg, s.slots, 0, 0, 0) && Wins(cfg, s.slots, 3, 0, 0)
  {
    hide ListInv, ScheduleAgrees, RegistersAgree, BootOk, At, Entry, EntryPid, EntryLen, Has;
    FirstLane(cfg, boot, s, 10, 0, 1);
    FirstLane(cfg, boot, s, 11, 1, 1);
    FirstLane(cfg, boot, s, 12, 2, 1);
    FirstLane(cfg, boot, s, 7, 3, cfg.slotCnt);
    EntryRoundTrip(0, 1);
    EntryRoundTrip(0, cfg.slotCnt);
    assert SameOwner(cfg, s.slots, 0, 0, 0) && SameOwner(cfg, s.slots, 3, 0, 0);
  }
}
