/** Every kernel operation keeps the whole invariant: list order, authority, schedule and
    PMP registers. */
module Steps {
  import opened Capability
  import opened CapList
  import opened Schedule
  import opened CapOps
  import opened Authority
  import opened ListSteps

  // ----- what an operation leaves alone -----

  lemma ScheduleFrame(cfg: Config, s: State, s': State)
    requires Bounded(cfg, s) && Bounded(cfg, s') && ScheduleAgrees(cfg, s)
    requires s'.slots == s.slots
    requires forall n: Node :: n.cap.Time? ==> (n in s'.list <==> n in s.list)
    ensures ScheduleAgrees(cfg, s')
  {
    forall h: nat, t: nat | HartOk(cfg, h) && t < cfg.slotCnt ensures SlotAgrees(cfg, s', h, t) {
      assert SlotAgrees(cfg, s, h, t);
    }
  }

  lemma RegisterFrame(cfg: Config, s: State, s': State)
    requires Bounded(cfg, s) && Bounded(cfg, s') && RegistersAgree(cfg, s)
    requires s'.pmp == s.pmp
    requires forall n: Node :: n.cap.Pmp? && n.cap.used ==> (n in s'.list <==> n in s.list)
    ensures RegistersAgree(cfg, s')
  {
    forall pid: nat, slot: nat | pid < cfg.procCnt && slot < cfg.pmpCnt
      ensures RegisterAgrees(cfg, s', pid, slot)
    {
      assert RegisterAgrees(cfg, s, pid, slot);
      if s.pmp[pid][slot].cfg != 0 {
        var n :| n in s.list && Loads(cfg, n, pid, slot);
        assert n in s'.list;
      }
    }
  }

  // ----- delete -----

  lemma DeleteSchedule(cfg: Config, boot: seq<Cap>, s: State, p: nat)
    requires Inv(cfg, boot, s) && p < |s.list|
    requires Bounded(cfg, DeleteAt(cfg, s, p))
    ensures ScheduleAgrees(cfg, DeleteAt(cfg, s, p))
  {
    var s' := DeleteAt(cfg, s, p);
    var n := s.list[p];
    MembersRemove(s.list, p);
    if !n.cap.Time? {
      ScheduleFrame(cfg, s, s');
    } else {
      forall h: nat, t: nat | HartOk(cfg, h) && t < cfg.slotCnt ensures SlotAgrees(cfg, s', h, t) {
        assert SlotAgrees(cfg, s, h, t);
        AtErase(cfg, s.slots, n.cap.hart, n.cap.mrk, n.cap.end, h, t);
        if Owns(n, h, t) {
          forall m | m in s'.list ensures !Owns(m, h, t) {
            if Owns(m, h, t) { OwnerUnique(cfg, boot, s.list, m, n, h, t); }
          }
        } else {
          SlotKept(cfg, s, s', h, t);
        }
      }
    }
  }

  lemma UnloadRegisters(cfg: Config, s: State, s': State, n: Node)
    requires Bounded(cfg, s) && Bounded(cfg, s') && RegistersAgree(cfg, s)
    requires n in s.list && s'.pmp == UnloadCap(s.pmp, Pid(cfg, n.idx), n.cap)
    requires forall m: Node :: m.cap.Pmp? && m.cap.used ==> (m in s'.list <==> m in s.list && m != n)
    ensures RegistersAgree(cfg, s')
  {
    forall pid: nat, slot: nat | pid < cfg.procCnt && slot < cfg.pmpCnt
      ensures RegisterAgrees(cfg, s', pid, slot)
    {
      assert RegisterAgrees(cfg, s, pid, slot);
      if s'.pmp[pid][slot].cfg != 0 {
        var m :| m in s.list && Loads(cfg, m, pid, slot);
        assert m in s'.list;
      }
    }
  }

  lemma DeleteBounded(cfg: Config, s: State, p: nat)
    requires Bounded(cfg, s) && p < |s.list|
    ensures Bounded(cfg, DeleteAt(cfg, s, p))
  {
    var r := RemoveAt(s.list, p);
    forall i: nat | i < |r| ensures NodeOk(cfg, r[i]) {
      assert r[i] == s.list[if i < p then i else i + 1];
    }
  }

  lemma DeleteKeepsInv(cfg: Config, boot: seq<Cap>, s: State, p: nat)
    requires Inv(cfg, boot, s) && 0 < p < |s.list|
    ensures Inv(cfg, boot, DeleteAt(cfg, s, p))
  {
    DeleteBounded(cfg, s, p);
    RemoveKeepsListInv(boot, s.list, p);
    DeleteSchedule(cfg, boot, s, p);
    MembersRemove(s.list, p);
    UnloadRegisters(cfg, s, DeleteAt(cfg, s, p), s.list[p]);
  }

  // ----- move -----

  lemma MoveBounded(cfg: Config, s: State, p: nat, dst: nat)
    requires Bounded(cfg, s) && p < |s.list| && dst < TableSize(cfg)
    ensures Bounded(cfg, MoveAt(cfg, s, p, dst))
  {
    assert NodeOk(cfg, s.list[p]);
  }

  lemma MoveSchedule(cfg: Config, boot: seq<Cap>, s: State, p: nat, dst: nat)
    requires Inv(cfg, boot, s) && p < |s.list| && dst < TableSize(cfg)
    requires var s' := MoveAt(cfg, s, p, dst); Bounded(cfg, s') && ListInv(boot, s'.list)
    ensures ScheduleAgrees(cfg, MoveAt(cfg, s, p, dst))
  {
    hide Pid, TableSize, Ordered, Under, Within, Update, Anchored, AllWithin, RegistersAgree;
    var s' := MoveAt(cfg, s, p, dst);
    var n, n' := s.list[p], s'.list[p];
    assert NodeOk(cfg, n);
    MembersReplace(s.list, p, n', s'.list);
    if !n.cap.Time? {
      ScheduleFrame(cfg, s, s');
    } else {
      forall h: nat, t: nat | HartOk(cfg, h) && t < cfg.slotCnt ensures SlotAgrees(cfg, s', h, t) {
        assert SlotAgrees(cfg, s, h, t);
        MovedSlot(cfg, boot, s, s', n, n', h, t);
      }
    }
  }

  lemma MovedSlot(cfg: Config, boot: seq<Cap>, s: State, s': State, n: Node, n': Node, h: nat, t: nat)
    requires BootOk(cfg, boot) && Bounded(cfg, s) && Bounded(cfg, s') && ListInv(boot, s'.list)
    requires HartOk(cfg, h) && t < cfg.slotCnt && SlotAgrees(cfg, s, h, t)
    requires n in s.list && n.cap.Time? && n'.cap == n.cap && NodeOk(cfg, n) && NodeOk(cfg, n')
    requires forall m :: m in s'.list <==> (m in s.list && m != n) || m == n'
    requires s'.slots == if Pid(cfg, n.idx) == Pid(cfg, n'.idx) then s.slots
                         else Update(cfg, s.slots, Pid(cfg, n'.idx), n.cap.end, n.cap.hart, n.cap.mrk, n.cap.end)
    ensures SlotAgrees(cfg, s', h, t)
  {
    hide Pid, TableSize, Update, ListInv, BootOk, At, Entry;
    if Pid(cfg, n.idx) != Pid(cfg, n'.idx) {
      AtUpdate(cfg, s.slots, Pid(cfg, n'.idx), n.cap.end, n.cap.hart, n.cap.mrk, n.cap.end, h, t);
    }
    if Owns(n', h, t) {
      SlotTaken(cfg, boot, s', h, t, n');
    } else {
      SlotKept(cfg, s, s', h, t);
    }
  }

  lemma MoveRegisters(cfg: Config, s: State, p: nat, dst: nat)
    requires Bounded(cfg, s) && Distinct(s.list) && RegistersAgree(cfg, s)
    requires p < |s.list| && dst < TableSize(cfg)
    requires Bounded(cfg, MoveAt(cfg, s, p, dst))
    ensures RegistersAgree(cfg, MoveAt(cfg, s, p, dst))
  {
    hide Pid, TableSize, Sound, Update, RemoveAt;
    var s' := MoveAt(cfg, s, p, dst);
    var n, n' := s.list[p], s'.list[p];
    MembersReplace(s.list, p, n', s'.list);
    if n.cap.Pmp? && n.cap.used && Pid(cfg, n.idx) == Pid(cfg, dst) {
      forall pid: nat, slot: nat | pid < cfg.procCnt && slot < cfg.pmpCnt
        ensures RegisterAgrees(cfg, s', pid, slot)
      {
        assert RegisterAgrees(cfg, s, pid, slot);
        ReplacedRegister(cfg, s, s', n, n', pid, slot);
      }
    } else {
      UnloadRegisters(cfg, s, s', n);
    }
  }

  lemma ReplacedRegister(cfg: Config, s: State, s': State, n: Node, n': Node, pid: nat, slot: nat)
    requires Bounded(cfg, s) && Bounded(cfg, s') && pid < cfg.procCnt && slot < cfg.pmpCnt
    requires RegisterAgrees(cfg, s, pid, slot) && s'.pmp == s.pmp
    requires n in s.list && forall m :: m in s'.list <==> (m in s.list && m != n) || m == n'
    requires n'.cap == n.cap && n'.idx < TableSize(cfg) && n.idx < TableSize(cfg) && Pid(cfg, n'.idx) == Pid(cfg, n.idx)
    ensures RegisterAgrees(cfg, s', pid, slot)
  {
    assert Loads(cfg, n', pid, slot) <==> Loads(cfg, n, pid, slot);
    if s.pmp[pid][slot].cfg != 0 {
      var m :| m in s.list && Loads(cfg, m, pid, slot);
      assert (if m == n then n' else m) in s'.list && Loads(cfg, if m == n then n' else m, pid, slot);
    }
  }

  lemma MoveKeepsInv(cfg: Config, boot: seq<Cap>, s: State, p: nat, dst: nat)
    requires Inv(cfg, boot, s) && p < |s.list| && dst < TableSize(cfg)
    requires forall k: nat :: k < |s.list| ==> s.list[k].idx != dst
    ensures Inv(cfg, boot, MoveAt(cfg, s, p, dst))
  {
    var s' := MoveAt(cfg, s, p, dst);
    MoveBounded(cfg, s, p, dst);
    var n := s.list[p];
    if n.cap.Pmp? && n.cap.used && Pid(cfg, n.idx) != Pid(cfg, dst) {
      RebindKeepsListInv(boot, s.list, p, false, 0);
      SetIdxKeepsListInv(boot, SetCap(s.list, p, Bind(n.cap, false, 0)), p, dst);
    } else {
      SetIdxKeepsListInv(boot, s.list, p, dst);
    }
    MoveSchedule(cfg, boot, s, p, dst);
    MoveRegisters(cfg, s, p, dst);
  }

  // ----- PMP registers -----

  lemma RebindKeepsListInv(boot: seq<Cap>, l: List, p: nat, used: bool, slot: nat)
    requires ListInv(boot, l) && p < |l| && l[p].cap.Pmp?
    ensures ListInv(boot, SetCap(l, p, Bind(l[p].cap, used, slot)))
  {
    var c := Bind(l[p].cap, used, slot);
    forall j: nat | p < j < |l| && l[j].fam == l[p].fam ensures Ordered(c, l[j].cap) {
      assert OrderedAt(l, p, j);
    }
    SetCapKeepsListInv(boot, l, p, c);
  }

  lemma LoadRegisters(cfg: Config, s: State, s': State, n: Node, n': Node, pid: nat, slot: nat)
    requires Bounded(cfg, s) && Bounded(cfg, s') && RegistersAgree(cfg, s)
    requires pid < cfg.procCnt && slot < cfg.pmpCnt && s.pmp[pid][slot].cfg == 0
    requires n in s.list && n.cap.Pmp? && !n.cap.used
    requires forall m :: m in s'.list <==> (m in s.list && m != n) || m == n'
    requires Loads(cfg, n', pid, slot)
    requires s'.pmp == Load(s.pmp, pid, slot, PmpReg(PmpCfg(n'.cap.rwx), n'.cap.addr))
    ensures RegistersAgree(cfg, s')
  {
    forall q: nat, r: nat | q < cfg.procCnt && r < cfg.pmpCnt ensures RegisterAgrees(cfg, s', q, r) {
      assert RegisterAgrees(cfg, s, q, r);
      if s.pmp[q][r].cfg != 0 {
        var m :| m in s.list && Loads(cfg, m, q, r);
        assert m in s'.list;
      }
    }
  }

  lemma LoadBounded(cfg: Config, s: State, idx: nat, slot: nat)
    requires Bounded(cfg, s) && idx < TableSize(cfg) && slot < cfg.pmpCnt
    ensures Bounded(cfg, PmpLoad(cfg, s, idx, slot).0)
  {
    var p := Pos(s.list, idx);
    assert p < |s.list| ==> NodeOk(cfg, s.list[p]);
  }

  lemma UnloadBounded(cfg: Config, s: State, idx: nat)
    requires Bounded(cfg, s) && idx < TableSize(cfg)
    ensures Bounded(cfg, PmpUnload(cfg, s, idx).0)
  {
    var p := Pos(s.list, idx);
    assert p < |s.list| ==> NodeOk(cfg, s.list[p]);
  }

  lemma LoadKeepsInv(cfg: Config, boot: seq<Cap>, s: State, idx: nat, slot: nat)
    requires Inv(cfg, boot, s) && idx < TableSize(cfg) && slot < cfg.pmpCnt
    ensures Inv(cfg, boot, PmpLoad(cfg, s, idx, slot).0)
  {
    hide Pid, TableSize, Ordered, Under, Within, Update;
    var (s', err) := PmpLoad(cfg, s, idx, slot);
    if err == Success {
      var p := Pos(s.list, idx);
      var n, n' := s.list[p], s'.list[p];
      RebindKeepsListInv(boot, s.list, p, true, slot);
      assert NodeOk(cfg, n);
      assert Bounded(cfg, s');
      MembersReplace(s.list, p, n', s'.list);
      ScheduleFrame(cfg, s, s');
      LoadRegisters(cfg, s, s', n, n', Pid(cfg, idx), slot);
    }
  }

  lemma UnloadKeepsInv(cfg: Config, boot: seq<Cap>, s: State, idx: nat)
    requires Inv(cfg, boot, s) && idx < TableSize(cfg)
    ensures Inv(cfg, boot, PmpUnload(cfg, s, idx).0)
  {
    hide Pid, TableSize, Ordered, Under, Within, Update;
    var (s', err) := PmpUnload(cfg, s, idx);
    if err == Success {
      var p := Pos(s.list, idx);
      var n := s.list[p];
      RebindKeepsListInv(boot, s.list, p, false, 0);
      assert NodeOk(cfg, n);
      assert Bounded(cfg, s');
      MembersReplace(s.list, p, s'.list[p], s'.list);
      ScheduleFrame(cfg, s, s');
      UnloadRegisters(cfg, s, s', n);
    }
  }
}
