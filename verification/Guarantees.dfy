/** What the invariant means for users of the kernel, in every state that any run from boot
    can reach. */
module Guarantees {
  import opened Capability
  import opened CapList
  import opened Schedule
  import opened CapOps
  import opened Authority
  import opened CapTable
  import opened Runs
  import opened Effects

  ghost predicate Reachable(cfg: Config, caps: seq<Cap>, s: State)
  {
    && PlatformOk(cfg, caps)
    && exists pmp, ops :: ReachedBy(cfg, caps, pmp, ops, s)
  }

  ghost predicate ReachedBy(cfg: Config, caps: seq<Cap>, pmp: seq<seq<PmpReg>>, ops: seq<Op>, s: State)
    requires PlatformOk(cfg, caps)
  {
    && RegistersFree(cfg, pmp)
    && Bounded(cfg, BootTables(cfg, caps, pmp)) && 0 < TableSize(cfg)
    && IsRun(cfg, BootCaps(caps), PmpLoad(cfg, BootTables(cfg, caps, pmp), 0, 0).0, ops, s)
  }

  /** Every reachable state satisfies the system invariant. */
  lemma ReachableInv(cfg: Config, caps: seq<Cap>, s: State)
    requires Reachable(cfg, caps, s)
    ensures Inv(cfg, BootCaps(caps), s)
  {
    var pmp, ops :| ReachedBy(cfg, caps, pmp, ops, s);
    BootKeepsInv(cfg, caps, pmp);
    RunKeepsInv(cfg, BootCaps(caps), PmpLoad(cfg, BootTables(cfg, caps, pmp), 0, 0).0, ops, s);
  }

  /** Capabilities that hand out the same kind of thing: slots of one hart, bytes, processes or
      channels. */
  predicate SameKind(a: Cap, b: Cap) {
    || (a.Time? && b.Time? && a.hart == b.hart) || (a.Memory? && b.Memory?)
    || (a.Monitor? && b.Monitor?) || (a.Channel? && b.Channel?)
  }

  /** No two capabilities both have the same slot of a hart, byte, process or channel in their free
      parts. */
  lemma FreePartsDisjoint(cfg: Config, caps: seq<Cap>, s: State, i: nat, j: nat, x: int)
    requires Reachable(cfg, caps, s) && i < j < |s.list| && SameKind(s.list[i].cap, s.list[j].cap)
    ensures !(Mark(s.list[i].cap) <= x < Hi(s.list[i].cap) && Mark(s.list[j].cap) <= x < Hi(s.list[j].cap))
  {
    hide Reachable, ScheduleAgrees, RegistersAgree, Bounded, Ordered, Within, NoGap, Distinct, Mark, Lo, Hi;
    ReachableInv(cfg, caps, s);
    var l, boot := s.list, BootCaps(caps);
    hide BootCaps;
    assert OrderedAt(l, i, j) && WithinBoot(boot, l[i]) && WithinBoot(boot, l[j]) && FamLe(l, i, j);
    if l[i].fam == l[j].fam {
      FreeOrdered(l[i].cap, l[j].cap, x);
    } else {
      assert Apart(boot[l[i].fam], boot[l[j].fam]);
      FreeApart(boot[l[i].fam], boot[l[j].fam], l[i].cap, l[j].cap, x);
    }
  }

  lemma FreeOrdered(c: Cap, k: Cap, x: int)
    requires Sound(c) && Sound(k) && Ordered(c, k) && Ranged(c) && Ranged(k)
    ensures !(Mark(c) <= x < Hi(c) && Mark(k) <= x < Hi(k))
  {
  }

  lemma FreeApart(b: Cap, b': Cap, c: Cap, k: Cap, x: int)
    requires Sound(c) && Sound(k) && Within(b, c) && Within(b', k) && Apart(b, b') && SameKind(c, k)
    ensures !(Mark(c) <= x < Hi(c) && Mark(k) <= x < Hi(k))
  {
  }

  /** A frame other than the boot frame reaches into the free part of a memory capability only if
      that capability is locked. */
  lemma FrameNeedsLock(cfg: Config, caps: seq<Cap>, s: State, i: nat, j: nat, x: int)
    requires Reachable(cfg, caps, s) && i < |s.list| && 0 < j < |s.list|
    requires s.list[i].cap.Memory? && s.list[j].cap.Pmp?
    requires Lo(s.list[j].cap) <= x < Hi(s.list[j].cap) && Mark(s.list[i].cap) <= x < Hi(s.list[i].cap)
    ensures s.list[i].cap.lck
  {
    hide Reachable, ScheduleAgrees, RegistersAgree, Bounded, Ordered, Within, NoGap, FamSorted, Distinct, Mark, Lo, Hi;
    ReachableInv(cfg, caps, s);
    var l, boot := s.list, BootCaps(caps);
    hide BootCaps;
    var f, g := l[i].fam, l[j].fam;
    assert WithinBoot(boot, l[i]) && WithinBoot(boot, l[j]) && l[j].fam != 0;
    if f == g {
      assert i < j ==> OrderedAt(l, i, j);
      assert j < i ==> OrderedAt(l, j, i);
      OverlapLocked(l[i].cap, l[j].cap, x);
    } else {
      assert f < g ==> Apart(boot[f], boot[g]);
      assert g < f ==> Apart(boot[g], boot[f]);
      OverlapApart(boot[f], boot[g], l[i].cap, l[j].cap, x);
    }
  }

  lemma OverlapLocked(m: Cap, f: Cap, x: int)
    requires m.Memory? && f.Pmp? && (Ordered(m, f) || Ordered(f, m))
    requires Sound(m) && Lo(f) <= x < Hi(f) && Mark(m) <= x < Hi(m)
    ensures m.lck
  {
  }

  /** Frames of another region do not reach into this one. */
  lemma OverlapApart(b: Cap, b': Cap, m: Cap, f: Cap, x: int)
    requires m.Memory? && f.Pmp? && Sound(m) && Within(b, m) && Within(b', f) && !b'.Pmp? && (Apart(b, b') || Apart(b', b))
    ensures !(Lo(f) <= x < Hi(f) && Mark(m) <= x < Hi(m))
  {
  }

  /** No channel ever has two server sockets. */
  lemma OneServer(cfg: Config, caps: seq<Cap>, s: State, i: nat, j: nat)
    requires Reachable(cfg, caps, s) && i < j < |s.list|
    requires s.list[i].cap.Socket? && s.list[j].cap.Socket? && s.list[i].cap.chan == s.list[j].cap.chan
    ensures s.list[j].cap.tok != 0
  {
    ReachableInv(cfg, caps, s);
    var boot := BootCaps(caps);
    assert WithinBoot(boot, s.list[i]) && WithinBoot(boot, s.list[j]);
    assert FamLe(s.list, i, j) && OrderedAt(s.list, i, j);
    assert s.list[i].fam < s.list[j].fam ==> Apart(boot[s.list[i].fam], boot[s.list[j].fam]);
  }

  /** Authority never grows, and every field used as an index stays in its array. */
  lemma AuthorityBound(cfg: Config, caps: seq<Cap>, s: State, n: Node)
    requires Reachable(cfg, caps, s) && n in s.list
    ensures n.fam < |BootCaps(caps)| && Within(BootCaps(caps)[n.fam], n.cap)
    ensures n.idx < TableSize(cfg) && CapOk(cfg, n.cap)
    ensures var b := BootCaps(caps)[n.fam];
            && Lo(b) <= Lo(n.cap) && Hi(n.cap) <= Hi(b)
            && (b.Time? ==> n.cap.Time? && n.cap.hart == b.hart)
            && (b.Memory? ==> (n.cap.Memory? || n.cap.Pmp?) && NoMoreRights(n.cap.rwx, b.rwx))
            && (b.Memory? && n.cap.Memory? ==> n.cap.tag == b.tag)
            && (b.Pmp? ==> n.cap.Pmp? && n.cap.addr == b.addr && n.cap.rwx == b.rwx)
            && (b.Monitor? ==> n.cap.Monitor?)
            && (b.Channel? ==> n.cap.Channel? || n.cap.Socket?)
    ensures n.cap.Time? ==> cfg.minHart <= n.cap.hart <= cfg.maxHart && n.cap.end <= cfg.slotCnt
    ensures n.cap.Monitor? ==> n.cap.end <= cfg.procCnt
    ensures n.cap.Channel? ==> n.cap.end <= cfg.chanCnt
    ensures n.cap.Socket? ==> n.cap.chan < cfg.chanCnt
    ensures n.cap.Pmp? && n.cap.used ==> n.cap.slot < cfg.pmpCnt
  {
    ReachableInv(cfg, caps, s);
    var i: nat :| i < |s.list| && s.list[i] == n;
    assert WithinBoot(BootCaps(caps), s.list[i]) && NodeOk(cfg, s.list[i]);
  }

  /** What the scheduler reads for a slot: the owner's process and the rest of its slice, or
      length 0 when no time capability owns the slot. */
  lemma ScheduleLookup(cfg: Config, caps: seq<Cap>, s: State, h: nat, t: nat)
    requires Reachable(cfg, caps, s) && HartOk(cfg, h) && t < cfg.slotCnt
    ensures Bounded(cfg, s)
    ensures forall n :: n in s.list && Owns(n, h, t) ==>
              && EntryPid(At(cfg, s.slots, h, t)) == Pid(cfg, n.idx)
              && EntryLen(At(cfg, s.slots, h, t)) == n.cap.end - t > 0
    ensures EntryLen(At(cfg, s.slots, h, t)) == 0 <==> (forall n :: n in s.list ==> !Owns(n, h, t))
  {
    hide PlatformOk, BootOk, ListInv, RegistersAgree, Sound, Pid, TableSize, At, EntryPid, EntryLen;
    ReachableInv(cfg, caps, s);
    assert SlotAgrees(cfg, s, h, t);
    forall n | n in s.list && Owns(n, h, t)
      ensures EntryPid(At(cfg, s.slots, h, t)) == Pid(cfg, n.idx)
      ensures EntryLen(At(cfg, s.slots, h, t)) == n.cap.end - t > 0
    {
      MemberOk(cfg, s, n);
      EntryRoundTrip(Pid(cfg, n.idx), n.cap.end - t);
    }
    EntryRoundTrip(0, 0);
  }

  lemma MemberOk(cfg: Config, s: State, n: Node)
    requires Bounded(cfg, s) && n in s.list
    ensures NodeOk(cfg, n)
  {
    var i: nat :| i < |s.list| && s.list[i] == n;
    assert NodeOk(cfg, s.list[i]);
  }

  /** A register of a process is in use exactly when a loaded frame of that process says so; that
      frame is the only one, and the register holds its permissions and address. */
  lemma RegisterMirror(cfg: Config, caps: seq<Cap>, s: State, pid: nat, slot: nat)
    requires Reachable(cfg, caps, s) && pid < cfg.procCnt && slot < cfg.pmpCnt
    ensures Bounded(cfg, s)
    ensures s.pmp[pid][slot].cfg != 0 <==> Loaded(cfg, s.list, pid, slot)
    ensures forall n :: n in s.list && Loads(cfg, n, pid, slot) ==>
              var reg := s.pmp[pid][slot];
              && reg.addr == n.cap.addr && reg.cfg / 8 == 3
              && (reg.cfg % 2 == 1 <==> n.cap.rwx.r)
              && (reg.cfg / 2 % 2 == 1 <==> n.cap.rwx.w)
              && (reg.cfg / 4 % 2 == 1 <==> n.cap.rwx.x)
    ensures forall n, m :: n in s.list && m in s.list && Loads(cfg, n, pid, slot) && Loads(cfg, m, pid, slot) ==> n == m
  {
    ReachableInv(cfg, caps, s);
    assert RegisterAgrees(cfg, s, pid, slot);
    hide PmpCfg, Reachable, Inv, Pid, TableSize;
    forall n | n in s.list && Loads(cfg, n, pid, slot)
      ensures var reg := s.pmp[pid][slot];
              && reg.addr == n.cap.addr && reg.cfg / 8 == 3
              && (reg.cfg % 2 == 1 <==> n.cap.rwx.r)
              && (reg.cfg / 2 % 2 == 1 <==> n.cap.rwx.w)
              && (reg.cfg / 4 % 2 == 1 <==> n.cap.rwx.x)
    {
      RegisterBits(n.cap.rwx);
    }
  }
}
