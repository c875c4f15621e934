/** The kernel's capability operations on its tables in memory. Each method does to the
    arrays what the specification functions do to the abstract state. */
module Kernel {
  import opened Capability
  import opened CapList
  import opened Schedule
  import opened CapOps
  import opened Authority
  import opened Steps
  import opened Derivations
  import opened Revocation
  import opened Preemption
  import opened Runs
  import opened CapTable
  import opened Registers

  lemma NodeFacts(cfg: Config, s: State, p: nat)
    requires Bounded(cfg, s) && p < |s.list|
    ensures NodeOk(cfg, s.list[p]) && |s.slots| == cfg.slotCnt && |s.chans| == cfg.chanCnt
    ensures var c := s.list[p].cap; c.Time? ==> c.bgn <= c.mrk <= c.end <= cfg.slotCnt && HartOk(cfg, c.hart)
  {
  }

  lemma SetCapUnlisted(l: List, p: nat, c: Cap, idx: nat)
    requires p < |l| && Pos(l, idx) == |l|
    ensures Pos(SetCap(l, p, c), idx) == |l|
  {
    var r := SetCap(l, p, c);
    assert forall k: nat :: k < |l| ==> r[k].idx == l[k].idx;
  }

  lemma TimeRange(cfg: Config, c: Cap)
    requires CapOk(cfg, c)
    ensures !c.None?
    ensures c.Time? ==> c.bgn <= c.end <= cfg.slotCnt && HartOk(cfg, c.hart)
  {
  }

  lemma SetCapSame(l: List, p: nat)
    requires p < |l|
    ensures SetCap(l, p, l[p].cap) == l
  {
  }

  /** What the handlers rely on, and what they keep. */
  lemma PassFacts(cfg: Config, boot: seq<Cap>, s: State, p: nat)
    requires Revocable(cfg, boot, s, p)
    ensures NodeOk(cfg, s.list[p]) && NodeOk(cfg, s.list[Next(s.list, p)])
    ensures Eats(s.list[p].cap, s.list[Next(s.list, p)].cap) ==> p + 1 < |s.list|
    ensures Bounded(cfg, RevokeStepAt(cfg, s, p).0) && Inv(cfg, boot, RevokeStepAt(cfg, s, p).0)
  {
    RevocableParts(cfg, boot, s, p);
    RevokePassKeepsInv(cfg, boot, s, p);
  }

  lemma UniquePos(t: Table, p: nat)
    requires t.Valid() && p < |t.list|
    ensures Pos(t.list, t.list[p].idx) == p
  {
    PosUnique(t.list, p);
  }

  /** The state after boot. */
  ghost predicate Booted(cfg: Config, caps: seq<Cap>, s: State)
    requires PlatformOk(cfg, caps)
  {
    exists pmp :: BootedWith(cfg, caps, pmp, s)
  }

  ghost predicate BootedWith(cfg: Config, caps: seq<Cap>, pmp: seq<seq<PmpReg>>, s: State)
    requires PlatformOk(cfg, caps)
  {
    && RegistersFree(cfg, pmp) && Bounded(cfg, BootTables(cfg, caps, pmp)) && 0 < TableSize(cfg)
    && s == PmpLoad(cfg, BootTables(cfg, caps, pmp), 0, 0).0
  }

  class System {
    const cfg: Config
    const table: Table
    const sched: Scheduler
    const regs: PmpFile
    var chans: seq<Chan>

    ghost predicate Shaped()
      reads this, table, table.prv, table.nxt, table.cap, sched.slots, regs, regs.cfgs, regs.addrs
    {
      && ValidConfig(cfg)
      && table.Valid() && table.size == TableSize(cfg)
      && sched.Valid() && sched.cfg == cfg
      && regs.Valid() && regs.procs == cfg.procCnt && regs.count == cfg.pmpCnt
      && sched.slots as object != table.prv && sched.slots as object != table.nxt && sched.slots as object != table.cap
    }

    /** The abstract state the tables stand for. */
    ghost function Abs(): State
      reads this, table, sched.slots, regs
    {
      State(table.list, sched.slots[..], regs.view, chans)
    }

    ghost predicate Valid()
      reads this, table, table.prv, table.nxt, table.cap, sched.slots, regs, regs.cfgs, regs.addrs
    {
      Shaped() && Bounded(cfg, Abs())
    }

    /** ctable_init and sched_init: thread the boot capabilities, and give every hart's
        period to process 0. */
    constructor (cfg: Config, caps: seq<Cap>)
      requires PlatformOk(cfg, caps)
      ensures Shaped() && this.cfg == cfg
      ensures RegistersFree(cfg, Abs().pmp) && Abs() == BootTables(cfg, caps, Abs().pmp)
    {
      FirstTable(cfg, |caps| - 1);
      FirstTable(cfg, 0);
      hide Pid, TableSize, Linked, Occupied, Distinct, BootOk, CapOk, ListInv, Init;
      this.cfg := cfg;
      var t := new Table(TableSize(cfg));
      t.Init(caps);
      table := t;
      var sc := new Scheduler(cfg);
      sc.SchedInit();
      sched := sc;
      var rg := new PmpFile(cfg.procCnt, cfg.pmpCnt);
      regs := rg;
      chans := seq(cfg.chanCnt, _ => Chan(Nothing, Nothing, Nothing));
    }

    /** proc_init: load the boot frame into register 0 of process 0. */
    method ProcInit(ghost caps: seq<Cap>)
      requires PlatformOk(cfg, caps) && Shaped()
      requires RegistersFree(cfg, Abs().pmp) && Abs() == BootTables(cfg, caps, Abs().pmp)
      modifies regs`view, regs.cfgs, regs.addrs, table`list, table.cap
      ensures Valid() && Inv(cfg, BootCaps(caps), Abs()) && Booted(cfg, caps, Abs())
    {
      BootKeepsInv(cfg, caps, regs.view);
      hide PlatformOk, RegistersFree, BootTables, Bounded, PmpLoad, ListInv, ScheduleAgrees, RegistersAgree;
      var err := CapPmpLoad(0, 0);
      assert err == Success;
      assert BootedWith(cfg, caps, old(regs.view), Abs());
    }

    // ----- registers and channel records -----

    method SockClear(c: Cap, pid: nat)
      requires Shaped() && c.Socket? && c.chan < |chans|
      modifies this`chans
      ensures Shaped()
      ensures Abs() == old(Abs()).(chans := ClearSock(old(Abs()).chans, c, pid))
    {
      if c.tok == 0 {
        chans := chans[c.chan := Chan(Nothing, Nothing, Nothing)];
      } else if chans[c.chan].client == Some(pid) {
        chans := chans[c.chan := Chan(chans[c.chan].server, Nothing, chans[c.chan].capBuf)];
      }
    }

    /** Write a channel record. */
    method SetChannel(c: nat, ch: Chan)
      requires Valid() && c < |chans|
      modifies this`chans
      ensures Valid() && Abs() == old(Abs()).(chans := old(chans)[c := ch])
    {
      chans := chans[c := ch];
    }

    // ----- move -----

    /** cap_move. A successful move of the only entry breaks the table; otherwise it is the move. */
    method CapMove(src: nat, dst: nat) returns (err: Err)
      requires Valid() && src < TableSize(cfg) && dst < TableSize(cfg)
      modifies regs`view, regs.cfgs, table`list, table.prv, table.nxt, table.cap, sched.slots
      ensures err == Move(cfg, old(Abs()), src, dst).1 && Abs() == Move(cfg, old(Abs()), src, dst).0
      ensures Valid() <==> |old(table.list)| >= 2 || err != Success
    {
      hide Pid, TableSize, Linked, Occupied, Distinct, Bounded, Sound, Update, CapOk;
      ghost var s := Abs();
      var emptySrc := table.IsEmpty(src);
      if emptySrc { return SrcEmpty; }
      var emptyDst := table.IsEmpty(dst);
      if !emptyDst { return DstOccupied; }
      ghost var p := Pos(table.list, src);
      MoveBounded(cfg, s, p, dst);
      if Pid(cfg, src) != Pid(cfg, dst) {
        MoveHook(src, dst, p);
      }
      table.Move(src, dst, p);
      return Success;
    }

    /** cap_ipc_move_hook: a time capability takes its slots along, a frame is unloaded. */
    method MoveHook(src: nat, dst: nat, ghost p: nat)
      requires Valid() && src < TableSize(cfg) && dst < TableSize(cfg)
      requires p < |table.list| && table.list[p].idx == src
      modifies regs`view, regs.cfgs, table`list, table.cap, sched.slots
      ensures Shaped()
      ensures var c := old(Abs()).list[p].cap;
              Abs() == if c.Time? then
                         old(Abs()).(slots := Update(cfg, old(Abs()).slots, Pid(cfg, dst), c.end, c.hart, c.mrk, c.end))
                       else if c.Pmp? && c.used then
                         old(Abs()).(list := SetCap(old(Abs()).list, p, Bind(c, false, 0)),
                                     pmp := Unload(old(Abs()).pmp, Pid(cfg, src), c.slot))
                       else old(Abs())
    {
      hide Pid, TableSize, Linked, Occupied, Distinct, Bounded, Sound, Update;
      NodeFacts(cfg, Abs(), p);
      assert Pos(table.list, src) == p by { UniquePos(table, p); }
      var c := table.Get(src);
      if c.Time? {
        sched.SchedUpdate(Pid(cfg, dst), c.end, c.hart, c.mrk, c.end);
      } else if c.Pmp? && c.used {
        regs.UnloadReg(Pid(cfg, src), c.slot);
        table.SetCapAt(src, Bind(c, false, 0), p);
      }
    }

    // ----- delete -----

    /** cap_delete. */
    method CapDelete(c: nat) returns (err: Err)
      requires Valid() && c < TableSize(cfg)
      modifies regs`view, regs.cfgs, this`chans, table`list, table.prv, table.nxt, table.cap, sched.slots
      ensures Valid() && (Abs(), err) == Delete(cfg, old(Abs()), c)
    {
      hide Pid, TableSize, Linked, Occupied, Distinct, Bounded, Sound, Erase, RemoveAt;
      ghost var s := Abs();
      var empty := table.IsEmpty(c);
      if empty { return Empty; }
      ghost var p := Pos(table.list, c);
      NodeFacts(cfg, s, p);
      DeleteBounded(cfg, s, p);
      var k := table.Get(c);
      if k.Time? {
        sched.SchedDelete(k.hart, k.mrk, k.end);
      } else if k.Pmp? {
        if k.used { regs.UnloadReg(Pid(cfg, c), k.slot); }
      } else if k.Socket? {
        SockClear(k, Pid(cfg, c));
      }
      table.Delete(c, p);
      return Success;
    }

    // ----- derive -----

    /** cap_derive. */
    method CapDerive(src: nat, dst: nat, ncap: Cap) returns (err: Err)
      requires Valid() && src < TableSize(cfg) && dst < TableSize(cfg) && CapIsValid(ncap)
      modifies table`list, table.prv, table.nxt, table.cap, sched.slots
      ensures Valid() && (Abs(), err) == Derive(cfg, old(Abs()), src, dst, ncap)
    {
      hide Pid, TableSize, Linked, Occupied, Distinct, Bounded, Sound, Update, CanDerive, Derivation, CapIsValid;
      ghost var s := Abs();
      var emptySrc := table.IsEmpty(src);
      if emptySrc { return SrcEmpty; }
      var emptyDst := table.IsEmpty(dst);
      if !emptyDst { return DstOccupied; }
      ghost var p := Pos(table.list, src);
      var c := table.Get(src);
      if !CanDerive(c, ncap) { return InvalidDerivation; }
      Graft(src, dst, c, ncap, p);
      return Success;
    }

    /** The accepted case of every derive handler. */
    method Graft(src: nat, dst: nat, c: Cap, ncap: Cap, ghost p: nat)
      requires Valid() && src < TableSize(cfg) && dst < TableSize(cfg) && CapIsValid(ncap)
      requires Pos(table.list, dst) == |table.list|
      requires p < |table.list| && table.list[p].idx == src && table.list[p].cap == c && CanDerive(c, ncap)
      modifies table`list, table.prv, table.nxt, table.cap, sched.slots
      ensures Valid() && Abs() == DeriveAt(cfg, old(Abs()), p, dst, ncap).0
    {
      hide Pid, TableSize, Linked, Occupied, Distinct, Bounded, Sound, Update, CanDerive, Derivation, CapIsValid;
      NodeFacts(cfg, Abs(), p);
      AcceptedRange(cfg, c, ncap);
      DeriveKinds(c, ncap);
      DeriveBounded(cfg, Abs(), p, dst, ncap);
      TimeRange(cfg, ncap);
      if ncap.Time? {
        sched.SchedUpdate(Pid(cfg, dst), ncap.end, ncap.hart, ncap.bgn, ncap.end);
      }
      table.SetCapAt(src, Charged(c, ncap), p);
      SetCapUnlisted(old(table.list), p, Charged(c, ncap), dst);
      table.Insert(dst, ncap, src, p);
    }

    // ----- revoke -----

    /** Remove the neighbour at position `p + 1`, then rewrite the revoked entry. */
    method Absorbing(parent: nat, child: nat, pcap: Cap, ghost p: nat)
      requires Shaped() && p + 1 < |table.list| && !pcap.None?
      requires table.list[p].idx == parent && table.list[p + 1].idx == child
      modifies table`list, table.prv, table.nxt, table.cap
      ensures Shaped() && table.list == RemoveAt(SetCap(old(table.list), p, pcap), p + 1)
    {
      hide TableSize, Linked, Occupied, Distinct;
      table.Delete(child, p + 1);
      table.SetCapAt(parent, pcap, p);
    }

    /** The revoke handlers: one pass of the loop. */
    method RevokePass(parent: nat, ghost boot: seq<Cap>, ghost p: nat) returns (err: Err)
      requires Valid() && Revocable(cfg, boot, Abs(), p) && table.list[p].idx == parent
      modifies this`chans, regs`view, regs.cfgs, table`list, table.prv, table.nxt, table.cap, sched.slots
      ensures Valid() && Inv(cfg, boot, Abs())
      ensures (Abs(), err) == RevokeStepAt(cfg, old(Abs()), p)
    {
      hide Pid, TableSize, Linked, Occupied, Distinct, Bounded, NodeOk, CapOk, Sound, Update, Inv, Eats, Under,
           RevokeStepAt;
      PassFacts(cfg, boot, Abs(), p);
      UniquePos(table, p);
      UniquePos(table, Next(table.list, p));
      var pcap := table.Get(parent);
      var child := table.NextOf(parent, p);
      var ccap := table.Get(child);
      err := Handle(parent, pcap, child, ccap, p);
    }

    /** Dispatch on the kind of the revoked capability. */
    method Handle(parent: nat, pcap: Cap, child: nat, ccap: Cap, ghost p: nat) returns (err: Err)
      requires Handling(parent, pcap, child, ccap, p)
      modifies this`chans, regs`view, regs.cfgs, table`list, table.prv, table.nxt, table.cap, sched.slots
      ensures Shaped() && (Abs(), err) == RevokeStepAt(cfg, old(Abs()), p)
    {
      hide Pid, TableSize, Linked, Occupied, Distinct, Bounded, Sound, Update;
      if pcap.Time? {
        err := RevokeTime(parent, pcap, child, ccap, p);
      } else if pcap.Memory? {
        err := RevokeMemory(parent, pcap, child, ccap, p);
      } else if pcap.Monitor? {
        err := RevokeMonitor(parent, pcap, child, ccap, p);
      } else if pcap.Channel? {
        err := RevokeChannel(parent, pcap, child, ccap, p);
      } else if pcap.Socket? {
        err := RevokeSocket(parent, pcap, child, ccap, p);
      } else {
        SetCapSame(table.list, p);
        err := Success;
      }
    }

    /** What each handler is called with. */
    ghost predicate Handling(parent: nat, pcap: Cap, child: nat, ccap: Cap, p: nat)
      reads this, table, table.prv, table.nxt, table.cap, sched.slots, regs, regs.cfgs, regs.addrs
    {
      && Valid() && p < |table.list|
      && table.list[p] == Node(parent, pcap, table.list[p].fam)
      && table.list[Next(table.list, p)] == Node(child, ccap, table.list[Next(table.list, p)].fam)
      && NodeOk(cfg, table.list[p]) && NodeOk(cfg, table.list[Next(table.list, p)])
      && (Eats(pcap, ccap) ==> p + 1 < |table.list|)
    }

    method RevokeTime(parent: nat, pcap: Cap, child: nat, ccap: Cap, ghost p: nat) returns (err: Err)
      requires Handling(parent, pcap, child, ccap, p) && pcap.Time?
      modifies table`list, table.prv, table.nxt, table.cap, sched.slots
      ensures Shaped() && (Abs(), err) == RevokeStepAt(cfg, old(Abs()), p)
    {
      NodeFacts(cfg, Abs(), p);
      hide Pid, TableSize, Linked, Occupied, Distinct, Bounded, Update;
      if ccap.Time? && pcap.hart == ccap.hart && pcap.bgn <= ccap.bgn && ccap.end <= pcap.end {
        sched.SchedUpdate(Pid(cfg, parent), pcap.end, pcap.hart, ccap.mrk, pcap.mrk);
        Absorbing(parent, child, WithMark(pcap, ccap.mrk), p);
        return if ccap.mrk == pcap.bgn then Success else Continue;
      }
      sched.SchedUpdate(Pid(cfg, parent), pcap.end, pcap.hart, pcap.bgn, pcap.mrk);
      table.SetCapAt(parent, WithMark(pcap, pcap.bgn), p);
      return Success;
    }

    method RevokeMemory(parent: nat, pcap: Cap, child: nat, ccap: Cap, ghost p: nat) returns (err: Err)
      requires Handling(parent, pcap, child, ccap, p) && pcap.Memory?
      modifies regs`view, regs.cfgs, table`list, table.prv, table.nxt, table.cap
      ensures Shaped() && (Abs(), err) == RevokeStepAt(cfg, old(Abs()), p)
    {
      hide Pid, TableSize, Linked, Occupied, Distinct, Bounded, Sound;
      if ccap.Memory? && pcap.tag == ccap.tag && pcap.bgn <= ccap.bgn {
        Absorbing(parent, child, WithLock(WithMark(pcap, ccap.mrk), ccap.lck), p);
        return if ccap.mrk == pcap.bgn && !ccap.lck then Success else Continue;
      }
      if ccap.Pmp? && BlockAddr(pcap.tag, pcap.bgn) <= FrameBegin(ccap.addr) {
        SetCapSame(table.list, p);
        table.Delete(child, p + 1);
        if ccap.used { regs.UnloadReg(Pid(cfg, child), ccap.slot); }
        return Continue;
      }
      table.SetCapAt(parent, WithLock(WithMark(pcap, pcap.bgn), false), p);
      return Success;
    }

    method RevokeMonitor(parent: nat, pcap: Cap, child: nat, ccap: Cap, ghost p: nat) returns (err: Err)
      requires Handling(parent, pcap, child, ccap, p) && pcap.Monitor?
      modifies table`list, table.prv, table.nxt, table.cap
      ensures Shaped() && (Abs(), err) == RevokeStepAt(cfg, old(Abs()), p)
    {
      hide Pid, TableSize, Linked, Occupied, Distinct, Bounded, Sound;
      if ccap.Monitor? && pcap.bgn <= ccap.bgn {
        Absorbing(parent, child, WithMark(pcap, ccap.mrk), p);
        return if ccap.mrk == pcap.bgn then Success else Continue;
      }
      table.SetCapAt(parent, WithMark(pcap, pcap.bgn), p);
      return Success;
    }

    method RevokeChannel(parent: nat, pcap: Cap, child: nat, ccap: Cap, ghost p: nat) returns (err: Err)
      requires Handling(parent, pcap, child, ccap, p) && pcap.Channel?
      modifies this`chans, table`list, table.prv, table.nxt, table.cap
      ensures Shaped() && (Abs(), err) == RevokeStepAt(cfg, old(Abs()), p)
    {
      NodeFacts(cfg, Abs(), p);
      hide Pid, TableSize, Linked, Occupied, Distinct, Bounded, Sound;
      if ccap.Channel? && pcap.bgn <= ccap.bgn {
        Absorbing(parent, child, WithMark(pcap, ccap.mrk), p);
        return if ccap.mrk == pcap.bgn then Success else Continue;
      }
      if ccap.Socket? && pcap.bgn <= ccap.chan {
        SetCapSame(table.list, p);
        table.Delete(child, p + 1);
        SockClear(ccap, Pid(cfg, child));
        return Continue;
      }
      table.SetCapAt(parent, WithMark(pcap, pcap.bgn), p);
      return Success;
    }

    method RevokeSocket(parent: nat, pcap: Cap, child: nat, ccap: Cap, ghost p: nat) returns (err: Err)
      requires Handling(parent, pcap, child, ccap, p) && pcap.Socket?
      modifies this`chans, table`list, table.prv, table.nxt, table.cap
      ensures Shaped() && (Abs(), err) == RevokeStepAt(cfg, old(Abs()), p)
    {
      NodeFacts(cfg, Abs(), p);
      hide Pid, TableSize, Linked, Occupied, Distinct, Bounded, Sound;
      SetCapSame(table.list, p);
      if ccap.Socket? && pcap.chan == ccap.chan && pcap.tok == 0 {
        table.Delete(child, p + 1);
        SockClear(ccap, Pid(cfg, child));
        return Continue;
      }
      return Success;
    }

    /** cap_revoke: passes until one ends the revocation or the kernel is preempted. */
    method CapRevoke(parent: nat, ghost boot: seq<Cap>) returns (err: Err)
      requires Valid() && Inv(cfg, boot, Abs()) && parent < TableSize(cfg)
      requires Pos(table.list, parent) < |table.list| ==> AnchorSafe(table.list, Pos(table.list, parent))
      modifies this`chans, regs`view, regs.cfgs, table`list, table.prv, table.nxt, table.cap, sched.slots
      ensures Valid() && Inv(cfg, boot, Abs())
      ensures err == Empty || err == Success || err == Preempted
      ensures err == Empty <==> Pos(old(table.list), parent) == |old(table.list)|
      ensures err == Empty ==> Abs() == old(Abs())
      ensures err == Success ==> Abs() == RevokeAll(cfg, boot, old(Abs()), parent)
      ensures err == Preempted ==>
                && |table.list| < |old(table.list)|
                && Pos(table.list, parent) < |table.list|
                && AnchorSafe(table.list, Pos(table.list, parent))
                && RevokeAll(cfg, boot, Abs(), parent) == RevokeAll(cfg, boot, old(Abs()), parent)
      ensures err != Empty ==> exists k: nat :: Abs() == RevokeSome(cfg, boot, old(Abs()), parent, k)
    {
      ghost var s := Abs();
      var empty := table.IsEmpty(parent);
      if empty { return Empty; }
      assert Revocable(cfg, boot, s, Pos(s.list, parent));
      hide Pid, TableSize, Bounded, Inv, RevokeStepAt, Linked, Occupied, Distinct, AnchorSafe, RevokeAll, RevokeSome, Shaped;
      hide PassesTo, Revocable;
      ghost var k: nat := 0;
      PassesStart(cfg, boot, s, parent);
      err := RevokeOnce(parent, boot, s, k);
      k := 1;
      var preempted: bool := *;
      while err == Continue && !preempted
        invariant Valid() && Inv(cfg, boot, Abs())
        invariant err == Continue || err == Success
        invariant err == Continue ==> PassesTo(cfg, boot, s, Abs(), parent, k) && |table.list| < |s.list|
        invariant err == Success ==>
                    Abs() == RevokeAll(cfg, boot, s, parent) && Abs() == RevokeSome(cfg, boot, s, parent, k)
        decreases err == Continue, |table.list|
      {
        err := RevokeOnce(parent, boot, s, k);
        k := k + 1;
        preempted := *;
      }
      if err == Continue {
        PassesDone(cfg, boot, s, Abs(), parent, k);
        PassesLeft(cfg, boot, s, Abs(), parent, k);
        err := Preempted;
      }
    }

    /** One turn of the revocation loop, the `k`th after state `s`. */
    method RevokeOnce(parent: nat, ghost boot: seq<Cap>, ghost s: State, ghost k: nat) returns (err: Err)
      requires Valid() && PassesTo(cfg, boot, s, Abs(), parent, k)
      modifies this`chans, regs`view, regs.cfgs, table`list, table.prv, table.nxt, table.cap, sched.slots
      ensures Valid() && Inv(cfg, boot, Abs())
      ensures err == Continue || err == Success
      ensures err == Continue ==> PassesTo(cfg, boot, s, Abs(), parent, k + 1) && |table.list| < |old(table.list)|
      ensures err == Success ==>
                Abs() == RevokeAll(cfg, boot, s, parent) && Abs() == RevokeSome(cfg, boot, s, parent, k + 1)
    {
      hide Pid, TableSize, Bounded, Inv, Linked, Occupied, Distinct, AnchorSafe, RevokeAll, RevokeSome, PassList, PassVerdict,
           Update, UnloadCap;
      ghost var p := Pos(table.list, parent);
      NextPass(cfg, boot, s, Abs(), parent, k);
      err := RevokePass(parent, boot, p);
    }

    // ----- PMP registers -----

    /** cap_pmp_load. */
    method CapPmpLoad(c: nat, slot: nat) returns (err: Err)
      requires Valid() && c < TableSize(cfg) && slot < cfg.pmpCnt
      modifies regs`view, regs.cfgs, regs.addrs, table`list, table.cap
      ensures Valid() && (Abs(), err) == PmpLoad(cfg, old(Abs()), c, slot)
    {
      hide Pid, TableSize, Linked, Occupied, Distinct, Bounded, Sound, CapOk;
      ghost var s := Abs();
      ghost var p := Pos(table.list, c);
      var empty := table.IsEmpty(c);
      if empty { return Empty; }
      NodeFacts(cfg, s, p);
      LoadBounded(cfg, s, c, slot);
      var k := table.Get(c);
      if !k.Pmp? || k.used { return InvalidPmp; }
      var pid := Pid(cfg, c);
      var free := regs.Avail(pid, slot);
      if !free { return DstOccupied; }
      regs.LoadReg(pid, slot, k.rwx, k.addr);
      table.SetCapAt(c, Bind(k, true, slot), p);
      return Success;
    }

    /** cap_pmp_unload. */
    method CapPmpUnload(c: nat) returns (err: Err)
      requires Valid() && c < TableSize(cfg)
      modifies regs`view, regs.cfgs, table`list, table.cap
      ensures Valid() && (Abs(), err) == PmpUnload(cfg, old(Abs()), c)
    {
      hide Pid, TableSize, Linked, Occupied, Distinct, Bounded, Sound;
      ghost var s := Abs();
      ghost var p := Pos(table.list, c);
      var empty := table.IsEmpty(c);
      if empty { return Empty; }
      NodeFacts(cfg, s, p);
      UnloadBounded(cfg, s, c);
      var k := table.Get(c);
      if !k.Pmp? || !k.used { return InvalidPmp; }
      regs.UnloadReg(Pid(cfg, c), k.slot);
      table.SetCapAt(c, Bind(k, false, 0), p);
      return Success;
    }
  }
}
