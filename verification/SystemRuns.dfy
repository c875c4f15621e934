/** The whole kernel on one hart: traps drive processes, messages and capability operations, and
    every state of every run satisfies the capability invariant. */
module SystemRuns {
  import opened Capability
  import opened CapList
  import opened Schedule
  import opened CapOps
  import opened Authority
  import opened Steps
  import opened CapTable
  import opened Runs
  import opened Process
  import opened Traps
  import opened TrapRuns
  import opened CapCalls

  /** What a trap does to the tables are capability operations: a capability call is a run of
      them, and an unanswered reply does not drop the boot frame. */
  ghost predicate Faithful(cfg: Config, boot: seq<Cap>, m: Machine, cur: nat, t: Trap)
    requires MachineOk(cfg, m) && cur < |m.procs| && (t.Syscall? ==> CallOk(cfg, m, t.call))
  {
    t.Syscall? ==>
      match t.call
      case Capability(kern, _) => exists ops :: IsRun(cfg, boot, m.kern, ops, kern)
      case SendRecv(sock, msg, clk) =>
        Drops(cfg, m, cur, sock, msg, clk) ==> Admissible(cfg, boot, m.kern, DeleteCap(msg.buf))
      case _ => true
  }

  lemma PlainFaithful(cfg: Config, boot: seq<Cap>, m: Machine, cur: nat, t: Trap)
    requires MachineOk(cfg, m) && cur < |m.procs| && !t.Syscall?
    ensures Faithful(cfg, boot, m, cur, t)
  {
  }

  /** A server's reply finds no receiver, and its capability is deleted. */
  ghost predicate Drops(cfg: Config, m: Machine, cur: nat, sock: nat, msg: Msg, clk: Clock)
    requires MachineOk(cfg, m) && cur < |m.procs| && msg.buf < TableSize(cfg)
  {
    var c := CapAt(m.kern.list, sock);
    && msg.sendCap && c.Socket? && c.tok == 0 && SocketOk(cfg, c)
    && DoSend(cfg, m, cur, c, msg, clk).err == ErrNoReceiver
  }

  /** The invariant does not speak of channel records. */
  lemma ChansFree(cfg: Config, boot: seq<Cap>, s: State, s': State)
    requires Inv(cfg, boot, s) && s' == s.(chans := s'.chans) && |s'.chans| == |s.chans|
    ensures Inv(cfg, boot, s')
  {
    ScheduleFrame(cfg, s, s');
    RegisterFrame(cfg, s, s');
  }

  lemma SendKeepsInv(cfg: Config, boot: seq<Cap>, m: Machine, cur: nat, c: Cap, msg: Msg, clk: Clock)
    requires Inv(cfg, boot, m.kern) && MachineOk(cfg, m) && cur < |m.procs|
    requires SocketOk(cfg, c) && msg.buf < TableSize(cfg) && (msg.sendCap ==> |m.kern.list| >= 2)
    ensures var o := DoSend(cfg, m, cur, c, msg, clk);
            Inv(cfg, boot, o.m.kern) && (o.err != Ok ==> o.m.kern == m.kern.(chans := o.m.kern.chans))
  {
    hide Inv, Move;
    var ch := m.kern.chans[c.chan];
    var k := Addressed(m, c).kern;
    ChansFree(cfg, boot, m.kern, k);
    if ch.capBuf.Some? && msg.sendCap {
      assert ChanOk(cfg, ch);
      StepKeepsInv(cfg, boot, k, MoveCap(msg.buf, ch.capBuf.value));
    }
  }

  /** Whoever sends has a socket, and the boot frame is listed too. */
  lemma SocketNotAlone(cfg: Config, boot: seq<Cap>, s: State, sock: nat)
    requires Inv(cfg, boot, s) && CapAt(s.list, sock).Socket?
    ensures |s.list| >= 2
  {
    assert WithinBoot(boot, s.list[0]);
  }

  lemma SendRecvKeepsInv(cfg: Config, boot: seq<Cap>, m: Machine, cur: nat, sock: nat, msg: Msg, clk: Clock)
    requires Inv(cfg, boot, m.kern) && MachineOk(cfg, m) && OneBusy(m, cur) && msg.buf < TableSize(cfg)
    requires Drops(cfg, m, cur, sock, msg, clk) ==> Admissible(cfg, boot, m.kern, DeleteCap(msg.buf))
    ensures Inv(cfg, boot, SockSendRecv(cfg, m, cur, sock, msg, clk).m.kern)
  {
    hide Inv, Delete, DoSend;
    var c := CapAt(m.kern.list, sock);
    SocketInRange(cfg, m, sock);
    if c.Socket? && !m.procs[cur].state.suspended {
      var o := DoSend(cfg, m, cur, c, msg, clk);
      SocketNotAlone(cfg, boot, m.kern, sock);
      SendKeepsInv(cfg, boot, m, cur, c, msg, clk);
      SendKeepsOthers(cfg, m, cur, c, msg, clk);
      var k := o.m.kern;
      if c.tok == 0 && o.err == ErrNoReceiver && msg.sendCap {
        StepKeepsInv(cfg, boot, k, DeleteCap(msg.buf));
        DeleteShape(cfg, o.m, msg.buf);
        k := Delete(cfg, k, msg.buf).0;
      }
      if o.err == Ok || (c.tok == 0 && o.err == ErrNoReceiver) {
        ChansFree(cfg, boot, k, SendRecvOut(cfg, m, cur, c, msg, clk).m.kern);
      }
    }
  }

  lemma HandleKeepsInv(cfg: Config, boot: seq<Cap>, m: Machine, cur: nat, call: Call)
    requires Inv(cfg, boot, m.kern) && MachineOk(cfg, m) && OneBusy(m, cur) && CallOk(cfg, m, call)
    requires Faithful(cfg, boot, m, cur, Syscall(call))
    ensures Inv(cfg, boot, Handle(cfg, m, cur, call).m.kern)
  {
    hide Inv, DoSend, SockSendRecv;
    match call
    case Send(sock, msg, clk) =>
      SocketInRange(cfg, m, sock);
      var c := CapAt(m.kern.list, sock);
      if c.Socket? {
        SocketNotAlone(cfg, boot, m.kern, sock);
        SendKeepsInv(cfg, boot, m, cur, c, msg, clk);
      }
    case Recv(sock, buf, now) =>
      SocketInRange(cfg, m, sock);
      ChansFree(cfg, boot, m.kern, SockRecv(cfg, m, cur, sock, buf, now).m.kern);
    case SendRecv(sock, msg, clk) => SendRecvKeepsInv(cfg, boot, m, cur, sock, msg, clk);
    case Capability(kern, _) =>
      var ops :| IsRun(cfg, boot, m.kern, ops, kern);
      RunKeepsInv(cfg, boot, m.kern, ops, kern);
    case _ =>
  }

  /** Every capability call, a revocation of any number of passes included, is a system call that
      the trap model allows. */
  lemma CallAdmitted(cfg: Config, boot: seq<Cap>, m: Machine, cur: nat, c: CapCall, kern: State, err: Err)
    requires Inv(cfg, boot, m.kern) && MachineOk(cfg, m) && cur < |m.procs|
    requires CapCallOk(cfg, boot, m.kern, c) && Effect(cfg, boot, m, c, kern, err)
    ensures var t := Syscall(Capability(kern, Code(err)));
            CallOk(cfg, m, t.call) && Faithful(cfg, boot, m, cur, t) && Inv(cfg, boot, kern)
  {
    hide Inv, MachineOk, Effect, CapCallOk;
    CallIsRun(cfg, boot, m, c, kern, err);
    var ops :| IsRun(cfg, boot, m.kern, ops, kern);
    RunTables(cfg, boot, m.kern, ops, kern);
    RunKeepsInv(cfg, boot, m.kern, ops, kern);
  }

  /** Every trap keeps list order, authority, schedule agreement and register agreement. */
  lemma TrapKeepsInv(cfg: Config, boot: seq<Cap>, m: Machine, cur: nat, t: Trap, k: Pick, m': Machine, cur': nat, ev: seq<Event>)
    requires Inv(cfg, boot, m.kern) && MachineOk(cfg, m) && OneBusy(m, cur)
    requires TrapStep(cfg, m, cur, t, k, m', cur', ev) && Faithful(cfg, boot, m, cur, t)
    ensures Inv(cfg, boot, m'.kern)
  {
    hide Inv, Handle, MachineOk, OneBusy, Faithful;
    assert m'.kern == Handled(cfg, m, cur, t).m.kern;
    if t.Syscall? { HandleKeepsInv(cfg, boot, m, cur, t.call); }
  }

  ghost predicate FaithfulRun(cfg: Config, boot: seq<Cap>, m: Machine, cur: nat, steps: seq<Step>)
    requires IsTrapRun(cfg, m, cur, steps)
    decreases |steps|
  {
    steps != [] ==>
      && Faithful(cfg, boot, m, cur, steps[0].t)
      && FaithfulRun(cfg, boot, steps[0].m, steps[0].cur, steps[1..])
  }

  /** In every state of every run of traps the capability invariant holds and exactly the
      process that the trap returned is busy. */
  lemma {:induction false} SystemSafe(cfg: Config, boot: seq<Cap>, m: Machine, cur: nat, steps: seq<Step>, i: nat)
    requires Inv(cfg, boot, m.kern) && MachineOk(cfg, m) && OneBusy(m, cur)
    requires IsTrapRun(cfg, m, cur, steps) && FaithfulRun(cfg, boot, m, cur, steps) && i < |steps|
    ensures Inv(cfg, boot, steps[i].m.kern) && MachineOk(cfg, steps[i].m) && OneBusy(steps[i].m, steps[i].cur)
    decreases |steps|
  {
    hide Inv, MachineOk, OneBusy, TrapStep, Faithful;
    var s := steps[0];
    TrapKeepsOneBusy(cfg, m, cur, s.t, s.k, s.m, s.cur, s.ev);
    TrapKeepsInv(cfg, boot, m, cur, s.t, s.k, s.m, s.cur, s.ev);
    if i > 0 {
      assert steps[i] == steps[1..][i - 1];
      SystemSafe(cfg, boot, s.m, s.cur, steps[1..], i - 1);
    }
  }

  // ----- from boot -----

  /** The machine after kernel_init: booted tables, and no process running or waiting. */
  ghost predicate Started(cfg: Config, caps: seq<Cap>, pmp: seq<seq<PmpReg>>, m: Machine) {
    && PlatformOk(cfg, caps) && RegistersFree(cfg, pmp)
    && Bounded(cfg, BootTables(cfg, caps, pmp)) && 0 < TableSize(cfg)
    && m.kern == PmpLoad(cfg, BootTables(cfg, caps, pmp), 0, 0).0
    && |m.procs| == cfg.procCnt
    && forall p: nat :: p < |m.procs| ==> m.procs[p].state == if p == 0 then READY else SUSPENDED
  }

  lemma StartedOk(cfg: Config, caps: seq<Cap>, pmp: seq<seq<PmpReg>>, m: Machine)
    requires Started(cfg, caps, pmp, m)
    ensures Inv(cfg, BootCaps(caps), m.kern) && MachineOk(cfg, m) && WaitsLogged(m, [])
  {
    hide PlatformOk, RegistersFree, BootOk, ScheduleAgrees, RegistersAgree;
    BootKeepsInv(cfg, caps, pmp);
  }

  /** The first process to run after boot. */
  lemma FirstPick(cfg: Config, m: Machine, k: Pick)
    requires MachineOk(cfg, m) && PickOk(cfg, m, k) && WaitsLogged(m, [])
    requires forall p: nat :: p < |m.procs| ==> Idle(m.procs[p].state)
    ensures var f := Fetch(cfg, m, k);
            && f.next.Some? && MachineOk(cfg, f.m) && OneBusy(f.m, f.next.value) && f.m.kern == m.kern
            && WaitsLogged(f.m, f.ev) && DeliveriesOk(f.ev)
  {
    hide Bounded;
    var f := Fetch(cfg, m, k);
    LogEvent(m, f.m, [], f.ev[0]);
    assert [] + [f.ev[0]] == f.ev;
  }

  lemma StartedLane(cfg: Config, caps: seq<Cap>, pmp: seq<seq<PmpReg>>, m: Machine, h: nat, t: nat)
    requires Started(cfg, caps, pmp, m) && HartOk(cfg, h) && t < cfg.slotCnt
    ensures ValidConfig(cfg) && |m.kern.slots| == cfg.slotCnt
    ensures At(cfg, m.kern.slots, h, t) == Entry(0, cfg.slotCnt - t)
  {
    hide RegistersFree, BootOk, Init, At, Entry, TableSize, BootList, BootCaps;
    AtInit(cfg, seq(cfg.slotCnt, _ => 0), cfg.maxHart + 1, h, t);
  }

  /** After boot every hart reads the same lane, so the lowest hart goes first. */
  lemma StartedTie(cfg: Config, caps: seq<Cap>, pmp: seq<seq<PmpReg>>, m: Machine, h: nat, t: nat)
    requires Started(cfg, caps, pmp, m) && HartOk(cfg, h) && t < cfg.slotCnt
    ensures ValidConfig(cfg) && |m.kern.slots| == cfg.slotCnt
    ensures TieLost(cfg, m.kern.slots, h, t) <==> h != cfg.minHart
  {
    StartedLane(cfg, caps, pmp, m, h, t);
    forall i: nat | HartOk(cfg, i)
      ensures SameOwner(cfg, m.kern.slots, h, i, t) && LenAt(cfg, m.kern.slots, h, t) == LenAt(cfg, m.kern.slots, i, t)
    {
      StartedLane(cfg, caps, pmp, m, i, t);
    }
    assert HartOk(cfg, cfg.minHart);
    hide Started, At, Entry, SameOwner, LenAt;
  }

  /** After boot process 0 owns every slot of every hart: the first attempt of the lowest hart
      picks it, on one hart and on several, and no attempt of another hart does. */
  lemma BootPicksZero(cfg: Config, caps: seq<Cap>, pmp: seq<seq<PmpReg>>, m: Machine, k: Pick)
    requires Started(cfg, caps, pmp, m) && HartOk(cfg, k.hart) && 0 < |m.procs| && m.procs[0].timeout <= k.now
    ensures MachineOk(cfg, m)
    ensures PickOk(cfg, m, k) <==> !cfg.smp || k.hart == cfg.minHart
    ensures PickOk(cfg, m, k) ==> Fetch(cfg, m, k).next == Some(0)
  {
    StartedOk(cfg, caps, pmp, m);
    assert cfg.slotCnt > 0 && m.procs[0].state == READY;
    var t := k.slot % cfg.slotCnt;
    StartedLane(cfg, caps, pmp, m, k.hart, t);
    StartedTie(cfg, caps, pmp, m, k.hart, t);
    EntryRoundTrip(0, cfg.slotCnt - t);
    hide Started, Inv, At, EntryPid, EntryLen, Entry, MachineOk, TieLost;
  }

  /** From boot on, for every first pick and every run of traps after it: the capability
      invariant holds, one process is busy, and every message answered an open wait in time. */
  lemma SystemFromBoot(cfg: Config, caps: seq<Cap>, pmp: seq<seq<PmpReg>>, m: Machine, k: Pick, steps: seq<Step>, i: nat)
    requires Started(cfg, caps, pmp, m) && MachineOk(cfg, m) && PickOk(cfg, m, k) && i < |steps|
    requires var f := Fetch(cfg, m, k);
             IsTrapRun(cfg, f.m, f.next.value, steps) && FaithfulRun(cfg, BootCaps(caps), f.m, f.next.value, steps)
    ensures Inv(cfg, BootCaps(caps), steps[i].m.kern)
    ensures OneBusy(steps[i].m, steps[i].cur)
    ensures DeliveriesOk(Fetch(cfg, m, k).ev + Events(steps))
  {
    StartedOk(cfg, caps, pmp, m);
    hide Inv, PlatformOk, PickOk, Fetch, MachineOk, IsTrapRun, FaithfulRun, WaitsLogged, DeliveriesOk, OneBusy;
    var f := Fetch(cfg, m, k);
    FirstPick(cfg, m, k);
    SystemSafe(cfg, BootCaps(caps), f.m, f.next.value, steps, i);
    RunSafe(cfg, f.m, f.next.value, steps, f.ev);
  }

  // ----- who gets to run -----

  /** What the lane of a slot says, the list says too. */
  lemma LaneOwner(cfg: Config, boot: seq<Cap>, s: State, h: nat, t: nat) returns (n: Node)
    requires Inv(cfg, boot, s) && HartOk(cfg, h) && t < cfg.slotCnt && EntryLen(At(cfg, s.slots, h, t)) != 0
    ensures n in s.list && NodeOk(cfg, n) && Owns(n, h, t)
    ensures EntryPid(At(cfg, s.slots, h, t)) == Pid(cfg, n.idx)
    ensures EntryLen(At(cfg, s.slots, h, t)) == n.cap.end - t
  {
    hide ListInv, RegistersAgree, BootOk, Sound, Pid, TableSize, At, EntryPid, EntryLen;
    assert SlotAgrees(cfg, s, h, t);
    EntryRoundTrip(0, 0);
    n :| n in s.list && Owns(n, h, t);
    var i: nat :| i < |s.list| && s.list[i] == n;
    assert NodeOk(cfg, s.list[i]);
    EntryRoundTrip(Pid(cfg, n.idx), n.cap.end - t);
  }

  /** Whoever the scheduler picks holds the time capability of the current slot, in its own
      table, and runs until shortly before that capability's last slot of this period ends. */
  lemma PickedOwnsSlot(cfg: Config, boot: seq<Cap>, m: Machine, k: Pick)
    requires Inv(cfg, boot, m.kern) && MachineOk(cfg, m) && PickOk(cfg, m, k)
    ensures var f := Fetch(cfg, m, k);
            var t := k.slot % cfg.slotCnt;
            exists n :: n in m.kern.list && NodeOk(cfg, n) && Owns(n, k.hart, t) && f.next == Some(Pid(cfg, n.idx))
              && f.m.procs[f.next.value].timeout == (k.slot - t + n.cap.end) * cfg.slotLen - cfg.schedTime
  {
    hide Inv, Pid, TableSize, At, EntryPid, EntryLen;
    var t := k.slot % cfg.slotCnt;
    var n := LaneOwner(cfg, boot, m.kern, k.hart, t);
    assert k.slot + (n.cap.end - t) == k.slot - t + n.cap.end;
  }

  /** A slot that is owned names an existing process. */
  lemma LaneInRange(cfg: Config, boot: seq<Cap>, s: State, h: nat, t: nat)
    requires Inv(cfg, boot, s) && HartOk(cfg, h) && t < cfg.slotCnt
    ensures EntryLen(At(cfg, s.slots, h, t)) != 0 ==> EntryPid(At(cfg, s.slots, h, t)) < cfg.procCnt
  {
    hide ListInv, RegistersAgree, BootOk, At, EntryPid, EntryLen;
    if EntryLen(At(cfg, s.slots, h, t)) != 0 {
      var n := LaneOwner(cfg, boot, s, h, t);
    }
  }

  // ----- monitors -----

  /** A monitor's move is a plain move or nothing, and it can only touch the registers of its
      own process and of processes that it monitors and that are suspended. */
  lemma MoveReach(cfg: Config, boot: seq<Cap>, m: Machine, mon: nat, src: nat, dst: nat, pid: nat)
    requires Inv(cfg, boot, m.kern) && MachineOk(cfg, m) && |m.kern.list| >= 2
    requires mon < TableSize(cfg) && src < TableSize(cfg) && dst < TableSize(cfg) && pid < cfg.procCnt
    ensures var s := MonitorMove(cfg, m, mon, src, dst).0;
            && Inv(cfg, boot, s)
            && (s.pmp[pid] != m.kern.pmp[pid] || OwnCaps(cfg, s.list, pid) != OwnCaps(cfg, m.kern.list, pid) ==>
                  pid == Pid(cfg, mon) || (Monitors(m.kern.list, mon, pid) && m.procs[pid].state == SUSPENDED))
  {
    hide Inv, Pid, TableSize, Update, Distinct, Monitors;
    StepKeepsInv(cfg, boot, m.kern, MoveCap(src, dst));
    if MonitorMoveCheck(cfg, m, mon, src, dst) == Success && pid != Pid(cfg, src) && pid != Pid(cfg, dst) {
      MoveOwnCaps(cfg, m.kern, src, dst, pid);
    }
  }

  /** What a process's own table holds. */
  ghost function OwnCaps(cfg: Config, l: List, pid: nat): set<(nat, Cap)>
    requires ValidConfig(cfg)
  {
    set n | n in l && n.idx < TableSize(cfg) && Pid(cfg, n.idx) == pid :: (n.idx, n.cap)
  }

  lemma MoveOwnCaps(cfg: Config, s: State, src: nat, dst: nat, pid: nat)
    requires Bounded(cfg, s) && src < TableSize(cfg) && dst < TableSize(cfg)
    requires pid < cfg.procCnt && pid != Pid(cfg, src) && pid != Pid(cfg, dst)
    ensures var r := Move(cfg, s, src, dst).0; r.pmp[pid] == s.pmp[pid] && OwnCaps(cfg, r.list, pid) == OwnCaps(cfg, s.list, pid)
  {
    var p := Pos(s.list, src);
    var r := Move(cfg, s, src, dst).0;
    hide Pid, TableSize, Update;
    if p < |s.list| && r != s {
      assert r.list == s.list[p := r.list[p]] && r.list[p].idx == dst;
      forall n: Node | n.idx < TableSize(cfg) && Pid(cfg, n.idx) == pid ensures n in r.list <==> n in s.list {
        if n in s.list {
          var i: nat :| i < |s.list| && s.list[i] == n;
          assert i != p && r.list[i] == n;
        }
        if n in r.list {
          var i: nat :| i < |r.list| && r.list[i] == n;
          assert i != p && s.list[i] == n;
        }
      }
    }
  }
}
