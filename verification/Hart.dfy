/** Process states and IPC calls on the process table in memory. Each method does what its
    specification function says. */
module Hart {
  import opened Capability
  import opened CapList
  import opened Schedule
  import opened CapOps
  import opened Kernel
  import opened Process
  import opened Traps
  import opened CapTable
  import opened Authority
  import opened Derivations
  import opened CapCalls
  import opened SystemRuns

  lemma MoveNothing(cfg: Config, s: State, src: nat, dst: nat)
    requires Bounded(cfg, s) && src < TableSize(cfg) && dst < TableSize(cfg)
    ensures Pos(s.list, src) == |s.list| ==> Move(cfg, s, src, dst) == (s, SrcEmpty)
  {
  }

  /** Two different listed entries. */
  lemma TwoListed(l: List, a: nat, b: nat)
    ensures a != b && Pos(l, a) < |l| && Pos(l, b) < |l| ==> |l| >= 2
  {
  }

  lemma ChannelCount(cfg: Config, s: State)
    requires Bounded(cfg, s)
    ensures |s.chans| == cfg.chanCnt
  {
  }

  /** Why a process traps: a monitor or message call or sleep, a capability call, a system call
      that finds the kernel preempted on entry, a timer interrupt, or a fault. */
  datatype Cause = Message(call: Call) | Tables(cap: CapCall) | Early | Timer | Fault

  /** `t` is the trap that a capability call makes: some effect the call may have. */
  ghost predicate IsCapCall(cfg: Config, boot: seq<Cap>, m: Machine, c: CapCall, t: Trap)
    requires Inv(cfg, boot, m.kern) && MachineOk(cfg, m) && CapCallOk(cfg, boot, m.kern, c)
  {
    exists kern, err :: t == Syscall(Capability(kern, Code(err))) && Effect(cfg, boot, m, c, kern, err)
  }

  /** `t` is a trap with this cause. */
  ghost predicate Causes(cfg: Config, boot: seq<Cap>, m: Machine, cause: Cause, t: Trap)
    requires Inv(cfg, boot, m.kern) && MachineOk(cfg, m)
    requires cause.Tables? ==> CapCallOk(cfg, boot, m.kern, cause.cap)
  {
    match cause
    case Message(call) => t == Syscall(call)
    case Tables(c) => IsCapCall(cfg, boot, m, c, t)
    case Early => t == PreemptedCall
    case Timer => t == Interrupt
    case Fault => t == Exception
  }

  class Cpu {
    const sys: System
    const procs: array<Proc>

    ghost predicate Shaped()
      reads this, procs, sys, sys.table, sys.table.prv, sys.table.nxt, sys.table.cap, sys.sched.slots, sys.regs, sys.regs.cfgs, sys.regs.addrs
    {
      && sys.Valid() && procs.Length == sys.cfg.procCnt
      && procs as object != sys.sched.slots && procs as object != sys.table.prv
      && procs as object != sys.table.nxt && procs as object != sys.table.cap
    }

    ghost function Abs(): Machine
      reads this, procs, sys, sys.table, sys.sched.slots, sys.regs
    {
      Machine(sys.Abs(), procs[..])
    }

    ghost predicate Valid()
      reads this, procs, sys, sys.table, sys.table.prv, sys.table.nxt, sys.table.cap, sys.sched.slots, sys.regs, sys.regs.cfgs, sys.regs.addrs
    {
      Shaped() && MachineOk(sys.cfg, Abs())
    }

    constructor (sys: System)
      requires sys.Valid()
      ensures this.sys == sys && Shaped() && fresh(procs)
      ensures forall p: nat :: p < procs.Length ==> procs[p].state == if p == 0 then READY else SUSPENDED
    {
      this.sys := sys;
      procs := new Proc[sys.cfg.procCnt](i =>
        Proc(if i == 0 then READY else SUSPENDED, 0, Ok, Inbox(0, None, []), 0));
    }

    // ----- state words -----

    /** proc_acquire. */
    method ProcAcquire(pid: nat, now: nat) returns (ok: bool)
      requires pid < procs.Length
      modifies procs
      ensures ok == CanAcquire(old(procs[pid]), now)
      ensures procs[..] == if ok then old(procs[..])[pid := Acquire(old(procs[pid]))] else old(procs[..])
    {
      var s := procs[pid].state;
      if s.busy || s.suspended { return false; }
      if now < procs[pid].timeout { return false; }
      procs[pid] := procs[pid].(state := BUSY);
      return true;
    }

    /** proc_release, with its assertion. */
    method ProcRelease(pid: nat)
      requires pid < procs.Length && procs[pid].state.busy
      modifies procs
      ensures procs[..] == old(procs[..])[pid := Release(old(procs[pid]))]
    {
      procs[pid] := procs[pid].(state := procs[pid].state.(busy := false));
    }

    /** proc_suspend. */
    method ProcSuspend(pid: nat)
      requires pid < procs.Length
      modifies procs
      ensures procs[..] == old(procs[..])[pid := Suspend(old(procs[pid]))]
    {
      var prev := procs[pid].state;
      procs[pid] := procs[pid].(state := prev.(suspended := true));
      if prev.blocked {
        procs[pid] := procs[pid].(state := SUSPENDED);
        procs[pid] := procs[pid].(result := ErrSuspended);
      }
    }

    /** proc_resume. */
    method ProcResume(pid: nat)
      requires pid < procs.Length
      modifies procs
      ensures procs[..] == old(procs[..])[pid := Resume(old(procs[pid]))]
    {
      if procs[pid].state == SUSPENDED {
        procs[pid] := procs[pid].(timeout := 0);
      }
      procs[pid] := procs[pid].(state := procs[pid].state.(suspended := false));
    }

    /** proc_ipc_wait, with its assertion. */
    method ProcIpcWait(pid: nat, chan: nat)
      requires pid < procs.Length && procs[pid].state == BUSY
      modifies procs
      ensures procs[..] == old(procs[..])[pid := IpcWait(old(procs[pid]), chan)]
    {
      procs[pid] := procs[pid].(state := PState(true, true, false, chan));
    }

    /** proc_ipc_acquire. */
    method ProcIpcAcquire(pid: nat, chan: nat, now: nat) returns (ok: bool)
      requires pid < procs.Length
      modifies procs
      ensures ok == CanIpcAcquire(old(procs[pid]), chan, now)
      ensures procs[..] == if ok then old(procs[..])[pid := Acquire(old(procs[pid]))] else old(procs[..])
    {
      if procs[pid].state != Waiting(chan) { return false; }
      if now >= procs[pid].timeout { return false; }
      procs[pid] := procs[pid].(state := BUSY);
      return true;
    }

    // ----- sending and receiving -----

    /** do_send. */
    method DoSendMsg(cur: nat, c: Cap, msg: Msg, clk: Clock) returns (err: Result, next: nat)
      requires Valid() && cur < procs.Length && SocketOk(sys.cfg, c) && msg.buf < TableSize(sys.cfg)
      requires procs[cur].state.busy && (msg.sendCap && Pos(sys.table.list, msg.buf) < |sys.table.list| ==> |sys.table.list| >= 2)
      modifies procs, sys`chans, sys.regs`view, sys.regs.cfgs, sys.table`list, sys.table.prv, sys.table.nxt, sys.table.cap, sys.sched.slots
      ensures Shaped()
      ensures var o := DoSend(sys.cfg, old(Abs()), cur, c, msg, clk);
              o.m == Abs() && o.err == err && o.next == Some(next)
    {
      hide TableSize, CapOk, Sound, Deliver, Linked, Occupied;
      ghost var m := Abs();
      assert ChanOk(sys.cfg, m.kern.chans[c.chan]);
      var capBuf := sys.chans[c.chan].capBuf;
      if clk.now >= clk.limit { return ErrPreempted, cur; }
      var to;
      if c.tok == 0 {
        if sys.chans[c.chan].client.Nothing? { return ErrNoReceiver, cur; }
        to := sys.chans[c.chan].client.value;
        sys.SetChannel(c.chan, sys.chans[c.chan].(client := Nothing));
      } else {
        if sys.chans[c.chan].server.Nothing? { return ErrNoReceiver, cur; }
        to := sys.chans[c.chan].server.value;
        if c.mode == YIELD && Add64(clk.now, procs[to].servTime) >= clk.limit { return ErrNoReceiver, cur; }
      }
      assert Abs() == Addressed(m, c);
      var ok := ProcIpcAcquire(to, c.chan, clk.later);
      if !ok { return ErrNoReceiver, cur; }
      next := DeliverMsg(cur, c, msg, to, capBuf.value);
      return Ok, next;
    }

    /** The part of do_send after the receiver was acquired. */
    method DeliverMsg(cur: nat, c: Cap, msg: Msg, to: nat, buf: nat) returns (next: nat)
      requires Shaped() && cur < procs.Length && to < procs.Length && cur != to && procs[to].state == BUSY
      requires msg.buf < TableSize(sys.cfg) && buf < TableSize(sys.cfg) && SocketOk(sys.cfg, c)
      requires msg.sendCap && Pos(sys.table.list, msg.buf) < |sys.table.list| ==> |sys.table.list| >= 2
      modifies procs, sys.regs`view, sys.regs.cfgs, sys.table`list, sys.table.prv, sys.table.nxt, sys.table.cap, sys.sched.slots
      ensures Shaped() && (Abs(), next) == Deliver(sys.cfg, old(Abs()), cur, c, msg, to, buf)
    {
      hide TableSize, Bounded, Move, Linked, Occupied, Distinct;
      var sent := MoveAlong(msg, buf);
      procs[to] := procs[to].(result := Ok, inbox := Inbox(c.tok, sent, msg.data));
      if c.mode == YIELD {
        procs[to] := procs[to].(timeout := procs[cur].timeout);
        assert procs[..] == old(procs[..])[to := procs[to]];
        return to;
      }
      procs[to] := procs[to].(timeout := 0);
      ProcRelease(to);
      assert procs[..] == old(procs[..])[to := procs[to]];
      return cur;
    }

    /** The capability that goes along with a message. */
    method MoveAlong(msg: Msg, buf: nat) returns (sent: Cap)
      requires Shaped() && msg.buf < TableSize(sys.cfg) && buf < TableSize(sys.cfg)
      requires msg.sendCap && Pos(sys.table.list, msg.buf) < |sys.table.list| ==> |sys.table.list| >= 2
      modifies sys.regs`view, sys.regs.cfgs, sys.table`list, sys.table.prv, sys.table.nxt, sys.table.cap, sys.sched.slots
      ensures Shaped() && procs[..] == old(procs[..])
      ensures sent == if msg.sendCap then CapAt(old(sys.table.list), msg.buf) else None
      ensures sys.Abs() == if msg.sendCap then Move(sys.cfg, old(sys.Abs()), msg.buf, buf).0 else old(sys.Abs())
    {
      MoveNothing(sys.cfg, sys.Abs(), msg.buf, buf);
      hide TableSize, Bounded, Move, Linked, Occupied, Distinct;
      sent := None;
      if msg.sendCap {
        sent := sys.table.Get(msg.buf);
        var moved := sys.CapMove(msg.buf, buf);
      }
    }

    /** do_recv. */
    method DoRecvMsg(c: Cap, buf: nat, pid: nat)
      requires Shaped() && c.Socket? && c.chan < |sys.chans| && pid < procs.Length && procs[pid].state == BUSY
      modifies procs, sys`chans
      ensures Shaped() && Abs() == DoRecv(old(Abs()), c, buf, pid)
    {
      hide Bounded, Linked, Occupied, Distinct;
      if c.tok == 0 {
        sys.SetChannel(c.chan, sys.chans[c.chan].(server := Some(pid)));
        sys.SetChannel(c.chan, sys.chans[c.chan].(capBuf := Some(buf)));
        procs[pid] := procs[pid].(timeout := NEVER);
        ProcIpcWait(pid, c.chan);
      } else {
        sys.SetChannel(c.chan, sys.chans[c.chan].(client := Some(pid)));
        sys.SetChannel(c.chan, sys.chans[c.chan].(capBuf := Some(buf)));
        if c.mode == NOYIELD {
          procs[pid] := procs[pid].(timeout := NEVER);
        }
        ProcIpcWait(pid, c.chan);
      }
    }

    /** cap_sock_send. */
    method CapSockSend(cur: nat, sock: nat, msg: Msg, clk: Clock) returns (err: Result, next: Option<nat>)
      requires Valid() && cur < procs.Length && sock < TableSize(sys.cfg) && msg.buf < TableSize(sys.cfg)
      requires procs[cur].state.busy && (CapAt(sys.table.list, sock).Socket? && msg.sendCap && msg.buf == sock ==> |sys.table.list| >= 2)
      modifies procs, sys`chans, sys.regs`view, sys.regs.cfgs, sys.table`list, sys.table.prv, sys.table.nxt, sys.table.cap, sys.sched.slots
      ensures Shaped()
      ensures var o := SockSend(sys.cfg, old(Abs()), cur, sock, msg, clk); o.m == Abs() && o.err == err && o.next == next
    {
      hide TableSize, Bounded, DoSend, Linked, Occupied, Distinct;
      SocketInRange(sys.cfg, Abs(), sock);
      TwoListed(sys.table.list, sock, msg.buf);
      var c := sys.table.Get(sock);
      if c.None? { return ErrEmpty, Some(cur); }
      if !c.Socket? { return ErrInvalidSocket, Some(cur); }
      if procs[cur].state.suspended { return ErrPreempted, Nothing; }
      if MayNotSendCap(c, msg) { return ErrInvalidSocket, Some(cur); }
      var n;
      err, n := DoSendMsg(cur, c, msg, clk);
      next := Some(n);
    }

    /** cap_sock_recv. */
    method CapSockRecv(cur: nat, sock: nat, buf: nat, now: nat) returns (err: Result, next: Option<nat>)
      requires Valid() && OneBusy(Abs(), cur) && sock < TableSize(sys.cfg) && buf < TableSize(sys.cfg)
      modifies procs, sys`chans
      ensures Shaped()
      ensures var o := SockRecv(sys.cfg, old(Abs()), cur, sock, buf, now); o.m == Abs() && o.err == err && o.next == next
    {
      hide TableSize, CapOk, Linked, Occupied, Distinct;
      SocketInRange(sys.cfg, Abs(), sock);
      var c := sys.table.Get(sock);
      var b := sys.table.Get(buf);
      if c.None? { return ErrEmpty, Some(cur); }
      if !c.Socket? { return ErrInvalidCapability, Some(cur); }
      assert ChanOk(sys.cfg, sys.chans[c.chan]);
      if c.perm & CCAP != 0 && !b.None? { return ErrDstOccupied, Some(cur); }
      if procs[cur].state.suspended { return ErrPreempted, Nothing; }
      if c.tok == 0 {
        DoRecvMsg(c, buf, cur);
        return ErrTimeout, Nothing;
      }
      if sys.chans[c.chan].client != Some(cur) { return ErrInvalidState, Some(cur); }
      var n := ClientRecv(cur, c, buf, now);
      return ErrTimeout, Some(n);
    }

    /** A waiting client gives its time to the server if it can be run. */
    method ClientRecv(cur: nat, c: Cap, buf: nat, now: nat) returns (next: nat)
      requires Shaped() && cur < procs.Length && procs[cur].state == BUSY && c.Socket? && c.chan < |sys.chans|
      requires sys.chans[c.chan].server.Some? ==> sys.chans[c.chan].server.value < procs.Length
      modifies procs, sys`chans
      ensures Shaped()
      ensures (Abs(), next) == ClientRecvOut(old(Abs()), cur, c, buf, now)
    {
      hide Bounded, Linked, Occupied, Distinct;
      var server := sys.chans[c.chan].server;
      if server.Some? && c.mode == YIELD {
        var ok := ProcAcquire(server.value, now);
        if ok {
          ProcIpcWait(cur, c.chan);
          sys.SetChannel(c.chan, sys.chans[c.chan].(capBuf := Some(buf)));
          procs[server.value] := procs[server.value].(timeout := procs[cur].timeout);
          assert server.value != cur;
          assert procs[..] == ClientRecvOut(old(Abs()), cur, c, buf, now).0.procs;
          return server.value;
        }
      }
      return cur;
    }

    /** cap_sock_sendrecv: replyrecv for a server, call for a client. */
    method CapSockSendRecv(cur: nat, sock: nat, msg: Msg, clk: Clock) returns (err: Result, next: Option<nat>)
      requires Valid() && OneBusy(Abs(), cur) && sock < TableSize(sys.cfg) && msg.buf < TableSize(sys.cfg)
      requires CapAt(sys.table.list, sock).Socket? && msg.sendCap && msg.buf == sock ==> |sys.table.list| >= 2
      modifies procs, sys`chans, sys.regs`view, sys.regs.cfgs, sys.table`list, sys.table.prv, sys.table.nxt, sys.table.cap, sys.sched.slots
      ensures Shaped()
      ensures var o := SockSendRecv(sys.cfg, old(Abs()), cur, sock, msg, clk); o.m == Abs() && o.err == err && o.next == next
    {
      hide TableSize, Bounded, DoSend, Delete, Linked, Occupied, Distinct;
      SocketInRange(sys.cfg, Abs(), sock);
      TwoListed(sys.table.list, sock, msg.buf);
      var c := sys.table.Get(sock);
      var b := sys.table.Get(msg.buf);
      if c.None? { return ErrEmpty, Some(cur); }
      if !c.Socket? { return ErrInvalidCapability, Some(cur); }
      if procs[cur].state.suspended { return ErrPreempted, Nothing; }
      if MayNotSendCap(c, msg) { return ErrInvalidSocket, Some(cur); }
      if c.perm & (if c.tok == 0 then CCAP else SCAP) != 0 && !b.None? && !msg.sendCap {
        return ErrDstOccupied, Some(cur);
      }
      err, next := SendThenRecv(cur, c, msg, clk);
    }

    /** Both ways of sending and then waiting for an answer. */
    method SendThenRecv(cur: nat, c: Cap, msg: Msg, clk: Clock) returns (err: Result, next: Option<nat>)
      requires Valid() && OneBusy(Abs(), cur) && procs[cur].state == BUSY
      requires SocketOk(sys.cfg, c) && msg.buf < TableSize(sys.cfg)
      requires msg.sendCap && Pos(sys.table.list, msg.buf) < |sys.table.list| ==> |sys.table.list| >= 2
      modifies procs, sys`chans, sys.regs`view, sys.regs.cfgs, sys.table`list, sys.table.prv, sys.table.nxt, sys.table.cap, sys.sched.slots
      ensures Shaped()
      ensures var o := SendRecvOut(sys.cfg, old(Abs()), cur, c, msg, clk); o.m == Abs() && o.err == err && o.next == next
    {
      hide TableSize, Bounded, DoSend, Delete, Linked, Occupied, Distinct;
      SendKeepsOthers(sys.cfg, Abs(), cur, c, msg, clk);
      var n;
      err, n := DoSendMsg(cur, c, msg, clk);
      if c.tok == 0 {
        if err == ErrPreempted { return err, Nothing; }
        if err == ErrNoReceiver && msg.sendCap {
          var deleted := sys.CapDelete(msg.buf);
        }
      } else if err != Ok {
        return err, Some(n);
      }
      ChannelCount(sys.cfg, sys.Abs());
      DoRecvMsg(c, msg.buf, cur);
      return ErrTimeout, if n == cur then Nothing else Some(n);
    }

    // ----- monitor calls and the scheduler -----

    /** check_monitor, without its test for suspension. */
    method CheckMonitor(mon: nat, pid: nat) returns (ok: bool)
      requires Shaped() && mon < TableSize(sys.cfg)
      ensures ok == Monitors(sys.table.list, mon, pid)
    {
      var c := sys.table.Get(mon);
      ok := c.Monitor? && c.mrk <= pid < c.end;
    }

    /** cap_monitor_suspend, cap_monitor_resume and cap_monitor_yield. */
    method MonitorCall(cur: nat, call: Call) returns (err: Result, next: nat)
      requires Valid() && OneBusy(Abs(), cur)
      requires call.MonSuspend? || call.MonResume? || call.MonYield?
      requires call.mon < TableSize(sys.cfg) && call.pid < procs.Length
      modifies procs
      ensures Shaped()
      ensures var o := Handle(sys.cfg, old(Abs()), cur, call); o.m == Abs() && o.err == err && o.next == Some(next)
    {
      var ok := CheckMonitor(call.mon, call.pid);
      if !ok { return ErrInvalidMonitor, cur; }
      if call.MonSuspend? {
        ProcSuspend(call.pid);
        return Ok, cur;
      }
      if call.MonResume? {
        ProcResume(call.pid);
        return Ok, cur;
      }
      var got := ProcAcquire(call.pid, call.now);
      if got { return Ok, call.pid; }
      return ErrInvalidState, cur;
    }

    /** sched_fetch: one attempt of the scheduler's loop. On a multicore build another hart may
        have priority for the slot's owner. */
    method SchedFetch(k: Pick) returns (next: Option<nat>)
      requires Valid() && HartOk(sys.cfg, k.hart)
      requires var e := At(sys.cfg, sys.sched.slots[..], k.hart, k.slot % sys.cfg.slotCnt);
               EntryLen(e) != 0 ==> EntryPid(e) < procs.Length
      modifies procs
      ensures Shaped()
      ensures next.Some? <==> PickOk(sys.cfg, old(Abs()), k)
      ensures next.Some? ==> Abs() == Fetch(sys.cfg, old(Abs()), k).m && next == Fetch(sys.cfg, old(Abs()), k).next
      ensures next.Nothing? ==> Abs() == old(Abs())
    {
      hide At, EntryPid, EntryLen, TieLost, Bounded, Linked, Occupied, Distinct;
      var pid, length := sys.sched.SlotInfoGet(k.hart, k.slot);
      if length == 0 { return Nothing; }
      if sys.cfg.smp {
        var lost := sys.sched.LosesTie(k.hart, k.slot, pid, length);
        if lost { return Nothing; }
      }
      var ok := ProcAcquire(pid, k.now);
      if !ok { return Nothing; }
      procs[pid] := procs[pid].(timeout := SliceEnd(sys.cfg, k.slot, length));
      return Some(pid);
    }

    // ----- monitors and the tables of suspended processes -----

    /** check_monitor with its test for suspension. */
    method CheckSuspended(mon: nat, pid: nat) returns (err: Err)
      requires Shaped() && mon < TableSize(sys.cfg) && pid < procs.Length
      ensures err == MonitorCheck(Abs(), mon, pid)
    {
      var ok := CheckMonitor(mon, pid);
      if !ok { return InvalidMonitor; }
      if procs[pid].state != SUSPENDED { return InvalidState; }
      return Success;
    }

    /** cap_monitor_cap_move, with check_monitor_move. */
    method MonitorCapMove(mon: nat, src: nat, dst: nat) returns (err: Err)
      requires Valid() && mon < TableSize(sys.cfg) && src < TableSize(sys.cfg) && dst < TableSize(sys.cfg)
      modifies sys.regs`view, sys.regs.cfgs, sys.table`list, sys.table.prv, sys.table.nxt, sys.table.cap, sys.sched.slots
      ensures procs[..] == old(procs[..])
      ensures (sys.Abs(), err) == MonitorMove(sys.cfg, old(Abs()), mon, src, dst)
      ensures Shaped() <==> |old(sys.table.list)| >= 2 || err != Success
    {
      hide Pid, TableSize, Bounded, Move, Linked, Occupied, Distinct, Monitors;
      var own, from, to := Pid(sys.cfg, mon), Pid(sys.cfg, src), Pid(sys.cfg, dst);
      if own != from {
        err := CheckSuspended(mon, from);
        if err != Success { return; }
      }
      if own != to {
        err := CheckSuspended(mon, to);
        if err != Success { return; }
      }
      err := sys.CapMove(src, dst);
    }

    /** cap_monitor_pmp_load. */
    method MonitorPmpLoad(mon: nat, idx: nat, slot: nat) returns (err: Err)
      requires Valid() && mon < TableSize(sys.cfg) && idx < TableSize(sys.cfg) && slot < sys.cfg.pmpCnt
      modifies sys.regs`view, sys.regs.cfgs, sys.regs.addrs, sys.table`list, sys.table.cap
      ensures Shaped() && procs[..] == old(procs[..])
      ensures (sys.Abs(), err) == MonitorLoad(sys.cfg, old(Abs()), mon, idx, slot)
    {
      hide Pid, TableSize, Bounded, PmpLoad, Linked, Occupied, Distinct, Monitors;
      err := CheckSuspended(mon, Pid(sys.cfg, idx));
      if err == Success { err := sys.CapPmpLoad(idx, slot); }
    }

    /** cap_monitor_pmp_unload. */
    method MonitorPmpUnload(mon: nat, idx: nat) returns (err: Err)
      requires Valid() && mon < TableSize(sys.cfg) && idx < TableSize(sys.cfg)
      modifies sys.regs`view, sys.regs.cfgs, sys.table`list, sys.table.cap
      ensures Shaped() && procs[..] == old(procs[..])
      ensures (sys.Abs(), err) == MonitorUnload(sys.cfg, old(Abs()), mon, idx)
    {
      hide Pid, TableSize, Bounded, PmpUnload, Linked, Occupied, Distinct, Monitors;
      err := CheckSuspended(mon, Pid(sys.cfg, idx));
      if err == Success { err := sys.CapPmpUnload(idx); }
    }

    // ----- traps -----

    /** sched: try the scheduler's choice at one clock reading after the other. `picks` are the
        readings; the loop ends at the first that finds a process. */
    method Sched(picks: seq<Pick>, ghost boot: seq<Cap>) returns (next: Option<nat>, ghost i: nat)
      requires Valid() && Inv(sys.cfg, boot, sys.Abs())
      requires forall j: nat :: j < |picks| ==> HartOk(sys.cfg, picks[j].hart)
      modifies procs
      ensures Shaped() && i <= |picks|
      ensures next.Some? <==> i < |picks|
      ensures forall j: nat :: j < i ==> !PickOk(sys.cfg, old(Abs()), picks[j])
      ensures i < |picks| ==>
                && PickOk(sys.cfg, old(Abs()), picks[i])
                && Abs() == Fetch(sys.cfg, old(Abs()), picks[i]).m && next == Fetch(sys.cfg, old(Abs()), picks[i]).next
      ensures i == |picks| ==> Abs() == old(Abs())
    {
      hide Inv, PickOk, Fetch, Bounded, Linked, Occupied, Distinct;
      i := 0;
      var k := 0;
      while k < |picks|
        invariant k == i <= |picks| && Valid() && Abs() == old(Abs())
        invariant forall j: nat :: j < i ==> !PickOk(sys.cfg, old(Abs()), picks[j])
      {
        var r := picks[k];
        LaneInRange(sys.cfg, boot, sys.Abs(), r.hart, r.slot % sys.cfg.slotCnt);
        next := SchedFetch(r);
        if next.Some? { return; }
        k := k + 1;
        i := i + 1;
      }
      next := Nothing;
    }

    /** The tail of trap_handler: stay, or release the old process and run the given one or the
        scheduler's choice. */
    method Switch(cur: nat, chosen: Option<nat>, picks: seq<Pick>, ghost boot: seq<Cap>) returns (next: Option<nat>, ghost i: nat)
      requires Valid() && Inv(sys.cfg, boot, sys.Abs()) && cur < procs.Length && procs[cur].state.busy
      requires forall j: nat :: j < |picks| ==> HartOk(sys.cfg, picks[j].hart)
      modifies procs
      ensures Shaped() && i <= |picks|
      ensures chosen == Some(cur) ==> next == chosen && Abs() == old(Abs())
      ensures chosen != Some(cur) ==>
                var m := SetProc(old(Abs()), cur, Release(old(procs[cur])));
                && MachineOk(sys.cfg, m)
                && if chosen.Some? then next == chosen && Abs() == m
                   else
                     && (next.Some? <==> i < |picks|)
                     && (i < |picks| ==> PickOk(sys.cfg, m, picks[i]) && Abs() == Fetch(sys.cfg, m, picks[i]).m
                                         && next == Fetch(sys.cfg, m, picks[i]).next)
    {
      hide Inv, PickOk, Fetch, Bounded, Linked, Occupied, Distinct;
      i := 0;
      if chosen == Some(cur) { return chosen, 0; }
      ProcRelease(cur);
      if chosen.Some? { return chosen, 0; }
      next, i := Sched(picks, boot);
    }

    /** The handler of a system call that is not a capability call, with the result register. */
    method SystemCall(cur: nat, call: Call) returns (next: Option<nat>)
      requires Valid() && OneBusy(Abs(), cur) && CallOk(sys.cfg, Abs(), call) && CallInRange(call) && !call.Capability?
      requires SendsOther(call)
      modifies procs, sys`chans, sys.regs`view, sys.regs.cfgs, sys.table`list, sys.table.prv, sys.table.nxt, sys.table.cap, sys.sched.slots
      ensures Shaped()
      ensures var o := Handled(sys.cfg, old(Abs()), cur, Syscall(call)); o.m == Abs() && o.next == next
    {
      hide TableSize, Bounded, Linked, Occupied, Distinct, SockSend, SockRecv, SockSendRecv, Monitors;
      ghost var o := Handled(sys.cfg, Abs(), cur, Syscall(call));
      var err;
      if call.Send? {
        err, next := CapSockSend(cur, call.sock, call.msg, call.clk);
      } else if call.Recv? {
        err, next := CapSockRecv(cur, call.sock, call.buf, call.now);
      } else if call.SendRecv? {
        err, next := CapSockSendRecv(cur, call.sock, call.msg, call.clk);
      } else if call.Sleep? {
        if call.time != 0 { procs[cur] := procs[cur].(timeout := call.time); }
        err, next := Ok, Nothing;
      } else {
        var n;
        err, n := MonitorCall(cur, call);
        next := Some(n);
      }
      procs[cur] := procs[cur].(result := err);
      assert procs[..] == o.m.procs;
    }

    /** A call does not send the very socket it sends through if that is the only entry. */
    ghost predicate SendsOther(call: Call) reads this, sys, sys.table {
      (call.Send? || call.SendRecv?) && CapAt(sys.table.list, call.sock).Socket? && call.msg.sendCap && call.msg.buf == call.sock ==>
        |sys.table.list| >= 2
    }

    lemma SendsOtherUnderInv(boot: seq<Cap>, call: Call)
      requires Inv(sys.cfg, boot, sys.Abs())
      ensures SendsOther(call)
    {
      if (call.Send? || call.SendRecv?) && CapAt(sys.table.list, call.sock).Socket? {
        SocketNotAlone(sys.cfg, boot, sys.Abs(), call.sock);
      }
    }

    /** The table indices a call names are checked before its handler runs. */
    predicate CallInRange(call: Call) reads this, sys {
      match call
      case MonSuspend(mon, _) => mon < TableSize(sys.cfg)
      case MonResume(mon, _) => mon < TableSize(sys.cfg)
      case MonYield(mon, _, _) => mon < TableSize(sys.cfg)
      case Send(sock, _, _) => sock < TableSize(sys.cfg)
      case Recv(sock, _, _) => sock < TableSize(sys.cfg)
      case SendRecv(sock, _, _) => sock < TableSize(sys.cfg)
      case _ => true
    }

    /** The handler of a capability call, with the result register: some effect the call may have. */
    method CapabilityCall(cur: nat, c: CapCall, ghost boot: seq<Cap>) returns (next: Option<nat>, ghost t: Trap)
      requires Valid() && OneBusy(Abs(), cur) && Inv(sys.cfg, boot, sys.Abs()) && CapCallOk(sys.cfg, boot, sys.Abs(), c)
      modifies procs, sys`chans, sys.regs`view, sys.regs.cfgs, sys.regs.addrs, sys.table`list, sys.table.prv, sys.table.nxt, sys.table.cap, sys.sched.slots
      ensures Shaped() && IsCapCall(sys.cfg, boot, old(Abs()), c, t)
      ensures CallOk(sys.cfg, old(Abs()), t.call) && Faithful(sys.cfg, boot, old(Abs()), cur, t)
      ensures var o := Handled(sys.cfg, old(Abs()), cur, t); o.m == Abs() && o.next == next
    {
      hide Inv, Bounded, Linked, Occupied, Distinct, CapCallOk, Effect;
      ghost var m := Abs();
      var err := Dispatch(c, boot);
      t := Syscall(Capability(sys.Abs(), Code(err)));
      CallAdmitted(sys.cfg, boot, m, cur, c, sys.Abs(), err);
      procs[cur] := procs[cur].(result := Code(err));
      next := if Code(err) == ErrPreempted then Nothing else Some(cur);
      assert procs[..] == m.procs[cur := m.procs[cur].(result := Code(err))];
    }

    /** The system-call table's capability part. */
    method Dispatch(c: CapCall, ghost boot: seq<Cap>) returns (err: Err)
      requires Valid() && Inv(sys.cfg, boot, sys.Abs()) && CapCallOk(sys.cfg, boot, sys.Abs(), c)
      modifies sys`chans, sys.regs`view, sys.regs.cfgs, sys.regs.addrs, sys.table`list, sys.table.prv, sys.table.nxt, sys.table.cap, sys.sched.slots
      ensures Shaped() && procs[..] == old(procs[..])
      ensures Effect(sys.cfg, boot, old(Abs()), c, sys.Abs(), err)
    {
      hide Bounded, Linked, Occupied, Distinct, ListInv, ScheduleAgrees, RegistersAgree, BootOk, AnchorSafe, TableSize, Move,
           Delete, Derive, PmpLoad, PmpUnload, MonitorMove, MonitorLoad, MonitorUnload;
      match c {
        case CallMove(src, dst) => err := sys.CapMove(src, dst);
        case CallDelete(idx) => err := sys.CapDelete(idx);
        case CallRevoke(idx) => err := sys.CapRevoke(idx, boot);
        case CallDerive(src, dst, ncap) => err := sys.CapDerive(src, dst, ncap);
        case CallLoad(idx, slot) => err := sys.CapPmpLoad(idx, slot);
        case CallUnload(idx) => err := sys.CapPmpUnload(idx);
        case CallMonMove(mon, src, dst) => err := MonitorCapMove(mon, src, dst);
        case CallMonLoad(mon, idx, slot) => err := MonitorPmpLoad(mon, idx, slot);
        case CallMonUnload(mon, idx) => err := MonitorPmpUnload(mon, idx);
      }
    }

    /** What a trap is called with: system calls with their arguments in range, and the premises of
        the run model. */
    ghost predicate CauseOk(boot: seq<Cap>, cur: nat, cause: Cause)
      requires Valid() && OneBusy(Abs(), cur)
      reads this, procs, sys, sys.table, sys.table.prv, sys.table.nxt, sys.table.cap, sys.sched.slots, sys.regs, sys.regs.cfgs, sys.regs.addrs
    {
      match cause
      case Message(call) =>
        && CallOk(sys.cfg, Abs(), call) && CallInRange(call) && !call.Capability?
        && Faithful(sys.cfg, boot, Abs(), cur, Syscall(call))
      case Tables(c) => CapCallOk(sys.cfg, boot, sys.Abs(), c)
      case _ => true
    }

    /** trap_handler, syscall_handler and interrupt_handler: one step of the trap model that the
        cause allows, with the invariant kept and the returned process the only busy one. `picks`
        are the scheduler's clock readings; without one that finds a process it would go on. */
    method TrapHandler(cur: nat, cause: Cause, picks: seq<Pick>, ghost boot: seq<Cap>)
      returns (next: Option<nat>, ghost t: Trap, ghost k: Pick, ghost ev: seq<Event>)
      requires Valid() && OneBusy(Abs(), cur) && Inv(sys.cfg, boot, sys.Abs()) && CauseOk(boot, cur, cause)
      requires forall j: nat :: j < |picks| ==> HartOk(sys.cfg, picks[j].hart)
      modifies procs, sys`chans, sys.regs`view, sys.regs.cfgs, sys.regs.addrs, sys.table`list, sys.table.prv, sys.table.nxt, sys.table.cap, sys.sched.slots
      ensures Shaped()
      ensures next.Some? ==>
                && Causes(sys.cfg, boot, old(Abs()), cause, t)
                && TrapStep(sys.cfg, old(Abs()), cur, t, k, Abs(), next.value, ev)
                && Valid() && Inv(sys.cfg, boot, sys.Abs()) && OneBusy(Abs(), next.value)
    {
      hide Inv, PickOk, Fetch, Bounded, Linked, Occupied, Distinct, Handle, TableSize, CallInRange, Faithful, CapCallOk,
           Effect;
      ghost var m := Abs();
      var chosen: Option<nat> := Nothing;
      if cause.Message? {
        t := Syscall(cause.call);
        SendsOtherUnderInv(boot, cause.call);
        chosen := SystemCall(cur, cause.call);
      } else if cause.Tables? {
        chosen, t := CapabilityCall(cur, cause.cap, boot);
      } else if cause.Fault? {
        t := Exception;
        chosen := Some(cur);
      } else {
        t := if cause.Early? then PreemptedCall else Interrupt;
      }
      ghost var o := Handled(sys.cfg, m, cur, t);
      assert Abs() == o.m && chosen == o.next;
      if t.Syscall? { HandleKeepsInv(sys.cfg, boot, m, cur, t.call); } else { PlainFaithful(sys.cfg, boot, m, cur, t); }
      ghost var i;
      next, i := Switch(cur, chosen, picks, boot);
      k, ev := Pick(0, 0, 0), [];
      if next.Some? {
        if i < |picks| { k := picks[i]; }
        ev := if chosen.Some? then o.ev else o.ev + [Woken(next.value)];
        assert TrapStep(sys.cfg, m, cur, t, k, Abs(), next.value, ev) by { Woke(sys.cfg, m, cur, t, k, chosen); }
        TrapKeepsOneBusy(sys.cfg, m, cur, t, k, Abs(), next.value, ev);
        TrapKeepsInv(sys.cfg, boot, m, cur, t, k, Abs(), next.value, ev);
      }
    }

  }

  /** What the scheduler's choice adds to the log. */
  lemma Woke(cfg: Config, m: Machine, cur: nat, t: Trap, k: Pick, chosen: Option<nat>)
    requires MachineOk(cfg, m) && OneBusy(m, cur) && (t.Syscall? ==> CallOk(cfg, m, t.call))
    requires chosen == Handled(cfg, m, cur, t).next
    ensures var o := Handled(cfg, m, cur, t);
            var m1 := SetProc(o.m, cur, Release(o.m.procs[cur]));
            chosen != Some(cur) && MachineOk(cfg, m1) && PickOk(cfg, m1, k) ==>
              Fetch(cfg, m1, k).next.Some? && Fetch(cfg, m1, k).ev == [Woken(Fetch(cfg, m1, k).next.value)]
  {
  }
}
