/** Whom a monitor call can touch and what it does to that process, and when a process gets to run. */
module Monitoring {
  import opened Capability
  import opened CapList
  import opened Schedule
  import opened CapOps
  import opened Authority
  import opened Process
  import opened Revocation
  import opened Preemption
  import opened Derivations
  import opened Traps
  import opened CapCalls
  import opened SystemRuns

  // ----- suspend, resume, yield -----

  /** A monitor call on process `pid` is refused exactly if the entry holds no monitor capability
      whose free part has that process; refused or not, it touches no other process, and neither
      tables nor registers. */
  lemma MonitorCallReach(cfg: Config, m: Machine, cur: nat, call: Call)
    requires MachineOk(cfg, m) && OneBusy(m, cur) && CallOk(cfg, m, call)
    requires call.MonSuspend? || call.MonResume? || call.MonYield?
    ensures var o := Handle(cfg, m, cur, call);
            var c := CapAt(m.kern.list, call.mon);
            && (o.err == ErrInvalidMonitor <==> !(c.Monitor? && Mark(c) <= call.pid < Hi(c)))
            && (o.err == ErrInvalidMonitor ==> o.m == m && o.next == Some(cur))
            && o.m.kern == m.kern && |o.m.procs| == |m.procs|
            && (forall p: nat :: p < |m.procs| && o.m.procs[p] != m.procs[p] ==>
                  p == call.pid && c.Monitor? && Mark(c) <= p < Hi(c))
  {
  }

  /** A suspended process does not run and gets no message; one that waited stops waiting and finds
      an error code. */
  lemma SuspendEffect(cfg: Config, m: Machine, cur: nat, mon: nat, pid: nat)
    requires MachineOk(cfg, m) && OneBusy(m, cur) && pid < cfg.procCnt
    requires var c := CapAt(m.kern.list, mon); c.Monitor? && Mark(c) <= pid < Hi(c)
    ensures var o := Handle(cfg, m, cur, MonSuspend(mon, pid));
            && o.err == Ok && o.next == Some(cur) && pid < |o.m.procs|
            && (pid == cur ==> o.m.procs[pid].state == PState(true, false, true, 0))
            && (pid != cur ==> o.m.procs[pid].state == PState(false, false, true, 0))
            && o.m.procs[pid].result == (if m.procs[pid].state.blocked then ErrSuspended else m.procs[pid].result)
            && o.m.procs[pid].timeout == m.procs[pid].timeout && o.m.procs[pid].inbox == m.procs[pid].inbox
  {
  }

  /** A resumed process is ready, and may be picked at once; a process that was not suspended and
      the running one only lose the flag. */
  lemma ResumeEffect(cfg: Config, m: Machine, cur: nat, mon: nat, pid: nat)
    requires MachineOk(cfg, m) && OneBusy(m, cur) && pid < cfg.procCnt
    requires var c := CapAt(m.kern.list, mon); c.Monitor? && Mark(c) <= pid < Hi(c)
    ensures var o := Handle(cfg, m, cur, MonResume(mon, pid));
            && o.err == Ok && o.next == Some(cur) && pid < |o.m.procs|
            && (m.procs[pid].state == PState(false, false, true, 0) ==>
                  o.m.procs[pid].state == PState(false, false, false, 0) && o.m.procs[pid].timeout == 0)
            && (m.procs[pid].state != PState(false, false, true, 0) ==>
                  && o.m.procs[pid].timeout == m.procs[pid].timeout && !o.m.procs[pid].state.suspended
                  && o.m.procs[pid].state.busy == m.procs[pid].state.busy
                  && o.m.procs[pid].state.blocked == m.procs[pid].state.blocked
                  && o.m.procs[pid].state.chan == m.procs[pid].state.chan)
            && o.m.procs[pid].result == m.procs[pid].result && o.m.procs[pid].inbox == m.procs[pid].inbox
  {
  }

  /** Yielding to a process succeeds exactly if it is neither running nor suspended and its timeout
      has passed; then it runs next. */
  lemma YieldEffect(cfg: Config, m: Machine, cur: nat, mon: nat, pid: nat, now: nat)
    requires MachineOk(cfg, m) && OneBusy(m, cur) && pid < cfg.procCnt
    requires var c := CapAt(m.kern.list, mon); c.Monitor? && Mark(c) <= pid < Hi(c)
    ensures var o := Handle(cfg, m, cur, MonYield(mon, pid, now));
            && (o.err == Ok <==> !m.procs[pid].state.busy && !m.procs[pid].state.suspended && m.procs[pid].timeout <= now)
            && (o.err != Ok ==> o.err == ErrInvalidState && o.m == m && o.next == Some(cur))
            && (o.err == Ok ==> pid < |o.m.procs| && o.next == Some(pid) && o.m.procs[pid].state == PState(true, false, false, 0))
  {
  }

  // ----- tables of other processes -----

  /** The monitor capability in entry `mon` has process `pid` in its free part, and `pid` is
      suspended and released. */
  predicate Holds(m: Machine, mon: nat, pid: nat) {
    var c := CapAt(m.kern.list, mon);
    c.Monitor? && Mark(c) <= pid < Hi(c) && pid < |m.procs| && m.procs[pid].state == PState(false, false, true, 0)
  }

  predicate Refused(err: Err) {
    err == InvalidMonitor || err == InvalidState
  }

  /** What the test answers, code by code. */
  lemma CheckIff(m: Machine, mon: nat, pid: nat)
    requires pid < |m.procs|
    ensures var c := CapAt(m.kern.list, mon);
            && (MonitorCheck(m, mon, pid) == InvalidMonitor <==> !(c.Monitor? && Mark(c) <= pid < Hi(c)))
            && (MonitorCheck(m, mon, pid) == InvalidState <==>
                  c.Monitor? && Mark(c) <= pid < Hi(c) && m.procs[pid].state != PState(false, false, true, 0))
            && (MonitorCheck(m, mon, pid) == Success <==> Holds(m, mon, pid))
  {
  }

  /** A monitor may move capabilities exactly between its own process and processes it holds; then
      the move answers as a plain one does, and otherwise nothing changes. */
  lemma MonitorMoveIff(cfg: Config, m: Machine, mon: nat, src: nat, dst: nat)
    requires MachineOk(cfg, m) && mon < TableSize(cfg) && src < TableSize(cfg) && dst < TableSize(cfg)
    ensures var (r, err) := MonitorMove(cfg, m, mon, src, dst);
            var (own, from, to) := (Pid(cfg, mon), Pid(cfg, src), Pid(cfg, dst));
            var may := (own == from || Holds(m, mon, from)) && (own == to || Holds(m, mon, to));
            && (may ==> (r, err) == Move(cfg, m.kern, src, dst))
            && (!may ==> r == m.kern && Refused(err))
            && (err == InvalidMonitor <==>
                  var c := CapAt(m.kern.list, mon);
                  || (own != from && !(c.Monitor? && Mark(c) <= from < Hi(c)))
                  || ((own == from || Holds(m, mon, from)) && own != to && !(c.Monitor? && Mark(c) <= to < Hi(c))))
  {
    hide Pid, TableSize, Monitors, Holds;
    CheckIff(m, mon, Pid(cfg, src));
    CheckIff(m, mon, Pid(cfg, dst));
    MoveCodes(cfg, m, src, dst);
    hide Move;
  }

  lemma MoveCodes(cfg: Config, m: Machine, src: nat, dst: nat)
    requires MachineOk(cfg, m) && src < TableSize(cfg) && dst < TableSize(cfg)
    ensures !Refused(Move(cfg, m.kern, src, dst).1)
  {
  }

  /** A monitor may load frames exactly of processes it holds. */
  lemma MonitorFrameIff(cfg: Config, m: Machine, mon: nat, idx: nat, slot: nat)
    requires MachineOk(cfg, m) && idx < TableSize(cfg) && slot < cfg.pmpCnt
    ensures var (r, err) := MonitorLoad(cfg, m, mon, idx, slot);
            && (Holds(m, mon, Pid(cfg, idx)) ==> (r, err) == PmpLoad(cfg, m.kern, idx, slot))
            && (!Holds(m, mon, Pid(cfg, idx)) ==> r == m.kern && Refused(err))
  {
    hide Pid, TableSize, Monitors, Holds, PmpLoad;
    CheckIff(m, mon, Pid(cfg, idx));
  }

  /** It may unload frames of the same processes. */
  lemma MonitorUnloadIff(cfg: Config, m: Machine, mon: nat, idx: nat)
    requires MachineOk(cfg, m) && idx < TableSize(cfg)
    ensures var (r, err) := MonitorUnload(cfg, m, mon, idx);
            && (Holds(m, mon, Pid(cfg, idx)) ==> (r, err) == PmpUnload(cfg, m.kern, idx))
            && (!Holds(m, mon, Pid(cfg, idx)) ==> r == m.kern && Refused(err))
  {
    hide Pid, TableSize, Monitors, Holds, PmpUnload;
    CheckIff(m, mon, Pid(cfg, idx));
  }

  lemma FrameCodes(cfg: Config, m: Machine, idx: nat, slot: nat)
    requires MachineOk(cfg, m) && idx < TableSize(cfg) && slot < cfg.pmpCnt
    ensures !Refused(PmpLoad(cfg, m.kern, idx, slot).1)
  {
  }

  lemma UnloadCodes(cfg: Config, m: Machine, idx: nat)
    requires MachineOk(cfg, m) && idx < TableSize(cfg)
    ensures !Refused(PmpUnload(cfg, m.kern, idx).1)
  {
  }

  /** A monitor's move changes tables and registers of no process but its own and those it holds. */
  lemma MonitorReach(cfg: Config, boot: seq<Cap>, m: Machine, mon: nat, src: nat, dst: nat, pid: nat)
    requires Inv(cfg, boot, m.kern) && MachineOk(cfg, m) && |m.kern.list| >= 2
    requires mon < TableSize(cfg) && src < TableSize(cfg) && dst < TableSize(cfg) && pid < cfg.procCnt
    ensures var s := MonitorMove(cfg, m, mon, src, dst).0;
            && Inv(cfg, boot, s)
            && (s.pmp[pid] != m.kern.pmp[pid] || OwnCaps(cfg, s.list, pid) != OwnCaps(cfg, m.kern.list, pid) ==>
                  var c := CapAt(m.kern.list, mon);
                  || pid == Pid(cfg, mon)
                  || (c.Monitor? && Mark(c) <= pid < Hi(c) && m.procs[pid].state == PState(false, false, true, 0)))
  {
    MoveReach(cfg, boot, m, mon, src, dst, pid);
    hide Inv, Pid, TableSize, MonitorMove, OwnCaps;
    CheckIff(m, mon, pid);
  }

  /** The capability calls that go through a monitor are refused exactly if it does not hold the
      processes concerned; a refused call changes nothing, and no other call is refused that way. */
  lemma MonitorCallsIff(cfg: Config, boot: seq<Cap>, m: Machine, c: CapCall, kern: State, err: Err)
    requires Inv(cfg, boot, m.kern) && MachineOk(cfg, m) && CapCallOk(cfg, boot, m.kern, c)
    requires Effect(cfg, boot, m, c, kern, err)
    ensures && (Refused(err) ==> kern == m.kern && (c.CallMonMove? || c.CallMonLoad? || c.CallMonUnload?))
            && (c.CallMonMove? ==>
                  (Refused(err) <==>
                     (Pid(cfg, c.src) != Pid(cfg, c.mon) && !Holds(m, c.mon, Pid(cfg, c.src)))
                     || (Pid(cfg, c.dst) != Pid(cfg, c.mon) && !Holds(m, c.mon, Pid(cfg, c.dst)))))
            && (c.CallMonLoad? || c.CallMonUnload? ==> (Refused(err) <==> !Holds(m, c.mon, Pid(cfg, c.idx))))
  {
    hide Inv, Pid, TableSize, Monitors, Holds, RevokeAll, RevokeSome, AnchorSafe, Move, PmpLoad, PmpUnload, MonitorMove,
         MonitorLoad, MonitorUnload, Sound;
    match c
    case CallMove(src, dst) => MoveCodes(cfg, m, src, dst);
    case CallLoad(idx, slot) => FrameCodes(cfg, m, idx, slot);
    case CallUnload(idx) => UnloadCodes(cfg, m, idx);
    case CallMonMove(mon, src, dst) =>
      MonitorMoveIff(cfg, m, mon, src, dst);
      MoveCodes(cfg, m, src, dst);
    case CallMonLoad(mon, idx, slot) =>
      MonitorFrameIff(cfg, m, mon, idx, slot);
      FrameCodes(cfg, m, idx, slot);
    case CallMonUnload(mon, idx) =>
      MonitorUnloadIff(cfg, m, mon, idx);
      UnloadCodes(cfg, m, idx);
    case _ =>
  }

  // ----- running -----

  /** The scheduler's attempt succeeds exactly if a time capability owns the slot, on a multicore
      build no hart goes first, and the owner is neither running nor suspended and its timeout has
      passed. */
  lemma PickIff(cfg: Config, boot: seq<Cap>, m: Machine, k: Pick)
    requires Inv(cfg, boot, m.kern) && MachineOk(cfg, m) && HartOk(cfg, k.hart)
    ensures var t := k.slot % cfg.slotCnt;
            PickOk(cfg, m, k) <==>
              && (exists n :: n in m.kern.list && NodeOk(cfg, n) && n.cap.Time? && n.cap.hart == k.hart && Mark(n.cap) <= t < Hi(n.cap)
                    && var p := m.procs[Pid(cfg, n.idx)]; !p.state.busy && !p.state.suspended && p.timeout <= k.now)
              && (cfg.smp ==> !TieLost(cfg, m.kern.slots, k.hart, t))
  {
    hide ListInv, RegistersAgree, BootOk, Sound, Pid, TableSize, At, EntryPid, EntryLen, TieLost;
    var s, t := m.kern, k.slot % cfg.slotCnt;
    if EntryLen(At(cfg, s.slots, k.hart, t)) != 0 {
      var n := LaneOwner(cfg, boot, s, k.hart, t);
    }
    assert SlotAgrees(cfg, s, k.hart, t);
    forall n | n in s.list && NodeOk(cfg, n) && n.cap.Time? && n.cap.hart == k.hart && Mark(n.cap) <= t < Hi(n.cap)
      ensures EntryPid(At(cfg, s.slots, k.hart, t)) == Pid(cfg, n.idx) && EntryLen(At(cfg, s.slots, k.hart, t)) != 0
    {
      assert Owns(n, k.hart, t);
      EntryRoundTrip(Pid(cfg, n.idx), n.cap.end - t);
    }
  }

  /** Nobody runs before its timeout, except to take a message that was sent to it. */
  lemma NotBeforeTimeout(cfg: Config, m: Machine, cur: nat, t: Trap, k: Pick, m': Machine, cur': nat, ev: seq<Event>)
    requires MachineOk(cfg, m) && OneBusy(m, cur) && TrapStep(cfg, m, cur, t, k, m', cur', ev)
    requires cur' != cur && cur' < |m.procs|
    ensures || (|ev| > 0 && ev[0].Delivered? && ev[0].pid == cur' && m.procs[cur'].state.blocked)
            || m.procs[cur'].timeout <= k.now
            || (t.Syscall? && (t.call.MonYield? || t.call.Recv?) && m.procs[cur'].timeout <= t.call.now)
    ensures m.procs[cur'].state != PState(false, false, true, 0)
  {
    hide Handle, Bounded;
    var o := Handled(cfg, m, cur, t);
    if t.Syscall? { HandleTimeout(cfg, m, cur, t.call, cur'); }
    assert |o.ev| > 0 ==> ev[0] == o.ev[0];
  }

  /** Process `p`, which is not the caller, was not handed over to, and kept its timeout and whether
      it is suspended. */
  predicate LeftAlone(m: Machine, o: Out, p: nat)
    requires p < |m.procs|
  {
    && p < |o.m.procs| && o.m.procs[p].timeout == m.procs[p].timeout
    && o.m.procs[p].state.suspended == m.procs[p].state.suspended && o.next != Some(p)
  }

  /** A message was delivered to `p`, which waited for one. */
  predicate GotMessage(m: Machine, o: Out, p: nat)
    requires p < |m.procs|
  {
    |o.ev| > 0 && o.ev[0].Delivered? && o.ev[0].pid == p && m.procs[p].state.blocked && !m.procs[p].state.suspended
  }

  /** A handler leaves another process alone, delivers to it, finds its timeout passed, or suspends or
      resumes it and goes on with the caller. */
  lemma HandleTimeout(cfg: Config, m: Machine, cur: nat, call: Call, p: nat)
    requires MachineOk(cfg, m) && OneBusy(m, cur) && CallOk(cfg, m, call) && p < |m.procs| && p != cur
    ensures var o := Handle(cfg, m, cur, call);
            || LeftAlone(m, o, p) || GotMessage(m, o, p)
            || ((call.MonYield? || call.Recv?) && m.procs[p].timeout <= call.now && !m.procs[p].state.suspended)
            || ((call.MonSuspend? || call.MonResume?) && o.next == Some(cur))
  {
    hide SockSend, SockSendRecv, SockRecv;
    if call.Send? || call.SendRecv? {
      SendCallTimeout(cfg, m, cur, call, p);
    } else if call.Recv? {
      RecvTimeout(cfg, m, cur, call.sock, call.buf, call.now, p);
    }
  }

  lemma SendCallTimeout(cfg: Config, m: Machine, cur: nat, call: Call, p: nat)
    requires MachineOk(cfg, m) && OneBusy(m, cur) && CallOk(cfg, m, call) && p < |m.procs| && p != cur
    requires call.Send? || call.SendRecv?
    ensures var o := Handle(cfg, m, cur, call); LeftAlone(m, o, p) || GotMessage(m, o, p)
  {
    hide DoSend, SendRecvOut;
    var c := CapAt(m.kern.list, call.sock);
    SocketInRange(cfg, m, call.sock);
    if c.Socket? && !m.procs[cur].state.suspended {
      SendTimeout(cfg, m, cur, c, call.msg, call.clk, p);
      SendRecvTimeout(cfg, m, cur, c, call.msg, call.clk, p);
    }
  }

  lemma SendRecvTimeout(cfg: Config, m: Machine, cur: nat, c: Cap, msg: Msg, clk: Clock, p: nat)
    requires MachineOk(cfg, m) && OneBusy(m, cur) && m.procs[cur].state == BUSY && SocketOk(cfg, c)
    requires msg.buf < TableSize(cfg) && p < |m.procs| && p != cur
    ensures var o := SendRecvOut(cfg, m, cur, c, msg, clk); LeftAlone(m, o, p) || GotMessage(m, o, p)
  {
    hide DoSend, Delete;
    SendTimeout(cfg, m, cur, c, msg, clk, p);
    SendKeepsOthers(cfg, m, cur, c, msg, clk);
  }

  lemma RecvTimeout(cfg: Config, m: Machine, cur: nat, sock: nat, buf: nat, now: nat, p: nat)
    requires MachineOk(cfg, m) && OneBusy(m, cur) && buf < TableSize(cfg) && p < |m.procs| && p != cur
    ensures var o := SockRecv(cfg, m, cur, sock, buf, now);
            LeftAlone(m, o, p) || (m.procs[p].timeout <= now && !m.procs[p].state.suspended)
  {
    SocketInRange(cfg, m, sock);
  }

  lemma SendTimeout(cfg: Config, m: Machine, cur: nat, c: Cap, msg: Msg, clk: Clock, p: nat)
    requires MachineOk(cfg, m) && OneBusy(m, cur) && SocketOk(cfg, c) && msg.buf < TableSize(cfg) && p < |m.procs| && p != cur
    ensures var o := DoSend(cfg, m, cur, c, msg, clk); LeftAlone(m, o, p) || GotMessage(m, o, p)
  {
    hide Move;
    assert ChanOk(cfg, m.kern.chans[c.chan]);
  }

  /** A process that sleeps until a time is not picked again before it. */
  lemma SleepsUntil(cfg: Config, m: Machine, cur: nat, time: nat, k: Pick, m': Machine, ev: seq<Event>)
    requires MachineOk(cfg, m) && OneBusy(m, cur) && TrapStep(cfg, m, cur, Syscall(Sleep(time)), k, m', cur, ev)
    ensures (if time != 0 then time else m.procs[cur].timeout) <= k.now
  {
  }

  /** The caller of a system call finds the handler's result code, whoever runs next. */
  lemma ResultInRegister(cfg: Config, m: Machine, cur: nat, call: Call, k: Pick, m': Machine, cur': nat, ev: seq<Event>)
    requires MachineOk(cfg, m) && OneBusy(m, cur) && TrapStep(cfg, m, cur, Syscall(call), k, m', cur', ev)
    ensures cur < |m'.procs| && m'.procs[cur].result == Handle(cfg, m, cur, call).err
  {
    hide Handle, Bounded, At, TieLost, SliceEnd, EntryPid, EntryLen;
    HandlePost(cfg, m, cur, call);
    var o := Handled(cfg, m, cur, Syscall(call));
    assert o.m.procs[cur].result == o.err;
  }

  /** An exception goes on in the same process. */
  lemma ExceptionStays(cfg: Config, m: Machine, cur: nat, k: Pick, m': Machine, cur': nat, ev: seq<Event>)
    requires MachineOk(cfg, m) && OneBusy(m, cur) && TrapStep(cfg, m, cur, Exception, k, m', cur', ev)
    ensures m' == m && cur' == cur && ev == []
  {
  }

  /** An interrupt, or a system call that comes too late, gives the hart to the process that holds
      the time capability of the current slot, until the end of that capability; the interrupted one
      stays ready, or suspended. */
  lemma InterruptReschedules(cfg: Config, boot: seq<Cap>, m: Machine, cur: nat, t: Trap, k: Pick, m': Machine, cur': nat,
                             ev: seq<Event>)
    requires Inv(cfg, boot, m.kern) && MachineOk(cfg, m) && OneBusy(m, cur)
    requires (t.Interrupt? || t.PreemptedCall?) && TrapStep(cfg, m, cur, t, k, m', cur', ev)
    ensures m'.kern == m.kern && cur' < |m'.procs| && |m'.procs| == |m.procs|
    ensures var slot := k.slot % cfg.slotCnt;
            exists n :: n in m.kern.list && NodeOk(cfg, n) && Pid(cfg, n.idx) == cur' && n.cap.Time? && n.cap.hart == k.hart
              && Mark(n.cap) <= slot < Hi(n.cap)
              && m'.procs[cur'].timeout == (k.slot - slot + n.cap.end) * cfg.slotLen - cfg.schedTime
    ensures m'.procs[cur'].state == PState(true, false, false, 0)
    ensures cur' != cur ==> m'.procs[cur].state == PState(false, false, m.procs[cur].state.suspended, 0)
    ensures forall p: nat :: p < |m.procs| && p != cur && p != cur' ==> m'.procs[p] == m.procs[p]
  {
    hide Inv, Pid, TableSize, At, EntryPid, EntryLen, SliceEnd, TieLost;
    var m1 := SetProc(m, cur, Release(m.procs[cur]));
    PickedOwnsSlot(cfg, boot, m1, k);
    var n :| n in m.kern.list && NodeOk(cfg, n) && Owns(n, k.hart, k.slot % cfg.slotCnt) && cur' == Pid(cfg, n.idx)
      && m'.procs[cur'].timeout == (k.slot - k.slot % cfg.slotCnt + n.cap.end) * cfg.slotLen - cfg.schedTime;
    assert Mark(n.cap) <= k.slot % cfg.slotCnt < Hi(n.cap);
  }
}
