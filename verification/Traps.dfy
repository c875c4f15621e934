/** Traps on one hart: system calls, interrupts and the scheduler, and what every run of them
    keeps. */
module Traps {
  import opened Arith
  import opened Capability
  import opened CapList
  import opened Schedule
  import opened CapOps
  import opened Steps
  import opened Process

  /** A system call, with the clock readings it will see. `Capability` stands for any
      capability call: its effect on the tables is given, and its result code. */
  datatype Call =
    | MonSuspend(mon: nat, pid: nat)
    | MonResume(mon: nat, pid: nat)
    | MonYield(mon: nat, pid: nat, now: nat)
    | Send(sock: nat, msg: Msg, clk: Clock)
    | Recv(sock: nat, buf: nat, now: nat)
    | SendRecv(sock: nat, msg: Msg, clk: Clock)
    | Sleep(time: nat)
    | Capability(kern: State, err: Result)

  datatype Trap = Syscall(call: Call) | PreemptedCall | Interrupt | Exception

  /** check_monitor without the test for suspension. */
  predicate Monitors(l: List, mon: nat, pid: nat) {
    var c := CapAt(l, mon);
    c.Monitor? && c.mrk <= pid < c.end
  }

  /** check_monitor with its test for suspension. */
  function MonitorCheck(m: Machine, mon: nat, pid: nat): Err
    requires pid < |m.procs|
  {
    if !Monitors(m.kern.list, mon, pid) then InvalidMonitor
    else if m.procs[pid].state != SUSPENDED then InvalidState
    else Success
  }

  /** check_monitor_move: a monitor needs no authority over its own process. */
  ghost function MonitorMoveCheck(cfg: Config, m: Machine, mon: nat, src: nat, dst: nat): Err
    requires MachineOk(cfg, m) && mon < TableSize(cfg) && src < TableSize(cfg) && dst < TableSize(cfg)
  {
    var own, from, to := Pid(cfg, mon), Pid(cfg, src), Pid(cfg, dst);
    if own != from && MonitorCheck(m, mon, from) != Success then MonitorCheck(m, mon, from)
    else if own != to then MonitorCheck(m, mon, to)
    else Success
  }

  /** cap_monitor_cap_move. */
  ghost function MonitorMove(cfg: Config, m: Machine, mon: nat, src: nat, dst: nat): (State, Err)
    requires MachineOk(cfg, m) && mon < TableSize(cfg) && src < TableSize(cfg) && dst < TableSize(cfg)
  {
    var err := MonitorMoveCheck(cfg, m, mon, src, dst);
    if err != Success then (m.kern, err) else Move(cfg, m.kern, src, dst)
  }

  /** cap_monitor_pmp_load. */
  ghost function MonitorLoad(cfg: Config, m: Machine, mon: nat, idx: nat, slot: nat): (State, Err)
    requires MachineOk(cfg, m) && idx < TableSize(cfg) && slot < cfg.pmpCnt
  {
    var err := MonitorCheck(m, mon, Pid(cfg, idx));
    if err != Success then (m.kern, err) else PmpLoad(cfg, m.kern, idx, slot)
  }

  /** cap_monitor_pmp_unload. */
  ghost function MonitorUnload(cfg: Config, m: Machine, mon: nat, idx: nat): (State, Err)
    requires MachineOk(cfg, m) && idx < TableSize(cfg)
  {
    var err := MonitorCheck(m, mon, Pid(cfg, idx));
    if err != Success then (m.kern, err) else PmpUnload(cfg, m.kern, idx)
  }

  /** Capability calls never write the process states; they can only clear channel records. */
  ghost predicate TablesStep(cfg: Config, s: State, t: State) {
    && Bounded(cfg, t) && Distinct(t.list)
    && forall c: nat :: c < cfg.chanCnt && c < |s.chans| && c < |t.chans| ==> Cleared(s.chans[c], t.chans[c])
  }

  predicate Cleared(a: Chan, b: Chan) {
    || b == a
    || b == Chan(Nothing, Nothing, Nothing)
    || b == a.(client := Nothing)
  }

  ghost predicate CallOk(cfg: Config, m: Machine, call: Call) {
    match call
    case MonSuspend(mon, pid) => pid < cfg.procCnt
    case MonResume(mon, pid) => pid < cfg.procCnt
    case MonYield(mon, pid, _) => pid < cfg.procCnt
    case Send(sock, msg, _) => msg.buf < TableSize(cfg)
    case Recv(sock, buf, _) => buf < TableSize(cfg)
    case SendRecv(sock, msg, _) => msg.buf < TableSize(cfg)
    case Sleep(_) => true
    case Capability(kern, _) => TablesStep(cfg, m.kern, kern)
  }

  /** The handler of a system call by process `cur`. */
  ghost function Handle(cfg: Config, m: Machine, cur: nat, call: Call): Out
    requires MachineOk(cfg, m) && OneBusy(m, cur) && CallOk(cfg, m, call)
  {
    match call
    case MonSuspend(mon, pid) =>
      if Monitors(m.kern.list, mon, pid) then
        Out(SetProc(m, pid, Process.Suspend(m.procs[pid])), Ok, Some(cur), [Stopped(pid)])
      else Out(m, ErrInvalidMonitor, Some(cur), [])
    case MonResume(mon, pid) =>
      if Monitors(m.kern.list, mon, pid) then
        Out(SetProc(m, pid, Process.Resume(m.procs[pid])), Ok, Some(cur), [])
      else Out(m, ErrInvalidMonitor, Some(cur), [])
    case MonYield(mon, pid, now) =>
      if !Monitors(m.kern.list, mon, pid) then Out(m, ErrInvalidMonitor, Some(cur), [])
      else if CanAcquire(m.procs[pid], now) then
        Out(SetProc(m, pid, Acquire(m.procs[pid])), Ok, Some(pid), [Woken(pid)])
      else Out(m, ErrInvalidState, Some(cur), [])
    case Send(sock, msg, clk) => SockSend(cfg, m, cur, sock, msg, clk)
    case Recv(sock, buf, now) => SockRecv(cfg, m, cur, sock, buf, now)
    case SendRecv(sock, msg, clk) => SockSendRecv(cfg, m, cur, sock, msg, clk)
    case Sleep(time) =>
      Out(SetProc(m, cur, m.procs[cur].(timeout := if time != 0 then time else m.procs[cur].timeout)),
          Ok, Nothing, [])
    case Capability(kern, err) =>
      Out(m.(kern := kern), err, if err == ErrPreempted then Nothing else Some(cur), [])
  }

  /** The scheduler's successful attempt: hart, slot of the running count, and time. */
  datatype Pick = Pick(hart: nat, slot: nat, now: nat)

  /** The attempt finds the slot's owner, no other hart has priority for it, and it can be
      acquired. */
  ghost predicate PickOk(cfg: Config, m: Machine, k: Pick)
    requires MachineOk(cfg, m)
  {
    && HartOk(cfg, k.hart)
    && var e := At(cfg, m.kern.slots, k.hart, k.slot % cfg.slotCnt);
       && EntryLen(e) != 0 && EntryPid(e) < cfg.procCnt
       && (cfg.smp ==> !TieLost(cfg, m.kern.slots, k.hart, k.slot % cfg.slotCnt))
       && CanAcquire(m.procs[EntryPid(e)], k.now)
  }

  /** A slice that is read at slot `slot` with `len` slots left ends shortly before slot
      `slot + len` begins. */
  function SliceEnd(cfg: Config, slot: nat, len: nat): nat
    requires ValidConfig(cfg) && len > 0
  {
    MulMore(1, slot + len, cfg.slotLen);
    (slot + len) * cfg.slotLen - cfg.schedTime
  }

  /** sched_fetch: acquire the slot's owner until the end of its slice. */
  ghost function Fetch(cfg: Config, m: Machine, k: Pick): Out
    requires MachineOk(cfg, m) && PickOk(cfg, m, k)
  {
    var e := At(cfg, m.kern.slots, k.hart, k.slot % cfg.slotCnt);
    var pid := EntryPid(e);
    Out(SetProc(m, pid, Acquire(m.procs[pid]).(timeout := SliceEnd(cfg, k.slot, EntryLen(e)))),
        Ok, Some(pid), [Woken(pid)])
  }

  /** The calling process finds the result code in its register. */
  function WithResult(o: Out, cur: nat): Out
    requires cur < |o.m.procs|
  {
    o.(m := SetProc(o.m, cur, o.m.procs[cur].(result := o.err)))
  }

  /** Between handler and switch: the old process is still busy, perhaps already marked as
      waiting; the next one, if chosen, is busy; all others are idle. */
  ghost predicate HandlerPost(cfg: Config, cur: nat, o: Out) {
    && MachineOk(cfg, o.m)
    && cur < |o.m.procs|
    && (var s := o.m.procs[cur].state;
        || s == BUSY || s == BUSY.(suspended := true)
        || (o.next != Some(cur) && s == PState(true, true, false, s.chan)))
    && (o.next.Some? && o.next != Some(cur) ==> o.next.value < |o.m.procs| && o.m.procs[o.next.value].state == BUSY)
    && forall p: nat :: p < |o.m.procs| && p != cur && o.next != Some(p) ==> Idle(o.m.procs[p].state)
  }

  /** What a trap hands on to the switch. */
  ghost function Handled(cfg: Config, m: Machine, cur: nat, t: Trap): (o: Out)
    requires MachineOk(cfg, m) && OneBusy(m, cur) && (t.Syscall? ==> CallOk(cfg, m, t.call))
    ensures HandlerPost(cfg, cur, o)
  {
    match t
    case Syscall(call) =>
      HandlePost(cfg, m, cur, call);
      WithResult(Handle(cfg, m, cur, call), cur)
    case PreemptedCall => Out(m, ErrPreempted, Nothing, [])
    case Interrupt => Out(m, Ok, Nothing, [])
    case Exception => Out(m, Ok, Some(cur), [])
  }

  /** One trap, from process `cur` running in `m` to `cur'` running in `m'`: stay, or release
      the old process and run the given one or the scheduler's choice. */
  ghost predicate TrapStep(cfg: Config, m: Machine, cur: nat, t: Trap, k: Pick, m': Machine, cur': nat, ev: seq<Event>)
    requires MachineOk(cfg, m) && OneBusy(m, cur)
  {
    && (t.Syscall? ==> CallOk(cfg, m, t.call))
    && var o := Handled(cfg, m, cur, t);
       if o.next == Some(cur) then m' == o.m && cur' == cur && ev == o.ev
       else
         var m1 := SetProc(o.m, cur, Release(o.m.procs[cur]));
         if o.next.Some? then m' == m1 && cur' == o.next.value && ev == o.ev
         else
           && PickOk(cfg, m1, k)
           && var f := Fetch(cfg, m1, k);
              m' == f.m && cur' == f.next.value && ev == o.ev + f.ev
  }

  // ----- waits -----

  /** The last thing that happened to a process's wait. */
  ghost function Last(log: seq<Event>, pid: nat): Option<Event> {
    if log == [] then Nothing
    else if log[|log| - 1].pid == pid then Some(log[|log| - 1])
    else Last(log[..|log| - 1], pid)
  }

  /** A process is blocked on a channel exactly when its last event is that wait. */
  ghost predicate WaitsLogged(m: Machine, log: seq<Event>) {
    forall p: nat :: p < |m.procs| ==> WaitLogged(m, log, p)
  }

  ghost predicate WaitLogged(m: Machine, log: seq<Event>, p: nat)
    requires p < |m.procs|
  {
    var s := m.procs[p].state;
    && (s.blocked ==> Last(log, p) == Some(Waited(p, s.chan)))
    && (!s.blocked ==> !(Last(log, p).Some? && Last(log, p).value.Waited?))
  }

  /** Every delivery answers a wait that is open on that channel, before its deadline. */
  ghost predicate DeliveriesOk(log: seq<Event>) {
    forall i: nat :: i < |log| && log[i].Delivered? ==> DeliveryOk(log, i)
  }

  ghost predicate DeliveryOk(log: seq<Event>, i: nat)
    requires i < |log| && log[i].Delivered?
  {
    Last(log[..i], log[i].pid) == Some(Waited(log[i].pid, log[i].chan)) && log[i].now < log[i].deadline
  }

  lemma LastAppend(log: seq<Event>, e: Event, pid: nat)
    ensures Last(log + [e], pid) == if e.pid == pid then Some(e) else Last(log, pid)
  {
    assert (log + [e])[..|log|] == log;
  }

  lemma DeliveriesAppend(log: seq<Event>, e: Event)
    requires DeliveriesOk(log)
    requires e.Delivered? ==> Last(log, e.pid) == Some(Waited(e.pid, e.chan)) && e.now < e.deadline
    ensures DeliveriesOk(log + [e])
  {
    var r := log + [e];
    forall i: nat | i < |r| && r[i].Delivered? ensures DeliveryOk(r, i) {
      assert r[..i] == log[..i];
      if i < |log| { assert DeliveryOk(log, i); }
      assert log[..|log|] == log;
    }
  }

  // ----- every handler keeps the shape -----

  lemma DeleteShape(cfg: Config, m: Machine, idx: nat)
    requires MachineOk(cfg, m) && idx < TableSize(cfg)
    ensures MachineOk(cfg, m.(kern := Delete(cfg, m.kern, idx).0))
  {
    var p := Pos(m.kern.list, idx);
    if p < |m.kern.list| {
      DeleteBounded(cfg, m.kern, p);
      assert NodeOk(cfg, m.kern.list[p]);
    }
  }

  lemma SendPost(cfg: Config, m: Machine, cur: nat, c: Cap, msg: Msg, clk: Clock)
    requires MachineOk(cfg, m) && OneBusy(m, cur) && SocketOk(cfg, c) && msg.buf < TableSize(cfg)
    ensures HandlerPost(cfg, cur, DoSend(cfg, m, cur, c, msg, clk))
  {
    hide Deliver;
    SendKeepsOthers(cfg, m, cur, c, msg, clk);
    var ch := m.kern.chans[c.chan];
    if Receiver(ch, c).Some? {
      assert ChanOk(cfg, ch);
      var to := Receiver(ch, c).value;
      if CanIpcAcquire(m.procs[to], c.chan, clk.later) {
        DeliverShape(cfg, SetProc(Addressed(m, c), to, Acquire(m.procs[to])), cur, c, msg, to, ch.capBuf.value);
      }
    }
  }

  lemma SendRecvPost(cfg: Config, m: Machine, cur: nat, sock: nat, msg: Msg, clk: Clock)
    requires MachineOk(cfg, m) && OneBusy(m, cur) && msg.buf < TableSize(cfg)
    ensures HandlerPost(cfg, cur, SockSendRecv(cfg, m, cur, sock, msg, clk))
  {
    hide DoSend, Delete;
    var c := CapAt(m.kern.list, sock);
    SocketInRange(cfg, m, sock);
    if c.Socket? && !m.procs[cur].state.suspended {
      SendPost(cfg, m, cur, c, msg, clk);
      SendKeepsOthers(cfg, m, cur, c, msg, clk);
      DeleteShape(cfg, DoSend(cfg, m, cur, c, msg, clk).m, msg.buf);
    }
  }

  lemma RecvPost(cfg: Config, m: Machine, cur: nat, sock: nat, buf: nat, now: nat)
    requires MachineOk(cfg, m) && OneBusy(m, cur) && buf < TableSize(cfg)
    ensures HandlerPost(cfg, cur, SockRecv(cfg, m, cur, sock, buf, now))
  {
    SocketInRange(cfg, m, sock);
  }

  /** No assertion of the kernel fails in a handler, and it leaves one process to run. */
  lemma HandlePost(cfg: Config, m: Machine, cur: nat, call: Call)
    requires MachineOk(cfg, m) && OneBusy(m, cur) && CallOk(cfg, m, call)
    ensures HandlerPost(cfg, cur, Handle(cfg, m, cur, call))
  {
    hide SockSendRecv, SockRecv, DoSend;
    match call
    case Send(sock, msg, clk) =>
      SocketInRange(cfg, m, sock);
      var c := CapAt(m.kern.list, sock);
      if c.Socket? { SendPost(cfg, m, cur, c, msg, clk); }
    case Recv(sock, buf, now) => RecvPost(cfg, m, cur, sock, buf, now);
    case SendRecv(sock, msg, clk) => SendRecvPost(cfg, m, cur, sock, msg, clk);
    case _ =>
  }

  /** After every trap exactly the returned process is busy, and every other process is
      ready, waiting on one channel, or suspended. */
  lemma TrapKeepsOneBusy(cfg: Config, m: Machine, cur: nat, t: Trap, k: Pick, m': Machine, cur': nat, ev: seq<Event>)
    requires MachineOk(cfg, m) && OneBusy(m, cur) && TrapStep(cfg, m, cur, t, k, m', cur', ev)
    ensures MachineOk(cfg, m') && OneBusy(m', cur')
  {
    hide Handled, Bounded;
  }
}
