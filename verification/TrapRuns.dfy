/** Whole runs of traps: waits are answered at most once and in time, suspended processes stay
    suspended, and a sent capability is moved, never copied. */
module TrapRuns {
  import opened Capability
  import opened CapList
  import opened CapOps
  import opened Process
  import opened Traps

  // ----- the log of waits -----

  predicate SameWait(a: Proc, b: Proc) {
    a.state.blocked == b.state.blocked && a.state.chan == b.state.chan
  }

  lemma LogNothing(m: Machine, m': Machine, log: seq<Event>)
    requires WaitsLogged(m, log) && |m'.procs| == |m.procs|
    requires forall p: nat :: p < |m.procs| ==> SameWait(m.procs[p], m'.procs[p])
    ensures WaitsLogged(m', log)
  {
    forall p: nat | p < |m'.procs| ensures WaitLogged(m', log, p) {
      assert WaitLogged(m, log, p);
    }
  }

  /** One event that says what happened to one process's wait. */
  lemma LogEvent(m: Machine, m': Machine, log: seq<Event>, e: Event)
    requires WaitsLogged(m, log) && DeliveriesOk(log) && |m'.procs| == |m.procs| && e.pid < |m.procs|
    requires forall p: nat :: p < |m.procs| && p != e.pid ==> SameWait(m.procs[p], m'.procs[p])
    requires var s := m'.procs[e.pid].state; if e.Waited? then s.blocked && s.chan == e.chan else !s.blocked
    requires e.Delivered? ==> m.procs[e.pid].state == Waiting(e.chan) && e.now < e.deadline
    ensures WaitsLogged(m', log + [e]) && DeliveriesOk(log + [e])
  {
    assert WaitLogged(m, log, e.pid);
    DeliveriesAppend(log, e);
    forall p: nat | p < |m'.procs| ensures WaitLogged(m', log + [e], p) {
      assert WaitLogged(m, log, p);
      LastAppend(log, e, p);
    }
  }

  lemma SendLogged(cfg: Config, m: Machine, cur: nat, c: Cap, msg: Msg, clk: Clock, log: seq<Event>)
    requires MachineOk(cfg, m) && OneBusy(m, cur) && SocketOk(cfg, c) && msg.buf < TableSize(cfg)
    requires WaitsLogged(m, log) && DeliveriesOk(log)
    ensures var o := DoSend(cfg, m, cur, c, msg, clk); WaitsLogged(o.m, log + o.ev) && DeliveriesOk(log + o.ev)
  {
    hide Move;
    SendKeepsOthers(cfg, m, cur, c, msg, clk);
    var o := DoSend(cfg, m, cur, c, msg, clk);
    if o.ev == [] {
      LogNothing(m, o.m, log);
      assert log + o.ev == log;
    } else {
      LogEvent(m, o.m, log, o.ev[0]);
    }
  }

  lemma RecvLogged(cfg: Config, m: Machine, cur: nat, sock: nat, buf: nat, now: nat, log: seq<Event>)
    requires MachineOk(cfg, m) && OneBusy(m, cur) && buf < TableSize(cfg)
    requires WaitsLogged(m, log) && DeliveriesOk(log)
    ensures var o := SockRecv(cfg, m, cur, sock, buf, now); WaitsLogged(o.m, log + o.ev) && DeliveriesOk(log + o.ev)
  {
    SocketInRange(cfg, m, sock);
    var o := SockRecv(cfg, m, cur, sock, buf, now);
    if o.ev == [] {
      assert log + o.ev == log;
    } else if |o.ev| == 1 {
      LogEvent(m, o.m, log, o.ev[0]);
    } else {
      var server := o.ev[0].pid;
      var m1 := SetProc(m, server, Acquire(m.procs[server]));
      LogEvent(m, m1, log, o.ev[0]);
      LogEvent(m1, o.m, log + [o.ev[0]], o.ev[1]);
      assert log + o.ev == log + [o.ev[0]] + [o.ev[1]];
    }
  }

  lemma SendRecvLogged(cfg: Config, m: Machine, cur: nat, sock: nat, msg: Msg, clk: Clock, log: seq<Event>)
    requires MachineOk(cfg, m) && OneBusy(m, cur) && msg.buf < TableSize(cfg)
    requires WaitsLogged(m, log) && DeliveriesOk(log)
    ensures var o := SockSendRecv(cfg, m, cur, sock, msg, clk);
            WaitsLogged(o.m, log + o.ev) && DeliveriesOk(log + o.ev)
  {
    hide DoSend, Delete;
    var c := CapAt(m.kern.list, sock);
    SocketInRange(cfg, m, sock);
    var o := SockSendRecv(cfg, m, cur, sock, msg, clk);
    assert log + [] == log;
    if c.Socket? && !m.procs[cur].state.suspended {
      SendKeepsOthers(cfg, m, cur, c, msg, clk);
      SendLogged(cfg, m, cur, c, msg, clk, log);
      var d := DoSend(cfg, m, cur, c, msg, clk);
      if o.err == ErrTimeout {
        LogEvent(d.m, o.m, log + d.ev, Waited(cur, c.chan));
        assert log + o.ev == log + d.ev + [Waited(cur, c.chan)];
      }
    }
  }

  lemma HandleLogged(cfg: Config, m: Machine, cur: nat, call: Call, log: seq<Event>)
    requires MachineOk(cfg, m) && OneBusy(m, cur) && CallOk(cfg, m, call)
    requires WaitsLogged(m, log) && DeliveriesOk(log)
    ensures var o := Handle(cfg, m, cur, call); WaitsLogged(o.m, log + o.ev) && DeliveriesOk(log + o.ev)
  {
    hide SockRecv, SockSendRecv, DoSend;
    var o := Handle(cfg, m, cur, call);
    assert log + [] == log;
    match call
    case Send(sock, msg, clk) =>
      SocketInRange(cfg, m, sock);
      var c := CapAt(m.kern.list, sock);
      if c.Socket? { SendLogged(cfg, m, cur, c, msg, clk, log); }
    case Recv(sock, buf, now) => RecvLogged(cfg, m, cur, sock, buf, now, log);
    case SendRecv(sock, msg, clk) => SendRecvLogged(cfg, m, cur, sock, msg, clk, log);
    case MonSuspend(mon, pid) => if o.ev != [] { LogEvent(m, o.m, log, o.ev[0]); }
    case MonYield(mon, pid, now) => if o.ev != [] { LogEvent(m, o.m, log, o.ev[0]); }
    case _ => LogNothing(m, o.m, log);
  }

  /** One trap keeps the log of waits right. */
  lemma TrapLogged(cfg: Config, m: Machine, cur: nat, t: Trap, k: Pick, m': Machine, cur': nat, ev: seq<Event>, log: seq<Event>)
    requires MachineOk(cfg, m) && OneBusy(m, cur) && TrapStep(cfg, m, cur, t, k, m', cur', ev)
    requires WaitsLogged(m, log) && DeliveriesOk(log)
    ensures WaitsLogged(m', log + ev) && DeliveriesOk(log + ev)
  {
    hide Bounded, Handle;
    var o := Handled(cfg, m, cur, t);
    HandledLogged(cfg, m, cur, t, log);
    if o.next != Some(cur) {
      var m1 := SetProc(o.m, cur, Release(o.m.procs[cur]));
      LogNothing(o.m, m1, log + o.ev);
      if o.next.Nothing? {
        var f := Fetch(cfg, m1, k);
        LogEvent(m1, f.m, log + o.ev, f.ev[0]);
        assert log + ev == log + o.ev + [f.ev[0]];
      }
    }
  }

  lemma HandledLogged(cfg: Config, m: Machine, cur: nat, t: Trap, log: seq<Event>)
    requires MachineOk(cfg, m) && OneBusy(m, cur) && (t.Syscall? ==> CallOk(cfg, m, t.call))
    requires WaitsLogged(m, log) && DeliveriesOk(log)
    ensures var o := Handled(cfg, m, cur, t); WaitsLogged(o.m, log + o.ev) && DeliveriesOk(log + o.ev)
  {
    hide Bounded, Handle;
    var o := Handled(cfg, m, cur, t);
    if t.Syscall? {
      HandleLogged(cfg, m, cur, t.call, log);
      HandlePost(cfg, m, cur, t.call);
      LogNothing(Handle(cfg, m, cur, t.call).m, o.m, log + o.ev);
    } else {
      assert log + o.ev == log;
    }
  }

  // ----- runs -----

  datatype Step = Step(t: Trap, k: Pick, m: Machine, cur: nat, ev: seq<Event>)

  /** A run of traps from process `cur` running in `m`. */
  ghost predicate IsTrapRun(cfg: Config, m: Machine, cur: nat, steps: seq<Step>)
    decreases |steps|
  {
    steps == [] ||
    var s := steps[0];
    && MachineOk(cfg, m) && OneBusy(m, cur)
    && TrapStep(cfg, m, cur, s.t, s.k, s.m, s.cur, s.ev)
    && IsTrapRun(cfg, s.m, s.cur, steps[1..])
  }

  ghost function Events(steps: seq<Step>): seq<Event> {
    if steps == [] then [] else steps[0].ev + Events(steps[1..])
  }

  /** Over any run of traps: one process runs at a time, every message goes to a process that
      waits on that very channel and in time, and no wait is answered twice. */
  lemma {:induction false} RunSafe(cfg: Config, m: Machine, cur: nat, steps: seq<Step>, log: seq<Event>)
    requires MachineOk(cfg, m) && OneBusy(m, cur) && IsTrapRun(cfg, m, cur, steps)
    requires WaitsLogged(m, log) && DeliveriesOk(log)
    ensures DeliveriesOk(log + Events(steps))
    ensures steps != [] ==> MachineOk(cfg, steps[|steps| - 1].m) && OneBusy(steps[|steps| - 1].m, steps[|steps| - 1].cur)
    decreases |steps|
  {
    hide MachineOk, OneBusy, TrapStep, WaitsLogged, DeliveriesOk;
    if steps == [] {
      assert log + [] == log;
    } else {
      var s := steps[0];
      TrapKeepsOneBusy(cfg, m, cur, s.t, s.k, s.m, s.cur, s.ev);
      TrapLogged(cfg, m, cur, s.t, s.k, s.m, s.cur, s.ev, log);
      RunSafe(cfg, s.m, s.cur, steps[1..], log + s.ev);
      assert log + Events(steps) == log + s.ev + Events(steps[1..]);
      assert |steps| > 1 ==> steps[1..][|steps| - 2] == steps[|steps| - 1];
    }
  }

  /** Between two deliveries to one process there is a new wait. */
  lemma AnsweredOnce(log: seq<Event>, i: nat, j: nat)
    requires DeliveriesOk(log) && i < j < |log|
    requires log[i].Delivered? && log[j].Delivered? && log[i].pid == log[j].pid
    ensures exists k: nat :: i < k < j && log[k] == Waited(log[j].pid, log[j].chan)
  {
    assert DeliveryOk(log, j);
    LastIsLater(log[..j], log[j].pid, i);
  }

  /** The last event of a process is listed, at or after any event of that process. */
  lemma {:induction false} LastIsLater(log: seq<Event>, pid: nat, i: nat)
    requires i < |log| && log[i].pid == pid
    ensures Last(log, pid).Some? && exists k: nat :: i <= k < |log| && log[k] == Last(log, pid).value
  {
    var n := |log| - 1;
    if log[n].pid != pid {
      LastIsLater(log[..n], pid, i);
      var k: nat :| i <= k < n && log[..n][k] == Last(log[..n], pid).value;
      assert log[k] == Last(log, pid).value;
    }
  }

  // ----- what arrives -----

  /** The message that a send or sendrecv call carries, as its receiver finds it. */
  function Sent(m: Machine, call: Call): Inbox
    requires (call.Send? || call.SendRecv?) && CapAt(m.kern.list, call.sock).Socket?
  {
    Inbox(CapAt(m.kern.list, call.sock).tok,
          if call.msg.sendCap then CapAt(m.kern.list, call.msg.buf) else None, call.msg.data)
  }

  /** The receiver of a delivery on `chan` among the events of one call. */
  predicate DeliversTo(ev: seq<Event>, p: nat, chan: nat) {
    |ev| > 0 && ev[0].Delivered? && ev[0].pid == p && ev[0].chan == chan
  }

  lemma SendArrives(cfg: Config, m: Machine, cur: nat, c: Cap, msg: Msg, clk: Clock, p: nat)
    requires MachineOk(cfg, m) && OneBusy(m, cur) && SocketOk(cfg, c) && msg.buf < TableSize(cfg) && p < |m.procs|
    ensures var o := DoSend(cfg, m, cur, c, msg, clk);
            p < |o.m.procs| &&
            o.m.procs[p].inbox == if DeliversTo(o.ev, p, c.chan) then
              Inbox(c.tok, if msg.sendCap then CapAt(m.kern.list, msg.buf) else None, msg.data)
            else m.procs[p].inbox
  {
    hide Move;
    SendKeepsOthers(cfg, m, cur, c, msg, clk);
    assert ChanOk(cfg, m.kern.chans[c.chan]);
  }

  lemma HandleArrives(cfg: Config, m: Machine, cur: nat, call: Call, p: nat)
    requires MachineOk(cfg, m) && OneBusy(m, cur) && CallOk(cfg, m, call) && p < |m.procs|
    ensures var o := Handle(cfg, m, cur, call);
            p < |o.m.procs| &&
            if (call.Send? || call.SendRecv?) && CapAt(m.kern.list, call.sock).Socket?
               && DeliversTo(o.ev, p, CapAt(m.kern.list, call.sock).chan) then
              o.m.procs[p].inbox == Sent(m, call)
            else o.m.procs[p].inbox == m.procs[p].inbox
  {
    hide DoSend, Delete, SockRecv, Bounded;
    if call.Send? || call.SendRecv? {
      var c := CapAt(m.kern.list, call.sock);
      SocketInRange(cfg, m, call.sock);
      if c.Socket? {
        SendArrives(cfg, m, cur, c, call.msg, call.clk, p);
        SendKeepsOthers(cfg, m, cur, c, call.msg, call.clk);
      }
    } else if call.Recv? {
      RecvKeepsInbox(cfg, m, cur, call.sock, call.buf, call.now, p);
    }
  }

  lemma RecvKeepsInbox(cfg: Config, m: Machine, cur: nat, sock: nat, buf: nat, now: nat, p: nat)
    requires MachineOk(cfg, m) && OneBusy(m, cur) && buf < TableSize(cfg) && p < |m.procs|
    ensures var o := SockRecv(cfg, m, cur, sock, buf, now); p < |o.m.procs| && o.m.procs[p].inbox == m.procs[p].inbox
  {
    SocketInRange(cfg, m, sock);
  }

  /** In every trap, the message a process finds is the one it had, unless the trap is a send
      that logs a delivery to it: then it is what was sent, with the sender's tag. */
  lemma MessageArrives(cfg: Config, m: Machine, cur: nat, t: Trap, k: Pick, m': Machine, cur': nat, ev: seq<Event>, p: nat)
    requires MachineOk(cfg, m) && OneBusy(m, cur) && TrapStep(cfg, m, cur, t, k, m', cur', ev) && p < |m.procs|
    ensures p < |m'.procs|
    ensures if t.Syscall? && (t.call.Send? || t.call.SendRecv?) && CapAt(m.kern.list, t.call.sock).Socket?
               && DeliversTo(ev, p, CapAt(m.kern.list, t.call.sock).chan) then
              m'.procs[p].inbox == Sent(m, t.call)
            else m'.procs[p].inbox == m.procs[p].inbox
  {
    hide Handle, Bounded;
    var o := Handled(cfg, m, cur, t);
    assert |o.ev| > 0 ==> ev[0] == o.ev[0];
    assert |o.ev| == 0 && |ev| > 0 ==> ev[0].Woken?;
    if t.Syscall? { HandleArrives(cfg, m, cur, t.call, p); }
  }

  // ----- suspended processes -----

  /** A released, suspended process stays that way under every trap that does not resume it:
      it does not run, and no message reaches it. */
  lemma StaysSuspended(cfg: Config, m: Machine, cur: nat, t: Trap, k: Pick, m': Machine, cur': nat, ev: seq<Event>, p: nat)
    requires MachineOk(cfg, m) && OneBusy(m, cur) && TrapStep(cfg, m, cur, t, k, m', cur', ev)
    requires p < |m.procs| && m.procs[p].state == SUSPENDED
    requires !(t.Syscall? && t.call.MonResume? && t.call.pid == p)
    ensures p < |m'.procs| && m'.procs[p].state == SUSPENDED && cur' != p
    ensures m'.procs[p].inbox == m.procs[p].inbox
  {
    hide Bounded, Handle;
    if t.Syscall? { HandleSkips(cfg, m, cur, t.call, p); }
  }

  lemma HandleSkips(cfg: Config, m: Machine, cur: nat, call: Call, p: nat)
    requires MachineOk(cfg, m) && OneBusy(m, cur) && CallOk(cfg, m, call)
    requires p < |m.procs| && m.procs[p].state == SUSPENDED && !(call.MonResume? && call.pid == p)
    ensures var o := Handle(cfg, m, cur, call);
            p < |o.m.procs| && o.m.procs[p].state == SUSPENDED && o.m.procs[p].inbox == m.procs[p].inbox
            && o.next != Some(p)
  {
    hide DoSend, SockSendRecv, SockRecv;
    match call
    case Send(sock, msg, clk) =>
      var c := CapAt(m.kern.list, sock);
      SocketInRange(cfg, m, sock);
      if c.Socket? { SendSkips(cfg, m, cur, c, msg, clk, p); }
    case Recv(sock, buf, now) => RecvSkips(cfg, m, cur, sock, buf, now, p);
    case SendRecv(sock, msg, clk) => SendRecvSkips(cfg, m, cur, sock, msg, clk, p);
    case _ =>
  }

  lemma RecvSkips(cfg: Config, m: Machine, cur: nat, sock: nat, buf: nat, now: nat, p: nat)
    requires MachineOk(cfg, m) && OneBusy(m, cur) && buf < TableSize(cfg)
    requires p < |m.procs| && m.procs[p].state == SUSPENDED
    ensures var o := SockRecv(cfg, m, cur, sock, buf, now);
            p < |o.m.procs| && o.m.procs[p] == m.procs[p] && o.next != Some(p)
  {
    SocketInRange(cfg, m, sock);
  }

  lemma SendRecvSkips(cfg: Config, m: Machine, cur: nat, sock: nat, msg: Msg, clk: Clock, p: nat)
    requires MachineOk(cfg, m) && OneBusy(m, cur) && msg.buf < TableSize(cfg)
    requires p < |m.procs| && m.procs[p].state == SUSPENDED
    ensures var o := SockSendRecv(cfg, m, cur, sock, msg, clk);
            p < |o.m.procs| && o.m.procs[p] == m.procs[p] && o.next != Some(p)
  {
    hide DoSend, Delete;
    var c := CapAt(m.kern.list, sock);
    SocketInRange(cfg, m, sock);
    if c.Socket? {
      SendSkips(cfg, m, cur, c, msg, clk, p);
      SendKeepsOthers(cfg, m, cur, c, msg, clk);
    }
  }

  lemma SendSkips(cfg: Config, m: Machine, cur: nat, c: Cap, msg: Msg, clk: Clock, p: nat)
    requires MachineOk(cfg, m) && OneBusy(m, cur) && SocketOk(cfg, c) && msg.buf < TableSize(cfg)
    requires p < |m.procs| && m.procs[p].state == SUSPENDED
    ensures var o := DoSend(cfg, m, cur, c, msg, clk);
            p < |o.m.procs| && o.m.procs[p] == m.procs[p] && o.next != Some(p)
  {
  }

  lemma {:induction false} SuspendedUntilResumed(cfg: Config, m: Machine, cur: nat, steps: seq<Step>, p: nat)
    requires MachineOk(cfg, m) && OneBusy(m, cur) && IsTrapRun(cfg, m, cur, steps)
    requires p < |m.procs| && m.procs[p].state == SUSPENDED
    requires forall i: nat :: i < |steps| ==> !(steps[i].t.Syscall? && steps[i].t.call.MonResume? && steps[i].t.call.pid == p)
    ensures forall i: nat :: i < |steps| ==>
              && steps[i].cur != p && p < |steps[i].m.procs|
              && steps[i].m.procs[p].state == SUSPENDED && steps[i].m.procs[p].inbox == m.procs[p].inbox
    decreases |steps|
  {
    hide MachineOk, OneBusy, TrapStep;
    if steps != [] {
      var s := steps[0];
      TrapKeepsOneBusy(cfg, m, cur, s.t, s.k, s.m, s.cur, s.ev);
      StaysSuspended(cfg, m, cur, s.t, s.k, s.m, s.cur, s.ev, p);
      assert forall i: nat :: i < |steps| - 1 ==> steps[1..][i] == steps[i + 1];
      SuspendedUntilResumed(cfg, s.m, s.cur, steps[1..], p);
      forall i: nat | i < |steps|
        ensures steps[i].cur != p && p < |steps[i].m.procs|
        ensures steps[i].m.procs[p].state == SUSPENDED && steps[i].m.procs[p].inbox == m.procs[p].inbox
      {
        if i > 0 { assert steps[i] == steps[1..][i - 1]; }
      }
    }
  }

  // ----- sent capabilities -----

  /** At most one entry changed place or went; none was added. */
  ghost predicate Transferred(l: List, r: List) {
    || r == l
    || (exists p: nat, idx: nat :: p < |l| && MovedTo(l, p, idx, r))
    || (exists p: nat :: p < |l| && r == RemoveAt(l, p))
  }

  /** The entry at `p` now sits at table index `idx`; a loaded frame was unloaded on the way. */
  predicate MovedTo(l: List, p: nat, idx: nat, r: List)
    requires p < |l|
  {
    || r == SetIdx(l, p, idx)
    || (l[p].cap.Pmp? && r == SetIdx(SetCap(l, p, Bind(l[p].cap, false, 0)), p, idx))
  }

  lemma MoveTransfers(cfg: Config, s: State, src: nat, dst: nat)
    requires Bounded(cfg, s) && src < TableSize(cfg) && dst < TableSize(cfg)
    ensures Transferred(s.list, Move(cfg, s, src, dst).0.list)
  {
    var p := Pos(s.list, src);
    if p < |s.list| && Pos(s.list, dst) == |s.list| {
      assert MovedTo(s.list, p, dst, Move(cfg, s, src, dst).0.list);
    }
  }

  lemma SendTransfers(cfg: Config, m: Machine, cur: nat, c: Cap, msg: Msg, clk: Clock)
    requires MachineOk(cfg, m) && cur < |m.procs| && SocketOk(cfg, c) && msg.buf < TableSize(cfg)
    ensures var o := DoSend(cfg, m, cur, c, msg, clk);
            Transferred(m.kern.list, o.m.kern.list) && (o.err != Ok ==> o.m.kern.list == m.kern.list)
  {
    hide Transferred, Move, MoveAt;
    assert Transferred(m.kern.list, m.kern.list) by { SameTransfers(m.kern.list); }
    var ch := m.kern.chans[c.chan];
    if ch.capBuf.Some? {
      assert ChanOk(cfg, ch);
      MoveTransfers(cfg, Addressed(m, c).kern, msg.buf, ch.capBuf.value);
    }
  }

  lemma SameTransfers(l: List)
    ensures Transferred(l, l)
  {
  }

  lemma HandleTransfers(cfg: Config, m: Machine, cur: nat, call: Call)
    requires MachineOk(cfg, m) && OneBusy(m, cur) && CallOk(cfg, m, call) && !call.Capability?
    ensures Transferred(m.kern.list, Handle(cfg, m, cur, call).m.kern.list)
  {
    hide Transferred, DoSend, Delete;
    SameTransfers(m.kern.list);
    if call.Send? || call.SendRecv? {
      var c := CapAt(m.kern.list, call.sock);
      SocketInRange(cfg, m, call.sock);
      if c.Socket? {
        SendTransfers(cfg, m, cur, c, call.msg, call.clk);
        SendKeepsOthers(cfg, m, cur, c, call.msg, call.clk);
        DeleteTransfers(cfg, DoSend(cfg, m, cur, c, call.msg, call.clk).m.kern, call.msg.buf);
      }
    }
  }

  /** No trap except a capability call adds an entry to the table: a capability sent with a
      message is moved, dropped or left where it is, never copied. */
  lemma SentOnce(cfg: Config, m: Machine, cur: nat, t: Trap, k: Pick, m': Machine, cur': nat, ev: seq<Event>)
    requires MachineOk(cfg, m) && OneBusy(m, cur) && TrapStep(cfg, m, cur, t, k, m', cur', ev)
    requires !(t.Syscall? && t.call.Capability?)
    ensures Transferred(m.kern.list, m'.kern.list)
  {
    hide Transferred, Handle, Bounded;
    SameTransfers(m.kern.list);
    if t.Syscall? { HandleTransfers(cfg, m, cur, t.call); }
  }

  lemma DeleteTransfers(cfg: Config, s: State, idx: nat)
    requires Bounded(cfg, s) && idx < TableSize(cfg)
    ensures Transferred(s.list, Delete(cfg, s, idx).0.list)
  {
  }
}
