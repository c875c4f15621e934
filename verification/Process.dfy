/** Process state words and the IPC calls that move them, on one hart. Time is an input. */
module Process {
  import opened Capability
  import opened CapList
  import opened CapOps

  // ----- one process -----

  /** The state word: three flags and, in its upper bits, the channel waited on. */
  datatype PState = PState(busy: bool, blocked: bool, suspended: bool, chan: nat)

  const READY := PState(false, false, false, 0)
  const BUSY := PState(true, false, false, 0)
  const SUSPENDED := PState(false, false, true, 0)

  function Waiting(chan: nat): PState {
    PState(false, true, false, chan)
  }

  datatype Result =
    | Ok | ErrEmpty | ErrDstOccupied | ErrInvalidMonitor | ErrInvalidState | ErrInvalidSocket
    | ErrInvalidCapability | ErrNoReceiver | ErrPreempted | ErrTimeout | ErrSuspended
    | ErrSrcEmpty | ErrInvalidDerivation | ErrInvalidPmp

  /** Argument registers as a receiver finds them: sender's tag, sent capability, data. */
  datatype Inbox = Inbox(tok: nat, cap: Cap, data: seq<nat>)

  datatype Proc = Proc(state: PState, timeout: nat, result: Result, inbox: Inbox, servTime: nat)

  const NEVER := 0xFFFF_FFFF_FFFF_FFFF

  predicate CanAcquire(p: Proc, now: nat) {
    !p.state.busy && !p.state.suspended && p.timeout <= now
  }

  function Acquire(p: Proc): Proc {
    p.(state := BUSY)
  }

  /** The kernel asserts that it only releases a busy process. */
  function Release(p: Proc): Proc
    requires p.state.busy
  {
    p.(state := p.state.(busy := false))
  }

  function Suspend(p: Proc): Proc {
    if p.state.blocked then p.(state := SUSPENDED, result := ErrSuspended)
    else p.(state := p.state.(suspended := true))
  }

  function Resume(p: Proc): Proc {
    p.(timeout := if p.state == SUSPENDED then 0 else p.timeout, state := p.state.(suspended := false))
  }

  /** The kernel asserts that only a busy process starts to wait. */
  function IpcWait(p: Proc, chan: nat): Proc
    requires p.state == BUSY
  {
    p.(state := PState(true, true, false, chan))
  }

  predicate CanIpcAcquire(p: Proc, chan: nat, now: nat) {
    p.state == Waiting(chan) && now < p.timeout
  }

  // ----- the machine -----

  datatype Machine = Machine(kern: State, procs: seq<Proc>)

  /** What happens to waits, in order. */
  datatype Event =
    | Waited(pid: nat, chan: nat)
    | Delivered(pid: nat, chan: nat, now: nat, deadline: nat)
    | Woken(pid: nat)
    | Stopped(pid: nat)

  /** A handler's outcome: new state, result code, process to run next, events. */
  datatype Out = Out(m: Machine, err: Result, next: Option<nat>, ev: seq<Event>)

  datatype Msg = Msg(buf: nat, sendCap: bool, data: seq<nat>)

  /** Times a handler reads: when it starts, the hart's timer, and at the last test. */
  datatype Clock = Clock(now: nat, limit: nat, later: nat)

  /** The sum of two 64-bit words. */
  function Add64(a: nat, b: nat): (r: nat)
    ensures r < 0x1_0000_0000_0000_0000
    ensures a + b < 0x1_0000_0000_0000_0000 ==> r == a + b
  {
    (a + b) % 0x1_0000_0000_0000_0000
  }

  const SCAP: bv8 := 2
  const CCAP: bv8 := 8
  const YIELD := 1
  const NOYIELD := 0

  function SetProc(m: Machine, pid: nat, p: Proc): Machine
    requires pid < |m.procs|
  {
    m.(procs := m.procs[pid := p])
  }

  function SetChan(m: Machine, c: nat, ch: Chan): Machine
    requires c < |m.kern.chans|
  {
    m.(kern := m.kern.(chans := m.kern.chans[c := ch]))
  }

  /** Channel records point at existing processes, and a buffer goes with them. */
  predicate ChanOk(cfg: Config, ch: Chan) {
    && (ch.server.Some? ==> ch.server.value < cfg.procCnt)
    && (ch.client.Some? ==> ch.client.value < cfg.procCnt)
    && (ch.capBuf.Some? ==> ch.capBuf.value < TableSize(cfg))
    && (ch.server.Some? || ch.client.Some? ==> ch.capBuf.Some?)
  }

  ghost predicate MachineOk(cfg: Config, m: Machine) {
    && Bounded(cfg, m.kern) && Distinct(m.kern.list)
    && (forall c: nat :: c < |m.kern.chans| ==> ChanOk(cfg, m.kern.chans[c]))
    && |m.procs| == cfg.procCnt
  }

  /** Not running: ready, waiting on one channel, or suspended. */
  predicate Idle(s: PState) {
    s == READY || s == SUSPENDED || s == Waiting(s.chan)
  }

  /** Exactly the current process is busy; it may already be marked suspended. */
  ghost predicate OneBusy(m: Machine, cur: nat) {
    && cur < |m.procs|
    && (m.procs[cur].state == BUSY || m.procs[cur].state == BUSY.(suspended := true))
    && forall p: nat :: p < |m.procs| && p != cur ==> Idle(m.procs[p].state)
  }

  // ----- sending and receiving -----

  predicate SocketOk(cfg: Config, c: Cap) {
    c.Socket? && c.chan < cfg.chanCnt && c.mode <= 1
  }

  /** Whom a socket's message goes to, as the channel record has it. */
  function Receiver(ch: Chan, c: Cap): Option<nat>
    requires c.Socket?
  {
    if c.tok == 0 then ch.client else ch.server
  }

  /** The state in which the receiver is tried: a reply uses up the client pointer. */
  function Addressed(m: Machine, c: Cap): Machine
    requires c.Socket? && c.chan < |m.kern.chans|
  {
    if c.tok == 0 then SetChan(m, c.chan, m.kern.chans[c.chan].(client := Nothing)) else m
  }

  /** Write the message to an acquired receiver, move the capability along, and yield to the
      receiver or release it. */
  ghost function Deliver(cfg: Config, m: Machine, cur: nat, c: Cap, msg: Msg, to: nat, buf: nat): (Machine, nat)
    requires Bounded(cfg, m.kern) && cur < |m.procs| && to < |m.procs| && m.procs[to].state == BUSY
    requires msg.buf < TableSize(cfg) && buf < TableSize(cfg) && SocketOk(cfg, c)
  {
    var sent := if msg.sendCap then CapAt(m.kern.list, msg.buf) else None;
    var p := m.procs[to].(result := Ok, inbox := Inbox(c.tok, sent, msg.data));
    var m1 := m.(kern := if msg.sendCap then Move(cfg, m.kern, msg.buf, buf).0 else m.kern);
    if c.mode == YIELD then (SetProc(m1, to, p.(timeout := m.procs[cur].timeout)), to)
    else (SetProc(m1, to, Release(p.(timeout := 0))), cur)
  }

  /** do_send. */
  ghost function DoSend(cfg: Config, m: Machine, cur: nat, c: Cap, msg: Msg, clk: Clock): Out
    requires MachineOk(cfg, m) && cur < |m.procs| && SocketOk(cfg, c) && msg.buf < TableSize(cfg)
  {
    var ch := m.kern.chans[c.chan];
    if clk.now >= clk.limit then Out(m, ErrPreempted, Some(cur), [])
    else if Receiver(ch, c).Nothing? then Out(m, ErrNoReceiver, Some(cur), [])
    else
      var to := Receiver(ch, c).value;
      if c.tok != 0 && c.mode == YIELD && Add64(clk.now, m.procs[to].servTime) >= clk.limit then
        Out(m, ErrNoReceiver, Some(cur), [])
      else
        var m1 := Addressed(m, c);
        if !CanIpcAcquire(m.procs[to], c.chan, clk.later) then Out(m1, ErrNoReceiver, Some(cur), [])
        else
          var (m2, next) := Deliver(cfg, SetProc(m1, to, Acquire(m.procs[to])), cur, c, msg, to, ch.capBuf.value);
          Out(m2, Ok, Some(next), [Delivered(to, c.chan, clk.later, m.procs[to].timeout)])
  }

  /** do_recv. */
  function DoRecv(m: Machine, c: Cap, buf: nat, pid: nat): Machine
    requires c.Socket? && c.chan < |m.kern.chans| && pid < |m.procs| && m.procs[pid].state == BUSY
  {
    var ch := m.kern.chans[c.chan];
    var ch' := if c.tok == 0 then ch.(server := Some(pid), capBuf := Some(buf))
               else ch.(client := Some(pid), capBuf := Some(buf));
    var p := if c.tok == 0 || c.mode == NOYIELD then m.procs[pid].(timeout := NEVER) else m.procs[pid];
    SetProc(SetChan(m, c.chan, ch'), pid, IpcWait(p, c.chan))
  }

  predicate MayNotSendCap(c: Cap, msg: Msg)
    requires c.Socket?
  {
    msg.sendCap && c.perm & (if c.tok == 0 then SCAP else CCAP) == 0
  }

  /** cap_sock_send. */
  ghost function SockSend(cfg: Config, m: Machine, cur: nat, sock: nat, msg: Msg, clk: Clock): Out
    requires MachineOk(cfg, m) && cur < |m.procs| && msg.buf < TableSize(cfg)
  {
    var c := CapAt(m.kern.list, sock);
    SocketInRange(cfg, m, sock);
    if c.None? then Out(m, ErrEmpty, Some(cur), [])
    else if !c.Socket? then Out(m, ErrInvalidSocket, Some(cur), [])
    else if m.procs[cur].state.suspended then Out(m, ErrPreempted, Nothing, [])
    else if MayNotSendCap(c, msg) then Out(m, ErrInvalidSocket, Some(cur), [])
    else DoSend(cfg, m, cur, c, msg, clk)
  }

  lemma SocketInRange(cfg: Config, m: Machine, sock: nat)
    requires MachineOk(cfg, m)
    ensures CapAt(m.kern.list, sock).Socket? ==> SocketOk(cfg, CapAt(m.kern.list, sock))
  {
    var p := Pos(m.kern.list, sock);
    assert p < |m.kern.list| ==> NodeOk(cfg, m.kern.list[p]);
  }

  /** cap_sock_recv. */
  ghost function SockRecv(cfg: Config, m: Machine, cur: nat, sock: nat, buf: nat, now: nat): Out
    requires MachineOk(cfg, m) && OneBusy(m, cur) && buf < TableSize(cfg)
  {
    var c := CapAt(m.kern.list, sock);
    SocketInRange(cfg, m, sock);
    if c.None? then Out(m, ErrEmpty, Some(cur), [])
    else if !c.Socket? then Out(m, ErrInvalidCapability, Some(cur), [])
    else if c.perm & CCAP != 0 && !CapAt(m.kern.list, buf).None? then Out(m, ErrDstOccupied, Some(cur), [])
    else if m.procs[cur].state.suspended then Out(m, ErrPreempted, Nothing, [])
    else if c.tok == 0 then Out(DoRecv(m, c, buf, cur), ErrTimeout, Nothing, [Waited(cur, c.chan)])
    else
      var ch := m.kern.chans[c.chan];
      if ch.client != Some(cur) then Out(m, ErrInvalidState, Some(cur), [])
      else
        var (m', next) := ClientRecvOut(m, cur, c, buf, now);
        Out(m', ErrTimeout, Some(next), if next == cur then [] else [Woken(next), Waited(cur, c.chan)])
  }

  /** A client that already waits for its answer gives its time to the server, if the server
      can be run. */
  function ClientRecvOut(m: Machine, cur: nat, c: Cap, buf: nat, now: nat): (Machine, nat)
    requires c.Socket? && c.chan < |m.kern.chans| && cur < |m.procs| && m.procs[cur].state == BUSY
    requires m.kern.chans[c.chan].server.Some? ==> m.kern.chans[c.chan].server.value < |m.procs|
  {
    var ch := m.kern.chans[c.chan];
    if ch.server.Some? && c.mode == YIELD && CanAcquire(m.procs[ch.server.value], now) then
      var server := ch.server.value;
      var m1 := SetProc(m, server, Acquire(m.procs[server]).(timeout := m.procs[cur].timeout));
      (SetProc(SetChan(m1, c.chan, ch.(capBuf := Some(buf))), cur, IpcWait(m.procs[cur], c.chan)), server)
    else (m, cur)
  }

  /** cap_sock_sendrecv: a server replies and receives, a client calls. */
  ghost function SockSendRecv(cfg: Config, m: Machine, cur: nat, sock: nat, msg: Msg, clk: Clock): Out
    requires MachineOk(cfg, m) && OneBusy(m, cur) && msg.buf < TableSize(cfg)
  {
    var c := CapAt(m.kern.list, sock);
    SocketInRange(cfg, m, sock);
    if c.None? then Out(m, ErrEmpty, Some(cur), [])
    else if !c.Socket? then Out(m, ErrInvalidCapability, Some(cur), [])
    else if m.procs[cur].state.suspended then Out(m, ErrPreempted, Nothing, [])
    else if MayNotSendCap(c, msg) then Out(m, ErrInvalidSocket, Some(cur), [])
    else if c.perm & (if c.tok == 0 then CCAP else SCAP) != 0 && !CapAt(m.kern.list, msg.buf).None? && !msg.sendCap then
      Out(m, ErrDstOccupied, Some(cur), [])
    else SendRecvOut(cfg, m, cur, c, msg, clk)
  }

  /** replyrecv and call, after their tests: send, then wait on the channel. A server waits even
      if its reply found no receiver; the capability of that reply is dropped. */
  ghost function SendRecvOut(cfg: Config, m: Machine, cur: nat, c: Cap, msg: Msg, clk: Clock): Out
    requires MachineOk(cfg, m) && OneBusy(m, cur) && m.procs[cur].state == BUSY
    requires SocketOk(cfg, c) && msg.buf < TableSize(cfg)
  {
    var o := DoSend(cfg, m, cur, c, msg, clk);
    SendKeepsOthers(cfg, m, cur, c, msg, clk);
    if c.tok == 0 && o.err == ErrPreempted then Out(o.m, o.err, Nothing, o.ev)
    else if c.tok != 0 && o.err != Ok then o
    else
      var m1 := if c.tok == 0 && o.err == ErrNoReceiver && msg.sendCap then
                  o.m.(kern := Delete(cfg, o.m.kern, msg.buf).0)
                else o.m;
      Out(DoRecv(m1, c, msg.buf, cur), ErrTimeout,
          if o.next == Some(cur) then Nothing else o.next, o.ev + [Waited(cur, c.chan)])
  }

  /** Sending never touches the sender's own state, and keeps the machine in shape. */
  lemma SendKeepsOthers(cfg: Config, m: Machine, cur: nat, c: Cap, msg: Msg, clk: Clock)
    requires MachineOk(cfg, m) && OneBusy(m, cur) && SocketOk(cfg, c) && msg.buf < TableSize(cfg)
    ensures var o := DoSend(cfg, m, cur, c, msg, clk);
            && MachineOk(cfg, o.m)
            && o.m.procs[cur] == m.procs[cur]
            && o.next.Some? && o.next.value < |m.procs|
            && (o.next != Some(cur) ==> o.err == Ok)
            && (o.err == Ok || o.err == ErrPreempted || o.err == ErrNoReceiver)
            && |o.m.kern.chans| == |m.kern.chans|
  {
    hide Deliver;
    var ch := m.kern.chans[c.chan];
    var m1 := Addressed(m, c);
    if Receiver(ch, c).Some? {
      assert ChanOk(cfg, ch);
      var to := Receiver(ch, c).value;
      if CanIpcAcquire(m.procs[to], c.chan, clk.later) {
        DeliverShape(cfg, SetProc(m1, to, Acquire(m.procs[to])), cur, c, msg, to, ch.capBuf.value);
      }
    }
  }

  lemma DeliverShape(cfg: Config, m: Machine, cur: nat, c: Cap, msg: Msg, to: nat, buf: nat)
    requires MachineOk(cfg, m) && cur < |m.procs| && to < |m.procs| && to != cur && m.procs[to].state == BUSY
    requires msg.buf < TableSize(cfg) && buf < TableSize(cfg) && SocketOk(cfg, c)
    ensures var (m', next) := Deliver(cfg, m, cur, c, msg, to, buf);
            && MachineOk(cfg, m') && m'.kern.chans == m.kern.chans
            && (next == cur || next == to)
            && (forall p: nat :: p < |m.procs| && p != to ==> m'.procs[p] == m.procs[p])
            && m'.procs[to].state == if next == to then BUSY else READY
  {
    hide Move, MoveAt;
    MoveShape(cfg, m.kern, msg.buf, buf);
  }

  /** Moves keep the tables in shape, whatever they move. */
  lemma MoveShape(cfg: Config, s: State, src: nat, dst: nat)
    requires Bounded(cfg, s) && Distinct(s.list) && src < TableSize(cfg) && dst < TableSize(cfg)
    ensures var t := Move(cfg, s, src, dst).0; Bounded(cfg, t) && Distinct(t.list) && t.chans == s.chans
  {
    var p := Pos(s.list, src);
    assert p < |s.list| ==> NodeOk(cfg, s.list[p]);
  }
}
