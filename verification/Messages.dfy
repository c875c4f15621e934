/** Who gets a message, when a call delivers, waits or is refused, and what sender, receiver and
    channel record hold afterwards, told by the records and state words alone. */
module Messages {
  import opened Capability
  import opened CapList
  import opened CapOps
  import opened Effects
  import opened Process
  import opened Traps

  /** The process that the channel record names as the other side of a socket: a client's messages
      go to the server, a server's to the client it owes an answer. */
  predicate OtherSide(m: Machine, c: Cap, to: nat) {
    && c.Socket? && c.chan < |m.kern.chans|
    && (c.tok != 0 ==> m.kern.chans[c.chan].server == Some(to))
    && (c.tok == 0 ==> m.kern.chans[c.chan].client == Some(to))
  }

  /** That process waits on the channel in time, and the sender has time left, for a yielding client
      also for the server's announced service time. */
  predicate CanDeliver(m: Machine, c: Cap, clk: Clock, to: nat) {
    && OtherSide(m, c, to) && to < |m.procs|
    && m.procs[to].state == PState(false, true, false, c.chan)
    && clk.later < m.procs[to].timeout
    && clk.now < clk.limit
    && (c.tok != 0 && c.mode == 1 ==> (clk.now + m.procs[to].servTime) % 0x1_0000_0000_0000_0000 < clk.limit)
  }

  /** A server needs permission bit 1 to send a capability, a client bit 3. */
  predicate MaySend(c: Cap, msg: Msg) {
    c.Socket? && (msg.sendCap ==> (if c.tok == 0 then c.perm & 2 != 0 else c.perm & 8 != 0))
  }

  /** The other side may send a capability, and the entry for it is taken by one that stays. */
  predicate NoRoom(l: List, c: Cap, msg: Msg) {
    c.Socket? && !CapAt(l, msg.buf).None? && !msg.sendCap && (if c.tok == 0 then c.perm & 8 != 0 else c.perm & 2 != 0)
  }

  // ----- whom a message reaches -----

  /** do_send delivers exactly if the other side can take it, and to no one else. */
  lemma DoSendIff(cfg: Config, m: Machine, cur: nat, c: Cap, msg: Msg, clk: Clock)
    requires MachineOk(cfg, m) && cur < |m.procs| && SocketOk(cfg, c) && msg.buf < TableSize(cfg)
    ensures var o := DoSend(cfg, m, cur, c, msg, clk);
            && (o.err == Ok <==> exists to: nat :: CanDeliver(m, c, clk, to))
            && (forall to: nat :: CanDeliver(m, c, clk, to) ==> o.ev == [Delivered(to, c.chan, clk.later, m.procs[to].timeout)])
            && (o.err != Ok ==> o.ev == [])
            && (o.err == ErrPreempted <==> clk.now >= clk.limit)
            && (o.err == Ok || o.err == ErrPreempted || o.err == ErrNoReceiver)
            && o.next.Some?
            && (forall to: nat :: CanDeliver(m, c, clk, to) ==> o.next == Some(if c.mode == 1 then to else cur))
            && (o.err != Ok ==> o.next == Some(cur))
  {
    hide Move, TableSize;
    var ch := m.kern.chans[c.chan];
    assert ChanOk(cfg, ch);
    var to := if c.tok != 0 then ch.server else ch.client;
    if to.Some? && CanDeliver(m, c, clk, to.value) {
      assert DoSend(cfg, m, cur, c, msg, clk).err == Ok;
    } else {
      forall i: nat ensures !CanDeliver(m, c, clk, i) {}
    }
  }

  /** What a send call answers: in particular it is delivered exactly if its socket allows it and the
      other side can take it. */
  lemma SendIff(cfg: Config, m: Machine, cur: nat, sock: nat, msg: Msg, clk: Clock)
    requires MachineOk(cfg, m) && OneBusy(m, cur) && msg.buf < TableSize(cfg)
    ensures var o := Handle(cfg, m, cur, Send(sock, msg, clk));
            var c := CapAt(m.kern.list, sock);
            var stopped := m.procs[cur].state.suspended;
            && (o.err == ErrEmpty <==> c.None?)
            && (o.err == ErrInvalidSocket <==> !c.None? && (!c.Socket? || (!stopped && !MaySend(c, msg))))
            && (o.err == ErrPreempted <==> c.Socket? && (stopped || (MaySend(c, msg) && clk.now >= clk.limit)))
            && (o.err == Ok <==> c.Socket? && !stopped && MaySend(c, msg) && exists to: nat :: CanDeliver(m, c, clk, to))
            && (forall to: nat :: o.err == Ok && CanDeliver(m, c, clk, to) ==>
                  o.ev == [Delivered(to, c.chan, clk.later, m.procs[to].timeout)])
            && (o.err != Ok ==> o.ev == [])
  {
    hide DoSend, TableSize;
    SocketInRange(cfg, m, sock);
    var c := CapAt(m.kern.list, sock);
    if c.Socket? { DoSendIff(cfg, m, cur, c, msg, clk); }
  }

  /** What a sendrecv call does: the message is delivered under the same condition if there is room
      for the answer's capability; a server then waits in any case, a client only for an answer to
      a delivered message. */
  lemma SendRecvIff(cfg: Config, m: Machine, cur: nat, sock: nat, msg: Msg, clk: Clock)
    requires MachineOk(cfg, m) && OneBusy(m, cur) && msg.buf < TableSize(cfg)
    ensures var o := Handle(cfg, m, cur, SendRecv(sock, msg, clk));
            var c := CapAt(m.kern.list, sock);
            var stopped := m.procs[cur].state.suspended;
            var goes := c.Socket? && !stopped && MaySend(c, msg) && !NoRoom(m.kern.list, c, msg);
            && (o.err == ErrEmpty <==> c.None?)
            && (o.err == ErrInvalidCapability <==> !c.None? && !c.Socket?)
            && (o.err == ErrInvalidSocket <==> c.Socket? && !stopped && !MaySend(c, msg))
            && (o.err == ErrDstOccupied <==> c.Socket? && !stopped && MaySend(c, msg) && NoRoom(m.kern.list, c, msg))
            && (o.err == ErrPreempted <==> (c.Socket? && stopped) || (goes && clk.now >= clk.limit))
            && (o.err == ErrTimeout <==> goes && clk.now < clk.limit && (c.tok == 0 || exists to: nat :: CanDeliver(m, c, clk, to)))
            && (forall to: nat :: goes && CanDeliver(m, c, clk, to) ==>
                  o.ev == [Delivered(to, c.chan, clk.later, m.procs[to].timeout), Waited(cur, c.chan)])
            && (forall i: nat :: i < |o.ev| && o.ev[i].Delivered? ==> goes && CanDeliver(m, c, clk, o.ev[i].pid))
            && (o.err == ErrTimeout <==> c.Socket? && Waited(cur, c.chan) in o.ev)
  {
    hide DoSend, Delete, TableSize;
    SocketInRange(cfg, m, sock);
    var c := CapAt(m.kern.list, sock);
    if c.Socket? {
      DoSendIff(cfg, m, cur, c, msg, clk);
      if exists to: nat :: CanDeliver(m, c, clk, to) {
        var to: nat :| CanDeliver(m, c, clk, to);
        OneTarget(m, c, clk, to);
      }
    }
  }

  lemma OneTarget(m: Machine, c: Cap, clk: Clock, to: nat)
    requires CanDeliver(m, c, clk, to)
    ensures forall i: nat :: CanDeliver(m, c, clk, i) ==> i == to
    ensures clk.now < clk.limit
  {
  }

  /** Over every trap: a message is delivered only to the process that the channel record names as
      the other side of the sender's socket, and only if that process can take it. */
  lemma DeliversOnlyTo(cfg: Config, m: Machine, cur: nat, t: Trap, k: Pick, m': Machine, cur': nat, ev: seq<Event>, i: nat)
    requires MachineOk(cfg, m) && OneBusy(m, cur) && TrapStep(cfg, m, cur, t, k, m', cur', ev)
    requires i < |ev| && ev[i].Delivered?
    ensures t.Syscall? && (t.call.Send? || t.call.SendRecv?)
    ensures var c := CapAt(m.kern.list, t.call.sock);
            ev[i].chan == (if c.Socket? then c.chan else 0) && CanDeliver(m, c, t.call.clk, ev[i].pid)
  {
    hide Handle, Bounded, CanDeliver, MaySend, NoRoom;
    var o := Handled(cfg, m, cur, t);
    assert i < |o.ev| && o.ev[i] == ev[i];
    assert t.Syscall?;
    OnlySends(cfg, m, cur, t.call, i);
  }

  lemma OnlySends(cfg: Config, m: Machine, cur: nat, call: Call, i: nat)
    requires MachineOk(cfg, m) && OneBusy(m, cur) && CallOk(cfg, m, call)
    requires i < |Handle(cfg, m, cur, call).ev| && Handle(cfg, m, cur, call).ev[i].Delivered?
    ensures call.Send? || call.SendRecv?
    ensures var c := CapAt(m.kern.list, call.sock);
            var e := Handle(cfg, m, cur, call).ev[i];
            e.chan == (if c.Socket? then c.chan else 0) && CanDeliver(m, c, call.clk, e.pid)
  {
    hide SockSend, SockSendRecv, CanDeliver, MaySend, NoRoom, TableSize;
    if call.Send? {
      SendIff(cfg, m, cur, call.sock, call.msg, call.clk);
      SendTo(cfg, m, cur, call.sock, call.msg, call.clk);
    } else if call.SendRecv? {
      SendRecvIff(cfg, m, cur, call.sock, call.msg, call.clk);
      SendRecvTo(cfg, m, cur, call.sock, call.msg, call.clk, i);
    } else {
      NoDelivery(cfg, m, cur, call, i);
    }
  }

  lemma SendTo(cfg: Config, m: Machine, cur: nat, sock: nat, msg: Msg, clk: Clock)
    requires MachineOk(cfg, m) && OneBusy(m, cur) && msg.buf < TableSize(cfg)
    ensures var o := Handle(cfg, m, cur, Send(sock, msg, clk));
            var c := CapAt(m.kern.list, sock);
            o.err == Ok ==> c.Socket? && |o.ev| == 1 && o.ev[0].Delivered? && o.ev[0].chan == c.chan && CanDeliver(m, c, clk, o.ev[0].pid)
  {
    SendIff(cfg, m, cur, sock, msg, clk);
    hide Handle, CanDeliver;
    var o := Handle(cfg, m, cur, Send(sock, msg, clk));
    if o.err == Ok {
      var to: nat :| CanDeliver(m, CapAt(m.kern.list, sock), clk, to);
    }
  }

  lemma SendRecvTo(cfg: Config, m: Machine, cur: nat, sock: nat, msg: Msg, clk: Clock, i: nat)
    requires MachineOk(cfg, m) && OneBusy(m, cur) && msg.buf < TableSize(cfg)
    requires var o := Handle(cfg, m, cur, SendRecv(sock, msg, clk)); i < |o.ev| && o.ev[i].Delivered?
    ensures var o := Handle(cfg, m, cur, SendRecv(sock, msg, clk));
            var c := CapAt(m.kern.list, sock);
            c.Socket? && o.ev[i].chan == c.chan && CanDeliver(m, c, clk, o.ev[i].pid)
  {
    SendRecvIff(cfg, m, cur, sock, msg, clk);
    hide Handle, CanDeliver;
  }

  lemma NoDelivery(cfg: Config, m: Machine, cur: nat, call: Call, i: nat)
    requires MachineOk(cfg, m) && OneBusy(m, cur) && CallOk(cfg, m, call) && !call.Send? && !call.SendRecv?
    ensures i < |Handle(cfg, m, cur, call).ev| ==> !Handle(cfg, m, cur, call).ev[i].Delivered?
  {
    if call.Recv? { SocketInRange(cfg, m, call.sock); }
  }

  // ----- waiting -----

  /** A server's receive call: it waits exactly if nothing stands in the way, and then the channel
      record names it and the entry for capabilities. */
  lemma ServerRecvIff(cfg: Config, m: Machine, cur: nat, sock: nat, buf: nat, now: nat)
    requires MachineOk(cfg, m) && OneBusy(m, cur) && buf < TableSize(cfg)
    requires CapAt(m.kern.list, sock).Socket? && CapAt(m.kern.list, sock).tok == 0
    ensures var o := Handle(cfg, m, cur, Recv(sock, buf, now));
            var c := CapAt(m.kern.list, sock);
            var full := c.perm & 8 != 0 && !CapAt(m.kern.list, buf).None?;
            && (o.err == ErrDstOccupied <==> full)
            && (o.err == ErrPreempted <==> !full && m.procs[cur].state.suspended)
            && (o.err == ErrTimeout <==> !full && !m.procs[cur].state.suspended)
            && (o.err != ErrTimeout ==> o.m == m)
            && (o.err == ErrTimeout ==>
                  && o.next.Nothing? && c.chan < |m.kern.chans|
                  && o.m.kern == m.kern.(chans := m.kern.chans[c.chan := Chan(Some(cur), m.kern.chans[c.chan].client, Some(buf))])
                  && |o.m.procs| == |m.procs| && o.m.procs[cur].state == PState(true, true, false, c.chan)
                  && o.m.procs[cur].timeout == 0xFFFF_FFFF_FFFF_FFFF
                  && (forall p: nat :: p < |m.procs| && p != cur ==> o.m.procs[p] == m.procs[p]))
  {
    SocketInRange(cfg, m, sock);
  }

  /** A client's receive call: only the client that the channel record names may wait on, and it does
      so exactly if it can lend its time to the server. */
  lemma ClientRecvIff(cfg: Config, m: Machine, cur: nat, sock: nat, buf: nat, now: nat)
    requires MachineOk(cfg, m) && OneBusy(m, cur) && buf < TableSize(cfg)
    requires CapAt(m.kern.list, sock).Socket? && CapAt(m.kern.list, sock).tok != 0
    ensures var o := Handle(cfg, m, cur, Recv(sock, buf, now));
            var c := CapAt(m.kern.list, sock);
            var full := c.perm & 8 != 0 && !CapAt(m.kern.list, buf).None?;
            var stopped := m.procs[cur].state.suspended;
            c.chan < |m.kern.chans| &&
            var ch := m.kern.chans[c.chan];
            var lends := c.mode == 1 && ch.server.Some? && ch.server.value < |m.procs|
                         && !m.procs[ch.server.value].state.busy && !m.procs[ch.server.value].state.suspended
                         && m.procs[ch.server.value].timeout <= now;
            && (o.err == ErrDstOccupied <==> full)
            && (o.err == ErrPreempted <==> !full && stopped)
            && (o.err == ErrInvalidState <==> !full && !stopped && ch.client != Some(cur))
            && (o.err == ErrTimeout <==> !full && !stopped && ch.client == Some(cur))
            && (o.err != ErrTimeout || !lends ==> o.m == m)
            && (o.err == ErrTimeout ==> o.next == if lends then ch.server else Some(cur))
            && (o.err == ErrTimeout && lends ==>
                  && o.m.kern == m.kern.(chans := m.kern.chans[c.chan := Chan(ch.server, ch.client, Some(buf))])
                  && |o.m.procs| == |m.procs| && o.m.procs[cur].state == PState(true, true, false, c.chan)
                  && o.m.procs[cur].timeout == m.procs[cur].timeout
                  && o.m.procs[ch.server.value].state == PState(true, false, false, 0)
                  && o.m.procs[ch.server.value].timeout == m.procs[cur].timeout)
  {
    SocketInRange(cfg, m, sock);
    assert ChanOk(cfg, m.kern.chans[CapAt(m.kern.list, sock).chan]);
  }

  /** A server that starts to wait is what a client's next message reaches. */
  lemma RecvThenSend(cfg: Config, m: Machine, srv: nat, sock: nat, buf: nat, now: nat, k: Pick, m': Machine, cl: nat,
                     ev: seq<Event>, sock2: nat, msg: Msg, clk: Clock)
    requires MachineOk(cfg, m) && OneBusy(m, srv) && TrapStep(cfg, m, srv, Syscall(Recv(sock, buf, now)), k, m', cl, ev)
    requires MachineOk(cfg, m') && OneBusy(m', cl)
    requires var c := CapAt(m.kern.list, sock);
             && c.Socket? && c.tok == 0 && !m.procs[srv].state.suspended && !(c.perm & 8 != 0 && !CapAt(m.kern.list, buf).None?)
    requires k.now < 0xFFFF_FFFF_FFFF_FFFF && clk.later < 0xFFFF_FFFF_FFFF_FFFF && clk.now < clk.limit
    requires var d := CapAt(m'.kern.list, sock2);
             && d.Socket? && d.chan == CapAt(m.kern.list, sock).chan && d.tok != 0 && MaySend(d, msg)
             && (d.mode == 1 ==> (clk.now + m.procs[srv].servTime) % 0x1_0000_0000_0000_0000 < clk.limit)
    requires msg.buf < TableSize(cfg) && !m'.procs[cl].state.suspended
    ensures cl != srv
    ensures var o := Handle(cfg, m', cl, Send(sock2, msg, clk));
            o.err == Ok && o.ev == [Delivered(srv, CapAt(m.kern.list, sock).chan, clk.later, 0xFFFF_FFFF_FFFF_FFFF)]
  {
    hide *;
    ServerWaits(cfg, m, srv, sock, buf, now, k, m', cl, ev);
    CanReach(m', CapAt(m'.kern.list, sock2), clk, srv);
    SendReaches(cfg, m', cl, sock2, msg, clk, srv);
  }

  lemma CanReach(m: Machine, c: Cap, clk: Clock, to: nat)
    requires c.Socket? && c.tok != 0 && c.chan < |m.kern.chans| && m.kern.chans[c.chan].server == Some(to) && to < |m.procs|
    requires m.procs[to].state == PState(false, true, false, c.chan) && clk.later < m.procs[to].timeout && clk.now < clk.limit
    requires c.mode == 1 ==> (clk.now + m.procs[to].servTime) % 0x1_0000_0000_0000_0000 < clk.limit
    ensures CanDeliver(m, c, clk, to)
  {
  }

  lemma SendReaches(cfg: Config, m: Machine, cur: nat, sock: nat, msg: Msg, clk: Clock, to: nat)
    requires MachineOk(cfg, m) && OneBusy(m, cur) && msg.buf < TableSize(cfg) && to < |m.procs|
    requires var c := CapAt(m.kern.list, sock);
             c.Socket? && !m.procs[cur].state.suspended && MaySend(c, msg) && CanDeliver(m, c, clk, to)
    ensures var o := Handle(cfg, m, cur, Send(sock, msg, clk));
            o.err == Ok && o.ev == [Delivered(to, CapAt(m.kern.list, sock).chan, clk.later, m.procs[to].timeout)]
  {
    SendIff(cfg, m, cur, sock, msg, clk);
    hide *;
  }

  lemma ServerWaits(cfg: Config, m: Machine, srv: nat, sock: nat, buf: nat, now: nat, k: Pick, m': Machine, cl: nat, ev: seq<Event>)
    requires MachineOk(cfg, m) && OneBusy(m, srv) && TrapStep(cfg, m, srv, Syscall(Recv(sock, buf, now)), k, m', cl, ev)
    requires var c := CapAt(m.kern.list, sock);
             && c.Socket? && c.tok == 0 && !m.procs[srv].state.suspended && !(c.perm & 8 != 0 && !CapAt(m.kern.list, buf).None?)
    requires k.now < 0xFFFF_FFFF_FFFF_FFFF
    ensures var c := CapAt(m.kern.list, sock);
            && cl != srv && c.chan < |m'.kern.chans| && m'.kern.chans[c.chan].server == Some(srv)
            && m'.kern.chans[c.chan].capBuf == Some(buf)
            && srv < |m'.procs| && m'.procs[srv].state == PState(false, true, false, c.chan)
            && m'.procs[srv].timeout == 0xFFFF_FFFF_FFFF_FFFF && m'.procs[srv].servTime == m.procs[srv].servTime
  {
    ServerRecvIff(cfg, m, srv, sock, buf, now);
    RecvServTime(cfg, m, srv, sock, buf, now);
    hide Handle, Bounded;
  }

  lemma RecvServTime(cfg: Config, m: Machine, cur: nat, sock: nat, buf: nat, now: nat)
    requires MachineOk(cfg, m) && OneBusy(m, cur) && buf < TableSize(cfg)
    ensures var o := Handle(cfg, m, cur, Recv(sock, buf, now));
            cur < |o.m.procs| && o.m.procs[cur].servTime == m.procs[cur].servTime
  {
    SocketInRange(cfg, m, sock);
  }

  // ----- what the receiver finds -----

  /** The receiver of a message runs at once with the sender's time, or becomes ready with no
      timeout; its result says success. */
  lemma ReceiverAfter(cfg: Config, m: Machine, cur: nat, c: Cap, msg: Msg, clk: Clock, to: nat)
    requires MachineOk(cfg, m) && OneBusy(m, cur) && SocketOk(cfg, c) && msg.buf < TableSize(cfg) && CanDeliver(m, c, clk, to)
    ensures var o := DoSend(cfg, m, cur, c, msg, clk);
            && to < |o.m.procs| && o.m.procs[to].result == Ok
            && (c.mode == 1 ==> o.m.procs[to].state == PState(true, false, false, 0) && o.m.procs[to].timeout == m.procs[cur].timeout)
            && (c.mode == 0 ==> o.m.procs[to].state == PState(false, false, false, 0) && o.m.procs[to].timeout == 0)
            && (c.tok == 0 ==> o.m.kern.chans == m.kern.chans[c.chan := m.kern.chans[c.chan].(client := Nothing)])
            && (c.tok != 0 ==> o.m.kern.chans == m.kern.chans)
  {
    hide Move;
    assert ChanOk(cfg, m.kern.chans[c.chan]);
    MoveKeepsChans(cfg, Addressed(m, c).kern, msg);
  }

  /** A capability that goes along with a reply that nobody takes is deleted, and the server waits. */
  lemma ReplyDropped(cfg: Config, m: Machine, cur: nat, sock: nat, msg: Msg, clk: Clock)
    requires MachineOk(cfg, m) && OneBusy(m, cur) && msg.buf < TableSize(cfg) && !m.procs[cur].state.suspended
    requires var c := CapAt(m.kern.list, sock);
             && c.Socket? && c.tok == 0 && msg.sendCap && MaySend(c, msg) && clk.now < clk.limit
             && forall to: nat :: !CanDeliver(m, c, clk, to)
    ensures var o := Handle(cfg, m, cur, SendRecv(sock, msg, clk));
            && o.err == ErrTimeout && o.next.Nothing? && o.ev == [Waited(cur, CapAt(m.kern.list, sock).chan)]
            && forall i: nat :: CapAt(o.m.kern.list, i) == if i == msg.buf then None else CapAt(m.kern.list, i)
  {
    SocketInRange(cfg, m, sock);
    var c := CapAt(m.kern.list, sock);
    DoSendIff(cfg, m, cur, c, msg, clk);
    RefusedKeepsTables(cfg, m, cur, c, msg, clk);
    SendKeepsOthers(cfg, m, cur, c, msg, clk);
    DeleteEffect(cfg, DoSend(cfg, m, cur, c, msg, clk).m.kern, msg.buf);
    hide DoSend, Delete, CanDeliver, Bounded, TableSize;
  }

  lemma RefusedKeepsTables(cfg: Config, m: Machine, cur: nat, c: Cap, msg: Msg, clk: Clock)
    requires MachineOk(cfg, m) && cur < |m.procs| && SocketOk(cfg, c) && msg.buf < TableSize(cfg)
    ensures var o := DoSend(cfg, m, cur, c, msg, clk); o.err != Ok ==> o.m.kern.list == m.kern.list && o.m.procs == m.procs
  {
    assert ChanOk(cfg, m.kern.chans[c.chan]);
    hide Deliver;
  }

  lemma MoveKeepsChans(cfg: Config, s: State, msg: Msg)
    requires Bounded(cfg, s)
    ensures forall src: nat, dst: nat :: src < TableSize(cfg) && dst < TableSize(cfg) ==> Move(cfg, s, src, dst).0.chans == s.chans
  {
  }

  /** A capability that goes along with a delivered message is moved from the sender's entry to the
      entry that the channel record names, if that one is free. */
  lemma CapabilityArrives(cfg: Config, m: Machine, cur: nat, c: Cap, msg: Msg, clk: Clock, to: nat)
    requires MachineOk(cfg, m) && OneBusy(m, cur) && SocketOk(cfg, c) && msg.buf < TableSize(cfg)
    requires CanDeliver(m, c, clk, to) && msg.sendCap
    ensures m.kern.chans[c.chan].capBuf.Some? && m.kern.chans[c.chan].capBuf.value < TableSize(cfg)
    ensures var o := DoSend(cfg, m, cur, c, msg, clk);
            var (sent, room) := (CapAt(m.kern.list, msg.buf), m.kern.chans[c.chan].capBuf.value);
            && (!sent.None? && CapAt(m.kern.list, room).None? ==>
                  && cfg.capCnt > 0
                  && CapAt(o.m.kern.list, room) == Carried(cfg, sent, msg.buf, room)
                  && CapAt(o.m.kern.list, msg.buf).None?)
            && (sent.None? || !CapAt(m.kern.list, room).None? ==> o.m.kern.list == m.kern.list)
  {
    hide TableSize, Move;
    assert ChanOk(cfg, m.kern.chans[c.chan]);
    MoveEffect(cfg, Addressed(m, c).kern, msg.buf, m.kern.chans[c.chan].capBuf.value);
  }

  /** The process that waits after a send: a server without end, a client without end unless it
      lends its time; the record names it and its entry for capabilities. */
  lemma WaiterAfter(m: Machine, c: Cap, buf: nat, pid: nat)
    requires c.Socket? && c.chan < |m.kern.chans| && pid < |m.procs| && m.procs[pid].state == PState(true, false, false, 0)
    ensures var r := DoRecv(m, c, buf, pid);
            && |r.procs| == |m.procs| && r.procs[pid].state == PState(true, true, false, c.chan)
            && r.procs[pid].timeout == (if c.tok == 0 || c.mode == 0 then 0xFFFF_FFFF_FFFF_FFFF else m.procs[pid].timeout)
            && r.kern.chans[c.chan].capBuf == Some(buf)
            && (c.tok == 0 ==> r.kern.chans[c.chan].server == Some(pid) && r.kern.chans[c.chan].client == m.kern.chans[c.chan].client)
            && (c.tok != 0 ==> r.kern.chans[c.chan].client == Some(pid) && r.kern.chans[c.chan].server == m.kern.chans[c.chan].server)
            && (forall k: nat :: k < |m.kern.chans| && k != c.chan ==> r.kern.chans[k] == m.kern.chans[k])
  {
  }
}
