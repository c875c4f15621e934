/** What revocation does to the channel records: exactly the channels whose server socket goes
    lose their record, and only channels whose sockets go are touched. */
module ChannelRevocation {
  import opened Capability
  import opened CapList
  import opened CapOps
  import opened Authority
  import opened ListSteps
  import opened Derivations
  import opened Revocation
  import opened Exactness

  const NO_RECORD := Chan(Nothing, Nothing, Nothing)

  /** `n` is a socket of channel `c` that was listed in `l` and whose entry is empty in `r`. */
  ghost predicate SocketGone(l: List, r: List, n: Node, c: nat) {
    n in l && n.cap.Socket? && n.cap.chan == c && forall m :: m in r ==> m.idx != n.idx
  }

  /** The record still names the server and its entry for capabilities; the client may be forgotten. */
  predicate Serving(before: Chan, after: Chan) {
    after.server == before.server && after.capBuf == before.capBuf && (after.client == before.client || after.client == Nothing)
  }

  /** One pass on the records: the removed socket's record is cleared, the others stay. */
  lemma PassChans(cfg: Config, s: State, p: nat, c: nat)
    requires Bounded(cfg, s) && p < |s.list| && c < |s.chans|
    ensures var (s', q) := (RevokeStepAt(cfg, s, p).0, s.list[Next(s.list, p)].cap);
            && |s'.chans| == |s.chans|
            && (s.chans[c] == NO_RECORD ==> s'.chans[c] == NO_RECORD)
            && (Eats(s.list[p].cap, q) && q.Socket? && q.chan == c && q.tok == 0 ==> s'.chans[c] == NO_RECORD)
            && (!(Eats(s.list[p].cap, q) && q.Socket? && q.chan == c) ==> s'.chans[c] == s.chans[c])
            && (!(Eats(s.list[p].cap, q) && q.Socket? && q.chan == c && q.tok == 0) ==> Serving(s.chans[c], s'.chans[c]))
  {
    assert NodeOk(cfg, s.list[Next(s.list, p)]);
  }

  /** The entry that a pass removes is empty when the revocation is complete. */
  lemma EatenGone(cfg: Config, boot: seq<Cap>, s: State, idx: nat, m: Node)
    requires Revocable(cfg, boot, s, Pos(s.list, idx)) && !s.list[Pos(s.list, idx)].cap.Memory?
    requires var p := Pos(s.list, idx); Eats(s.list[p].cap, s.list[Next(s.list, p)].cap)
    requires m in RevokeAll(cfg, boot, s, idx).list
    ensures m.idx != s.list[Next(s.list, Pos(s.list, idx))].idx
  {
    var p := Pos(s.list, idx);
    RevocableParts(cfg, boot, s, p);
    EatsExact(cfg, boot, s.list, p);
    RevokeExact(cfg, boot, s, idx);
    hide Inv, Eats, RevokeAll, AnchorSafe, BootOk, Bounded, AllWithin, Anchored, AllSound, Order, NoGap, FamSorted, Under, Reset;
    GoneFromRevoked(s.list, p, m);
  }

  lemma GoneFromRevoked(l: List, p: nat, m: Node)
    requires Distinct(l) && p < |l| && Child(l, p) && m in Revoked(l, p)
    ensures m.idx != l[p + 1].idx
  {
    hide Under, Reset, Survivors;
    var r := Revoked(l, p);
    var j: nat :| j < |r| && r[j] == m;
    if j <= p {
      assert r[j].idx == l[j].idx;
    } else {
      SurvivorsClean(l[p], l[p + 1..], j - p - 1);
      var i: nat :| i < |l| && l[i] == m;
    }
  }

  lemma MemoryEatsNoSocket(c: Cap, k: Cap)
    ensures Eats(c, k) && k.Socket? ==> !c.Memory?
  {
  }

  lemma EatenSocketGone(cfg: Config, boot: seq<Cap>, s: State, idx: nat, c: nat)
    requires Revocable(cfg, boot, s, Pos(s.list, idx))
    requires var p := Pos(s.list, idx); Eats(s.list[p].cap, s.list[Next(s.list, p)].cap)
    ensures var q := s.list[Next(s.list, Pos(s.list, idx))];
            q.cap.Socket? && q.cap.chan == c ==> SocketGone(s.list, RevokeAll(cfg, boot, s, idx).list, q, c)
  {
    hide Inv, Eats, RevokeAll, AnchorSafe;
    var q := s.list[Next(s.list, Pos(s.list, idx))];
    MemoryEatsNoSocket(s.list[Pos(s.list, idx)].cap, q.cap);
    if q.cap.Socket? {
      forall m | m in RevokeAll(cfg, boot, s, idx).list ensures m.idx != q.idx { EatenGone(cfg, boot, s, idx, m); }
    }
  }

  /** A socket that one pass leaves listed is the same socket afterwards. */
  lemma SocketStays(cfg: Config, boot: seq<Cap>, s: State, p: nat, n: Node)
    requires Revocable(cfg, boot, s, p) && n in s.list && n.cap.Socket?
    requires !Eats(s.list[p].cap, s.list[Next(s.list, p)].cap) || n != s.list[Next(s.list, p)]
    ensures n in RevokeStepAt(cfg, s, p).0.list
  {
    hide Under, Ordered, Within, Eats, Bounded, ScheduleAgrees, RegistersAgree, BootOk, AnchorSafe, AllWithin,
         Anchored, Order, NoGap, FamSorted;
    var l := s.list;
    RevocableParts(cfg, boot, s, p);
    var i: nat :| i < |l| && l[i] == n;
    var r := PassList(l, p);
    var j := if Eats(l[p].cap, l[Next(l, p)].cap) && i > p + 1 then i - 1 else i;
    assert r[j] == n;
  }

  /** A complete revocation clears the record of every channel whose server socket it removed,
      leaves the record of every channel of which it removed no socket, and where it removed only
      client sockets leaves the server. */
  lemma {:induction false} RevokeClears(cfg: Config, boot: seq<Cap>, s: State, idx: nat, c: nat)
    requires Revocable(cfg, boot, s, Pos(s.list, idx)) && c < |s.chans|
    ensures var r := RevokeAll(cfg, boot, s, idx);
            && |r.chans| == |s.chans|
            && (s.chans[c] == NO_RECORD ==> r.chans[c] == NO_RECORD)
            && (forall n :: SocketGone(s.list, r.list, n, c) && n.cap.tok == 0 ==> r.chans[c] == NO_RECORD)
            && ((forall n :: !SocketGone(s.list, r.list, n, c)) ==> r.chans[c] == s.chans[c])
            && ((forall n :: SocketGone(s.list, r.list, n, c) ==> n.cap.tok != 0) ==> Serving(s.chans[c], r.chans[c]))
    decreases |s.list|
  {
    hide Under, Ordered, Within, Eats, Bounded, ListInv, ScheduleAgrees, RegistersAgree, BootOk, SameAuthority, Reset,
         PassList, PassVerdict, RevokeStepAt;
    var p := Pos(s.list, idx);
    var s' := RevokeStepAt(cfg, s, p).0;
    var r := RevokeAll(cfg, boot, s, idx);
    var q := s.list[Next(s.list, p)];
    RevokePassKeepsInv(cfg, boot, s, p);
    PassChans(cfg, s, p, c);
    if RevokeStepAt(cfg, s, p).1 == Continue {
      RevokeClears(cfg, boot, s', idx, c);
    }
    forall n | SocketGone(s.list, r.list, n, c) && n.cap.tok == 0 ensures r.chans[c] == NO_RECORD {
      GoneLater(cfg, boot, s, idx, n, c);
    }
    if forall n :: !SocketGone(s.list, r.list, n, c) {
      NoneGone(cfg, boot, s, idx, c);
    }
    if forall n :: SocketGone(s.list, r.list, n, c) ==> n.cap.tok != 0 {
      NoServerGone(cfg, boot, s, idx, c);
    }
  }

  /** A removed socket was removed by this pass or will be by a later one. */
  lemma GoneLater(cfg: Config, boot: seq<Cap>, s: State, idx: nat, n: Node, c: nat)
    requires Revocable(cfg, boot, s, Pos(s.list, idx))
    requires SocketGone(s.list, RevokeAll(cfg, boot, s, idx).list, n, c)
    ensures var p := Pos(s.list, idx);
            var q := s.list[Next(s.list, p)];
            var s' := RevokeStepAt(cfg, s, p).0;
            || (Eats(s.list[p].cap, q.cap) && n == q)
            || (RevokeStepAt(cfg, s, p).1 == Continue && SocketGone(s'.list, RevokeAll(cfg, boot, s, idx).list, n, c))
  {
    hide Under, Ordered, Within, Eats, Bounded, ListInv, ScheduleAgrees, RegistersAgree, BootOk, SameAuthority, Reset,
         PassList, PassVerdict, RevokeStepAt;
    var p := Pos(s.list, idx);
    RevokePassKeepsInv(cfg, boot, s, p);
    if !(Eats(s.list[p].cap, s.list[Next(s.list, p)].cap) && n == s.list[Next(s.list, p)]) {
      SocketStays(cfg, boot, s, p, n);
    }
  }

  lemma NoServerGone(cfg: Config, boot: seq<Cap>, s: State, idx: nat, c: nat)
    requires Revocable(cfg, boot, s, Pos(s.list, idx))
    requires forall n :: SocketGone(s.list, RevokeAll(cfg, boot, s, idx).list, n, c) ==> n.cap.tok != 0
    ensures var p := Pos(s.list, idx);
            var q := s.list[Next(s.list, p)].cap;
            var s' := RevokeStepAt(cfg, s, p).0;
            && !(Eats(s.list[p].cap, q) && q.Socket? && q.chan == c && q.tok == 0)
            && forall n :: SocketGone(s'.list, RevokeAll(cfg, boot, s, idx).list, n, c) ==> n.cap.tok != 0
  {
    hide Under, Ordered, Within, Eats, Bounded, ListInv, ScheduleAgrees, RegistersAgree, BootOk, RevokeAll;
    var p := Pos(s.list, idx);
    var r := RevokeAll(cfg, boot, s, idx);
    if Eats(s.list[p].cap, s.list[Next(s.list, p)].cap) {
      EatenSocketGone(cfg, boot, s, idx, c);
    }
    forall n | SocketGone(RevokeStepAt(cfg, s, p).0.list, r.list, n, c) ensures n.cap.tok != 0 {
      SocketBefore(cfg, s, p, n);
      assert SocketGone(s.list, r.list, n, c);
    }
  }

  /** If no socket of a channel goes, this pass removes none and no later one does. */
  lemma NoneGone(cfg: Config, boot: seq<Cap>, s: State, idx: nat, c: nat)
    requires Revocable(cfg, boot, s, Pos(s.list, idx))
    requires forall n :: !SocketGone(s.list, RevokeAll(cfg, boot, s, idx).list, n, c)
    ensures var p := Pos(s.list, idx);
            var q := s.list[Next(s.list, p)].cap;
            var s' := RevokeStepAt(cfg, s, p).0;
            && !(Eats(s.list[p].cap, q) && q.Socket? && q.chan == c)
            && forall n :: !SocketGone(s'.list, RevokeAll(cfg, boot, s, idx).list, n, c)
  {
    hide Under, Ordered, Within, Eats, Bounded, ListInv, ScheduleAgrees, RegistersAgree, BootOk, RevokeAll;
    var p := Pos(s.list, idx);
    var q := s.list[Next(s.list, p)];
    var r := RevokeAll(cfg, boot, s, idx);
    if Eats(s.list[p].cap, q.cap) {
      EatenSocketGone(cfg, boot, s, idx, c);
      assert !SocketGone(s.list, r.list, q, c);
    }
    forall n ensures !SocketGone(RevokeStepAt(cfg, s, p).0.list, r.list, n, c) {
      SocketBefore(cfg, s, p, n);
      assert !SocketGone(s.list, r.list, n, c);
    }
  }

  lemma RewriteKind(c: Cap, k: Cap)
    ensures (Absorb(c, k).Socket? || Reset(c).Socket?) ==> Absorb(c, k) == c && Reset(c) == c
  {
  }

  lemma PassMembers(l: List, p: nat, n: Node)
    requires p < |l| && n in PassList(l, p)
    ensures n in l || n == l[p].(cap := Absorb(l[p].cap, l[Next(l, p)].cap)) || n == l[p].(cap := Absorb(l[p].cap, l[p].cap))
            || n == l[p].(cap := Reset(l[p].cap))
  {
    hide Eats, Absorb, Reset, Ranged;
    var q := Next(l, p);
    var m := SetCap(l, p, Absorb(l[p].cap, l[q].cap));
    assert n in RemoveAt(m, q) ==> n in m;
  }

  /** A pass creates no socket. */
  lemma SocketBefore(cfg: Config, s: State, p: nat, n: Node)
    requires Bounded(cfg, s) && p < |s.list|
    ensures n.cap.Socket? && n in RevokeStepAt(cfg, s, p).0.list ==> n in s.list
  {
    var l := s.list;
    RewriteKind(l[p].cap, l[Next(l, p)].cap);
    RewriteKind(l[p].cap, l[p].cap);
    hide Eats, Bounded, UnloadCap, ClearSock, PassVerdict, Absorb, Reset, PassList;
    if n in PassList(l, p) { PassMembers(l, p, n); }
  }
}
