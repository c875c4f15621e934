/** What each capability call answers, and what it does to every table entry, register and channel
    record, told by the fields of the capabilities alone. */
module Effects {
  import opened Arith
  import opened Capability
  import opened CapList
  import opened Schedule
  import opened CapOps
  import opened CapTable

  // ----- entries and words -----

  /** Entry `i` of process `pid`'s table belongs to that process. */
  lemma OwnerOfEntry(cfg: Config, pid: nat, i: nat)
    requires ValidConfig(cfg) && pid < cfg.procCnt && i < cfg.capCnt
    ensures pid * cfg.capCnt + i < TableSize(cfg) && Pid(cfg, pid * cfg.capCnt + i) == pid
  {
    MulMore(pid + 1, cfg.procCnt, cfg.capCnt);
    assert (pid + 1) * cfg.capCnt == pid * cfg.capCnt + cfg.capCnt;
    DivUnique(pid * cfg.capCnt + i, cfg.capCnt, pid, i);
  }

  /** What user code may hand in: a capability as fresh as a new derivation. */
  lemma ValidIsFresh(c: Cap)
    ensures CapIsValid(c) <==>
              && !c.None? && Lo(c) < Hi(c)
              && (Ranged(c) ==> Mark(c) == Lo(c))
              && (c.Memory? ==> !c.lck)
              && (c.Pmp? ==> !c.used && c.slot == 0)
              && (c.Socket? ==> c.mode == 0 || c.mode == 1)
  {
  }

  /** Memory blocks are 4 KiB, and a tag names 128 MiB. */
  lemma Blocks(tag: nat, block: nat)
    ensures BlockAddr(0, 0) == 0
    ensures BlockAddr(tag, block + 1) == BlockAddr(tag, block) + 0x1000
    ensures BlockAddr(tag + 1, block) == BlockAddr(tag, block) + 0x800_0000
  {
  }

  /** The frame of an encoded range is that range. */
  lemma FrameOfRange(base: bv64, size: bv64)
    requires 8 <= size <= 0x8_0000_0000_0000 && base < 0x4_0000_0000_0000
    requires size & (size - 1) == 0 && base & (size - 1) == 0
    ensures NapotEncode(base, size) < 0x1_0000_0000_0000
    ensures FrameBegin(NapotEncode(base, size)) == base as nat
    ensures FrameEnd(NapotEncode(base, size)) == base as nat + size as nat
  {
    hide NapotBase, NapotSize, NapotEncode;
    EncodeFits(base, size);
    DecodeEncode(base, size);
  }

  /** The configuration byte of a loaded register: bits 0, 1 and 2 are read, write and execute, and
      the rest says NAPOT and not locked. */
  lemma RegisterBits(rwx: Rwx)
    ensures PmpCfg(rwx) % 2 == 1 <==> rwx.r
    ensures PmpCfg(rwx) / 2 % 2 == 1 <==> rwx.w
    ensures PmpCfg(rwx) / 4 % 2 == 1 <==> rwx.x
    ensures PmpCfg(rwx) / 8 == 3
  {
  }

  // ----- one entry after an edit of the list -----

  lemma CapAtIs(l: List, k: nat)
    requires Distinct(l) && k < |l|
    ensures CapAt(l, l[k].idx) == l[k].cap
  {
    PosUnique(l, k);
  }

  lemma CapAtNone(l: List, i: nat)
    requires forall k: nat :: k < |l| ==> l[k].idx != i
    ensures CapAt(l, i).None?
  {
    PosUnlisted(l, i);
  }

  lemma CapAtSetCap(l: List, p: nat, c: Cap, i: nat)
    requires Distinct(l) && p < |l|
    ensures CapAt(SetCap(l, p, c), i) == if i == l[p].idx then c else CapAt(l, i)
  {
    var r := SetCap(l, p, c);
    var k := Pos(l, i);
    if k < |l| {
      CapAtIs(r, k);
      PosUnique(l, p);
    } else {
      CapAtNone(r, i);
    }
  }

  lemma CapAtSetIdx(l: List, p: nat, idx: nat, i: nat)
    requires Distinct(l) && p < |l| && Pos(l, idx) == |l|
    ensures CapAt(SetIdx(l, p, idx), i) == if i == idx then l[p].cap else if i == l[p].idx then None else CapAt(l, i)
  {
    var r := SetIdx(l, p, idx);
    PosUnlisted(l, idx);
    var k := Pos(l, i);
    if i == idx {
      CapAtIs(r, p);
    } else if i != l[p].idx && k < |l| {
      CapAtIs(r, k);
    } else {
      CapAtNone(r, i);
    }
  }

  lemma CapAtRemove(l: List, p: nat, i: nat)
    requires Distinct(l) && p < |l|
    ensures CapAt(RemoveAt(l, p), i) == if i == l[p].idx then None else CapAt(l, i)
  {
    var r := RemoveAt(l, p);
    assert forall j: nat :: j < |r| ==> r[j] == l[if j < p then j else j + 1];
    var k := Pos(l, i);
    if k < |l| && k != p {
      assert r[if k < p then k else k - 1] == l[k];
      CapAtIs(r, if k < p then k else k - 1);
      PosUnique(l, p);
    } else {
      CapAtNone(r, i);
    }
  }

  lemma InsertDistinct(l: List, p: nat, idx: nat, c: Cap)
    requires Distinct(l) && p < |l| && Pos(l, idx) == |l|
    ensures var r := InsertAfter(l, p, idx, c);
            Distinct(r) && forall j: nat :: j < |r| ==> r[j] == if j <= p then l[j] else if j == p + 1 then Node(idx, c, l[p].fam) else l[j - 1]
  {
    PosUnlisted(l, idx);
  }

  lemma CapAtInsert(l: List, p: nat, idx: nat, c: Cap, i: nat)
    requires Distinct(l) && p < |l| && Pos(l, idx) == |l|
    ensures CapAt(InsertAfter(l, p, idx, c), i) == if i == idx then c else CapAt(l, i)
  {
    var r := InsertAfter(l, p, idx, c);
    InsertDistinct(l, p, idx, c);
    hide InsertAfter, Distinct;
    var k := Pos(l, i);
    if i == idx {
      CapAtIs(r, p + 1);
    } else if k < |l| {
      CapAtIs(r, if k <= p then k else k + 1);
    } else {
      PosUnlisted(l, i);
      CapAtNone(r, i);
    }
  }

  /** Entries are empty exactly when they are not listed. */
  lemma EmptyUnlisted(cfg: Config, s: State, i: nat)
    requires Bounded(cfg, s)
    ensures CapAt(s.list, i).None? <==> Pos(s.list, i) == |s.list|
  {
    var p := Pos(s.list, i);
    assert p < |s.list| ==> NodeOk(cfg, s.list[p]);
  }

  // ----- move -----

  /** A moved frame that changes its process is unloaded. */
  function Carried(cfg: Config, c: Cap, src: nat, dst: nat): Cap
    requires cfg.capCnt > 0
  {
    if c.Pmp? && c.used && src / cfg.capCnt != dst / cfg.capCnt then Pmp(c.addr, c.rwx, false, 0) else c
  }

  /** cap_move: which answer, and what every entry holds afterwards. The entry keeps its place in
      the derivation order. */
  lemma MoveEffect(cfg: Config, s: State, src: nat, dst: nat)
    requires Bounded(cfg, s) && Distinct(s.list) && src < TableSize(cfg) && dst < TableSize(cfg)
    ensures var (r, err) := Move(cfg, s, src, dst);
            var (from, to) := (CapAt(s.list, src), CapAt(s.list, dst));
            && (err == SrcEmpty <==> from.None?)
            && (err == DstOccupied <==> !from.None? && !to.None?)
            && (err == Success <==> !from.None? && to.None?)
            && (err != Success ==> r == s)
            && (err == Success ==>
                  && (forall i: nat :: CapAt(r.list, i) ==
                        if i == dst then Carried(cfg, from, src, dst) else if i == src then None else CapAt(s.list, i))
                  && |r.list| == |s.list| && Pos(r.list, dst) == Pos(s.list, src)
                  && r.chans == s.chans)
  {
    hide TableSize, Update, CapOk, Unload;
    EmptyUnlisted(cfg, s, src);
    EmptyUnlisted(cfg, s, dst);
    var l, p := s.list, Pos(s.list, src);
    if p < |l| && Pos(l, dst) == |l| {
      var r := Move(cfg, s, src, dst).0;
      var c := Carried(cfg, l[p].cap, src, dst);
      var m := SetCap(l, p, c);
      assert c == l[p].cap ==> m == l;
      assert r.list == SetIdx(m, p, dst);
      MovedEntries(l, p, c, dst);
    }
  }

  lemma MovedEntries(l: List, p: nat, c: Cap, dst: nat)
    requires Distinct(l) && p < |l| && Pos(l, dst) == |l|
    ensures var r := SetIdx(SetCap(l, p, c), p, dst);
            && (forall i: nat :: CapAt(r, i) == if i == dst then c else if i == l[p].idx then None else CapAt(l, i))
            && Pos(r, dst) == p
  {
    var m := SetCap(l, p, c);
    PosUnlisted(l, dst);
    PosUnlisted(m, dst);
    var r := SetIdx(m, p, dst);
    forall i: nat ensures CapAt(r, i) == if i == dst then c else if i == l[p].idx then None else CapAt(l, i) {
      CapAtSetIdx(m, p, dst, i);
      CapAtSetCap(l, p, c, i);
    }
    PosUnique(r, p);
  }

  // ----- delete -----

  /** The record of channel `k` after socket `c` of process `pid` went. */
  predicate RecordAfter(c: Cap, pid: nat, k: nat, before: Chan, after: Chan)
    requires c.Socket?
  {
    if k != c.chan then after == before
    else if c.tok == 0 then after.server.Nothing? && after.client.Nothing? && after.capBuf.Nothing?
    else
      && after.server == before.server && after.capBuf == before.capBuf
      && (after.client == if before.client == Some(pid) then Nothing else before.client)
  }

  /** cap_delete: which answer, and what every entry, register and record holds afterwards. */
  lemma DeleteEffect(cfg: Config, s: State, idx: nat)
    requires Bounded(cfg, s) && Distinct(s.list) && idx < TableSize(cfg)
    ensures var (r, err) := Delete(cfg, s, idx);
            var c := CapAt(s.list, idx);
            && (err == if c.None? then Empty else Success)
            && (c.None? ==> r == s)
            && (!c.None? ==> |r.list| == |s.list| - 1)
            && (forall i: nat :: CapAt(r.list, i) == if i == idx then None else CapAt(s.list, i))
            && |r.chans| == |s.chans|
            && (forall k: nat :: k < |s.chans| ==>
                  if c.Socket? then RecordAfter(c, idx / cfg.capCnt, k, s.chans[k], r.chans[k]) else r.chans[k] == s.chans[k])
            && |r.pmp| == |s.pmp|
            && (forall i: nat, j: nat :: i < cfg.procCnt && j < cfg.pmpCnt && |r.pmp[i]| == cfg.pmpCnt ==>
                  if c.Pmp? && c.used && i == idx / cfg.capCnt && j == c.slot then r.pmp[i][j].cfg == 0
                  else r.pmp[i][j] == s.pmp[i][j])
  {
    hide TableSize, Erase;
    EmptyUnlisted(cfg, s, idx);
    var p := Pos(s.list, idx);
    if p < |s.list| {
      assert NodeOk(cfg, s.list[p]);
      forall i: nat ensures CapAt(RemoveAt(s.list, p), i) == if i == idx then None else CapAt(s.list, i) {
        CapAtRemove(s.list, p, i);
      }
    }
  }

  // ----- derive -----

  /** `a` asks for no right that `b` lacks. */
  predicate NoMoreRights(a: Rwx, b: Rwx) {
    (a.r ==> b.r) && (a.w ==> b.w) && (a.x ==> b.x)
  }

  /** cap_derive succeeds exactly for a new capability from the free part of its source: the same
      kind and region, no more rights, memory only from unlocked memory, time from the mark on; and
      a server socket makes clients of its own channel, mode and permissions. */
  lemma DeriveIff(cfg: Config, s: State, src: nat, dst: nat, n: Cap)
    requires Bounded(cfg, s) && src < TableSize(cfg) && dst < TableSize(cfg) && CapIsValid(n)
    ensures var c := CapAt(s.list, src);
            var err := Derive(cfg, s, src, dst, n).1;
            && (err == SrcEmpty <==> c.None?)
            && (err == DstOccupied <==> !c.None? && !CapAt(s.list, dst).None?)
            && (err == Success || err == InvalidDerivation <==> !c.None? && CapAt(s.list, dst).None?)
            && (!c.None? && CapAt(s.list, dst).None? ==>
                  (err == Success <==>
                     if Ranged(c) then
                       && Mark(c) <= Lo(n) && Hi(n) <= Hi(c)
                       && ((c.Time? && n.Time? && n.hart == c.hart && Lo(n) == Mark(c))
                           || (c.Memory? && n.Memory? && n.tag == c.tag && NoMoreRights(n.rwx, c.rwx) && !c.lck)
                           || (c.Memory? && n.Pmp? && NoMoreRights(n.rwx, c.rwx))
                           || (c.Monitor? && n.Monitor?)
                           || (c.Channel? && (n.Channel? || n.Socket?)))
                     else
                       && c.Socket? && c.tok == 0 && n.Socket? && n.tok != 0
                       && n.chan == c.chan && n.mode == c.mode && n.perm == c.perm))
  {
    hide TableSize, Update, Pid;
    EmptyUnlisted(cfg, s, src);
    EmptyUnlisted(cfg, s, dst);
    var p := Pos(s.list, src);
    if p < |s.list| {
      assert NodeOk(cfg, s.list[p]);
    }
  }

  /** What source and new entry hold after a derivation: the new capability stands right behind its
      source; the source's mark is the new one's end, or it is locked, or a server socket as it was.
      Nothing else changes. */
  lemma DeriveEffect(cfg: Config, s: State, src: nat, dst: nat, n: Cap)
    requires Bounded(cfg, s) && Distinct(s.list) && src < TableSize(cfg) && dst < TableSize(cfg) && CapIsValid(n)
    ensures var (r, err) := Derive(cfg, s, src, dst, n);
            var (c, c') := (CapAt(s.list, src), CapAt(r.list, src));
            && (err != Success ==> r == s)
            && (err == Success ==>
                  && CapAt(r.list, dst) == n
                  && (forall i: nat :: i != src && i != dst ==> CapAt(r.list, i) == CapAt(s.list, i))
                  && Pos(r.list, dst) == Pos(r.list, src) + 1 && |r.list| == |s.list| + 1
                  && r.chans == s.chans && r.pmp == s.pmp
                  && Lo(c') == Lo(c) && Hi(c') == Hi(c) && (Ranged(c') <==> Ranged(c))
                  && (c.Time? ==> c'.Time? && c'.hart == c.hart && Mark(c') == Hi(n))
                  && (c.Monitor? ==> c'.Monitor? && Mark(c') == Hi(n))
                  && (c.Channel? ==> c'.Channel? && Mark(c') == Hi(n))
                  && (c.Memory? ==>
                        && c'.Memory? && c'.tag == c.tag && c'.rwx == c.rwx
                        && (if n.Memory? then Mark(c') == Hi(n) && c'.lck == c.lck else Mark(c') == Mark(c) && c'.lck))
                  && (c.Socket? ==> c' == c))
  {
    hide TableSize, Update, Pid;
    EmptyUnlisted(cfg, s, src);
    EmptyUnlisted(cfg, s, dst);
    var l, p := s.list, Pos(s.list, src);
    if p < |l| && Pos(l, dst) == |l| && CanDerive(l[p].cap, n) {
      var c' := Charged(l[p].cap, n);
      DerivedEntries(l, p, c', dst, n);
    }
  }

  lemma DerivedEntries(l: List, p: nat, c: Cap, dst: nat, n: Cap)
    requires Distinct(l) && p < |l| && Pos(l, dst) == |l|
    ensures var r := InsertAfter(SetCap(l, p, c), p, dst, n);
            && (forall i: nat :: CapAt(r, i) == if i == dst then n else if i == l[p].idx then c else CapAt(l, i))
            && Pos(r, l[p].idx) == p && Pos(r, dst) == p + 1 && l[p].idx != dst && |r| == |l| + 1
  {
    var m := SetCap(l, p, c);
    PosUnlisted(l, dst);
    PosUnlisted(m, dst);
    var r := InsertAfter(m, p, dst, n);
    forall i: nat ensures CapAt(r, i) == if i == dst then n else if i == l[p].idx then c else CapAt(l, i) {
      CapAtInsert(m, p, dst, n, i);
      CapAtSetCap(l, p, c, i);
    }
    InsertDistinct(m, p, dst, n);
    hide InsertAfter, Distinct;
    PosUnique(r, p);
    PosUnique(r, p + 1);
  }

  // ----- revoke -----

  /** When a pass of the revocation loop asks for another one: it removed the next entry, which was
      not one of the same kind with everything from the revoked capability's begin still its own. */
  lemma AsksAgainIff(l: List, p: nat)
    requires p < |l|
    ensures var c, k := l[p].cap, l[Next(l, p)].cap;
            PassVerdict(l, p) == Continue <==>
              && Eats(c, k)
              && !(Ranged(c) && Ranged(k) && Mark(k) == Lo(c) && !(k.Memory? && k.lck))
    ensures PassVerdict(l, p) == Continue || PassVerdict(l, p) == Success
  {
  }

  // ----- PMP registers -----

  /** cap_pmp_load: which answer, what the register then holds, and that nothing else changes. */
  lemma LoadEffect(cfg: Config, s: State, idx: nat, slot: nat)
    requires Bounded(cfg, s) && Distinct(s.list) && idx < TableSize(cfg) && slot < cfg.pmpCnt
    ensures var (r, err) := PmpLoad(cfg, s, idx, slot);
            var (c, pid) := (CapAt(s.list, idx), Pid(cfg, idx));
            && (err == Empty <==> c.None?)
            && (err == InvalidPmp <==> !c.None? && (!c.Pmp? || c.used))
            && (err == DstOccupied <==> c.Pmp? && !c.used && s.pmp[pid][slot].cfg != 0)
            && (err == Success <==> c.Pmp? && !c.used && s.pmp[pid][slot].cfg == 0)
            && (err != Success ==> r == s)
            && (err == Success ==>
                  && (forall i: nat :: CapAt(r.list, i) == if i == idx then Pmp(c.addr, c.rwx, true, slot) else CapAt(s.list, i))
                  && r.slots == s.slots && r.chans == s.chans
                  && |r.pmp| == |s.pmp| && (forall i: nat :: i < |s.pmp| ==> |r.pmp[i]| == |s.pmp[i]|)
                  && r.pmp[pid][slot].addr == c.addr
                  && (r.pmp[pid][slot].cfg % 2 == 1 <==> c.rwx.r)
                  && (r.pmp[pid][slot].cfg / 2 % 2 == 1 <==> c.rwx.w)
                  && (r.pmp[pid][slot].cfg / 4 % 2 == 1 <==> c.rwx.x)
                  && r.pmp[pid][slot].cfg / 8 == 3
                  && (forall i: nat, j: nat :: i < cfg.procCnt && j < cfg.pmpCnt && !(i == pid && j == slot) ==>
                        r.pmp[i][j] == s.pmp[i][j]))
  {
    hide TableSize, Pid, CapOk, PmpCfg;
    EmptyUnlisted(cfg, s, idx);
    var p := Pos(s.list, idx);
    if p < |s.list| && s.list[p].cap.Pmp? {
      RegisterBits(s.list[p].cap.rwx);
      forall i: nat ensures CapAt(SetCap(s.list, p, Bind(s.list[p].cap, true, slot)), i) ==
                            if i == idx then Bind(s.list[p].cap, true, slot) else CapAt(s.list, i) {
        CapAtSetCap(s.list, p, Bind(s.list[p].cap, true, slot), i);
      }
    }
  }

  /** cap_pmp_unload likewise: the register is free afterwards and keeps its address. */
  lemma UnloadEffect(cfg: Config, s: State, idx: nat)
    requires Bounded(cfg, s) && Distinct(s.list) && idx < TableSize(cfg)
    ensures var (r, err) := PmpUnload(cfg, s, idx);
            var (c, pid) := (CapAt(s.list, idx), Pid(cfg, idx));
            && (err == Empty <==> c.None?)
            && (err == InvalidPmp <==> !c.None? && !(c.Pmp? && c.used))
            && (err == Success <==> c.Pmp? && c.used)
            && (err != Success ==> r == s)
            && (err == Success ==>
                  && c.slot < cfg.pmpCnt
                  && (forall i: nat :: CapAt(r.list, i) == if i == idx then Pmp(c.addr, c.rwx, false, 0) else CapAt(s.list, i))
                  && r.slots == s.slots && r.chans == s.chans
                  && |r.pmp| == |s.pmp| && (forall i: nat :: i < |s.pmp| ==> |r.pmp[i]| == |s.pmp[i]|)
                  && r.pmp[pid][c.slot].cfg == 0 && r.pmp[pid][c.slot].addr == s.pmp[pid][c.slot].addr
                  && (forall i: nat, j: nat :: i < cfg.procCnt && j < cfg.pmpCnt && !(i == pid && j == c.slot) ==>
                        r.pmp[i][j] == s.pmp[i][j]))
  {
    hide TableSize, Pid;
    EmptyUnlisted(cfg, s, idx);
    var p := Pos(s.list, idx);
    if p < |s.list| {
      assert NodeOk(cfg, s.list[p]);
      if s.list[p].cap.Pmp? {
        forall i: nat ensures CapAt(SetCap(s.list, p, Bind(s.list[p].cap, false, 0)), i) ==
                              if i == idx then Bind(s.list[p].cap, false, 0) else CapAt(s.list, i) {
          CapAtSetCap(s.list, p, Bind(s.list[p].cap, false, 0), i);
        }
      }
    }
  }

  // ----- schedule words -----

  /** The word of a slot after lane `lane` of a clear word was written: owner and length sit at bits
      16 * lane + 8 and 16 * lane. */
  lemma PackedWord(pid: nat, len: nat)
    requires pid < 256 && len < 256
    ensures Put(0, 0, Entry(pid, len)) == pid * 0x100 + len
    ensures Put(0, 1, Entry(pid, len)) == pid * 0x100_0000 + len * 0x1_0000
    ensures Put(0, 2, Entry(pid, len)) == pid * 0x100_0000_0000 + len * 0x1_0000_0000
    ensures Put(0, 3, Entry(pid, len)) == pid * 0x100_0000_0000_0000 + len * 0x1_0000_0000_0000
  {
    hide Put;
    var v := Entry(pid, len);
    assert v == pid * 256 + len;
    hide Entry;
    PutZero(0, v);
    PutZero(1, v);
    PutZero(2, v);
    PutZero(3, v);
  }

  lemma PutZero(lane: nat, v: nat)
    requires lane < 4 && v <= 0xFFFF
    ensures Put(0, lane, v) ==
            if lane == 0 then v else if lane == 1 then v * 0x1_0000
            else if lane == 2 then v * 0x1_0000_0000 else v * 0x1_0000_0000_0000
  {
    ClearZero(lane);
    OrZero(lane, v);
    LaneOfClear(0, lane, lane);
    hide Clear, Or, Lane;
  }

  lemma ClearZero(lane: nat)
    requires lane < 4
    ensures Clear(0, lane) == 0 && Lane(0, lane) == 0
  {
    Joined(0, 0, 0, 0, 0);
    hide Lane, Unit;
    assert Lane(0, lane) * Unit(lane) == 0;
  }

  lemma OrZero(lane: nat, v: nat)
    requires lane < 4 && v <= 0xFFFF && Lane(0, lane) == 0
    ensures Or(0, lane, v) ==
            if lane == 0 then v else if lane == 1 then v * 0x1_0000
            else if lane == 2 then v * 0x1_0000_0000 else v * 0x1_0000_0000_0000
  {
    hide Lane;
  }

  /** The lane of a hart counts from the lowest hart. */
  lemma LaneOfHart(cfg: Config, slots: Slots, h: nat, t: nat)
    requires ValidConfig(cfg) && HartOk(cfg, h) && t < |slots|
    ensures h == cfg.minHart ==> At(cfg, slots, h, t) == slots[t] % 0x1_0000
    ensures h < cfg.maxHart ==> LaneNo(cfg, h + 1) == LaneNo(cfg, h) + 1
  {
    DivUnique(slots[t], 1, slots[t], 0);
  }
}
