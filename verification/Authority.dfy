/** What the boot capabilities guarantee for every descendant, and the system invariant
    that ties the derivation list to the schedule and to the PMP registers. */
module Authority {
  import opened Capability
  import opened CapList
  import opened Schedule
  import opened CapOps

  // ----- boot capabilities -----

  /** The boot capabilities in list order. The boot PMP frame comes first; it can
      derive nothing, so it closes the cycle behind the last family. */
  ghost predicate BootOk(cfg: Config, boot: seq<Cap>) {
    && ValidConfig(cfg)
    && |boot| > 0
    && boot[0].Pmp?
    && (forall f: nat :: 0 < f < |boot| ==> Ranged(boot[f]) && CapIsValid(boot[f]))
    && (forall f: nat :: f < |boot| ==> CapOk(cfg, boot[f]))
    && (forall f: nat, g: nat :: f < g < |boot| ==> Apart(boot[f], boot[g]))
    && (forall f: nat :: f < |boot| && LastMemory(boot, f) ==> FrameBegin(boot[0].addr) < Lo(boot[f]))
  }

  /** No revocation test can be fooled by two boot capabilities, the first listed before
      the second: one-sided tests need a kind to themselves, or descending ranges. Memory
      regions do not overlap. */
  predicate Apart(b: Cap, c: Cap) {
    && (b.Time? && c.Time? ==> b.hart != c.hart)
    && !(b.Monitor? && c.Monitor?)
    && !(b.Channel? && c.Channel?)
    && (b.Memory? && c.Memory? ==> b.tag != c.tag || c.end <= b.bgn)
    && (b.Memory? && c.Memory? ==> Hi(b) <= Lo(c) || Hi(c) <= Lo(b))
  }

  ghost predicate LastMemory(boot: seq<Cap>, f: nat)
    requires f < |boot|
  {
    boot[f].Memory? && forall g: nat :: f < g < |boot| ==> !boot[g].Memory?
  }

  /** `c` carries no more authority than `b`. */
  predicate Within(b: Cap, c: Cap) {
    && Lo(b) <= Lo(c) && Hi(c) <= Hi(b)
    && match b
       case None => false
       case Time(hart, _, _, _) => c.Time? && c.hart == hart
       case Memory(tag, rwx, _, _, _, _) =>
         ((c.Memory? && c.tag == tag) || c.Pmp?) && RwxLe(c.rwx, rwx)
       case Pmp(addr, rwx, _, _) => c.Pmp? && c.addr == addr && c.rwx == rwx
       case Monitor(_, _, _) => c.Monitor?
       case Channel(_, _, _) => c.Channel? || c.Socket?
       case Socket(_, _, _, _) => false
  }

  predicate WithinBoot(boot: seq<Cap>, n: Node) {
    n.fam < |boot| && Within(boot[n.fam], n.cap)
  }

  ghost predicate AllWithin(boot: seq<Cap>, l: List) {
    forall i: nat :: i < |l| ==> WithinBoot(boot, l[i])
  }

  /** The boot frame is listed, first, and alone in its family. */
  ghost predicate Anchored(l: List) {
    && |l| > 0 && l[0].fam == 0
    && forall i: nat :: 0 < i < |l| ==> l[i].fam != 0
  }

  predicate IsHead(l: List, i: nat)
    requires i < |l|
  {
    i == 0 || l[i - 1].fam != l[i].fam
  }

  predicate HeadOk(boot: seq<Cap>, l: List, i: nat)
    requires i < |l|
  {
    IsHead(l, i) && l[i].fam < |boot| && boot[l[i].fam].Memory? ==>
      l[i].cap.Memory? && Lo(l[i].cap) == Lo(boot[l[i].fam]) && Hi(l[i].cap) == Hi(boot[l[i].fam])
  }

  ghost predicate Listed(l: List, f: nat) {
    exists i: nat :: i < |l| && l[i].fam == f
  }

  /** Every boot memory capability, or a copy with its whole range, still heads its family. */
  ghost predicate MemoryRoots(boot: seq<Cap>, l: List) {
    && (forall f: nat :: f < |boot| && boot[f].Memory? ==> Listed(l, f))
    && (forall i: nat :: i < |l| ==> HeadOk(boot, l, i))
  }

  // ----- derived structures -----

  /** `n` is the time capability that owns slot `t` of hart `h`. */
  predicate Owns(n: Node, h: nat, t: nat) {
    n.cap.Time? && n.cap.hart == h && n.cap.mrk <= t < n.cap.end
  }

  ghost predicate SlotAgrees(cfg: Config, s: State, h: nat, t: nat)
    requires Bounded(cfg, s) && HartOk(cfg, h) && t < cfg.slotCnt
  {
    && (forall n :: n in s.list && Owns(n, h, t) ==>
          At(cfg, s.slots, h, t) == Entry(Pid(cfg, n.idx), n.cap.end - t))
    && ((forall n :: n in s.list ==> !Owns(n, h, t)) ==> At(cfg, s.slots, h, t) == 0)
  }

  /** Every hart finds in every slot exactly what the time capabilities say. */
  ghost predicate ScheduleAgrees(cfg: Config, s: State)
    requires Bounded(cfg, s)
  {
    forall h: nat, t: nat :: HartOk(cfg, h) && t < cfg.slotCnt ==> SlotAgrees(cfg, s, h, t)
  }

  /** `n` is a frame loaded into register `slot` of process `pid`. */
  predicate Loads(cfg: Config, n: Node, pid: nat, slot: nat)
    requires ValidConfig(cfg)
  {
    n.idx < TableSize(cfg) && n.cap.Pmp? && n.cap.used && n.cap.slot == slot && Pid(cfg, n.idx) == pid
  }

  ghost predicate Loaded(cfg: Config, l: List, pid: nat, slot: nat)
    requires ValidConfig(cfg)
  {
    exists n :: n in l && Loads(cfg, n, pid, slot)
  }

  ghost predicate RegisterAgrees(cfg: Config, s: State, pid: nat, slot: nat)
    requires Bounded(cfg, s) && pid < cfg.procCnt && slot < cfg.pmpCnt
  {
    && (forall n :: n in s.list && Loads(cfg, n, pid, slot) ==>
          s.pmp[pid][slot] == PmpReg(PmpCfg(n.cap.rwx), n.cap.addr))
    && (s.pmp[pid][slot].cfg != 0 ==> Loaded(cfg, s.list, pid, slot))
    && (forall n, m :: n in s.list && m in s.list && Loads(cfg, n, pid, slot) && Loads(cfg, m, pid, slot) ==> n == m)
  }

  /** A register is in use exactly when one loaded frame of its process says so. */
  ghost predicate RegistersAgree(cfg: Config, s: State)
    requires Bounded(cfg, s)
  {
    forall pid: nat, slot: nat :: pid < cfg.procCnt && slot < cfg.pmpCnt ==> RegisterAgrees(cfg, s, pid, slot)
  }

  // ----- the system invariant -----

  ghost predicate ListInv(boot: seq<Cap>, l: List) {
    && Threaded(l)
    && AllWithin(boot, l)
    && Anchored(l)
  }

  ghost predicate Inv(cfg: Config, boot: seq<Cap>, s: State) {
    && BootOk(cfg, boot)
    && Bounded(cfg, s)
    && ListInv(boot, s.list)
    && ScheduleAgrees(cfg, s)
    && RegistersAgree(cfg, s)
  }

  // ----- consequences -----

  /** At most one time capability owns a slot. */
  lemma OwnerUnique(cfg: Config, boot: seq<Cap>, l: List, n: Node, m: Node, h: nat, t: nat)
    requires BootOk(cfg, boot) && Threaded(l) && AllWithin(boot, l)
    requires n in l && m in l && Owns(n, h, t) && Owns(m, h, t)
    ensures n == m
  {
    hide Ordered, Within, Under, Sound, CapOk, LastMemory;
    var i: nat :| i < |l| && l[i] == n;
    var j: nat :| j < |l| && l[j] == m;
    assert WithinBoot(boot, l[i]) && WithinBoot(boot, l[j]);
    assert n.fam < m.fam ==> Apart(boot[n.fam], boot[m.fam]);
    assert m.fam < n.fam ==> Apart(boot[m.fam], boot[n.fam]);
    assert i < j ==> OrderedAt(l, i, j);
    assert j < i ==> OrderedAt(l, j, i);
    TimeWithin(boot[n.fam], n.cap);
    TimeWithin(boot[m.fam], m.cap);
    if i != j { TimeDisjoint(l[if i < j then i else j], l[if i < j then j else i], h, t); }
  }

  lemma TimeWithin(b: Cap, c: Cap)
    requires Within(b, c) && c.Time?
    ensures b.Time? && b.hart == c.hart
  {
  }

  lemma TimeDisjoint(n: Node, m: Node, h: nat, t: nat)
    requires Sound(n.cap) && Sound(m.cap) && (n.fam == m.fam ==> Ordered(n.cap, m.cap))
    requires n.fam == m.fam || !(n.cap.Time? && m.cap.Time? && n.cap.hart == m.cap.hart)
    ensures !(Owns(n, h, t) && Owns(m, h, t))
  {
  }

  /** A slot whose lane names one listed owner agrees with the list. */
  lemma SlotTaken(cfg: Config, boot: seq<Cap>, s: State, h: nat, t: nat, w: Node)
    requires BootOk(cfg, boot) && Bounded(cfg, s) && ListInv(boot, s.list)
    requires HartOk(cfg, h) && t < cfg.slotCnt && w in s.list && Owns(w, h, t)
    requires NodeOk(cfg, w) && At(cfg, s.slots, h, t) == Entry(Pid(cfg, w.idx), w.cap.end - t)
    ensures SlotAgrees(cfg, s, h, t)
  {
    hide BootOk, MemoryRoots, Anchored, Threaded, AllWithin, Pid, TableSize, At, Entry;
    forall m | m in s.list && Owns(m, h, t) ensures m == w {
      OwnerUnique(cfg, boot, s.list, m, w, h, t);
    }
  }

  /** A slot whose lane and owners did not change still agrees. */
  lemma SlotKept(cfg: Config, s: State, s': State, h: nat, t: nat)
    requires Bounded(cfg, s) && Bounded(cfg, s') && HartOk(cfg, h) && t < cfg.slotCnt
    requires SlotAgrees(cfg, s, h, t) && At(cfg, s'.slots, h, t) == At(cfg, s.slots, h, t)
    requires forall m: Node :: Owns(m, h, t) ==> (m in s'.list <==> m in s.list)
    ensures SlotAgrees(cfg, s', h, t)
  {
  }

  /** The next entry was derived from the one at `p`, or from something derived from it. */
  predicate Child(l: List, p: nat)
    requires p < |l|
  {
    p + 1 < |l| && l[p + 1].fam == l[p].fam && Under(l[p].cap, l[p + 1].cap)
  }

  /** The neighbour of a memory capability is a frame wholly above it; over the end of the list,
      the boot frame above its begin. */
  predicate Overreach(l: List, p: nat)
    requires p < |l|
  {
    var c, k := l[p].cap, l[Next(l, p)].cap;
    c.Memory? && k.Pmp? && (if p + 1 < |l| then Hi(c) <= Lo(k) else Lo(c) <= Lo(k))
  }

  /** The kernel's neighbour test, in every state: it takes what was derived from the revoked
      entry, and beyond that errs in exactly one way. */
  lemma EatsUnlessOverreach(cfg: Config, boot: seq<Cap>, l: List, p: nat)
    requires BootOk(cfg, boot) && ListInv(boot, l) && p < |l|
    ensures Eats(l[p].cap, l[Next(l, p)].cap) <==> Child(l, p) || Overreach(l, p)
    ensures !(Child(l, p) && Overreach(l, p))
  {
    var q := Next(l, p);
    assert WithinBoot(boot, l[p]) && WithinBoot(boot, l[q]);
    if q == p + 1 {
      assert OrderedAt(l, p, q) && FamLe(l, p, q);
      assert l[p].fam != l[q].fam ==> Apart(boot[l[p].fam], boot[l[q].fam]);
      NeighbourTest(boot, l[p], l[q]);
    }
  }

  lemma NeighbourTest(boot: seq<Cap>, n: Node, m: Node)
    requires WithinBoot(boot, n) && WithinBoot(boot, m) && Sound(n.cap) && Sound(m.cap) && m.fam != 0
    requires if n.fam == m.fam then Ordered(n.cap, m.cap) else Apart(boot[n.fam], boot[m.fam])
    requires boot[m.fam].Pmp? ==> m.fam == 0
    ensures var over := n.cap.Memory? && m.cap.Pmp? && Hi(n.cap) <= Lo(m.cap);
            var child := n.fam == m.fam && Under(n.cap, m.cap);
            (Eats(n.cap, m.cap) <==> child || over) && !(child && over)
  {
  }

  /** What guards the test: the memory families still have their heads. */
  ghost predicate Guarded(boot: seq<Cap>, l: List, p: nat)
    requires p < |l|
  {
    l[p].cap.Memory? ==> MemoryRoots(boot, l)
  }

  /** Then the neighbour test is exact: it removes the neighbour if and only if that entry
      belongs to the same family and is within the revoked capability. */
  lemma EatsExact(cfg: Config, boot: seq<Cap>, l: List, p: nat)
    requires BootOk(cfg, boot) && ListInv(boot, l) && p < |l| && Guarded(boot, l, p)
    ensures Eats(l[p].cap, l[Next(l, p)].cap) <==> Child(l, p)
  {
    EatsUnlessOverreach(cfg, boot, l, p);
    if l[p].cap.Memory? {
      assert WithinBoot(boot, l[p]);
      if p + 1 < |l| {
        assert WithinBoot(boot, l[p + 1]) && HeadOk(boot, l, p + 1);
        assert OrderedAt(l, p, p + 1);
      } else {
        LastFamily(boot, l, p);
      }
    }
  }

  /** A memory capability at the end of the list belongs to the last memory family. */
  lemma LastFamily(boot: seq<Cap>, l: List, p: nat)
    requires ListInv(boot, l) && MemoryRoots(boot, l) && p == |l| - 1
    ensures WithinBoot(boot, l[p])
    ensures boot[l[p].fam].Memory? ==> LastMemory(boot, l[p].fam)
  {
    assert WithinBoot(boot, l[p]);
    forall g: nat | l[p].fam < g < |boot| ensures !boot[g].Memory? {
      forall i: nat | i < |l| ensures l[i].fam != g {
        assert i < p ==> FamLe(l, i, p);
      }
      assert !Listed(l, g);
    }
  }

  /** If the neighbour is not within the revoked capability, nothing later is. */
  lemma NothingUnder(l: List, p: nat, j: nat)
    requires Threaded(l) && p < j < |l|
    requires l[p + 1].fam == l[p].fam ==> !Under(l[p].cap, l[p + 1].cap)
    ensures l[j].fam == l[p].fam ==> !Under(l[p].cap, l[j].cap)
  {
    if p + 1 < j {
      assert NoGapAt(l, p, p + 1, j) && FamLe(l, p, p + 1) && FamLe(l, p + 1, j);
    }
  }
}
