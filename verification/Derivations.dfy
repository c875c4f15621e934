/** Deriving and revoking keep the whole invariant. */
module Derivations {
  import opened Capability
  import opened CapList
  import opened Schedule
  import opened CapOps
  import opened Authority
  import opened ListSteps
  import opened Steps

  // ----- derive -----

  /** What the kernel accepts as a derivation takes the new capability from the free part
      of its source and gives it no more authority. */
  lemma AcceptedDerivation(cfg: Config, b: Cap, c: Cap, n: Cap)
    requires CapOk(cfg, c) && Within(b, c) && CanDerive(c, n) && CapIsValid(n)
    ensures Derivation(c, Charged(c, n), n)
    ensures SameAuthority(c, Charged(c, n))
    ensures CapOk(cfg, Charged(c, n)) && CapOk(cfg, n)
    ensures Within(b, n) && !b.Pmp?
  {
    AcceptedRange(cfg, c, n);
    AcceptedRights(b, c, n);
  }

  lemma AcceptedRange(cfg: Config, c: Cap, n: Cap)
    requires CapOk(cfg, c) && CanDerive(c, n) && CapIsValid(n)
    ensures Derivation(c, Charged(c, n), n)
    ensures SameAuthority(c, Charged(c, n))
    ensures CapOk(cfg, Charged(c, n)) && CapOk(cfg, n)
  {
    AcceptedSound(c, n);
    if c.Time? || c.Monitor? || c.Channel? {} else if c.Memory? {} else {}
  }

  lemma AcceptedSound(c: Cap, n: Cap)
    requires Sound(c) && CanDerive(c, n) && CapIsValid(n)
    ensures Sound(n) && Sound(Charged(c, n)) && SameRange(c, Charged(c, n))
    ensures Lo(c) <= Lo(n) && Hi(n) <= Hi(c)
  {
  }

  lemma AcceptedRights(b: Cap, c: Cap, n: Cap)
    requires Sound(c) && Within(b, c) && CanDerive(c, n) && CapIsValid(n)
    ensures Within(b, n) && !b.Pmp?
  {
  }

  lemma DeriveSchedule(cfg: Config, boot: seq<Cap>, s: State, p: nat, dst: nat, ncap: Cap)
    requires Inv(cfg, boot, s) && p < |s.list| && dst < TableSize(cfg) && CapIsValid(ncap)
    requires CanDerive(s.list[p].cap, ncap) && s.list[p].cap.Time?
    requires var s' := DeriveAt(cfg, s, p, dst, ncap).0; Bounded(cfg, s') && ListInv(boot, s'.list)
    requires forall n :: n in DeriveAt(cfg, s, p, dst, ncap).0.list <==>
               (n in s.list && n != s.list[p])
               || n == s.list[p].(cap := Charged(s.list[p].cap, ncap))
               || n == Node(dst, ncap, s.list[p].fam)
    ensures ScheduleAgrees(cfg, DeriveAt(cfg, s, p, dst, ncap).0)
  {
    hide Pid, TableSize, Update, At, Entry, ListInv, BootOk;
    var s' := DeriveAt(cfg, s, p, dst, ncap).0;
    var n, new_ := s.list[p], Node(dst, ncap, s.list[p].fam);
    var n' := n.(cap := Charged(n.cap, ncap));
    assert NodeOk(cfg, n);
    forall h: nat, t: nat | HartOk(cfg, h) && t < cfg.slotCnt ensures SlotAgrees(cfg, s', h, t) {
      assert SlotAgrees(cfg, s, h, t);
      AtUpdate(cfg, s.slots, Pid(cfg, dst), ncap.end, ncap.hart, ncap.bgn, ncap.end, h, t);
      if Owns(new_, h, t) {
        SlotTaken(cfg, boot, s', h, t, new_);
      } else if Owns(n', h, t) {
        assert Owns(n, h, t);
        SlotTaken(cfg, boot, s', h, t, n');
      } else {
        SlotKept(cfg, s, s', h, t);
      }
    }
  }

  lemma DeriveKeepsInv(cfg: Config, boot: seq<Cap>, s: State, p: nat, dst: nat, ncap: Cap)
    requires Inv(cfg, boot, s) && p < |s.list| && dst < TableSize(cfg) && CapIsValid(ncap)
    requires forall k: nat :: k < |s.list| ==> s.list[k].idx != dst
    ensures Inv(cfg, boot, DeriveAt(cfg, s, p, dst, ncap).0)
  {
    hide Ordered, Under, Within, Derivation, Update, SameAuthority, CanDerive, CapOk, CapIsValid;
    var n := s.list[p];
    if CanDerive(n.cap, ncap) {
      var s' := DeriveAt(cfg, s, p, dst, ncap).0;
      assert NodeOk(cfg, n) && WithinBoot(boot, n);
      AcceptedDerivation(cfg, boot[n.fam], n.cap, ncap);
      InsertKeepsListInv(boot, s.list, p, Charged(n.cap, ncap), dst, ncap);
      DeriveBounded(cfg, s, p, dst, ncap);
      DeriveMembers(cfg, s, p, dst, ncap);
      DeriveKinds(n.cap, ncap);
      if n.cap.Time? {
        DeriveSchedule(cfg, boot, s, p, dst, ncap);
      } else {
        ScheduleFrame(cfg, s, s');
      }
      RegisterFrame(cfg, s, s');
    }
  }

  lemma DeriveKinds(c: Cap, n: Cap)
    requires CanDerive(c, n) && CapIsValid(n)
    ensures c.Time? <==> n.Time?
    ensures !c.Pmp? && !Charged(c, n).Pmp? && (Charged(c, n).Time? <==> c.Time?)
    ensures n.Pmp? ==> !n.used
  {
  }

  lemma DeriveBounded(cfg: Config, s: State, p: nat, dst: nat, ncap: Cap)
    requires Bounded(cfg, s) && p < |s.list| && dst < TableSize(cfg) && CapIsValid(ncap)
    requires CanDerive(s.list[p].cap, ncap)
    requires CapOk(cfg, Charged(s.list[p].cap, ncap)) && CapOk(cfg, ncap)
    ensures Bounded(cfg, DeriveAt(cfg, s, p, dst, ncap).0)
  {
    hide CapOk, CanDerive, CapIsValid;
    var s' := DeriveAt(cfg, s, p, dst, ncap).0;
    var m := SetCap(s.list, p, Charged(s.list[p].cap, ncap));
    forall i: nat | i < |s'.list| ensures NodeOk(cfg, s'.list[i]) {
      assert s'.list[i] == if i <= p then m[i] else if i == p + 1 then Node(dst, ncap, s.list[p].fam) else m[i - 1];
    }
  }

  lemma DeriveMembers(cfg: Config, s: State, p: nat, dst: nat, ncap: Cap)
    requires Bounded(cfg, s) && Distinct(s.list)
    requires p < |s.list| && dst < TableSize(cfg) && CapIsValid(ncap)
    requires CanDerive(s.list[p].cap, ncap)
    ensures forall n :: n in DeriveAt(cfg, s, p, dst, ncap).0.list <==>
              (n in s.list && n != s.list[p])
              || n == s.list[p].(cap := Charged(s.list[p].cap, ncap))
              || n == Node(dst, ncap, s.list[p].fam)
  {
    hide CapOk, CanDerive, CapIsValid;
    var m := SetCap(s.list, p, Charged(s.list[p].cap, ncap));
    MembersReplace(s.list, p, m[p], m);
    MembersInsert(m, p, dst, ncap);
  }

  // ----- one revocation pass -----

  lemma RevokeBounded(cfg: Config, s: State, p: nat)
    requires Bounded(cfg, s) && p < |s.list|
    requires Eats(s.list[p].cap, s.list[Next(s.list, p)].cap) ==>
               CapOk(cfg, Absorb(s.list[p].cap, s.list[Next(s.list, p)].cap))
    ensures Bounded(cfg, RevokeStepAt(cfg, s, p).0)
  {
    var q := Next(s.list, p);
    assert NodeOk(cfg, s.list[p]) && NodeOk(cfg, s.list[q]);
    ResetOk(cfg, s.list[p].cap);
    hide Pid, TableSize, Update, Absorb, Reset, Eats, CapOk, PassList, Sound;
    forall i: nat | i < |PassList(s.list, p)| ensures NodeOk(cfg, PassList(s.list, p)[i]) { PassNodeOk(cfg, s.list, p, i); }
    StepBounded(cfg, s, p);
  }

  lemma ResetOk(cfg: Config, c: Cap)
    requires CapOk(cfg, c)
    ensures CapOk(cfg, Reset(c))
  {
  }

  /** Every entry after a pass was there before, or is the revoked one rewritten. */
  lemma PassNodeOk(cfg: Config, l: List, p: nat, i: nat)
    requires p < |l| && (forall j: nat :: j < |l| ==> NodeOk(cfg, l[j])) && CapOk(cfg, Reset(l[p].cap))
    requires Eats(l[p].cap, l[Next(l, p)].cap) ==> CapOk(cfg, Absorb(l[p].cap, l[Next(l, p)].cap))
    requires i < |PassList(l, p)|
    ensures NodeOk(cfg, PassList(l, p)[i])
  {
    hide CapOk, Absorb, Reset, Eats, TableSize, Ranged;
    var q, r := Next(l, p), PassList(l, p);
    var m := SetCap(l, p, Absorb(l[p].cap, l[q].cap));
    if Eats(l[p].cap, l[q].cap) {
      assert NodeOk(cfg, l[p]) && (forall j: nat :: j < |l| && j != p ==> m[j] == l[j]);
      assert r == m || r == RemoveAt(m, q);
    } else {
      assert i != p ==> NodeOk(cfg, l[i]);
    }
  }

  /** The arrays beside the list keep their sizes. */
  lemma StepBounded(cfg: Config, s: State, p: nat)
    requires Bounded(cfg, s) && p < |s.list|
    requires forall i: nat :: i < |PassList(s.list, p)| ==> NodeOk(cfg, PassList(s.list, p)[i])
    ensures Bounded(cfg, RevokeStepAt(cfg, s, p).0)
  {
    assert NodeOk(cfg, s.list[p]) && NodeOk(cfg, s.list[Next(s.list, p)]);
    hide Pid, TableSize, Update, PassList, PassVerdict, Eats;
  }

  lemma AbsorbOk(cfg: Config, p: Cap, c: Cap)
    requires CapOk(cfg, p) && Sound(c) && Ordered(p, c) && Under(p, c)
    requires p.Memory? && c.Memory? ==> p.tag == c.tag
    ensures CapOk(cfg, Absorb(p, c))
  {
  }

  /** The parent takes over exactly the slots between the child's mark and its own. */
  lemma AbsorbSchedule(cfg: Config, boot: seq<Cap>, s: State, s': State, n: Node, ch: Node, n': Node)
    requires Inv(cfg, boot, s) && Bounded(cfg, s') && ListInv(boot, s'.list)
    requires n in s.list && ch in s.list && n.cap.Time? && ch.cap.Time?
    requires Ordered(n.cap, ch.cap) && Under(n.cap, ch.cap) && n.cap.hart == ch.cap.hart
    requires n' == n.(cap := WithMark(n.cap, ch.cap.mrk))
    requires forall m :: m in s'.list <==> (m in s.list && m != n && m != ch) || m == n'
    requires s'.slots == Update(cfg, s.slots, Pid(cfg, n.idx), n.cap.end, n.cap.hart, ch.cap.mrk, n.cap.mrk)
    ensures ScheduleAgrees(cfg, s')
  {
    hide Pid, TableSize, Update, At, Entry, ListInv, BootOk;
    assert NodeOk(cfg, n) && NodeOk(cfg, ch);
    forall h: nat, t: nat | HartOk(cfg, h) && t < cfg.slotCnt ensures SlotAgrees(cfg, s', h, t) {
      assert SlotAgrees(cfg, s, h, t);
      AtUpdate(cfg, s.slots, Pid(cfg, n.idx), n.cap.end, n.cap.hart, ch.cap.mrk, n.cap.mrk, h, t);
      if Owns(n', h, t) {
        SlotTaken(cfg, boot, s', h, t, n');
      } else {
        SlotKept(cfg, s, s', h, t);
      }
    }
  }

  lemma ResetSchedule(cfg: Config, boot: seq<Cap>, s: State, s': State, n: Node, n': Node)
    requires Inv(cfg, boot, s) && Bounded(cfg, s') && ListInv(boot, s'.list)
    requires n in s.list && n.cap.Time?
    requires n' == n.(cap := WithMark(n.cap, n.cap.bgn))
    requires forall m :: m in s'.list <==> (m in s.list && m != n) || m == n'
    requires s'.slots == Update(cfg, s.slots, Pid(cfg, n.idx), n.cap.end, n.cap.hart, n.cap.bgn, n.cap.mrk)
    ensures ScheduleAgrees(cfg, s')
  {
    hide Pid, TableSize, Update, At, Entry, ListInv, BootOk;
    assert NodeOk(cfg, n);
    forall h: nat, t: nat | HartOk(cfg, h) && t < cfg.slotCnt ensures SlotAgrees(cfg, s', h, t) {
      assert SlotAgrees(cfg, s, h, t);
      AtUpdate(cfg, s.slots, Pid(cfg, n.idx), n.cap.end, n.cap.hart, n.cap.bgn, n.cap.mrk, h, t);
      if Owns(n', h, t) {
        SlotTaken(cfg, boot, s', h, t, n');
      } else {
        SlotKept(cfg, s, s', h, t);
      }
    }
  }

  lemma EatingKeepsInv(cfg: Config, boot: seq<Cap>, s: State, p: nat)
    requires Inv(cfg, boot, s) && p + 1 < |s.list|
    requires Eats(s.list[p].cap, s.list[p + 1].cap)
    requires s.list[p + 1].fam == s.list[p].fam && Under(s.list[p].cap, s.list[p + 1].cap)
    ensures Inv(cfg, boot, RevokeStepAt(cfg, s, p).0)
  {
    hide Pid, TableSize, Within, Update, Absorb, Finished, Anchored, NoGap, FamSorted;
    var s' := RevokeStepAt(cfg, s, p).0;
    var n, ch := s.list[p], s.list[p + 1];
    assert NodeOk(cfg, n) && NodeOk(cfg, ch) && WithinBoot(boot, n) && WithinBoot(boot, ch);
    assert OrderedAt(s.list, p, p + 1);
    SameTag(boot, n, ch);
    AbsorbOk(cfg, n.cap, ch.cap);
    RevokeBounded(cfg, s, p);
    AbsorbKeepsListInv(boot, s.list, p);
    var n' := n.(cap := Absorb(n.cap, ch.cap));
    assert s'.list == RemoveAt(SetCap(s.list, p, n'.cap), p + 1);
    AbsorbMembers(s.list, p, n', s'.list);
    AbsorbKinds(n.cap, ch.cap);
    if n.cap.Time? {
      AbsorbSchedule(cfg, boot, s, s', n, ch, n');
    } else {
      ScheduleFrame(cfg, s, s');
    }
    UnloadRegisters(cfg, s, s', ch);
  }

  lemma AbsorbKinds(p: Cap, c: Cap)
    requires Eats(p, c)
    ensures p.Time? ==> c.Time? && Absorb(p, c) == WithMark(p, c.mrk)
    ensures !p.Time? ==> !c.Time? && !Absorb(p, c).Time?
    ensures !p.Pmp? && !Absorb(p, c).Pmp?
  {
  }

  lemma SameTag(boot: seq<Cap>, n: Node, ch: Node)
    requires WithinBoot(boot, n) && WithinBoot(boot, ch) && n.fam == ch.fam
    ensures n.cap.Memory? && ch.cap.Memory? ==> n.cap.tag == ch.cap.tag
    ensures n.cap.Time? ==> ch.cap.Time? && ch.cap.hart == n.cap.hart
    ensures ch.cap.Time? ==> n.cap.Time?
    ensures ch.cap.Pmp? && n.cap.Memory? ==> boot[n.fam].Memory?
  {
  }

  lemma AbsorbMembers(l: List, p: nat, n': Node, r: List)
    requires Distinct(l) && p + 1 < |l| && n' == l[p].(cap := n'.cap)
    requires r == RemoveAt(SetCap(l, p, n'.cap), p + 1)
    ensures forall m :: m in r <==> (m in l && m != l[p] && m != l[p + 1]) || m == n'
  {
    var l' := SetCap(l, p, n'.cap);
    MembersReplace(l, p, l'[p], l');
    MembersRemove(l', p + 1);
  }

  lemma ResettingKeepsInv(cfg: Config, boot: seq<Cap>, s: State, p: nat)
    requires Inv(cfg, boot, s) && p < |s.list|
    requires !Eats(s.list[p].cap, s.list[Next(s.list, p)].cap)
    ensures Inv(cfg, boot, RevokeStepAt(cfg, s, p).0)
  {
    hide Pid, TableSize, Within, Update;
    EatsUnlessOverreach(cfg, boot, s.list, p);
    var s' := RevokeStepAt(cfg, s, p).0;
    var n := s.list[p];
    RevokeBounded(cfg, s, p);
    ResetKeepsListInv(boot, s.list, p);
    var n' := n.(cap := Reset(n.cap));
    MembersReplace(s.list, p, n', s'.list);
    if n.cap.Time? {
      ResetSchedule(cfg, boot, s, s', n, n');
    } else {
      ScheduleFrame(cfg, s, s');
    }
    RegisterFrame(cfg, s, s');
  }

  /** Removing a frame that was not derived from the revoked memory also keeps everything. */
  lemma OverreachKeepsInv(cfg: Config, boot: seq<Cap>, s: State, p: nat)
    requires Inv(cfg, boot, s) && p + 1 < |s.list|
    requires Eats(s.list[p].cap, s.list[p + 1].cap) && Overreach(s.list, p)
    ensures Inv(cfg, boot, RevokeStepAt(cfg, s, p).0)
  {
    hide Pid, TableSize, Within, Update, Finished, NoGap, FamSorted, Ordered, Under;
    var s' := RevokeStepAt(cfg, s, p).0;
    assert s'.list == RemoveAt(s.list, p + 1);
    RemoveKeepsListInv(boot, s.list, p + 1);
    RevokeBounded(cfg, s, p);
    MembersRemove(s.list, p + 1);
    ScheduleFrame(cfg, s, s');
    UnloadRegisters(cfg, s, s', s.list[p + 1]);
  }

  /** The pass does not remove the boot frame. */
  predicate AnchorStays(l: List, p: nat)
    requires p < |l|
  {
    Eats(l[p].cap, l[Next(l, p)].cap) ==> p + 1 < |l|
  }

  /** The whole revocation does not remove the boot frame: the tests spare it, or some entry on the
      way to the end of the list ends the loop. */
  predicate AnchorSafe(l: List, p: nat)
    requires p < |l|
  {
    Eats(l[p].cap, l[0].cap) ==>
      exists i: nat :: p < i < |l| && (!Eats(l[p].cap, l[i].cap) || Finished(l[p].cap, l[i].cap))
  }

  lemma SafeStays(l: List, p: nat)
    requires p < |l| && AnchorSafe(l, p)
    ensures AnchorStays(l, p)
  {
  }

  /** A pass that asks for another one leaves the boot frame as safe as it was. */
  lemma PassKeepsSafe(l: List, p: nat)
    requires p < |l| && l[0].cap.Pmp? && AnchorSafe(l, p) && PassVerdict(l, p) == Continue
    ensures p < |PassList(l, p)| && AnchorSafe(PassList(l, p), p)
  {
    assert p > 0;
    hide Eats, Finished, Absorb, Ranged;
    var r := PassList(l, p);
    var c, k := l[p].cap, l[Next(l, p)].cap;
    assert r == RemoveAt(SetCap(l, p, Absorb(c, k)), p + 1);
    forall x: Cap ensures Eats(Absorb(c, k), x) <==> Eats(c, x)
                  ensures Finished(Absorb(c, k), x) <==> Finished(c, x) {
      AbsorbEats(c, k, x);
    }
    if Eats(r[p].cap, r[0].cap) {
      var i: nat :| p < i < |l| && (!Eats(c, l[i].cap) || Finished(c, l[i].cap));
      assert r[i - 1] == l[i];
    }
  }

  /** Each single pass of a revocation, also one that is cut short there, keeps everything. */
  lemma RevokeStepKeepsInv(cfg: Config, boot: seq<Cap>, s: State, p: nat)
    requires Inv(cfg, boot, s) && p < |s.list| && AnchorStays(s.list, p)
    ensures Inv(cfg, boot, RevokeStepAt(cfg, s, p).0)
  {
    EatsUnlessOverreach(cfg, boot, s.list, p);
    if !Eats(s.list[p].cap, s.list[Next(s.list, p)].cap) {
      ResettingKeepsInv(cfg, boot, s, p);
    } else if Overreach(s.list, p) {
      OverreachKeepsInv(cfg, boot, s, p);
    } else {
      EatingKeepsInv(cfg, boot, s, p);
    }
  }

  // ----- the heads of the memory families -----

  lemma DeriveKeepsRoots(cfg: Config, boot: seq<Cap>, s: State, p: nat, dst: nat, ncap: Cap)
    requires Inv(cfg, boot, s) && MemoryRoots(boot, s.list)
    requires p < |s.list| && dst < TableSize(cfg) && CapIsValid(ncap)
    ensures MemoryRoots(boot, DeriveAt(cfg, s, p, dst, ncap).0.list)
  {
    hide Ordered, Under, Within, Derivation, Update, CanDerive, CapIsValid, CapOk;
    var n := s.list[p];
    if CanDerive(n.cap, ncap) {
      assert NodeOk(cfg, n);
      AcceptedRange(cfg, n.cap, ncap);
      var m := SetCap(s.list, p, Charged(n.cap, ncap));
      EditKeepsRoots(boot, s.list, m);
      InsertKeepsRoots(boot, m, p, dst, ncap);
    }
  }

  lemma EatingKeepsRoots(boot: seq<Cap>, l: List, p: nat)
    requires ListInv(boot, l) && MemoryRoots(boot, l) && p < |l| && Child(l, p)
    ensures MemoryRoots(boot, RemoveAt(SetCap(l, p, Absorb(l[p].cap, l[p + 1].cap)), p + 1))
  {
    var c := Absorb(l[p].cap, l[p + 1].cap);
    assert SameAuthority(l[p].cap, c) by {
      assert OrderedAt(l, p, p + 1) && WithinBoot(boot, l[p]) && WithinBoot(boot, l[p + 1]);
      SameTag(boot, l[p], l[p + 1]);
      AbsorbSame(l[p].cap, l[p + 1].cap);
    }
    hide Within, Ordered, Under, Absorb, SameAuthority;
    var m := RemoveAt(l, p + 1);
    RemoveKeepsRoots(boot, l, p + 1);
    SameAsSelf(m);
    EditKeepsRoots(boot, m, SetCap(m, p, c));
    assert SetCap(m, p, c) == RemoveAt(SetCap(l, p, c), p + 1);
  }

  lemma SameAsSelf(l: List)
    ensures forall i: nat :: i < |l| ==> SameAuthority(l[i].cap, l[i].cap)
  {
  }

  lemma ResetSame(c: Cap)
    ensures SameAuthority(c, Reset(c))
  {
  }

  /** While the heads stay, no pass of a revocation removes a head, or the boot frame. */
  lemma RevokeStepKeepsRoots(cfg: Config, boot: seq<Cap>, s: State, p: nat)
    requires Inv(cfg, boot, s) && MemoryRoots(boot, s.list) && p < |s.list|
    ensures AnchorStays(s.list, p)
    ensures MemoryRoots(boot, RevokeStepAt(cfg, s, p).0.list)
  {
    hide Pid, TableSize, Within, Update, Finished, Threaded, AllWithin, Ordered, Under, Eats, Absorb, Reset, SameAuthority,
         MemoryRoots, ScheduleAgrees, RegistersAgree, CapOk, BootOk;
    var l := s.list;
    EatsExact(cfg, boot, l, p);
    if Eats(l[p].cap, l[Next(l, p)].cap) {
      EatingKeepsRoots(boot, l, p);
    } else {
      SameAsSelf(l);
      ResetSame(l[p].cap);
      EditKeepsRoots(boot, l, SetCap(l, p, Reset(l[p].cap)));
    }
  }
}
