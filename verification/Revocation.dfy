/** Revocation as repeated passes: each keeps the invariant, and the last one is right. */
module Revocation {
  import opened Capability
  import opened CapList
  import opened Schedule
  import opened CapOps
  import opened Authority
  import opened ListSteps
  import opened Derivations

  /** The invariant holds, the entry is listed, and revoking it does not remove the boot frame. */
  ghost predicate Revocable(cfg: Config, boot: seq<Cap>, s: State, p: nat) {
    Inv(cfg, boot, s) && p < |s.list| && AnchorSafe(s.list, p)
  }

  /** The state after revoking to the end. Every pass that does not end the loop removes
      one listed entry. */
  ghost function RevokeAll(cfg: Config, boot: seq<Cap>, s: State, idx: nat): State
    requires Revocable(cfg, boot, s, Pos(s.list, idx))
    decreases |s.list|
  {
    var p := Pos(s.list, idx);
    var (s', err) := RevokeStepAt(cfg, s, p);
    RevokePassKeepsInv(cfg, boot, s, p);
    if err == Continue then RevokeAll(cfg, boot, s', idx) else s'
  }

  /** A pass keeps the invariant and the revoked entry's place. */
  lemma RevokePassKeepsInv(cfg: Config, boot: seq<Cap>, s: State, p: nat)
    requires Revocable(cfg, boot, s, p)
    ensures var s' := RevokeStepAt(cfg, s, p).0;
            Inv(cfg, boot, s') && p < |s'.list| <= |s.list| && s'.list[p].idx == s.list[p].idx
            && (RevokeStepAt(cfg, s, p).1 == Continue ==> Revocable(cfg, boot, s', p) && |s'.list| == |s.list| - 1)
            && Pos(s'.list, s.list[p].idx) == p && s'.list[..p] == s.list[..p]
            && s'.list[p].fam == s.list[p].fam && SameAuthority(s.list[p].cap, s'.list[p].cap)
            && Reset(s'.list[p].cap) == Reset(s.list[p].cap)
  {
    hide Under, Ordered, Within, Update, UnloadCap, Eats, Finished, Absorb, AnchorSafe, AnchorStays, SameAuthority, Reset, ScheduleAgrees,
         RegistersAgree, BootOk;
    SafeStays(s.list, p);
    RevokeStepKeepsInv(cfg, boot, s, p);
    PassKeepsPlace(cfg, boot, s.list, p);
    PosUnique(PassList(s.list, p), p);
    if RevokeStepAt(cfg, s, p).1 == Continue {
      AnchorIsFrame(cfg, boot, s.list);
      PassKeepsSafe(s.list, p);
      PassShrinks(s.list, p);
    }
  }

  lemma AnchorIsFrame(cfg: Config, boot: seq<Cap>, l: List)
    requires BootOk(cfg, boot) && ListInv(boot, l)
    ensures l[0].cap.Pmp?
  {
    assert WithinBoot(boot, l[0]);
  }

  lemma PassShrinks(l: List, p: nat)
    requires p < |l| && l[0].cap.Pmp? && AnchorSafe(l, p) && PassVerdict(l, p) == Continue
    ensures |PassList(l, p)| == |l| - 1
  {
    SafeStays(l, p);
  }

  lemma PassKeepsPlace(cfg: Config, boot: seq<Cap>, l: List, p: nat)
    requires BootOk(cfg, boot) && ListInv(boot, l) && p < |l| && AnchorStays(l, p)
    ensures var l' := PassList(l, p);
            p < |l'| && l'[p].idx == l[p].idx && l'[..p] == l[..p]
            && l'[p].fam == l[p].fam && SameAuthority(l[p].cap, l'[p].cap)
            && Reset(l'[p].cap) == Reset(l[p].cap)
  {
    hide Under, Ordered, Within, Eats, Absorb, Reset, SameAuthority, Sound, NoGap, BootOk;
    EatsUnlessOverreach(cfg, boot, l, p);
    ResetSame(l[p].cap);
    if Eats(l[p].cap, l[Next(l, p)].cap) {
      ResetAbsorbed(l[p].cap, l[p + 1].cap);
      if Overreach(l, p) {
        AbsorbFrame(l[p].cap, l[p + 1].cap);
      } else {
        assert OrderedAt(l, p, p + 1) && WithinBoot(boot, l[p]) && WithinBoot(boot, l[p + 1]);
        SameTag(boot, l[p], l[p + 1]);
        AbsorbSame(l[p].cap, l[p + 1].cap);
      }
    }
    ResetTwice(l[p].cap);
  }

  lemma AbsorbFrame(p: Cap, c: Cap)
    requires c.Pmp?
    ensures Absorb(p, c) == p && SameAuthority(p, p)
  {
  }

  lemma ResetAbsorbed(p: Cap, c: Cap)
    ensures Reset(Absorb(p, c)) == Reset(p)
  {
  }

  lemma ResetTwice(c: Cap)
    ensures Reset(Reset(c)) == Reset(c)
  {
  }

  /** The entries of `l` that are not within `n`. */
  ghost function Survivors(n: Node, l: List): List {
    if l == [] then []
    else if l[0].fam == n.fam && Under(n.cap, l[0].cap) then Survivors(n, l[1..])
    else [l[0]] + Survivors(n, l[1..])
  }

  lemma {:induction false} SurvivorsSameRange(n: Node, m: Node, l: List)
    requires n.fam == m.fam && SameRange(n.cap, m.cap)
    ensures Survivors(n, l) == Survivors(m, l)
  {
    if l != [] {
      UnderSameRange(n.cap, m.cap, l[0].cap);
      SurvivorsSameRange(n, m, l[1..]);
    }
  }

  lemma {:induction false} AllSurvive(n: Node, l: List)
    requires forall j: nat :: j < |l| && l[j].fam == n.fam ==> !Under(n.cap, l[j].cap)
    ensures Survivors(n, l) == l
  {
    if l != [] {
      assert forall j: nat :: j < |l[1..]| ==> l[1..][j] == l[j + 1];
      AllSurvive(n, l[1..]);
    }
  }

  /** The list after revoking the entry at `p`: that entry is reset, everything later that
      is within it is gone, and every other entry keeps its place. */
  ghost function Revoked(l: List, p: nat): List
    requires p < |l|
  {
    l[..p] + [l[p].(cap := Reset(l[p].cap))] + Survivors(l[p], l[p + 1..])
  }

  lemma SameAuthorityRange(a: Cap, b: Cap)
    requires SameAuthority(a, b)
    ensures SameRange(a, b)
  {
  }

  /** The early exit is right: a child whose mark is the parent's begin, and which has
      handed out no frame, was the last thing derived. */
  lemma FinishedLast(p: Cap, c: Cap, k: Cap)
    requires Sound(p) && Sound(c) && Sound(k)
    requires Under(p, c) && Ordered(c, k) && Finished(p, c)
    requires p.Memory? && c.Memory? ==> p.tag == c.tag
    ensures !Under(p, k)
  {
  }

  lemma LastPass(cfg: Config, boot: seq<Cap>, l: List, p: nat)
    requires BootOk(cfg, boot) && ListInv(boot, l) && p < |l|
    requires PassVerdict(l, p) == Success
    ensures PassList(l, p) == Revoked(l, p)
  {
    hide Under, Ordered, Absorb, Reset, AllWithin, Anchored, BootOk, Threaded, RemoveAt, SetCap, Revoked, Lo, Hi;
    EatsUnlessOverreach(cfg, boot, l, p);
    hide Eats, Finished;
    if Eats(l[p].cap, l[Next(l, p)].cap) {
      FinishedNoFrame(l[p].cap, l[Next(l, p)].cap);
      FinishingPass(boot, l, p);
    } else {
      ResettingPass(l, p);
    }
  }

  lemma FinishedNoFrame(p: Cap, c: Cap)
    requires Finished(p, c)
    ensures !c.Pmp?
  {
  }

  lemma FinishingPass(boot: seq<Cap>, l: List, p: nat)
    requires ListInv(boot, l) && p + 1 < |l|
    requires l[p + 1].fam == l[p].fam && Under(l[p].cap, l[p + 1].cap) && Finished(l[p].cap, l[p + 1].cap)
    ensures RemoveAt(SetCap(l, p, Absorb(l[p].cap, l[p + 1].cap)), p + 1) == Revoked(l, p)
  {
    hide Under, Ordered, Absorb, Finished, Reset, MemoryRoots, AllWithin, Anchored, Threaded;
    FinishedReset(l[p].cap, l[p + 1].cap);
    NothingAfterFinish(boot, l, p);
    AllSurvive(l[p], l[p + 2..]);
    assert l[p + 1..][1..] == l[p + 2..];
  }

  lemma ResettingPass(l: List, p: nat)
    requires Threaded(l) && p < |l|
    requires p + 1 < |l| && l[p + 1].fam == l[p].fam ==> !Under(l[p].cap, l[p + 1].cap)
    ensures SetCap(l, p, Reset(l[p].cap)) == Revoked(l, p)
  {
    hide Under, Reset, Distinct, AllSound, FamSorted, Order, NoGap;
    var t := l[p + 1..];
    forall j: nat | j < |t| && t[j].fam == l[p].fam ensures !Under(l[p].cap, t[j].cap) {
      NothingUnder(l, p, p + 1 + j);
    }
    AllSurvive(l[p], t);
  }

  lemma NothingAfterFinish(boot: seq<Cap>, l: List, p: nat)
    requires ListInv(boot, l) && p + 1 < |l|
    requires l[p + 1].fam == l[p].fam && Under(l[p].cap, l[p + 1].cap) && Finished(l[p].cap, l[p + 1].cap)
    ensures var t := l[p + 2..];
            forall j: nat :: j < |t| && t[j].fam == l[p].fam ==> !Under(l[p].cap, t[j].cap)
  {
    hide Under, Ordered, Within;
    var t := l[p + 2..];
    assert WithinBoot(boot, l[p]) && WithinBoot(boot, l[p + 1]);
    SameTag(boot, l[p], l[p + 1]);
    forall j: nat | j < |t| && t[j].fam == l[p].fam ensures !Under(l[p].cap, t[j].cap) {
      assert OrderedAt(l, p + 1, p + 2 + j);
      FinishedLast(l[p].cap, l[p + 1].cap, t[j].cap);
    }
  }

  lemma FinishedReset(p: Cap, c: Cap)
    requires Finished(p, c)
    ensures Absorb(p, c) == Reset(p)
  {
  }

  lemma {:induction false} SurvivorsClean(n: Node, l: List, j: nat)
    requires j < |Survivors(n, l)|
    ensures Survivors(n, l)[j] in l
    ensures Survivors(n, l)[j].fam == n.fam ==> !Under(n.cap, Survivors(n, l)[j].cap)
  {
    if l[0].fam == n.fam && Under(n.cap, l[0].cap) {
      SurvivorsClean(n, l[1..], j);
    } else if j > 0 {
      SurvivorsClean(n, l[1..], j - 1);
    }
  }

  lemma RevocableParts(cfg: Config, boot: seq<Cap>, s: State, p: nat)
    requires Revocable(cfg, boot, s, p)
    ensures Inv(cfg, boot, s) && BootOk(cfg, boot) && ListInv(boot, s.list) && Bounded(cfg, s)
    ensures p < |s.list| && AnchorSafe(s.list, p) && AnchorStays(s.list, p)
  {
    SafeStays(s.list, p);
  }

  /** One step of a complete revocation. */
  lemma AllStep(cfg: Config, boot: seq<Cap>, s: State, idx: nat)
    requires Revocable(cfg, boot, s, Pos(s.list, idx))
    ensures Bounded(cfg, s) && Pos(s.list, idx) < |s.list|
    ensures var (s', err) := RevokeStepAt(cfg, s, Pos(s.list, idx));
            && |s'.list| <= |s.list| && (err == Continue || err == Success)
            && Inv(cfg, boot, s') && Pos(s'.list, idx) == Pos(s.list, idx) < |s'.list|
            && if err == Continue then
                 Revocable(cfg, boot, s', Pos(s'.list, idx)) && |s'.list| == |s.list| - 1
                 && RevokeAll(cfg, boot, s, idx) == RevokeAll(cfg, boot, s', idx)
               else RevokeAll(cfg, boot, s, idx) == s'
  {
    hide AnchorSafe, Under, Ordered, Within, ListInv, ScheduleAgrees, RegistersAgree, BootOk, PassList, PassVerdict, Update,
         UnloadCap, SameAuthority;
    RevokePassKeepsInv(cfg, boot, s, Pos(s.list, idx));
  }
}
