/** What a complete revocation removes: exactly what was derived, if and only if a condition on the
    list holds, and otherwise some frames besides. */
module Exactness {
  import opened Capability
  import opened CapList
  import opened CapOps
  import opened Authority
  import opened ListSteps
  import opened Derivations
  import opened Revocation

  /** A memory or PMP capability with its bytes inside those of `c`. */
  predicate Inside(c: Cap, k: Cap) {
    (k.Memory? || k.Pmp?) && Lo(c) <= Lo(k) && Hi(k) <= Hi(c)
  }

  /** The first entry from `j` on that is not inside the memory of the entry at `p`. */
  function Behind(l: List, p: nat, j: nat): (e: nat)
    requires p < j <= |l|
    ensures j <= e <= |l|
    decreases |l| - j
  {
    if j < |l| && Inside(l[p].cap, l[j].cap) then Behind(l, p, j + 1) else j
  }

  /** Nothing goes that should stay: a revoked memory capability has no frame above it right behind
      what was derived from it (over the end of the list, the boot frame above its begin), or the
      last of what was derived from it ends the loop before that. */
  predicate Clean(l: List, p: nat)
    requires p < |l|
  {
    var c, e := l[p].cap, Behind(l, p, p + 1);
    c.Memory? ==>
      || (e > p + 1 && Finished(c, l[e - 1].cap))
      || !(if e < |l| then l[e].cap.Pmp? && Hi(c) <= Lo(l[e].cap) else l[0].cap.Pmp? && Lo(c) <= Lo(l[0].cap))
  }

  /** Behind a memory capability, being inside its bytes and being derived from it are the same. */
  lemma InsideIsDerived(cfg: Config, boot: seq<Cap>, l: List, p: nat, i: nat)
    requires BootOk(cfg, boot) && ListInv(boot, l) && p < i < |l| && l[p].cap.Memory?
    ensures Inside(l[p].cap, l[i].cap) <==> l[i].fam == l[p].fam && Under(l[p].cap, l[i].cap)
  {
    assert WithinBoot(boot, l[p]) && WithinBoot(boot, l[i]) && FamLe(l, p, i);
    var f, g := l[p].fam, l[i].fam;
    if f != g { assert Apart(boot[f], boot[g]); }
  }

  /** The three ways of the next pass, as the condition sees them. */
  lemma NextKind(cfg: Config, boot: seq<Cap>, l: List, p: nat)
    requires BootOk(cfg, boot) && ListInv(boot, l) && p < |l|
    ensures l[p].cap.Memory? ==> (Child(l, p) <==> Behind(l, p, p + 1) > p + 1)
    ensures !Child(l, p) ==> (Clean(l, p) <==> !Overreach(l, p))
  {
    hide Under, Ordered, Within, Finished, Lo, Hi, Inside, BootOk;
    if l[p].cap.Memory? && p + 1 < |l| { InsideIsDerived(cfg, boot, l, p, p + 1); }
  }

  lemma {:induction false} BehindShift(l: List, r: List, p: nat, j: nat)
    requires p + 1 < |l| && |r| == |l| - 1 && p < j <= |r|
    requires SameRange(l[p].cap, r[p].cap) && forall i: nat :: p < i < |r| ==> r[i] == l[i + 1]
    ensures Behind(r, p, j) + 1 == Behind(l, p, j + 1)
    decreases |l| - j
  {
    if j < |r| && Inside(l[p].cap, l[j + 1].cap) { BehindShift(l, r, p, j + 1); }
  }

  /** A pass that takes a derived entry and goes on changes nothing in the condition. */
  lemma ChildPassClean(cfg: Config, boot: seq<Cap>, l: List, p: nat)
    requires BootOk(cfg, boot) && ListInv(boot, l) && p < |l| && Child(l, p) && PassVerdict(l, p) == Continue
    ensures p < |PassList(l, p)| && (Clean(PassList(l, p), p) <==> Clean(l, p))
  {
    PassRewrites(cfg, boot, l, p);
    var r := PassList(l, p);
    MemoryKind(l[p].cap, r[p].cap);
    hide Ordered, Within, Lo, Hi, BootOk, SameAuthority, PassList, Eats, Under, Absorb, Finished;
    if l[p].cap.Memory? {
      NextKind(cfg, boot, l, p);
      hide ListInv, Child;
      CleanShift(l, r, p);
    }
  }

  /** What a pass that takes a derived entry leaves. */
  lemma PassRewrites(cfg: Config, boot: seq<Cap>, l: List, p: nat)
    requires BootOk(cfg, boot) && ListInv(boot, l) && p < |l| && Child(l, p) && PassVerdict(l, p) == Continue
    ensures 0 < p && p + 1 < |l| && !Finished(l[p].cap, l[p + 1].cap)
    ensures var r := PassList(l, p);
            && |r| == |l| - 1 && r[0] == l[0] && (forall i: nat :: p < i < |r| ==> r[i] == l[i + 1])
            && SameAuthority(l[p].cap, r[p].cap)
            && forall x: Cap :: Finished(r[p].cap, x) <==> Finished(l[p].cap, x)
  {
    ChildEaten(cfg, boot, l, p);
    PassKeepsPlace(cfg, boot, l, p);
    FinishedSame(l[p].cap, l[p + 1].cap);
    PassTail(l, p);
    AsksNotFinished(l, p);
    hide *;
  }

  lemma AsksNotFinished(l: List, p: nat)
    requires p + 1 < |l| && PassVerdict(l, p) == Continue
    ensures !Finished(l[p].cap, l[p + 1].cap)
  {
  }

  lemma PassTail(l: List, p: nat)
    requires 0 < p && p + 1 < |l| && Eats(l[p].cap, l[p + 1].cap)
    ensures var r := PassList(l, p);
            && |r| == |l| - 1 && r[0] == l[0] && (forall i: nat :: p < i < |r| ==> r[i] == l[i + 1])
            && r[p].cap == Absorb(l[p].cap, l[p + 1].cap)
  {
    hide Eats, Absorb, Ranged, Reset;
  }

  lemma FinishedSame(c: Cap, k: Cap)
    requires Eats(c, k)
    ensures forall x: Cap :: Finished(Absorb(c, k), x) <==> Finished(c, x)
  {
    hide Eats, Absorb, Finished;
    forall x: Cap ensures Finished(Absorb(c, k), x) <==> Finished(c, x) { AbsorbEats(c, k, x); }
  }

  lemma ChildEaten(cfg: Config, boot: seq<Cap>, l: List, p: nat)
    requires BootOk(cfg, boot) && ListInv(boot, l) && p < |l| && Child(l, p)
    ensures 0 < p && Eats(l[p].cap, l[p + 1].cap) && AnchorStays(l, p)
  {
    EatsUnlessOverreach(cfg, boot, l, p);
    AnchorIsFrame(cfg, boot, l);
    hide Under, ListInv, BootOk;
  }

  lemma CleanShift(l: List, r: List, p: nat)
    requires 0 < p && p + 1 < |l| && l[p].cap.Memory? && r != [] && |r| == |l| - 1 && r[0] == l[0]
    requires forall i: nat :: p < i < |r| ==> r[i] == l[i + 1]
    requires SameAuthority(l[p].cap, r[p].cap)
    requires forall x: Cap :: Finished(r[p].cap, x) <==> Finished(l[p].cap, x)
    requires !Finished(l[p].cap, l[p + 1].cap) && Behind(l, p, p + 1) > p + 1
    ensures Clean(r, p) <==> Clean(l, p)
  {
    SameAuthorityRange(l[p].cap, r[p].cap);
    SameRangeEnds(l[p].cap, r[p].cap);
    MemoryKind(l[p].cap, r[p].cap);
    hide SameAuthority, Finished, Inside, Lo, Hi;
    BehindShift(l, r, p, p + 1);
    var e := Behind(l, p, p + 1);
    assert Behind(l, p, p + 2) == e;
    hide SameRange, Behind;
    assert e - 1 > p + 1 ==> r[e - 2] == l[e - 1];
    assert e < |l| ==> r[e - 1] == l[e];
  }

  lemma MemoryKind(a: Cap, b: Cap)
    requires SameAuthority(a, b)
    ensures a.Memory? <==> b.Memory?
  {
  }

  lemma SameRangeEnds(a: Cap, b: Cap)
    requires SameRange(a, b)
    ensures Lo(a) == Lo(b) && Hi(a) == Hi(b)
  {
  }

  /** What else goes: a frame above the revoked memory. */
  predicate Above(c: Cap, k: Cap) {
    c.Memory? && k.Pmp? && Hi(c) <= Lo(k)
  }

  /** The list after the revocation of the entry at `p` took the first `d` survivors with it. */
  ghost function Overdone(l: List, p: nat, d: nat): List
    requires p < |l| && d <= |Survivors(l[p], l[p + 1..])|
  {
    l[..p] + [l[p].(cap := Reset(l[p].cap))] + Survivors(l[p], l[p + 1..])[d..]
  }

  /** `r` is `l` without what was derived from the entry at `p`, with that entry reset, and without
      the first `d` of what else stands behind it, all of them frames above it; none of those are
      missing if and only if the condition holds. */
  ghost predicate Shape(l: List, p: nat, r: List, d: nat)
    requires p < |l|
  {
    var t := Survivors(l[p], l[p + 1..]);
    && d <= |t| && r == Overdone(l, p, d)
    && (forall i: nat :: i < d ==> Above(l[p].cap, t[i].cap))
    && (d == 0 <==> Clean(l, p))
  }

  /** What a complete revocation does, whichever exit the loop takes. */
  lemma {:induction false} RevokeShape(cfg: Config, boot: seq<Cap>, s: State, idx: nat) returns (d: nat)
    requires Revocable(cfg, boot, s, Pos(s.list, idx))
    ensures Pos(s.list, idx) < |s.list| && Shape(s.list, Pos(s.list, idx), RevokeAll(cfg, boot, s, idx).list, d)
    ensures Inv(cfg, boot, RevokeAll(cfg, boot, s, idx))
    decreases |s.list|
  {
    hide *;
    var l, p := s.list, Pos(s.list, idx);
    RevocableParts(cfg, boot, s, p);
    AllStep(cfg, boot, s, idx);
    StepList(cfg, s, p);
    if PassVerdict(l, p) == Success {
      d := 0;
      LastShape(cfg, boot, l, p);
    } else {
      d := RevokeShape(cfg, boot, RevokeStepAt(cfg, s, p).0, idx);
      EatsUnlessOverreach(cfg, boot, l, p);
      AsksIfEats(l, p);
      if Child(l, p) {
        ChildShape(cfg, boot, l, p, RevokeAll(cfg, boot, s, idx).list, d);
      } else {
        OverreachShape(cfg, boot, l, p, RevokeAll(cfg, boot, s, idx).list, d);
        d := d + 1;
      }
    }
  }

  lemma StepList(cfg: Config, s: State, p: nat)
    requires Bounded(cfg, s) && p < |s.list|
    ensures RevokeStepAt(cfg, s, p).0.list == PassList(s.list, p) && RevokeStepAt(cfg, s, p).1 == PassVerdict(s.list, p)
  {
  }

  lemma AsksIfEats(l: List, p: nat)
    requires p < |l|
    ensures PassVerdict(l, p) == Continue || PassVerdict(l, p) == Success
    ensures PassVerdict(l, p) == Continue ==> Eats(l[p].cap, l[Next(l, p)].cap)
    ensures AnchorStays(l, p) && Eats(l[p].cap, l[Next(l, p)].cap) ==> p + 1 < |l| && Next(l, p) == p + 1
  {
  }

  /** A revocation that ends with this pass is clean. */
  lemma LastIsClean(cfg: Config, boot: seq<Cap>, l: List, p: nat)
    requires BootOk(cfg, boot) && ListInv(boot, l) && p < |l| && PassVerdict(l, p) == Success
    ensures Clean(l, p)
  {
    hide Under, Ordered, Within, Lo, Hi, Inside, BootOk;
    NextKind(cfg, boot, l, p);
    EatsUnlessOverreach(cfg, boot, l, p);
    hide Eats;
    if Child(l, p) && l[p].cap.Memory? {
      NothingAfterFinish(boot, l, p);
      if p + 2 < |l| {
        assert l[p + 2..][0] == l[p + 2];
        InsideIsDerived(cfg, boot, l, p, p + 2);
      }
      InsideIsDerived(cfg, boot, l, p, p + 1);
      assert Behind(l, p, p + 1) == p + 2;
    }
  }

  lemma LastShape(cfg: Config, boot: seq<Cap>, l: List, p: nat)
    requires BootOk(cfg, boot) && ListInv(boot, l) && p < |l| && PassVerdict(l, p) == Success
    ensures Shape(l, p, PassList(l, p), 0)
  {
    LastPass(cfg, boot, l, p);
    LastIsClean(cfg, boot, l, p);
    hide BootOk, ListInv, PassList, PassVerdict, Clean, Survivors, Above, Reset;
    assert Survivors(l[p], l[p + 1..])[0..] == Survivors(l[p], l[p + 1..]);
  }

  /** Shapes before and after a pass that takes a derived entry. */
  lemma ChildShape(cfg: Config, boot: seq<Cap>, l: List, p: nat, x: List, d: nat)
    requires BootOk(cfg, boot) && ListInv(boot, l) && p < |l| && Child(l, p) && PassVerdict(l, p) == Continue
    requires p < |PassList(l, p)| && Shape(PassList(l, p), p, x, d)
    ensures Shape(l, p, x, d)
  {
    var r := PassList(l, p);
    ChildPassClean(cfg, boot, l, p);
    ChildSurvivors(cfg, boot, l, p);
    hide BootOk, ListInv, PassList, PassVerdict, Clean, Survivors, Above, Reset, Child;
  }

  lemma ChildSurvivors(cfg: Config, boot: seq<Cap>, l: List, p: nat)
    requires BootOk(cfg, boot) && ListInv(boot, l) && p < |l| && Child(l, p) && PassVerdict(l, p) == Continue
    ensures var r := PassList(l, p);
            && p < |r| && Survivors(r[p], r[p + 1..]) == Survivors(l[p], l[p + 1..])
            && r[..p] == l[..p] && r[p].(cap := Reset(r[p].cap)) == l[p].(cap := Reset(l[p].cap))
            && forall k: Cap :: Above(r[p].cap, k) <==> Above(l[p].cap, k)
  {
    ChildEaten(cfg, boot, l, p);
    PassKeepsPlace(cfg, boot, l, p);
    PassRewrites(cfg, boot, l, p);
    var r := PassList(l, p);
    MemoryKind(l[p].cap, r[p].cap);
    SameAuthorityRange(l[p].cap, r[p].cap);
    SameRangeEnds(l[p].cap, r[p].cap);
    hide BootOk, ListInv, PassList, PassVerdict, SameRange, SameAuthority, Absorb, Eats, Finished, Reset, Under, Lo, Hi;
    assert r[p + 1..] == l[p + 2..] == l[p + 1..][1..];
    SurvivorsSameRange(r[p], l[p], l[p + 2..]);
  }

  /** Shapes before and after a pass that takes a frame above. */
  lemma OverreachShape(cfg: Config, boot: seq<Cap>, l: List, p: nat, x: List, d: nat)
    requires BootOk(cfg, boot) && ListInv(boot, l) && p + 1 < |l| && !Child(l, p) && Overreach(l, p)
    requires Eats(l[p].cap, l[p + 1].cap)
    requires p < |PassList(l, p)| && Shape(PassList(l, p), p, x, d)
    ensures Shape(l, p, x, d + 1)
  {
    NextKind(cfg, boot, l, p);
    OverreachSurvivors(cfg, boot, l, p);
    hide BootOk, ListInv, PassList, Clean, Survivors, Above, Reset, Child, Overreach;
    var t := Survivors(l[p], l[p + 1..]);
    assert forall i: nat :: 0 < i < |t| ==> t[i] == t[1..][i - 1];
  }

  lemma OverreachSurvivors(cfg: Config, boot: seq<Cap>, l: List, p: nat)
    requires BootOk(cfg, boot) && ListInv(boot, l) && p + 1 < |l| && !Child(l, p) && Overreach(l, p)
    requires Eats(l[p].cap, l[p + 1].cap)
    ensures var r := PassList(l, p);
            var t := Survivors(l[p], l[p + 1..]);
            && p < |r| && r[p] == l[p] && r[..p] == l[..p] && |t| > 0 && Above(l[p].cap, t[0].cap)
            && Survivors(r[p], r[p + 1..]) == t[1..]
  {
    hide Ordered, Within, Finished, BootOk, Eats, Reset, Sound;
    AbsorbFrame(l[p].cap, l[p + 1].cap);
    var r := PassList(l, p);
    assert r == RemoveAt(SetCap(l, p, l[p].cap), p + 1);
    hide Under;
    forall j: nat | p < j < |l| && l[j].fam == l[p].fam ensures !Under(l[p].cap, l[j].cap) { NothingUnder(l, p, j); }
    AllSurvive(l[p], l[p + 1..]);
    AllSurvive(l[p], l[p + 2..]);
    assert r[p + 1..] == l[p + 2..] == l[p + 1..][1..];
  }

  /** A complete revocation is exact if and only if the condition holds. */
  lemma RevokeExactIff(cfg: Config, boot: seq<Cap>, s: State, idx: nat)
    requires Revocable(cfg, boot, s, Pos(s.list, idx))
    ensures Pos(s.list, idx) < |s.list|
    ensures RevokeAll(cfg, boot, s, idx).list == Revoked(s.list, Pos(s.list, idx)) <==> Clean(s.list, Pos(s.list, idx))
  {
    hide *;
    var d := RevokeShape(cfg, boot, s, idx);
    ShapeExact(s.list, Pos(s.list, idx), RevokeAll(cfg, boot, s, idx).list, d);
  }

  lemma OverdoneLength(l: List, p: nat, d: nat)
    requires p < |l| && d <= |Survivors(l[p], l[p + 1..])|
    ensures Overdone(l, p, d) == Revoked(l, p) <==> d == 0
  {
    hide Under, Survivors;
    var t := Survivors(l[p], l[p + 1..]);
    assert |Overdone(l, p, d)| == p + 1 + |t| - d && |Revoked(l, p)| == p + 1 + |t|;
    assert t[0..] == t;
  }

  lemma ShapeExact(l: List, p: nat, r: List, d: nat)
    requires p < |l| && Shape(l, p, r, d)
    ensures r == Revoked(l, p) <==> Clean(l, p)
  {
    hide Clean, Survivors, Above, Reset;
    OverdoneLength(l, p, d);
  }

  /** Why the early exit is part of the condition: a child with nothing handed out ends the loop, and
      the frame above that stands behind it is never looked at. */
  lemma EarlyExit(rwx: Rwx)
    ensures var l := [Node(0, Pmp(0x2007_ffff, rwx, false, 0), 0), Node(1, Memory(0, rwx, false, 0, 2, 2), 1),
                      Node(2, Memory(0, rwx, false, 0, 0, 2), 1), Node(3, Pmp(0x0400_01ff, rwx, false, 0), 2)];
            Behind(l, 1, 2) == 3 && Above(l[1].cap, l[3].cap) && Clean(l, 1) && PassVerdict(l, 1) == Success
  {
    assert NapotBase(0x0400_01ff) == 0x1000_0000;
    var l := [Node(0, Pmp(0x2007_ffff, rwx, false, 0), 0), Node(1, Memory(0, rwx, false, 0, 2, 2), 1),
              Node(2, Memory(0, rwx, false, 0, 0, 2), 1), Node(3, Pmp(0x0400_01ff, rwx, false, 0), 2)];
    assert Behind(l, 1, 3) == 3;
  }

  /** In a clean state the boot frame is safe, so the condition is all that a caller needs. */
  lemma CleanIsSafe(cfg: Config, boot: seq<Cap>, l: List, p: nat)
    requires BootOk(cfg, boot) && ListInv(boot, l) && p < |l| && Clean(l, p)
    ensures AnchorSafe(l, p)
  {
    hide Ordered, Within, Under, BootOk;
    AnchorIsFrame(cfg, boot, l);
    if l[p].cap.Memory? && Eats(l[p].cap, l[0].cap) {
      var e := Behind(l, p, p + 1);
      BehindNot(l, p, p + 1);
      if e > p + 1 && Finished(l[p].cap, l[e - 1].cap) {
      } else if e < |l| {
        NotEaten(cfg, boot, l, p, e);
      }
    }
  }

  lemma {:induction false} BehindNot(l: List, p: nat, j: nat)
    requires p < j <= |l|
    ensures Behind(l, p, j) < |l| ==> !Inside(l[p].cap, l[Behind(l, p, j)].cap)
    decreases |l| - j
  {
    if j < |l| && Inside(l[p].cap, l[j].cap) { BehindNot(l, p, j + 1); }
  }

  /** The test spares what is neither inside the revoked memory nor a frame above it. */
  lemma NotEaten(cfg: Config, boot: seq<Cap>, l: List, p: nat, e: nat)
    requires BootOk(cfg, boot) && ListInv(boot, l) && p < e < |l| && l[p].cap.Memory?
    requires !Inside(l[p].cap, l[e].cap) && !Above(l[p].cap, l[e].cap)
    ensures !Eats(l[p].cap, l[e].cap)
  {
    assert WithinBoot(boot, l[p]) && WithinBoot(boot, l[e]) && FamLe(l, p, e) && OrderedAt(l, p, e);
    InsideIsDerived(cfg, boot, l, p, e);
    var f, g := l[p].fam, l[e].fam;
    if f != g { assert Apart(boot[f], boot[g]); }
    NeighbourTest(boot, l[p], l[e]);
  }

  /** While the memory families have their heads, every state is clean. */
  lemma GuardedIsClean(cfg: Config, boot: seq<Cap>, l: List, p: nat)
    requires BootOk(cfg, boot) && ListInv(boot, l) && p < |l| && Guarded(boot, l, p)
    ensures Clean(l, p) && AnchorSafe(l, p)
  {
    hide Ordered, Under, Inside, Eats;
    if l[p].cap.Memory? {
      var e := Behind(l, p, p + 1);
      BehindNot(l, p, p + 1);
      BehindAll(l, p, p + 1);
      assert WithinBoot(boot, l[p]) && WithinBoot(boot, l[0]);
      if e < |l| {
        assert WithinBoot(boot, l[e]) && FamLe(l, p, e) && WithinBoot(boot, l[e - 1]) && FamLe(l, p, e - 1) && FamLe(l, e - 1, e);
        assert HeadOk(boot, l, e);
        GuardedEnd(cfg, boot, l, p, e);
      } else {
        GuardedLast(cfg, boot, l, p);
      }
    }
    CleanIsSafe(cfg, boot, l, p);
  }

  lemma {:induction false} BehindAll(l: List, p: nat, j: nat)
    requires p < j <= |l|
    ensures forall i: nat :: j <= i < Behind(l, p, j) ==> Inside(l[p].cap, l[i].cap)
    decreases |l| - j
  {
    if j < |l| && Inside(l[p].cap, l[j].cap) { BehindAll(l, p, j + 1); }
  }

  /** The entry behind what is inside is no frame above: if it were of another family, it would
      stand behind that family's head. */
  lemma GuardedEnd(cfg: Config, boot: seq<Cap>, l: List, p: nat, e: nat)
    requires BootOk(cfg, boot) && ListInv(boot, l) && MemoryRoots(boot, l) && p < e < |l| && l[p].cap.Memory?
    requires forall i: nat :: p < i < e ==> Inside(l[p].cap, l[i].cap)
    ensures !Above(l[p].cap, l[e].cap)
  {
    assert e - 1 == p || Inside(l[p].cap, l[e - 1].cap);
    hide *;
    if e - 1 > p { InsideIsDerived(cfg, boot, l, p, e - 1); }
    assert l[e - 1].fam == l[p].fam;
    if l[e].fam == l[p].fam {
      OrderedPair(boot, l, p, e);
    } else {
      HeadAt(l, e);
      HeadNoFrame(cfg, boot, l, e);
      NoFrameNotAbove(l[p].cap, l[e].cap);
    }
  }

  lemma OrderedPair(boot: seq<Cap>, l: List, p: nat, e: nat)
    requires ListInv(boot, l) && p < e < |l| && l[e].fam == l[p].fam
    ensures !Above(l[p].cap, l[e].cap)
  {
    hide Ordered, Above, WithinBoot;
    assert OrderedAt(l, p, e);
    OrderedNotAbove(l[p].cap, l[e].cap);
  }

  lemma HeadAt(l: List, e: nat)
    requires 0 < e < |l| && l[e - 1].fam != l[e].fam
    ensures IsHead(l, e)
  {
  }

  lemma NoFrameNotAbove(c: Cap, k: Cap)
    requires !k.Pmp?
    ensures !Above(c, k)
  {
  }

  /** The head of a family behind the boot frame is no frame. */
  lemma HeadNoFrame(cfg: Config, boot: seq<Cap>, l: List, e: nat)
    requires BootOk(cfg, boot) && ListInv(boot, l) && MemoryRoots(boot, l) && 0 < e < |l| && IsHead(l, e)
    ensures !l[e].cap.Pmp?
  {
    hide Within;
    assert WithinBoot(boot, l[e]) && HeadOk(boot, l, e);
    FrameOfMemory(boot[l[e].fam], l[e].cap);
  }

  lemma OrderedNotAbove(c: Cap, k: Cap)
    requires Sound(c) && Sound(k) && Ordered(c, k)
    ensures !Above(c, k)
  {
  }

  lemma FrameOfMemory(b: Cap, c: Cap)
    requires Within(b, c)
    ensures c.Pmp? ==> b.Memory? || b.Pmp?
  {
  }

  lemma GuardedLast(cfg: Config, boot: seq<Cap>, l: List, p: nat)
    requires BootOk(cfg, boot) && ListInv(boot, l) && MemoryRoots(boot, l) && p < |l| && l[p].cap.Memory?
    requires forall i: nat :: p < i < |l| ==> Inside(l[p].cap, l[i].cap)
    ensures Lo(l[0].cap) < Lo(l[p].cap)
  {
    var n := |l| - 1;
    if n > p { InsideIsDerived(cfg, boot, l, p, n); }
    hide *;
    LastFamily(boot, l, n);
    WithinEnds(cfg, boot, l, p);
    WithinEnds(cfg, boot, l, 0);
    AnchorEnds(cfg, boot, l);
    if LastMemory(boot, l[p].fam) { LastAbove(cfg, boot, l[p].fam); }
  }

  lemma AnchorEnds(cfg: Config, boot: seq<Cap>, l: List)
    requires BootOk(cfg, boot) && ListInv(boot, l)
    ensures |boot| > 0 && boot[0].Pmp? && |l| > 0 && l[0].fam == 0
  {
  }

  lemma LastAbove(cfg: Config, boot: seq<Cap>, f: nat)
    requires BootOk(cfg, boot) && f < |boot| && LastMemory(boot, f)
    ensures |boot| > 0 && Lo(boot[0]) < Lo(boot[f])
  {
    hide CapOk, Apart, FrameBegin;
  }

  lemma WithinEnds(cfg: Config, boot: seq<Cap>, l: List, i: nat)
    requires BootOk(cfg, boot) && ListInv(boot, l) && i < |l|
    ensures l[i].fam < |boot| && Lo(boot[l[i].fam]) <= Lo(l[i].cap)
    ensures l[i].cap.Memory? ==> boot[l[i].fam].Memory?
    ensures boot[l[i].fam].Pmp? ==> Lo(l[i].cap) == Lo(boot[l[i].fam])
  {
    assert WithinBoot(boot, l[i]);
  }

  /** Revocation is exact under that condition. */
  lemma RevokeExact(cfg: Config, boot: seq<Cap>, s: State, idx: nat)
    requires Revocable(cfg, boot, s, Pos(s.list, idx)) && Clean(s.list, Pos(s.list, idx))
    ensures RevokeAll(cfg, boot, s, idx).list == Revoked(s.list, Pos(s.list, idx))
    ensures Inv(cfg, boot, RevokeAll(cfg, boot, s, idx))
  {
    hide *;
    var d := RevokeShape(cfg, boot, s, idx);
    RevokeExactIff(cfg, boot, s, idx);
  }

  /** What a finished revocation leaves of the revoked capability: it is as fresh as at its own
      derivation. */
  lemma RevokedIsFresh(cfg: Config, boot: seq<Cap>, s: State, idx: nat)
    requires Revocable(cfg, boot, s, Pos(s.list, idx))
    ensures var p := Pos(s.list, idx); var l := RevokeAll(cfg, boot, s, idx).list;
            && p < |l| && l[p].idx == idx && SameAuthority(s.list[p].cap, l[p].cap)
            && (Ranged(l[p].cap) ==> Mark(l[p].cap) == Lo(l[p].cap))
            && (l[p].cap.Memory? ==> !l[p].cap.lck)
  {
    hide Under, Ordered, Within, RevokeAll, Inv, AnchorSafe, Clean, Survivors, Above;
    var d := RevokeShape(cfg, boot, s, idx);
    ResetSame(s.list[Pos(s.list, idx)].cap);
  }

  /** And of the list behind it: entries that were listed before, and none within it. */
  lemma NothingLeftUnder(cfg: Config, boot: seq<Cap>, s: State, idx: nat, j: nat)
    requires Revocable(cfg, boot, s, Pos(s.list, idx))
    requires Pos(s.list, idx) < j < |RevokeAll(cfg, boot, s, idx).list|
    ensures var p := Pos(s.list, idx); var l := RevokeAll(cfg, boot, s, idx).list;
            p < |l| && l[j] in s.list && (l[j].fam == l[p].fam ==> !Under(l[p].cap, l[j].cap))
  {
    hide Under, Ordered, Within, RevokeAll, Inv, Reset, SameRange, Survivors, AnchorSafe, Clean, Above;
    var d := RevokeShape(cfg, boot, s, idx);
    var p := Pos(s.list, idx);
    var l := s.list;
    var t := Survivors(l[p], l[p + 1..]);
    SurvivorsClean(l[p], l[p + 1..], d + j - p - 1);
    assert RevokeAll(cfg, boot, s, idx).list[j] == t[d + j - p - 1];
    ResetSame(l[p].cap);
    UnderSameRange(l[p].cap, Reset(l[p].cap), t[d + j - p - 1].cap);
  }
}
