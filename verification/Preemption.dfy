/** Revocation that is cut at some pass and called again. */
module Preemption {
  import opened Capability
  import opened CapList
  import opened Schedule
  import opened CapOps
  import opened Authority
  import opened ListSteps
  import opened Derivations
  import opened Revocation
  import opened Exactness

  /** At most `k` passes: what is done when the loop is preempted, or ends, within them. */
  ghost function RevokeSome(cfg: Config, boot: seq<Cap>, s: State, idx: nat, k: nat): State
    requires Revocable(cfg, boot, s, Pos(s.list, idx))
    decreases k
  {
    if k == 0 then s
    else
      var p := Pos(s.list, idx);
      var (s', err) := RevokeStepAt(cfg, s, p);
      RevokePassKeepsInv(cfg, boot, s, p);
      if err == Continue then RevokeSome(cfg, boot, s', idx, k - 1) else s'
  }

  /** `k` passes lead from `s` to `a`, and all of them asked for another one. */
  ghost predicate PassesTo(cfg: Config, boot: seq<Cap>, s: State, a: State, idx: nat, k: nat) {
    && Revocable(cfg, boot, s, Pos(s.list, idx))
    && Revocable(cfg, boot, a, Pos(a.list, idx))
    && RevokeAll(cfg, boot, a, idx) == RevokeAll(cfg, boot, s, idx)
    && (forall j: nat :: RevokeSome(cfg, boot, s, idx, k + j) == RevokeSome(cfg, boot, a, idx, j))
  }

  lemma PassesStart(cfg: Config, boot: seq<Cap>, s: State, idx: nat)
    requires Revocable(cfg, boot, s, Pos(s.list, idx))
    ensures PassesTo(cfg, boot, s, s, idx, 0)
  {
    hide Revocable, RevokeAll, RevokeSome;
  }

  lemma PassesDone(cfg: Config, boot: seq<Cap>, s: State, a: State, idx: nat, k: nat)
    requires PassesTo(cfg, boot, s, a, idx, k)
    ensures a == RevokeSome(cfg, boot, s, idx, k)
  {
    SomeStep(cfg, boot, a, idx, 0);
    hide Revocable, RevokeAll, RevokeSome;
    assert RevokeSome(cfg, boot, s, idx, k + 0) == a;
  }

  lemma PassesLeft(cfg: Config, boot: seq<Cap>, s: State, a: State, idx: nat, k: nat)
    requires PassesTo(cfg, boot, s, a, idx, k)
    ensures Revocable(cfg, boot, a, Pos(a.list, idx)) && Pos(a.list, idx) < |a.list|
    ensures Inv(cfg, boot, a) && AnchorSafe(a.list, Pos(a.list, idx))
    ensures RevokeAll(cfg, boot, a, idx) == RevokeAll(cfg, boot, s, idx)
  {
  }

  lemma NextPass(cfg: Config, boot: seq<Cap>, s: State, a: State, idx: nat, k: nat)
    requires PassesTo(cfg, boot, s, a, idx, k)
    ensures var (a', err) := RevokeStepAt(cfg, a, Pos(a.list, idx));
            if err == Continue then
              PassesTo(cfg, boot, s, a', idx, k + 1) && |a'.list| < |a.list| && Pos(a'.list, idx) == Pos(a.list, idx)
            else
              a' == RevokeAll(cfg, boot, s, idx) && a' == RevokeSome(cfg, boot, s, idx, k + 1)
  {
    hide AnchorSafe, Under, Ordered, Within, ListInv, ScheduleAgrees, RegistersAgree, BootOk, PassList, PassVerdict, Update,
         UnloadCap;
    RevokePassKeepsInv(cfg, boot, a, Pos(a.list, idx));
    var (a', err) := RevokeStepAt(cfg, a, Pos(a.list, idx));
    if err == Continue {
      forall j: nat ensures RevokeSome(cfg, boot, s, idx, k + 1 + j) == RevokeSome(cfg, boot, a', idx, j) {
        assert k + (j + 1) == k + 1 + j;
        assert RevokeSome(cfg, boot, a, idx, j + 1) == RevokeSome(cfg, boot, a', idx, j);
      }
    } else {
      assert RevokeSome(cfg, boot, a, idx, 1) == a';
    }
  }

  /** A complete revocation takes at most as many passes as there are entries. */
  lemma {:induction false} RevokeAllIsSome(cfg: Config, boot: seq<Cap>, s: State, idx: nat)
    requires Revocable(cfg, boot, s, Pos(s.list, idx))
    ensures RevokeAll(cfg, boot, s, idx) == RevokeSome(cfg, boot, s, idx, |s.list|)
    decreases |s.list|
  {
    hide *;
    AllStep(cfg, boot, s, idx);
    SomeStep(cfg, boot, s, idx, |s.list|);
    var (s', err) := RevokeStepAt(cfg, s, Pos(s.list, idx));
    if err == Continue { RevokeAllIsSome(cfg, boot, s', idx); }
  }

  /** One step of `k` passes. */
  lemma SomeStep(cfg: Config, boot: seq<Cap>, s: State, idx: nat, k: nat)
    requires Revocable(cfg, boot, s, Pos(s.list, idx))
    ensures RevokeSome(cfg, boot, s, idx, 0) == s
    ensures k > 0 ==>
            var (s', err) := RevokeStepAt(cfg, s, Pos(s.list, idx));
            if err == Continue then
              Revocable(cfg, boot, s', Pos(s'.list, idx)) && RevokeSome(cfg, boot, s, idx, k) == RevokeSome(cfg, boot, s', idx, k - 1)
            else RevokeSome(cfg, boot, s, idx, k) == s'
  {
    hide AnchorSafe, Under, Ordered, Within, ListInv, ScheduleAgrees, RegistersAgree, BootOk, PassList, PassVerdict, Update,
         UnloadCap, SameAuthority;
    RevokePassKeepsInv(cfg, boot, s, Pos(s.list, idx));
  }

  /** Revoking what is already revoked changes nothing, unless a frame above it stands next to it. */
  lemma RevokeTwice(cfg: Config, boot: seq<Cap>, s: State, p: nat)
    requires Inv(cfg, boot, s) && p < |s.list| && s.list == Revoked(s.list, p) && !Overreach(s.list, p)
    ensures RevokeStepAt(cfg, s, p) == (s, Success)
  {
    EatsUnlessOverreach(cfg, boot, s.list, p);
    var l := s.list;
    assert l[p] == l[p].(cap := Reset(l[p].cap));
    assert l[p + 1..] == Survivors(l[p], l[p + 1..]);
    if p + 1 < |l| {
      SurvivorsClean(l[p], l[p + 1..], 0);
    }
    if l[p].cap.Time? {
      var u := Update(cfg, s.slots, Pid(cfg, l[p].idx), l[p].cap.end, l[p].cap.hart, l[p].cap.bgn, l[p].cap.mrk);
      assert u == s.slots;
    }
    assert SetCap(l, p, Reset(l[p].cap)) == l;
  }

  /** The first `k` passes all ask for another one. */
  ghost predicate AsksOn(cfg: Config, boot: seq<Cap>, s: State, idx: nat, k: nat)
    requires Revocable(cfg, boot, s, Pos(s.list, idx))
    decreases k
  {
    if k == 0 then true
    else
      AllStep(cfg, boot, s, idx);
      var (s', err) := RevokeStepAt(cfg, s, Pos(s.list, idx));
      err == Continue && AsksOn(cfg, boot, s', idx, k - 1)
  }

  /** Cut a revocation after any number of passes that asked for more, and call it again: the final
      table, schedule, registers and channels are those of one uninterrupted call. */
  lemma {:induction false} RevokeResumes(cfg: Config, boot: seq<Cap>, s: State, idx: nat, k: nat)
    requires Revocable(cfg, boot, s, Pos(s.list, idx)) && AsksOn(cfg, boot, s, idx, k)
    ensures var m := RevokeSome(cfg, boot, s, idx, k);
            && Revocable(cfg, boot, m, Pos(m.list, idx))
            && RevokeAll(cfg, boot, m, idx) == RevokeAll(cfg, boot, s, idx)
            && |m.list| == |s.list| - k
    decreases k
  {
    hide Revocable, RevokeAll, RevokeSome, RevokeStepAt, Inv, Bounded;
    AllStep(cfg, boot, s, idx);
    SomeStep(cfg, boot, s, idx, k);
    if k > 0 { RevokeResumes(cfg, boot, RevokeStepAt(cfg, s, Pos(s.list, idx)).0, idx, k - 1); }
  }

  /** While the memory families have their heads, also calling a finished revocation again changes
      nothing: cut after any number of passes, finished or not. */
  lemma {:induction false} RevokeRepeats(cfg: Config, boot: seq<Cap>, s: State, idx: nat, k: nat)
    requires Revocable(cfg, boot, s, Pos(s.list, idx)) && Guarded(boot, s.list, Pos(s.list, idx))
    ensures var m := RevokeSome(cfg, boot, s, idx, k);
            && Revocable(cfg, boot, m, Pos(m.list, idx))
            && RevokeAll(cfg, boot, m, idx) == RevokeAll(cfg, boot, s, idx)
    decreases k
  {
    hide *;
    AllStep(cfg, boot, s, idx);
    SomeStep(cfg, boot, s, idx, k);
    if k > 0 {
      var (s', err) := RevokeStepAt(cfg, s, Pos(s.list, idx));
      StaysGuarded(cfg, boot, s, Pos(s.list, idx));
      if err == Continue {
        RevokeRepeats(cfg, boot, s', idx, k - 1);
      } else {
        RevokeAgain(cfg, boot, s, Pos(s.list, idx));
        AllStep(cfg, boot, s', idx);
      }
    }
  }

  lemma StaysGuarded(cfg: Config, boot: seq<Cap>, s: State, p: nat)
    requires Revocable(cfg, boot, s, p) && Guarded(boot, s.list, p)
    ensures var s' := RevokeStepAt(cfg, s, p).0;
            Revocable(cfg, boot, s', p) && Guarded(boot, s'.list, p)
  {
    hide MemoryRoots, AnchorSafe, AnchorStays, Clean, PassList, PassVerdict, Update, UnloadCap, BootOk, ListInv, ScheduleAgrees, RegistersAgree;
    RevokePassKeepsInv(cfg, boot, s, p);
    var s' := RevokeStepAt(cfg, s, p).0;
    if s.list[p].cap.Memory? { RevokeStepKeepsRoots(cfg, boot, s, p); }
    MemoryKind(s.list[p].cap, s'.list[p].cap);
    GuardedIsClean(cfg, boot, s'.list, p);
  }

  lemma RevokeAgain(cfg: Config, boot: seq<Cap>, s: State, p: nat)
    requires Revocable(cfg, boot, s, p) && Guarded(boot, s.list, p) && RevokeStepAt(cfg, s, p).1 == Success
    ensures var s' := RevokeStepAt(cfg, s, p).0;
            Revocable(cfg, boot, s', p) && RevokeStepAt(cfg, s', p) == (s', Success)
  {
    hide Under, Ordered, Within, Update, UnloadCap, Bounded, ScheduleAgrees, RegistersAgree, BootOk, Eats, Guarded,
         SameAuthority, Reset, Revoked, MemoryRoots, AllWithin, Anchored, Threaded, AnchorSafe, Child, Overreach;
    StaysGuarded(cfg, boot, s, p);
    var s' := RevokeStepAt(cfg, s, p).0;
    LastPass(cfg, boot, s.list, p);
    RevokedTwice(s.list, p);
    EatsUnlessOverreach(cfg, boot, s'.list, p);
    EatsExact(cfg, boot, s'.list, p);
    RevokeTwice(cfg, boot, s', p);
  }

  lemma RevokedTwice(l: List, p: nat)
    requires p < |l|
    ensures |Revoked(l, p)| > p && Revoked(Revoked(l, p), p) == Revoked(l, p)
  {
    hide Under, Reset, SameAuthority, SameRange, Survivors;
    ResetTwice(l[p].cap);
    var r := Revoked(l, p);
    var n := l[p].(cap := Reset(l[p].cap));
    var t := Survivors(l[p], l[p + 1..]);
    SurvivorsSurvive(l[p], n, l[p + 1..]);
    assert r == l[..p] + [n] + t;
    assert r[..p] == l[..p] && r[p] == n && r[p + 1..] == t;
  }

  lemma SurvivorsSurvive(n: Node, n': Node, l: List)
    requires n' == n.(cap := Reset(n.cap))
    ensures Survivors(n', Survivors(n, l)) == Survivors(n, l)
  {
    hide Under, Reset, SameAuthority;
    ResetSame(n.cap);
    SameAuthorityRange(n.cap, n'.cap);
    hide SameRange;
    var t := Survivors(n, l);
    forall j: nat | j < |t| && t[j].fam == n'.fam ensures !Under(n'.cap, t[j].cap) {
      SurvivorsClean(n, l, j);
      UnderSameRange(n.cap, n'.cap, t[j].cap);
    }
    AllSurvive(n', t);
  }
}
