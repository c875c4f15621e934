/** When the revocation loop ends, on any ring of entries: exactly unless it eats the whole ring
    and is left alone with a mark above its begin, or a lock. */
module Termination {
  import opened Capability
  import opened CapList
  import opened CapOps
  import opened Authority
  import opened ListSteps
  import opened Derivations
  import opened Revocation

  /** One pass for the entry with index `idx`; once its own entry is empty, a pass ends the loop. */
  function Pass(l: List, idx: nat): (List, Err) {
    var p := Pos(l, idx);
    if p == |l| then (l, Success) else (PassList(l, p), PassVerdict(l, p))
  }

  /** The first `k` passes all ask for another one. */
  predicate GoesOn(l: List, idx: nat, k: nat)
    decreases k
  {
    k > 0 ==> Pass(l, idx).1 == Continue && GoesOn(Pass(l, idx).0, idx, k - 1)
  }

  /** The other entries in the order in which the loop meets them. */
  function Others(l: List, p: nat): List
    requires p < |l|
  {
    l[p + 1..] + l[..p]
  }

  /** The tests take every other entry, none of them ends the loop, and in the end the entry's own
      mark (or that of the last entry it took back) does not end it either. */
  ghost predicate Endless(l: List, p: nat)
    requires p < |l|
  {
    var c, o := l[p].cap, Others(l, p);
    && Ranged(c)
    && (forall i: nat :: i < |o| ==> Eats(c, o[i].cap) && !Finished(c, o[i].cap))
    && (Finished(c, c) ==> exists i: nat :: i < |o| && Ranged(o[i].cap))
  }

  lemma RemoveDistinct(m: List, q: nat)
    requires Distinct(m) && q < |m|
    ensures Distinct(RemoveAt(m, q))
  {
    var r := RemoveAt(m, q);
    forall i: nat, j: nat | i < j < |r| ensures r[i].idx != r[j].idx {
      assert r[i] == m[if i < q then i else i + 1] && r[j] == m[if j < q then j else j + 1];
    }
  }

  /** The pass on a ring of two or more entries that takes the neighbour away. */
  lemma PassTakes(l: List, p: nat)
    requires Distinct(l) && p < |l| && |l| > 1 && Eats(l[p].cap, l[Next(l, p)].cap)
    ensures var l', p' := Pass(l, l[p].idx).0, if p + 1 < |l| then p else p - 1;
            && Distinct(l') && p' < |l'| == |l| - 1 && Pos(l', l[p].idx) == p'
            && l'[p'] == l[p].(cap := Absorb(l[p].cap, l[Next(l, p)].cap))
            && Others(l, p)[0] == l[Next(l, p)] && Others(l', p') == Others(l, p)[1..]
  {
    hide Eats, Absorb, Ranged;
    PosUnique(l, p);
    var q := Next(l, p);
    var m := SetCap(l, p, Absorb(l[p].cap, l[q].cap));
    var l', p' := RemoveAt(m, q), if p + 1 < |l| then p else p - 1;
    RemoveDistinct(m, q);
    PosUnique(l', p');
    assert Others(l', p') == Others(l, p)[1..];
  }

  lemma EndlessStep(l: List, p: nat)
    requires Distinct(l) && p < |l| && |l| > 1
    requires Eats(l[p].cap, l[Next(l, p)].cap) && !Finished(l[p].cap, l[Next(l, p)].cap)
    ensures var l', p' := Pass(l, l[p].idx).0, if p + 1 < |l| then p else p - 1;
            p' < |l'| && (Endless(l', p') <==> Endless(l, p))
  {
    hide Eats, Finished, Absorb, Ranged;
    PassTakes(l, p);
    var c, a, o := l[p].cap, l[Next(l, p)].cap, Others(l, p);
    var l', p' := Pass(l, l[p].idx).0, if p + 1 < |l| then p else p - 1;
    var o' := Others(l', p');
    assert forall i: nat :: i < |o'| ==> o'[i] == o[i + 1];
    assert forall i: nat :: 0 < i < |o| ==> o[i] == o'[i - 1];
    forall x: Cap ensures Eats(Absorb(c, a), x) <==> Eats(c, x)
                  ensures Finished(Absorb(c, a), x) <==> Finished(c, x) {
      AbsorbEats(c, a, x);
    }
    AbsorbEats(c, a, c);
  }

  lemma {:induction false} EndlessGoesOn(l: List, p: nat, k: nat)
    requires Distinct(l) && p < |l| && Endless(l, p)
    ensures GoesOn(l, l[p].idx, k)
    decreases k
  {
    if k > 0 {
      hide Eats, Finished, Absorb, Ranged;
      PosUnique(l, p);
      if |l| == 1 {
        EndlessAlone(l, p);
        EndlessGoesOn(l, p, k - 1);
      } else {
        assert Others(l, p)[0] == l[Next(l, p)];
        EndlessStep(l, p);
        PassTakes(l, p);
        hide Endless, PassList, Others, Distinct;
        EndlessGoesOn(Pass(l, l[p].idx).0, if p + 1 < |l| then p else p - 1, k - 1);
      }
    }
  }

  lemma EndlessAlone(l: List, p: nat)
    requires |l| == 1 && p == 0 && Endless(l, p)
    ensures Pass(l, l[p].idx) == (l, Continue)
  {
    hide Eats, Finished, Absorb, Ranged;
    var c := l[p].cap;
    OwnNeighbour(c);
    assert Others(l, p) == [];
    assert SetCap(l, p, c) == l;
  }

  lemma OwnNeighbour(c: Cap)
    ensures Ranged(c) ==> Eats(c, c) && Absorb(c, c) == c
  {
  }

  lemma {:induction false} StopsOtherwise(l: List, p: nat) returns (k: nat)
    requires Distinct(l) && p < |l| && !Endless(l, p)
    ensures !GoesOn(l, l[p].idx, k)
    decreases |l|
  {
    hide Eats, Finished, Absorb, Ranged;
    PosUnique(l, p);
    var c, idx := l[p].cap, l[p].idx;
    if PassVerdict(l, p) == Success {
      k := 1;
    } else if |l| == 1 {
      k := 2;
      assert Others(l, p) == [];
      assert Pass(l, idx).0 == [];
    } else {
      EndlessStep(l, p);
      PassTakes(l, p);
      var rest := StopsOtherwise(Pass(l, idx).0, if p + 1 < |l| then p else p - 1);
      k := rest + 1;
    }
  }

  /** The loop ends if and only if the ring is not endless for the revoked entry. */
  lemma LoopEndsIff(l: List, p: nat)
    requires Distinct(l) && p < |l|
    ensures (exists k: nat :: !GoesOn(l, l[p].idx, k)) <==> !Endless(l, p)
  {
    if Endless(l, p) {
      forall k: nat ensures GoesOn(l, l[p].idx, k) { EndlessGoesOn(l, p, k); }
    } else {
      var k := StopsOtherwise(l, p);
    }
  }

  /** On a ring of one: a mark above the begin, or a lock. Nothing is removed and nothing changes. */
  lemma LoneRevocation(n: Node)
    ensures Endless([n], 0) <==> Ranged(n.cap) && !Finished(n.cap, n.cap)
    ensures Ranged(n.cap) ==> PassList([n], 0) == [n]
    ensures Endless([n], 0) ==> PassVerdict([n], 0) == Continue
  {
    OwnNeighbour(n.cap);
    assert Others([n], 0) == [];
  }

  /** A lone time capability of which one slot was handed out: revoking it never returns SUCCESS. */
  lemma LoneTimeNeverEnds(k: nat)
    ensures GoesOn([Node(0, Time(0, 0, 1, 2), 0)], 0, k)
  {
    var l := [Node(0, Time(0, 0, 1, 2), 0)];
    LoneRevocation(l[0]);
    EndlessGoesOn(l, 0, k);
  }

  /** In every state of the model's runs the loop ends. */
  lemma RevocableEnds(cfg: Config, boot: seq<Cap>, s: State, idx: nat)
    requires Revocable(cfg, boot, s, Pos(s.list, idx))
    ensures !Endless(s.list, Pos(s.list, idx))
  {
    RevocableStops(cfg, boot, s, idx);
    if Endless(s.list, Pos(s.list, idx)) {
      EndlessGoesOn(s.list, Pos(s.list, idx), |s.list|);
    }
  }

  lemma {:induction false} RevocableStops(cfg: Config, boot: seq<Cap>, s: State, idx: nat)
    requires Revocable(cfg, boot, s, Pos(s.list, idx))
    ensures !GoesOn(s.list, idx, |s.list|)
    decreases |s.list|
  {
    hide ListInv, ScheduleAgrees, RegistersAgree, BootOk, AnchorSafe, Under, PassList, PassVerdict, SameAuthority;
    var p := Pos(s.list, idx);
    var s' := RevokeStepAt(cfg, s, p).0;
    RevokePassKeepsInv(cfg, boot, s, p);
    if PassVerdict(s.list, p) == Continue {
      RevocableStops(cfg, boot, s', idx);
    }
  }
}
