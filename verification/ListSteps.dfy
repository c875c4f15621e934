/** Every list edit the kernel performs keeps the list half of the invariant. */
module ListSteps {
  import opened Capability
  import opened CapList
  import opened CapOps
  import opened Authority

  // ----- who is listed after an edit -----

  lemma MembersRemove(l: List, p: nat)
    requires Distinct(l) && p < |l|
    ensures forall n :: n in RemoveAt(l, p) <==> n in l && n != l[p]
  {
    var r := RemoveAt(l, p);
    forall n | n in l && n != l[p] ensures n in r {
      var i: nat :| i < |l| && l[i] == n;
      assert r[if i < p then i else i - 1] == n;
    }
  }

  lemma MembersReplace(l: List, p: nat, n': Node, r: List)
    requires Distinct(l) && p < |l| && r == l[p := n']
    ensures forall n :: n in r <==> (n in l && n != l[p]) || n == n'
  {
    assert r[p] == n';
    forall n | n in l && n != l[p] ensures n in r {
      var i: nat :| i < |l| && l[i] == n;
      assert r[i] == n;
    }
  }

  lemma MembersInsert(l: List, p: nat, idx: nat, c: Cap)
    requires p < |l|
    ensures forall n :: n in InsertAfter(l, p, idx, c) <==> n in l || n == Node(idx, c, l[p].fam)
  {
    assert l == l[..p + 1] + l[p + 1..];
  }

  // ----- removing an entry -----

  /** Any entry but the boot frame may go. */
  lemma RemoveKeepsListInv(boot: seq<Cap>, l: List, p: nat)
    requires ListInv(boot, l) && 0 < p < |l|
    ensures ListInv(boot, RemoveAt(l, p))
  {
    hide Ordered, Under, Within, Sound;
    var r := RemoveAt(l, p);
    RemoveKeepsThreaded(l, p);
    forall i: nat | i < |r| ensures WithinBoot(boot, r[i]) {
      assert WithinBoot(boot, l[if i < p then i else i + 1]);
    }
  }

  /** The head of a memory family. */
  ghost predicate MemoryHead(boot: seq<Cap>, l: List, p: nat)
    requires p < |l|
  {
    IsHead(l, p) && l[p].fam < |boot| && boot[l[p].fam].Memory?
  }

  /** The memory families keep their heads unless one of them is removed. */
  lemma RemoveKeepsRoots(boot: seq<Cap>, l: List, p: nat)
    requires ListInv(boot, l) && MemoryRoots(boot, l) && 0 < p < |l| && !MemoryHead(boot, l, p)
    ensures MemoryRoots(boot, RemoveAt(l, p))
  {
    hide Ordered, Under, Within, Sound;
    var r := RemoveAt(l, p);
    forall i: nat | i < |r| ensures HeadOk(boot, r, i) {
      var i' := if i < p then i else i + 1;
      assert WithinBoot(boot, l[i']) && HeadOk(boot, l, i');
      if i == p {
        assert FamLe(l, p - 1, p) && FamLe(l, p, p + 1);
      }
    }
    forall f: nat | f < |boot| && boot[f].Memory? ensures Listed(r, f) {
      assert Listed(l, f);
      var i: nat :| i < |l| && l[i].fam == f;
      assert i < p ==> r[i].fam == f;
      assert i > p ==> r[i - 1].fam == f;
      assert i == p ==> r[p - 1].fam == f;
    }
  }

  // ----- rewriting an entry -----

  /** The rewritten capability keeps its kind, range and permissions. */
  predicate SameAuthority(a: Cap, b: Cap) {
    && SameRange(a, b)
    && (a.Time? ==> b.Time? && b.hart == a.hart)
    && (a.Memory? ==> b.Memory? && b.tag == a.tag && b.rwx == a.rwx)
    && (a.Pmp? ==> b.Pmp? && b.addr == a.addr && b.rwx == a.rwx)
    && (a.Monitor? ==> b.Monitor?)
    && (a.Channel? ==> b.Channel?)
  }

  lemma SetCapKeepsListInv(boot: seq<Cap>, l: List, p: nat, c: Cap)
    requires ListInv(boot, l) && p < |l|
    requires SameAuthority(l[p].cap, c) && Sound(c)
    requires forall j: nat :: p < j < |l| && l[j].fam == l[p].fam ==> Ordered(c, l[j].cap)
    ensures ListInv(boot, SetCap(l, p, c))
  {
    SetCapKeepsThreaded(l, p, c);
    EditKeepsAuthority(boot, l, SetCap(l, p, c));
  }

  lemma SetIdxKeepsListInv(boot: seq<Cap>, l: List, p: nat, idx: nat)
    requires ListInv(boot, l) && p < |l|
    requires forall k: nat :: k < |l| ==> l[k].idx != idx
    ensures ListInv(boot, SetIdx(l, p, idx))
  {
    MoveKeepsThreaded(l, p, idx);
    EditKeepsAuthority(boot, l, SetIdx(l, p, idx));
  }

  /** Families, authority and roots do not see marks, locks, bindings and table indices. */
  ghost predicate SameShape(l: List, r: List) {
    |r| == |l| && forall i: nat :: i < |l| ==> r[i].fam == l[i].fam && SameAuthority(l[i].cap, r[i].cap)
  }

  lemma EditKeepsAuthority(boot: seq<Cap>, l: List, r: List)
    requires AllWithin(boot, l) && Anchored(l) && SameShape(l, r)
    ensures AllWithin(boot, r) && Anchored(r)
  {
    forall i: nat | i < |r| ensures WithinBoot(boot, r[i]) {
      assert WithinBoot(boot, l[i]);
    }
  }

  lemma EditKeepsRoots(boot: seq<Cap>, l: List, r: List)
    requires MemoryRoots(boot, l) && SameShape(l, r)
    ensures MemoryRoots(boot, r)
  {
    forall i: nat | i < |r| ensures HeadOk(boot, r, i) {
      assert HeadOk(boot, l, i);
    }
    forall f: nat | f < |boot| && boot[f].Memory? ensures Listed(r, f) {
      assert Listed(l, f);
      var i: nat :| i < |l| && l[i].fam == f;
      assert r[i].fam == f;
    }
  }

  // ----- adding an entry -----

  lemma InsertKeepsListInv(boot: seq<Cap>, l: List, p: nat, s': Cap, idx: nat, c: Cap)
    requires ListInv(boot, l) && p < |l|
    requires Derivation(l[p].cap, s', c) && SameAuthority(l[p].cap, s')
    requires WithinBoot(boot, Node(idx, c, l[p].fam)) && l[p].fam != 0
    requires forall k: nat :: k < |l| ==> l[k].idx != idx
    ensures ListInv(boot, InsertAfter(SetCap(l, p, s'), p, idx, c))
  {
    hide Ordered, Under, Within, Sound;
    InsertKeepsThreaded(l, p, s', idx, c);
    var m := SetCap(l, p, s');
    EditKeepsAuthority(boot, l, m);
    InsertKeepsAuthority(boot, m, p, idx, c);
  }

  lemma InsertKeepsAuthority(boot: seq<Cap>, m: List, p: nat, idx: nat, c: Cap)
    requires AllWithin(boot, m) && Anchored(m) && p < |m|
    requires WithinBoot(boot, Node(idx, c, m[p].fam)) && m[p].fam != 0
    ensures var r := InsertAfter(m, p, idx, c); AllWithin(boot, r) && Anchored(r)
  {
    hide Within;
    var r := InsertAfter(m, p, idx, c);
    forall i: nat | i < |r| ensures WithinBoot(boot, r[i]) {
      assert i != p + 1 ==> WithinBoot(boot, m[if i <= p then i else i - 1]);
    }
  }

  lemma InsertKeepsRoots(boot: seq<Cap>, m: List, p: nat, idx: nat, c: Cap)
    requires MemoryRoots(boot, m) && p < |m|
    ensures MemoryRoots(boot, InsertAfter(m, p, idx, c))
  {
    var r := InsertAfter(m, p, idx, c);
    forall i: nat | i < |r| ensures HeadOk(boot, r, i) {
      var i' := if i <= p then i else i - 1;
      assert HeadOk(boot, m, i');
      assert i == p + 2 ==> r[i - 1].fam == m[p].fam;
    }
    forall f: nat | f < |boot| && boot[f].Memory? ensures Listed(r, f) {
      assert Listed(m, f);
      var i: nat :| i < |m| && m[i].fam == f;
      assert r[if i <= p then i else i + 1].fam == f;
    }
  }

  // ----- one revocation pass -----

  /** What the revoked capability becomes still covers what is left of it. */
  lemma AbsorbOrder(p: Cap, c: Cap, k: Cap)
    requires Sound(p) && Sound(c) && Sound(k)
    requires Ordered(p, c) && Ordered(p, k) && Ordered(c, k) && Under(p, c)
    requires p.Memory? && c.Memory? ==> p.tag == c.tag
    ensures Ordered(Absorb(p, c), k)
  {
  }

  lemma ResetOrder(p: Cap, k: Cap)
    requires Sound(p) && Sound(k) && Ordered(p, k) && !Under(p, k)
    ensures Ordered(Reset(p), k)
  {
  }

  /** Taking back a neighbour changes no test on later ones. */
  lemma AbsorbEats(c: Cap, a: Cap, x: Cap)
    requires Eats(c, a)
    ensures Ranged(Absorb(c, a)) <==> Ranged(c)
    ensures Eats(Absorb(c, a), x) <==> Eats(c, x)
    ensures Finished(Absorb(c, a), x) <==> Finished(c, x)
    ensures Ranged(c) && Ranged(a) ==> (Finished(Absorb(c, a), Absorb(c, a)) <==> Finished(c, a))
    ensures !Ranged(a) ==> Absorb(c, a) == c
    ensures Ranged(c) ==> Eats(c, c) && Absorb(c, c) == c
  {
  }

  lemma AbsorbSame(p: Cap, c: Cap)
    requires Sound(p) && Sound(c) && Ordered(p, c) && Under(p, c)
    requires p.Memory? && c.Memory? ==> p.tag == c.tag
    ensures SameAuthority(p, Absorb(p, c)) && Sound(Absorb(p, c))
  {
  }

  lemma AbsorbKeepsListInv(boot: seq<Cap>, l: List, p: nat)
    requires ListInv(boot, l) && p + 1 < |l|
    requires l[p + 1].fam == l[p].fam && Under(l[p].cap, l[p + 1].cap)
    ensures var a := Absorb(l[p].cap, l[p + 1].cap);
            ListInv(boot, RemoveAt(SetCap(l, p, a), p + 1))
  {
    var c := l[p + 1].cap;
    var a := Absorb(l[p].cap, c);
    assert OrderedAt(l, p, p + 1) && WithinBoot(boot, l[p]) && WithinBoot(boot, l[p + 1]);
    AbsorbSame(l[p].cap, c);
    RemoveKeepsListInv(boot, l, p + 1);
    var m := RemoveAt(l, p + 1);
    forall j: nat | p < j < |m| && m[j].fam == m[p].fam ensures Ordered(a, m[j].cap) {
      assert m[j] == l[j + 1];
      assert OrderedAt(l, p, j + 1) && OrderedAt(l, p + 1, j + 1);
      AbsorbOrder(l[p].cap, c, l[j + 1].cap);
    }
    SetCapKeepsListInv(boot, m, p, a);
    assert SetCap(m, p, a) == RemoveAt(SetCap(l, p, a), p + 1);
  }

  lemma ResetKeepsListInv(boot: seq<Cap>, l: List, p: nat)
    requires ListInv(boot, l) && p < |l|
    requires p + 1 < |l| && l[p + 1].fam == l[p].fam ==> !Under(l[p].cap, l[p + 1].cap)
    ensures ListInv(boot, SetCap(l, p, Reset(l[p].cap)))
  {
    forall j: nat | p < j < |l| && l[j].fam == l[p].fam ensures Ordered(Reset(l[p].cap), l[j].cap) {
      assert OrderedAt(l, p, j);
      NothingUnder(l, p, j);
      ResetOrder(l[p].cap, l[j].cap);
    }
    SetCapKeepsListInv(boot, l, p, Reset(l[p].cap));
  }
}
