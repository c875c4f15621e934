/** The capability table in memory: one array of entries for all processes, with a circular
    doubly linked list threaded through the occupied ones. The list is the derivation list. */
module CapTable {
  import opened Capability
  import opened CapList
  import opened CapOps

  // ----- the arrays represent the list -----

  /** Position `k` and its successor on the cycle point at each other. */
  predicate LinkedAt(l: List, prv: seq<nat>, nxt: seq<nat>, k: nat)
    requires k < |l|
  {
    var a, b := l[k].idx, l[Next(l, k)].idx;
    a < |nxt| && b < |prv| && nxt[a] == b && prv[b] == a
  }

  ghost predicate Linked(l: List, prv: seq<nat>, nxt: seq<nat>) {
    forall k: nat :: k < |l| ==> LinkedAt(l, prv, nxt, k)
  }

  /** Listed entries are exactly the occupied ones, with the listed capabilities. */
  ghost predicate Occupied(l: List, cap: seq<Cap>) {
    && (forall k: nat :: k < |l| ==> l[k].idx < |cap| && !l[k].cap.None? && cap[l[k].idx] == l[k].cap)
    && (forall i: nat :: i < |cap| && Unlisted(l, i) ==> cap[i].None?)
  }

  ghost predicate Unlisted(l: List, i: nat) {
    forall k: nat :: k < |l| ==> l[k].idx != i
  }

  lemma PosUnlisted(l: List, i: nat)
    ensures Pos(l, i) == |l| <==> Unlisted(l, i)
  {
  }

  lemma InsertLinks(l: List, prv: seq<nat>, nxt: seq<nat>, k: nat, c: nat, ncap: Cap)
    requires Linked(l, prv, nxt) && Distinct(l) && k < |l| && Unlisted(l, c) && c < |nxt| == |prv|
    ensures var (a, b) := (l[k].idx, l[Next(l, k)].idx);
            a < |nxt| && b < |prv| && a != c && b != c && nxt[a] == b
            && Linked(InsertAfter(l, k, c, ncap), prv[c := a][b := c], nxt[c := b][a := c])
  {
    assert LinkedAt(l, prv, nxt, k);
    var a, b := l[k].idx, l[Next(l, k)].idx;
    var r := InsertAfter(l, k, c, ncap);
    var prv', nxt' := prv[c := a][b := c], nxt[c := b][a := c];
    forall j: nat | j < |r| ensures LinkedAt(r, prv', nxt', j) {
      if j != k && j != k + 1 {
        var j' := if j <= k then j else j - 1;
        assert LinkedAt(l, prv, nxt, j');
        assert r[j] == l[j'] && r[Next(r, j)] == l[Next(l, j')];
        assert Next(l, j') != Next(l, k);
      } else if j == k {
        assert r[j] == l[k] && r[Next(r, j)].idx == c;
      } else {
        assert r[j].idx == c && r[Next(r, j)] == l[Next(l, k)];
      }
    }
  }

  function Before(l: List, k: nat): (j: nat)
    requires k < |l|
    ensures j < |l| && Next(l, j) == k
  {
    if k == 0 then |l| - 1 else k - 1
  }

  lemma RemoveLinks(l: List, prv: seq<nat>, nxt: seq<nat>, k: nat)
    requires Linked(l, prv, nxt) && Distinct(l) && k < |l|
    ensures var (a, c, b) := (l[Before(l, k)].idx, l[k].idx, l[Next(l, k)].idx);
            a < |nxt| && b < |prv| && c < |nxt| && c < |prv| && prv[c] == a && nxt[c] == b
            && Linked(RemoveAt(l, k), prv[b := a], nxt[a := b])
  {
    assert LinkedAt(l, prv, nxt, k) && LinkedAt(l, prv, nxt, Before(l, k));
    var a, b := l[Before(l, k)].idx, l[Next(l, k)].idx;
    var r := RemoveAt(l, k);
    var prv', nxt' := prv[b := a], nxt[a := b];
    forall j: nat | j < |r| ensures LinkedAt(r, prv', nxt', j) {
      var j' := if j < k then j else j + 1;
      assert LinkedAt(l, prv, nxt, j');
      if j' == Before(l, k) {
        assert r[j] == l[j'] && r[Next(r, j)] == l[Next(l, k)];
      } else {
        assert r[j] == l[j'] && r[Next(r, j)] == l[Next(l, j')];
        assert Next(l, j') != Next(l, k);
      }
    }
  }

  lemma MoveLinks(l: List, prv: seq<nat>, nxt: seq<nat>, k: nat, dst: nat)
    requires Linked(l, prv, nxt) && Distinct(l) && k < |l| && Unlisted(l, dst) && dst < |nxt| == |prv|
    ensures var (a, c, b) := (l[Before(l, k)].idx, l[k].idx, l[Next(l, k)].idx);
            a < |nxt| && b < |prv| && c < |nxt| && prv[c] == a && nxt[c] == b && a != dst && b != dst
            && (Linked(SetIdx(l, k, dst), prv[dst := a][b := dst], nxt[dst := b][a := dst]) <==> |l| >= 2)
  {
    assert LinkedAt(l, prv, nxt, k) && LinkedAt(l, prv, nxt, Before(l, k));
    var a, b := l[Before(l, k)].idx, l[Next(l, k)].idx;
    var r := SetIdx(l, k, dst);
    var prv', nxt' := prv[dst := a][b := dst], nxt[dst := b][a := dst];
    if |l| >= 2 {
      forall j: nat | j < |r| ensures LinkedAt(r, prv', nxt', j) {
        assert LinkedAt(l, prv, nxt, j);
      }
    } else {
      assert !LinkedAt(r, prv', nxt', 0);
    }
  }

  /** A ring of one, entry 0 of a table of two, moved to entry 1: each of the two entries now points
      at the other's place, and following `next` from the moved entry leads to the emptied one. */
  lemma LoneMoveBreaks(c: Cap)
    ensures var l := [Node(0, c, 0)];
            var prv, nxt := [0, 0], [0, 0];
            var prv', nxt' := prv[1 := prv[0]][nxt[0] := 1], nxt[1 := nxt[0]][prv[0] := 1];
            && Linked(l, prv, nxt)
            && !Linked(SetIdx(l, 0, 1), prv', nxt')
            && nxt'[1] == 0
  {
    var l := [Node(0, c, 0)];
    assert LinkedAt(l, [0, 0], [0, 0], 0);
    MoveLinks(l, [0, 0], [0, 0], 0, 1);
  }

  lemma InsertOccupied(l: List, cap: seq<Cap>, k: nat, c: nat, ncap: Cap)
    requires Occupied(l, cap) && Distinct(l) && k < |l| && Unlisted(l, c) && c < |cap| && !ncap.None?
    ensures var r := InsertAfter(l, k, c, ncap); Occupied(r, cap[c := ncap]) && Distinct(r)
  {
    var r := InsertAfter(l, k, c, ncap);
    var cap' := cap[c := ncap];
    forall j: nat | j < |r| ensures r[j].idx < |cap| && !r[j].cap.None? && cap'[r[j].idx] == r[j].cap {
      if j != k + 1 {
        assert r[j] == l[if j <= k then j else j - 1];
      }
    }
    forall i: nat | i < |cap| && Unlisted(r, i) ensures cap'[i].None? {
      assert r[k + 1].idx == c;
      forall j: nat | j < |l| ensures l[j].idx != i {
        assert r[if j <= k then j else j + 1] == l[j];
      }
      assert Unlisted(l, i);
    }
  }

  lemma RemoveOccupied(l: List, cap: seq<Cap>, k: nat)
    requires Occupied(l, cap) && Distinct(l) && k < |l|
    ensures l[k].idx < |cap|
    ensures var r := RemoveAt(l, k); Occupied(r, cap[l[k].idx := None]) && Distinct(r)
  {
    var r := RemoveAt(l, k);
    var cap' := cap[l[k].idx := None];
    forall j: nat | j < |r| ensures r[j].idx < |cap| && !r[j].cap.None? && cap'[r[j].idx] == r[j].cap {
      assert r[j] == l[if j < k then j else j + 1];
    }
    forall i: nat | i < |cap| && Unlisted(r, i) ensures cap'[i].None? {
      forall j: nat | j < |l| && j != k ensures l[j].idx != i {
        assert r[if j < k then j else j - 1] == l[j];
      }
      assert i != l[k].idx ==> Unlisted(l, i);
    }
  }

  lemma MoveOccupied(l: List, cap: seq<Cap>, k: nat, dst: nat)
    requires Occupied(l, cap) && Distinct(l) && k < |l| && Unlisted(l, dst) && dst < |cap|
    ensures l[k].idx < |cap|
    ensures var r := SetIdx(l, k, dst); Occupied(r, cap[dst := l[k].cap][l[k].idx := None]) && Distinct(r)
  {
    var r := SetIdx(l, k, dst);
    var cap' := cap[dst := l[k].cap][l[k].idx := None];
    forall i: nat | i < |cap| && Unlisted(r, i) ensures cap'[i].None? {
      assert r[k].idx == dst;
      assert forall j: nat :: j < |l| && j != k ==> l[j] == r[j];
      assert i != l[k].idx ==> Unlisted(l, i);
    }
  }

  // ----- boot -----

  /** The order in which the boot loop threads the first `k` table entries: each occupied
      entry goes right behind entry 0, so the later ones come first. */
  function BootOrder(caps: seq<Cap>, k: nat): (o: seq<nat>)
    requires 0 < k <= |caps| && !caps[0].None?
    ensures |o| > 0 && o[0] == 0
    ensures forall j: nat :: 0 < j < |o| ==> 0 < o[j] < k && !caps[o[j]].None?
    ensures forall i: nat, j: nat :: i < j < |o| ==> o[i] != o[j]
  {
    if k == 1 then [0]
    else
      var o := BootOrder(caps, k - 1);
      if caps[k - 1].None? then o else [0, k - 1] + o[1..]
  }

  /** Boot capabilities in list order. */
  function BootCaps(caps: seq<Cap>): (b: seq<Cap>)
    requires |caps| > 0 && !caps[0].None?
  {
    var o := BootOrder(caps, |caps|);
    seq(|o|, j requires 0 <= j < |o| => caps[o[j]])
  }

  function BootList(caps: seq<Cap>): List
    requires |caps| > 0 && !caps[0].None?
  {
    var o := BootOrder(caps, |caps|);
    seq(|o|, j requires 0 <= j < |o| => Node(o[j], caps[o[j]], j))
  }

  /** The same with a given family, as the boot loop builds it. */
  ghost function BootPrefix(caps: seq<Cap>, k: nat): List
    requires 0 < k <= |caps| && !caps[0].None?
  {
    var o := BootOrder(caps, k);
    seq(|o|, j requires 0 <= j < |o| => Node(o[j], caps[o[j]], 0))
  }

  // ----- the table -----

  class Table {
    const size: nat
    const prv: array<nat>
    const nxt: array<nat>
    const cap: array<Cap>
    /** The cycle, cut open at some entry. */
    ghost var list: List

    ghost predicate Valid() reads this, prv, nxt, cap {
      && prv != nxt
      && prv.Length == size && nxt.Length == size && cap.Length == size
      && Distinct(list)
      && Linked(list, prv[..], nxt[..])
      && Occupied(list, cap[..])
    }

    /** The zeroed table. */
    constructor (size: nat)
      ensures Valid() && this.size == size && list == []
      ensures forall i: nat :: i < size ==> nxt[i] == 0 && prv[i] == 0
      ensures fresh(prv) && fresh(nxt) && fresh(cap)
    {
      this.size := size;
      prv := new nat[size](_ => 0);
      nxt := new nat[size](_ => 0);
      cap := new Cap[size](_ => None);
      list := [];
    }

    method IsEmpty(c: nat) returns (empty: bool)
      requires Valid() && c < size
      ensures empty <==> Pos(list, c) == |list|
    {
      PosUnlisted(list, c);
      empty := cap[c].None?;
    }

    /** What an entry holds. */
    method Get(c: nat) returns (k: Cap)
      requires Valid() && c < size
      ensures k.None? <==> Pos(list, c) == |list|
      ensures Pos(list, c) < |list| ==> k == list[Pos(list, c)].cap
    {
      PosUnlisted(list, c);
      k := cap[c];
    }

    /** The next entry on the cycle. */
    method NextOf(c: nat, ghost k: nat) returns (n: nat)
      requires Valid() && k < |list| && list[k].idx == c
      ensures n == list[Next(list, k)].idx && n < size
    {
      assert LinkedAt(list, prv[..], nxt[..], k);
      n := nxt[c];
    }

    method SetCapAt(c: nat, ncap: Cap, ghost k: nat)
      requires Valid() && k < |list| && list[k].idx == c && !ncap.None?
      modifies this`list, cap
      ensures Valid() && list == SetCap(old(list), k, ncap)
    {
      cap[c] := ncap;
      list := SetCap(list, k, ncap);
      forall j: nat | j < |list| ensures LinkedAt(list, prv[..], nxt[..], j) {
        assert LinkedAt(old(list), prv[..], nxt[..], j);
      }
      forall i: nat | i < size && Unlisted(list, i) ensures cap[i].None? {
        assert forall j: nat :: j < |list| ==> old(list)[j].idx == list[j].idx;
        assert Unlisted(old(list), i);
      }
    }

    /** The first insertion of the boot loop: entry `c` of the zeroed table, behind itself. */
    method InsertFirst(c: nat, ncap: Cap)
      requires Valid() && c < size && list == [] && nxt[c] == c && !ncap.None?
      modifies this`list, prv, nxt, cap
      ensures Valid() && list == [Node(c, ncap, 0)]
    {
      prv[c] := c;
      nxt[c] := nxt[c];
      nxt[prv[c]] := c;
      prv[nxt[c]] := c;
      cap[c] := ncap;
      list := [Node(c, ncap, 0)];
      assert LinkedAt(list, prv[..], nxt[..], 0);
      forall i: nat | i < size && Unlisted(list, i) ensures cap[i].None? {
        assert list[0].idx != i && Unlisted([], i);
      }
    }

    /** Insert entry `c` behind the listed entry `prev`. */
    method Insert(c: nat, ncap: Cap, prev: nat, ghost k: nat)
      requires Valid() && c < size && Pos(list, c) == |list| && !ncap.None?
      requires k < |list| && list[k].idx == prev
      modifies this`list, prv, nxt, cap
      ensures Valid() && list == InsertAfter(old(list), k, c, ncap)
    {
      PosUnlisted(list, c);
      InsertLinks(list, prv[..], nxt[..], k, c, ncap);
      InsertOccupied(list, cap[..], k, c, ncap);
      hide Linked, Occupied, Distinct;
      ghost var b := list[Next(list, k)].idx;
      prv[c] := prev;
      nxt[c] := nxt[prev];
      nxt[prv[c]] := c;
      prv[nxt[c]] := c;
      cap[c] := ncap;
      assert nxt[..] == old(nxt[..])[c := b][prev := c];
      assert prv[..] == old(prv[..])[c := prev][b := c];
      assert cap[..] == old(cap[..])[c := ncap];
      list := InsertAfter(list, k, c, ncap);
    }

    /** Remove a listed entry. */
    method Delete(c: nat, ghost k: nat)
      requires Valid() && k < |list| && list[k].idx == c
      modifies this`list, prv, nxt, cap
      ensures Valid() && list == RemoveAt(old(list), k)
    {
      RemoveLinks(list, prv[..], nxt[..], k);
      RemoveOccupied(list, cap[..], k);
      hide Linked, Occupied, Distinct;
      ghost var a, b := list[Before(list, k)].idx, list[Next(list, k)].idx;
      cap[c] := None;
      nxt[prv[c]] := nxt[c];
      prv[nxt[c]] := prv[c];
      assert nxt[..] == old(nxt[..])[a := b];
      assert prv[..] == old(prv[..])[b := a];
      assert cap[..] == old(cap[..])[c := None];
      list := RemoveAt(list, k);
    }

    /** Give a listed entry's place to the empty entry `dst`. This works on a cycle of at
        least two entries; a single entry is left pointing at the emptied one. */
    method Move(src: nat, dst: nat, ghost k: nat)
      requires Valid() && dst < size && Pos(list, dst) == |list|
      requires k < |list| && list[k].idx == src
      modifies this`list, prv, nxt, cap
      ensures list == SetIdx(old(list), k, dst)
      ensures Valid() <==> |old(list)| >= 2
    {
      PosUnlisted(list, dst);
      MoveLinks(list, prv[..], nxt[..], k, dst);
      MoveOccupied(list, cap[..], k, dst);
      assert src < size && cap[src] == list[k].cap && src != dst;
      hide Linked, Occupied, Distinct;
      ghost var a, b := list[Before(list, k)].idx, list[Next(list, k)].idx;
      cap[dst] := cap[src];
      cap[src] := None;
      prv[dst] := prv[src];
      nxt[dst] := nxt[src];
      nxt[prv[dst]] := dst;
      prv[nxt[dst]] := dst;
      assert nxt[..] == old(nxt[..])[dst := b][a := dst];
      assert prv[..] == old(prv[..])[dst := a][b := dst];
      assert cap[..] == old(cap[..])[dst := old(list)[k].cap][src := None];
      list := SetIdx(list, k, dst);
    }

    /** ctable_init: thread the boot capabilities through the zeroed table. Every entry goes
        behind entry 0. */
    method Init(caps: seq<Cap>)
      requires Valid() && list == [] && 0 < |caps| <= size && nxt[0] == 0
      requires !caps[0].None?
      modifies this`list, prv, nxt, cap
      ensures Valid() && list == BootList(caps)
    {
      InsertFirst(0, caps[0]);
      assert list == BootPrefix(caps, 1);
      var i := 1;
      while i < |caps|
        invariant 1 <= i <= |caps|
        invariant Valid() && list == BootPrefix(caps, i)
      {
        if !caps[i].None? {
          BootGrows(caps, i);
          Insert(i, caps[i], 0, 0);
        }
        i := i + 1;
      }
      ghost var l := list;
      list := BootList(caps);
      assert forall k: nat :: k < |l| ==> list[k].idx == l[k].idx && list[k].cap == l[k].cap;
      Relabel(l, list, prv[..], nxt[..], cap[..]);
    }
  }

  lemma BootGrows(caps: seq<Cap>, i: nat)
    requires 0 < i < |caps| && !caps[0].None? && !caps[i].None?
    ensures var l := BootPrefix(caps, i);
            |l| > 0 && l[0].idx == 0 && Pos(l, i) == |l| && BootPrefix(caps, i + 1) == InsertAfter(l, 0, i, caps[i])
  {
    var l := BootPrefix(caps, i);
    PosUnlisted(l, i);
    var o, o' := BootOrder(caps, i), BootOrder(caps, i + 1);
    assert o' == [0, i] + o[1..];
    assert forall j: nat :: j < |o| ==> l[j] == Node(o[j], caps[o[j]], 0);
  }

  /** Families are not stored: naming them differently changes nothing in the table. */
  lemma Relabel(l: List, r: List, prv: seq<nat>, nxt: seq<nat>, cap: seq<Cap>)
    requires |l| == |r| && forall k: nat :: k < |l| ==> r[k].idx == l[k].idx && r[k].cap == l[k].cap
    requires Distinct(l) && Linked(l, prv, nxt) && Occupied(l, cap)
    ensures Distinct(r) && Linked(r, prv, nxt) && Occupied(r, cap)
  {
    forall k: nat | k < |r| ensures LinkedAt(r, prv, nxt, k) {
      assert LinkedAt(l, prv, nxt, k);
    }
    forall i: nat | i < |cap| && Unlisted(r, i) ensures cap[i].None? {
      assert Unlisted(l, i);
    }
  }
}
