/** Cluster chains as the entries of a file allocation table spell them. */
module FatChains {

  /** Entry values by cluster number; entries 0 and 1 are reserved. 0 is free, 1 is invalid, a
      value from 2 on below the number of entries links to the next cluster, anything above
      ends a chain. */
  type Entries = seq<nat>

  predicate IsCluster(e: Entries, c: nat) {
    2 <= c < |e|
  }

  // ----- chains -----

  ghost predicate ChainOk(e: Entries, ch: seq<nat>) {
    && |ch| > 0
    && (forall i: nat :: i < |ch| ==> IsCluster(e, ch[i]))
    && (forall i: nat :: i < |ch| ==> LinkOk(e, ch, i))
  }

  predicate LinkOk(e: Entries, ch: seq<nat>, i: nat)
    requires i < |ch|
  {
    ch[i] < |e| && if i + 1 < |ch| then e[ch[i]] == ch[i + 1] else e[ch[i]] >= |e|
  }

  ghost predicate Used(chains: seq<seq<nat>>, c: nat) {
    exists a: nat, i: nat :: a < |chains| && i < |chains[a]| && chains[a][i] == c
  }

  /** No cluster occurs twice, in one chain or in two: chains are acyclic and disjoint. */
  ghost predicate NoSharing(chains: seq<seq<nat>>) {
    forall a: nat, i: nat, b: nat, j: nat ::
      a < |chains| && i < |chains[a]| && b < |chains| && j < |chains[b]| && chains[a][i] == chains[b][j] ==>
        a == b && i == j
  }

  /** The table consists of exactly these chains, and everything else is free. */
  ghost predicate WellFormed(e: Entries, chains: seq<seq<nat>>) {
    && (forall a: nat :: a < |chains| ==> ChainOk(e, chains[a]))
    && NoSharing(chains)
    && (forall c: nat :: IsCluster(e, c) && e[c] != 0 ==> Used(chains, c))
  }

  /** A free cluster belongs to no chain. */
  lemma FreeUnused(e: Entries, chains: seq<seq<nat>>, c: nat)
    requires WellFormed(e, chains) && IsCluster(e, c) && e[c] == 0
    ensures forall a: nat, i: nat :: a < |chains| && i < |chains[a]| ==> chains[a][i] != c
  {
    forall a: nat, i: nat | a < |chains| && i < |chains[a]| ensures chains[a][i] != c {
      assert ChainOk(e, chains[a]) && LinkOk(e, chains[a], i);
    }
  }

  /** A chain does not see entries it does not contain. */
  lemma ChainUntouched(e: Entries, e': Entries, ch: seq<nat>)
    requires ChainOk(e, ch) && |e'| == |e|
    requires forall i: nat :: i < |ch| ==> e'[ch[i]] == e[ch[i]]
    ensures ChainOk(e', ch)
  {
    forall i: nat | i < |ch| ensures LinkOk(e', ch, i) && IsCluster(e', ch[i]) {
      assert LinkOk(e, ch, i) && IsCluster(e, ch[i]);
    }
  }

  // ----- allocation -----

  /** A free cluster marked as end starts a chain of its own. */
  lemma StartsChain(e: Entries, chains: seq<seq<nat>>, c: nat, eoc: nat)
    requires WellFormed(e, chains) && IsCluster(e, c) && e[c] == 0 && eoc >= |e|
    ensures WellFormed(e[c := eoc], chains + [[c]])
  {
    FreeUnused(e, chains, c);
    var e', r := e[c := eoc], chains + [[c]];
    forall a: nat | a < |r| ensures ChainOk(e', r[a]) {
      if a < |chains| { ChainUntouched(e, e', chains[a]); } else { assert LinkOk(e', r[a], 0); }
    }
    forall d: nat | IsCluster(e', d) && e'[d] != 0 ensures Used(r, d) {
      if d == c {
        assert r[|chains|][0] == c;
      } else {
        assert Used(chains, d);
        var a: nat, i: nat :| a < |chains| && i < |chains[a]| && chains[a][i] == d;
        assert r[a][i] == d;
      }
    }
  }

  /** A free cluster marked as end and linked from a chain's last cluster lengthens it. */
  lemma StretchesChain(e: Entries, chains: seq<seq<nat>>, k: nat, c: nat, eoc: nat)
    requires WellFormed(e, chains) && k < |chains| && IsCluster(e, c) && e[c] == 0 && eoc >= |e|
    ensures ChainOk(e, chains[k])
    ensures var last := chains[k][|chains[k]| - 1];
            last < |e| && last != c && WellFormed(e[c := eoc][last := c], chains[k := chains[k] + [c]])
  {
    FreeUnused(e, chains, c);
    assert ChainOk(e, chains[k]);
    var n := |chains[k]|;
    var last := chains[k][n - 1];
    assert LinkOk(e, chains[k], n - 1) && IsCluster(e, last);
    var e', r := e[c := eoc][last := c], chains[k := chains[k] + [c]];
    forall a: nat | a < |r| ensures ChainOk(e', r[a]) {
      if a != k {
        assert forall i: nat :: i < |chains[a]| ==> chains[a][i] != last;
        ChainUntouched(e, e', chains[a]);
      } else {
        forall i: nat | i < |r[k]| ensures LinkOk(e', r[k], i) && IsCluster(e', r[k][i]) {
          if i < n {
            assert LinkOk(e, chains[k], i) && IsCluster(e, chains[k][i]);
            assert i < n - 1 ==> chains[k][i] != last;
          }
        }
      }
    }
    forall d: nat | IsCluster(e', d) && e'[d] != 0 ensures Used(r, d) {
      if d == c {
        assert r[k][n] == c;
      } else {
        assert d == last ==> e[d] != 0;
        assert Used(chains, d);
        var a: nat, i: nat :| a < |chains| && i < |chains[a]| && chains[a][i] == d;
        assert r[a][i] == d;
      }
    }
  }

  // ----- removal -----

  /** How many entries are not zero: what bounds the removal loop, cyclic chains included. */
  function NonZero(e: Entries): nat {
    if e == [] then 0 else NonZero(e[..|e| - 1]) + if e[|e| - 1] == 0 then 0 else 1
  }

  lemma {:induction false} NonZeroDrops(e: Entries, c: nat)
    requires c < |e| && e[c] != 0
    ensures NonZero(e[c := 0]) == NonZero(e) - 1
  {
    var n := |e| - 1;
    if c == n {
      assert e[c := 0][..n] == e[..n];
    } else {
      NonZeroDrops(e[..n], c);
      assert e[c := 0][..n] == e[..n][c := 0];
    }
  }

  /** What the removal loop does to any table, from cluster `c` on; false if it meets an
      invalid entry. */
  function RemoveFrom(e: Entries, c: nat): (r: (Entries, bool))
    requires IsCluster(e, c)
    ensures |r.0| == |e|
    decreases NonZero(e)
  {
    if e[c] == 0 then (e, true)
    else if e[c] == 1 then (e, false)
    else
      NonZeroDrops(e, c);
      if e[c] < |e| then RemoveFrom(e[c := 0], e[c]) else (e[c := 0], true)
  }

  /** All the given clusters set to zero. */
  function Zeroed(e: Entries, ch: seq<nat>): (r: Entries)
    requires forall i: nat :: i < |ch| ==> ch[i] < |e|
    ensures |r| == |e|
    ensures forall c: nat :: c < |e| ==> r[c] == if c in ch then 0 else e[c]
    decreases |ch|
  {
    if ch == [] then e else
      assert forall i: nat :: i < |ch| - 1 ==> ch[1..][i] == ch[i + 1];
      Zeroed(e[ch[0] := 0], ch[1..])
  }

  /** Removing from a chain's head frees exactly the chain. */
  lemma {:induction false} RemovesChain(e: Entries, ch: seq<nat>)
    requires ChainOk(e, ch) && forall i: nat, j: nat :: i < j < |ch| ==> ch[i] != ch[j]
    ensures RemoveFrom(e, ch[0]) == (Zeroed(e, ch), true)
    decreases |ch|
  {
    assert LinkOk(e, ch, 0) && IsCluster(e, ch[0]);
    var e', t := e[ch[0] := 0], ch[1..];
    if |ch| == 1 {
      assert t == [];
    } else {
      assert IsCluster(e, ch[1]);
      forall i: nat | i < |t| ensures LinkOk(e', t, i) && IsCluster(e', t[i]) {
        assert LinkOk(e, ch, i + 1) && IsCluster(e, ch[i + 1]);
        assert ch[i + 1] != ch[0];
      }
      RemovesChain(e', t);
    }
  }

  /** The tail of a chain from position `i` on, cut off and freed. */
  ghost function Cut(chains: seq<seq<nat>>, k: nat, i: nat): seq<seq<nat>>
    requires k < |chains| && i <= |chains[k]|
  {
    if i == 0 then chains[..k] + chains[k + 1..] else chains[k := chains[k][..i]]
  }

  /** The table after marking the cut position as end, and the part to be removed. */
  ghost function Marked(e: Entries, ch: seq<nat>, i: nat, eoc: nat): Entries
    requires i < |ch| && (0 < i ==> ch[i - 1] < |e|)
  {
    if i == 0 then e else e[ch[i - 1] := eoc]
  }

  lemma TailIsChain(e: Entries, ch: seq<nat>, i: nat, eoc: nat)
    requires ChainOk(e, ch) && i < |ch| && (forall a: nat, b: nat :: a < b < |ch| ==> ch[a] != ch[b])
    ensures (0 < i ==> ch[i - 1] < |e|) && ChainOk(Marked(e, ch, i, eoc), ch[i..])
  {
    if i > 0 { assert IsCluster(e, ch[i - 1]); }
    var m, t := Marked(e, ch, i, eoc), ch[i..];
    forall j: nat | j < |t| ensures LinkOk(m, t, j) && IsCluster(m, t[j]) {
      assert LinkOk(e, ch, i + j) && IsCluster(e, ch[i + j]);
      if i > 0 { assert ch[i - 1] != ch[i + j]; }
    }
  }

  /** Removing a chain from one of its clusters on frees exactly that tail; what is left is
      well-formed. */
  lemma RemovesTail(e: Entries, chains: seq<seq<nat>>, k: nat, i: nat, eoc: nat)
    requires WellFormed(e, chains) && k < |chains| && i < |chains[k]| && eoc >= |e|
    ensures 0 < i ==> chains[k][i - 1] < |e|
    ensures var m := Marked(e, chains[k], i, eoc);
            IsCluster(m, chains[k][i]) && RemoveFrom(m, chains[k][i]).1
            && WellFormed(RemoveFrom(m, chains[k][i]).0, Cut(chains, k, i))
  {
    var ch := chains[k];
    assert ChainOk(e, ch);
    forall a: nat, b: nat | a < b < |ch| ensures ch[a] != ch[b] {}
    TailIsChain(e, ch, i, eoc);
    var m, t := Marked(e, ch, i, eoc), ch[i..];
    forall a: nat, b: nat | a < b < |t| ensures t[a] != t[b] {
      assert ch[i + a] != ch[i + b];
    }
    RemovesChain(m, t);
    assert t[0] == ch[i];
    TailRemoved(e, chains, k, i, eoc, Zeroed(m, t));
  }

  lemma TailRemoved(e: Entries, chains: seq<seq<nat>>, k: nat, i: nat, eoc: nat, r: Entries)
    requires WellFormed(e, chains) && k < |chains| && i < |chains[k]| && eoc >= |e|
    requires |r| == |e|
    requires forall c: nat :: c < |e| ==>
      r[c] == if c in chains[k][i..] then 0 else if 0 < i && c == chains[k][i - 1] then eoc else e[c]
    ensures WellFormed(r, Cut(chains, k, i))
  {
    var ch, cut := chains[k], Cut(chains, k, i);
    forall a: nat | a < |cut| ensures ChainOk(r, cut[a]) {
      var a' := if i == 0 && a >= k then a + 1 else a;
      if a' != k {
        assert ChainOk(e, chains[a']);
        OtherChainKept(e, chains, k, i, eoc, r, a');
      } else {
        HeadKept(e, chains, k, i, eoc, r);
      }
    }
    CutUnshared(chains, k, i);
    forall c: nat | IsCluster(r, c) && r[c] != 0 ensures Used(cut, c) {
      assert e[c] != 0 by { if 0 < i && c == ch[i - 1] { assert ChainOk(e, ch) && LinkOk(e, ch, i - 1) && IsCluster(e, ch[i]); } }
      assert Used(chains, c);
      var a: nat, j: nat :| a < |chains| && j < |chains[a]| && chains[a][j] == c;
      InTail(chains[a], i, j);
      assert cut[if i == 0 && a > k then a - 1 else a][j] == c;
    }
  }

  lemma InTail(ch: seq<nat>, i: nat, j: nat)
    requires j < |ch|
    ensures i <= j ==> ch[j] in ch[i..]
  {
    if i <= j { assert ch[i..][j - i] == ch[j]; }
  }

  lemma OtherChainKept(e: Entries, chains: seq<seq<nat>>, k: nat, i: nat, eoc: nat, r: Entries, a: nat)
    requires WellFormed(e, chains) && k < |chains| && i < |chains[k]| && a < |chains| && a != k && |r| == |e|
    requires forall c: nat :: c < |e| ==>
      r[c] == if c in chains[k][i..] then 0 else if 0 < i && c == chains[k][i - 1] then eoc else e[c]
    ensures ChainOk(r, chains[a])
  {
    assert ChainOk(e, chains[a]);
    forall j: nat | j < |chains[a]| ensures r[chains[a][j]] == e[chains[a][j]] {
      var c := chains[a][j];
      assert LinkOk(e, chains[a], j);
      forall x: nat | x < |chains[k]| - i ensures chains[k][i..][x] != c {
        assert chains[k][i..][x] == chains[k][i + x];
      }
      assert 0 < i ==> chains[k][i - 1] != c;
    }
    ChainUntouched(e, r, chains[a]);
  }

  lemma HeadKept(e: Entries, chains: seq<seq<nat>>, k: nat, i: nat, eoc: nat, r: Entries)
    requires WellFormed(e, chains) && k < |chains| && 0 < i < |chains[k]| && |r| == |e| && eoc >= |e|
    requires forall c: nat :: c < |e| ==>
      r[c] == if c in chains[k][i..] then 0 else if 0 < i && c == chains[k][i - 1] then eoc else e[c]
    ensures ChainOk(r, chains[k][..i])
  {
    var ch := chains[k];
    assert ChainOk(e, ch);
    forall j: nat | j < i ensures LinkOk(r, ch[..i], j) && IsCluster(r, ch[..i][j]) {
      assert LinkOk(e, ch, j) && IsCluster(e, ch[j]);
      forall x: nat | x < |ch| - i ensures ch[i..][x] != ch[j] {
        assert ch[i..][x] == ch[i + x];
      }
      assert j < i - 1 ==> ch[j] != ch[i - 1];
    }
  }

  lemma CutUnshared(chains: seq<seq<nat>>, k: nat, i: nat)
    requires NoSharing(chains) && k < |chains| && i <= |chains[k]|
    ensures NoSharing(Cut(chains, k, i))
  {
    var cut := Cut(chains, k, i);
    forall a: nat, x: nat, b: nat, y: nat
      | a < |cut| && x < |cut[a]| && b < |cut| && y < |cut[b]| && cut[a][x] == cut[b][y]
      ensures a == b && x == y
    {
      var a', b' := if i == 0 && a >= k then a + 1 else a, if i == 0 && b >= k then b + 1 else b;
      assert chains[a'][x] == cut[a][x] && chains[b'][y] == cut[b][y];
    }
  }

  // ----- free clusters -----

  /** Free clusters below `k`. */
  function Free(e: Entries, k: nat): nat
    requires k <= |e|
  {
    if k <= 2 then 0 else Free(e, k - 1) + if e[k - 1] == 0 then 1 else 0
  }

  function FreeCount(e: Entries): nat {
    Free(e, |e|)
  }

  lemma {:induction false} FreeUpdate(e: Entries, c: nat, v: nat, k: nat)
    requires IsCluster(e, c) && k <= |e|
    ensures Free(e[c := v], k) == Free(e, k)
              - (if c < k && e[c] == 0 then 1 else 0) + (if c < k && v == 0 then 1 else 0)
  {
    if k > 2 { FreeUpdate(e, c, v, k - 1); }
  }

  lemma {:induction false} FreeBound(e: Entries, k: nat)
    requires 2 <= k <= |e|
    ensures Free(e, k) <= k - 2
    ensures forall c: nat :: IsCluster(e, c) && c < k && e[c] != 0 ==> Free(e, k) < k - 2
    ensures Free(e, k) == 0 <==> forall c: nat :: 2 <= c < k ==> e[c] != 0
  {
    if k > 2 { FreeBound(e, k - 1); }
  }
}
