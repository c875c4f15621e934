/** The derivation list. All capabilities of all processes sit in one cyclic list; no
    parent or child pointers exist. Here the cycle is a sequence that starts at the
    boot PMP entry, and every entry remembers which boot capability it descends from. */
module CapList {
  import opened Capability

  /** A listed table entry: its table index, its capability, and its family, that is
      the number of the boot capability it descends from, counted in list order. */
  datatype Node = Node(idx: nat, cap: Cap, fam: nat)

  type List = seq<Node>

  // ----- ranges -----

  /** The range a capability speaks of: slots, process numbers, channels or bytes. */
  function Lo(c: Cap): int {
    match c
    case None => 0
    case Time(_, bgn, _, _) => bgn
    case Memory(tag, _, _, bgn, _, _) => BlockAddr(tag, bgn)
    case Pmp(addr, _, _, _) => FrameBegin(addr)
    case Monitor(bgn, _, _) => bgn
    case Channel(bgn, _, _) => bgn
    case Socket(chan, _, _, _) => chan
  }

  function Hi(c: Cap): int {
    match c
    case None => 0
    case Time(_, _, _, end) => end
    case Memory(tag, _, _, _, _, end) => BlockAddr(tag, end)
    case Pmp(addr, _, _, _) => FrameEnd(addr)
    case Monitor(_, _, end) => end
    case Channel(_, _, end) => end
    case Socket(chan, _, _, _) => chan + 1
  }

  /** Capabilities that hand out parts of their range, in ascending order. */
  predicate Ranged(c: Cap) {
    c.Time? || c.Memory? || c.Monitor? || c.Channel?
  }

  /** Everything at or above the mark is still free. */
  function Mark(c: Cap): int
    requires Ranged(c)
  {
    match c
    case Time(_, _, mrk, _) => mrk
    case Memory(tag, _, _, _, mrk, _) => BlockAddr(tag, mrk)
    case Monitor(_, mrk, _) => mrk
    case Channel(_, mrk, _) => mrk
  }

  // ----- order of two entries of one family -----

  /** `c` lies inside the part of `p` that `p` has handed out. */
  predicate Nested(p: Cap, c: Cap) {
    && Ranged(p)
    && Lo(p) <= Lo(c)
    && (Hi(c) <= Mark(p) || (p.Memory? && p.lck && c.Pmp? && Hi(c) <= Hi(p)))
  }

  /** What holds of an entry `p` and any later entry `c` of the same family: `c` lies
      wholly below `p`, or `p` handed it out. Frames may overlap each other, and the
      clients of a server socket share its channel. */
  predicate Ordered(p: Cap, c: Cap) {
    || Hi(c) <= Lo(p)
    || Nested(p, c)
    || (p.Pmp? && c.Pmp?)
    || (p.Socket? && c.Socket? && p.chan == c.chan && c.tok != 0)
  }

  /** `c`, standing after `p` in the same family, is within `p`'s authority: this is
      what revoking `p` has to remove. */
  predicate Under(p: Cap, c: Cap) {
    || (Ranged(p) && Lo(p) <= Lo(c) && Hi(c) <= Hi(p))
    || (p.Socket? && p.tok == 0 && c.Socket? && c.chan == p.chan)
  }

  predicate OrderedAt(l: List, i: nat, j: nat)
    requires i < j < |l|
  {
    l[i].fam == l[j].fam ==> Ordered(l[i].cap, l[j].cap)
  }

  predicate NoGapAt(l: List, i: nat, j: nat, k: nat)
    requires i < j < k < |l|
  {
    l[i].fam == l[k].fam && Under(l[i].cap, l[k].cap) ==> Under(l[i].cap, l[j].cap)
  }

  ghost predicate Order(l: List) {
    forall i: nat, j: nat :: i < j < |l| ==> OrderedAt(l, i, j)
  }

  ghost predicate NoGap(l: List) {
    forall i: nat, j: nat, k: nat :: i < j < k < |l| ==> NoGapAt(l, i, j, k)
  }

  predicate FamLe(l: List, i: nat, j: nat)
    requires i < |l| && j < |l|
  {
    l[i].fam <= l[j].fam
  }

  ghost predicate FamSorted(l: List) {
    forall i: nat, j: nat :: i < j < |l| ==> FamLe(l, i, j)
  }

  ghost predicate Distinct(l: List) {
    forall i: nat, j: nat :: i < j < |l| ==> l[i].idx != l[j].idx
  }

  /** A well-formed capability: a non-empty range with its mark inside. */
  predicate Sound(c: Cap) {
    && !c.None?
    && Lo(c) < Hi(c)
    && (Ranged(c) ==> Lo(c) <= Mark(c) <= Hi(c))
  }

  ghost predicate AllSound(l: List) {
    forall i: nat :: i < |l| ==> Sound(l[i].cap)
  }

  /** The order half of the system invariant. */
  ghost predicate Threaded(l: List) {
    && Distinct(l)
    && AllSound(l)
    && FamSorted(l)
    && Order(l)
    && NoGap(l)
  }

  // ----- list edits -----

  function SetCap(l: List, p: nat, c: Cap): List
    requires p < |l|
  {
    l[p := l[p].(cap := c)]
  }

  function SetIdx(l: List, p: nat, idx: nat): List
    requires p < |l|
  {
    l[p := l[p].(idx := idx)]
  }

  function RemoveAt(l: List, p: nat): List
    requires p < |l|
  {
    l[..p] + l[p + 1..]
  }

  /** A new entry right after position `p`, in the same family. */
  function InsertAfter(l: List, p: nat, idx: nat, c: Cap): List
    requires p < |l|
  {
    l[..p + 1] + [Node(idx, c, l[p].fam)] + l[p + 1..]
  }

  /** Position of a table index in the list, or the list's length when it is not listed. */
  function Pos(l: List, idx: nat): (p: nat)
    ensures p <= |l|
    ensures p < |l| ==> l[p].idx == idx
    ensures forall k: nat :: k < p ==> l[k].idx != idx
  {
    if l == [] then 0
    else if l[0].idx == idx then 0
    else 1 + Pos(l[1..], idx)
  }

  /** With distinct indices the position is the only one. */
  lemma PosUnique(l: List, p: nat)
    requires Distinct(l) && p < |l|
    ensures Pos(l, l[p].idx) == p
  {
  }

  // ----- every edit keeps the order -----

  lemma RemoveKeepsThreaded(l: List, p: nat)
    requires Threaded(l) && p < |l|
    ensures Threaded(RemoveAt(l, p))
  {
    hide Under, Ordered, Lo, Hi, Mark;
    var r := RemoveAt(l, p);
    forall i: nat, j: nat | i < j < |r| ensures OrderedAt(r, i, j) && FamLe(r, i, j) {
      var i', j' := if i < p then i else i + 1, if j < p then j else j + 1;
      assert OrderedAt(l, i', j') && FamLe(l, i', j');
    }
    forall i: nat, j: nat, k: nat | i < j < k < |r| ensures NoGapAt(r, i, j, k) {
      var i', j', k' := if i < p then i else i + 1, if j < p then j else j + 1, if k < p then k else k + 1;
      assert NoGapAt(l, i', j', k');
    }
  }

  lemma MoveKeepsThreaded(l: List, p: nat, idx: nat)
    requires Threaded(l) && p < |l|
    requires forall k: nat :: k < |l| ==> l[k].idx != idx
    ensures Threaded(SetIdx(l, p, idx))
  {
    var r := SetIdx(l, p, idx);
    forall i: nat, j: nat | i < j < |r| ensures OrderedAt(r, i, j) && FamLe(r, i, j) {
      assert OrderedAt(l, i, j) && FamLe(l, i, j);
    }
    forall i: nat, j: nat, k: nat | i < j < k < |r| ensures NoGapAt(r, i, j, k) {
      assert NoGapAt(l, i, j, k);
    }
  }

  /** Same kind and range; only a mark, a lock or the PMP binding may differ. */
  predicate SameRange(a: Cap, b: Cap) {
    && Lo(a) == Lo(b) && Hi(a) == Hi(b)
    && (Ranged(a) <==> Ranged(b))
    && (a.Memory? <==> b.Memory?)
    && (a.Pmp? <==> b.Pmp?)
    && (a.Socket? <==> b.Socket?)
    && (a.Socket? && b.Socket? ==> a.chan == b.chan && a.tok == b.tok)
  }

  /** Rewriting one capability in place keeps the order if its new mark and lock still
      cover everything it has handed out. */
  lemma SetCapKeepsThreaded(l: List, p: nat, c: Cap)
    requires Threaded(l) && p < |l|
    requires SameRange(l[p].cap, c) && Sound(c)
    requires forall j: nat :: p < j < |l| && l[j].fam == l[p].fam ==> Ordered(c, l[j].cap)
    ensures Threaded(SetCap(l, p, c))
  {
    var r := SetCap(l, p, c);
    forall i: nat, j: nat | i < j < |r| ensures OrderedAt(r, i, j) && FamLe(r, i, j) {
      assert OrderedAt(l, i, j) && FamLe(l, i, j);
    }
    forall i: nat, j: nat, k: nat | i < j < k < |r| ensures NoGapAt(r, i, j, k) {
      assert NoGapAt(l, i, j, k);
    }
  }

  /** What a derivation promises: the parent `s` becomes `s'`, and the new capability `c`
      is taken from its free part. */
  predicate Derivation(s: Cap, s': Cap, c: Cap) {
    && SameRange(s, s') && Sound(s') && Sound(c)
    && Lo(s) <= Lo(c) && Hi(c) <= Hi(s)
    && if s.Socket? then
         s.tok == 0 && c.Socket? && c.chan == s.chan && c.tok != 0 && s' == s
       else
         && Ranged(s)
         && Mark(s) <= Lo(c)
         && Mark(s) <= Mark(s')
         && Nested(s', c)
         && (s.Memory? && s.lck ==> s'.lck)
         && (s.Memory? && s.lck ==> c.Pmp?)
         && (c.Pmp? ==> s.Memory?)
         && (c.Socket? ==> s.Channel?)
  }

  lemma OrderedSource(s: Cap, s': Cap, c: Cap)
    requires Derivation(s, s', c)
    ensures Ordered(s', c)
  {
  }

  /** What holds of an earlier entry and `s` also holds of it and anything taken from `s`. */
  lemma OrderedInherits(p: Cap, s: Cap, s': Cap, c: Cap)
    requires Sound(p) && Sound(s) && Derivation(s, s', c) && Ordered(p, s)
    ensures Ordered(p, s') && Ordered(p, c)
  {
  }

  /** What follows `s` lies wholly below anything taken from its free part. */
  lemma OrderedAfterNew(s: Cap, s': Cap, c: Cap, k: Cap)
    requires Sound(s) && Sound(k) && Derivation(s, s', c) && Ordered(s, k)
    ensures Ordered(s', k) && Ordered(c, k)
  {
  }

  lemma InsertKeepsThreaded(l: List, p: nat, s': Cap, idx: nat, c: Cap)
    requires Threaded(l) && p < |l|
    requires Derivation(l[p].cap, s', c)
    requires forall k: nat :: k < |l| ==> l[k].idx != idx
    ensures Threaded(InsertAfter(SetCap(l, p, s'), p, idx, c))
  {
    InsertKeepsOrder(l, p, s', idx, c);
    InsertKeepsNoGap(l, p, s', idx, c);
  }

  lemma InsertKeepsOrder(l: List, p: nat, s': Cap, idx: nat, c: Cap)
    requires AllSound(l) && FamSorted(l) && Order(l) && p < |l|
    requires Derivation(l[p].cap, s', c)
    ensures var r := InsertAfter(SetCap(l, p, s'), p, idx, c); FamSorted(r) && Order(r)
  {
    hide Ordered, Nested, Lo, Hi, Mark;
    var s := l[p].cap;
    var r := InsertAfter(SetCap(l, p, s'), p, idx, c);
    forall i: nat, j: nat | i < j < |r| ensures OrderedAt(r, i, j) && FamLe(r, i, j) {
      var i', j' := if i <= p then i else i - 1, if j <= p then j else j - 1;
      if i' < j' {
        assert OrderedAt(l, i', j') && FamLe(l, i', j');
        if l[i'].fam == l[j'].fam == l[p].fam {
          if j' == p {
            OrderedInherits(l[i'].cap, s, s', c);
          } else if i' == p {
            OrderedAfterNew(s, s', c, l[j'].cap);
          }
        }
      } else {
        OrderedSource(s, s', c);
      }
    }
  }

  lemma UnderSameRange(a: Cap, b: Cap, k: Cap)
    requires SameRange(a, b)
    ensures Under(a, k) <==> Under(b, k)
    ensures Under(k, a) <==> Under(k, b)
  {
  }

  /** Under an entry before `s` stands everything taken from `s`, exactly if `s` does. */
  lemma UnderNew(x: Cap, s: Cap, s': Cap, c: Cap)
    requires Sound(x) && Sound(s) && Derivation(s, s', c) && Ordered(x, s)
    ensures Under(x, c) <==> Under(x, s)
  {
  }

  lemma UnderSource(s: Cap, s': Cap, c: Cap)
    requires Derivation(s, s', c)
    ensures Under(s, c) && Under(s', c)
  {
  }

  /** Nothing already listed is under a new entry. */
  lemma NothingUnderNew(s: Cap, s': Cap, c: Cap, k: Cap)
    requires Sound(s) && Sound(k) && Derivation(s, s', c) && Ordered(s, k)
    ensures !Under(c, k)
  {
  }

  lemma InsertKeepsNoGap(l: List, p: nat, s': Cap, idx: nat, c: Cap)
    requires Threaded(l) && p < |l|
    requires Derivation(l[p].cap, s', c)
    ensures NoGap(InsertAfter(SetCap(l, p, s'), p, idx, c))
  {
    hide Under, Ordered, Nested, Lo, Hi, Mark;
    var m := SetCap(l, p, s');
    var r := InsertAfter(m, p, idx, c);
    forall i: nat, j: nat, k: nat | i < j < k < |m| ensures NoGapAt(m, i, j, k) {
      assert NoGapAt(l, i, j, k);
      UnderSameRange(l[p].cap, s', l[if p == i then k else i].cap);
      UnderSameRange(l[p].cap, s', l[if p == i then j else i].cap);
    }
    forall i: nat, j: nat, k: nat | i < j < k < |r| ensures NoGapAt(r, i, j, k) {
      var i', j', k' := if i <= p then i else i - 1, if j <= p then j else j - 1, if k <= p then k else k - 1;
      if i != p + 1 && j != p + 1 && k != p + 1 {
        assert NoGapAt(m, i', j', k');
      } else {
        InsertedNoGap(l, p, s', idx, c, i, j, k);
      }
    }
  }

  lemma InsertedNoGap(l: List, p: nat, s': Cap, idx: nat, c: Cap, i: nat, j: nat, k: nat)
    requires Threaded(l) && p < |l|
    requires Derivation(l[p].cap, s', c)
    requires i < j < k <= |l| && (i == p + 1 || j == p + 1 || k == p + 1)
    ensures NoGapAt(InsertAfter(SetCap(l, p, s'), p, idx, c), i, j, k)
  {
    hide Under, Ordered, Nested, Lo, Hi, Mark;
    var s := l[p].cap;
    if i == p + 1 {
      if l[k - 1].fam == l[p].fam {
        assert OrderedAt(l, p, k - 1);
        NothingUnderNew(s, s', c, l[k - 1].cap);
      }
    } else if j == p + 1 {
      if i < p {
        assert OrderedAt(l, i, p) && NoGapAt(l, i, p, k - 1) && FamLe(l, i, p) && FamLe(l, p, k - 1);
        if l[i].fam == l[p].fam { UnderNew(l[i].cap, s, s', c); }
      } else {
        UnderSource(s, s', c);
      }
    } else {
      assert OrderedAt(l, i, p) && FamLe(l, i, p);
      if l[i].fam == l[p].fam {
        UnderNew(l[i].cap, s, s', c);
        UnderSameRange(s, s', l[i].cap);
        if j < p { assert NoGapAt(l, i, j, p); }
      }
    }
  }
}
