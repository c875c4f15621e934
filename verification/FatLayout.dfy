/** Where a file allocation table's entries are, told by the table as one long number and by sector
    numbers, and what the table's values mean. */
module FatLayout {
  import opened Arith
  import opened FatEntry
  import opened FatWindow
  import opened FatChains
  import opened FatAlloc

  // ----- the table as one number -----

  /** A byte string as a number, the first byte lowest. */
  function Number(b: Bytes): nat {
    if b == [] then 0 else b[0] + 256 * Number(b[1..])
  }

  function Power(base: nat, k: nat): nat {
    if k == 0 then 1 else base * Power(base, k - 1)
  }

  lemma {:induction false} PowerPositive(base: nat, k: nat)
    requires base > 0
    ensures Power(base, k) > 0
    decreases k
  {
    if k > 0 {
      PowerPositive(base, k - 1);
      MulMore(1, base, Power(base, k - 1));
    }
  }

  lemma {:induction false} PowerAdd(base: nat, j: nat, k: nat)
    ensures Power(base, j + k) == Power(base, j) * Power(base, k)
    decreases j
  {
    if j > 0 {
      PowerAdd(base, j - 1, k);
      assert base * (Power(base, j - 1) * Power(base, k)) == base * Power(base, j - 1) * Power(base, k);
    }
  }

  /** Four bits are half a byte. */
  lemma {:induction false} PowerNibbles(k: nat)
    ensures Power(16, 2 * k) == Power(256, k)
    decreases k
  {
    if k > 0 {
      PowerNibbles(k - 1);
      assert Power(16, 2 * k) == 16 * Power(16, 2 * k - 1);
      assert Power(16, 2 * k - 1) == 16 * Power(16, 2 * k - 2);
    }
  }

  /** Shifting the number by whole bytes drops the first ones. */
  lemma {:induction false} NumberTail(b: Bytes, o: nat)
    requires o <= |b|
    ensures Power(256, o) > 0 && Number(b) / Power(256, o) == Number(b[o..])
    decreases o
  {
    PowerPositive(256, o);
    if o == 0 {
      DivUnique(Number(b), 1, Number(b), 0);
      assert b[0..] == b;
    } else {
      NumberTail(b[1..], o - 1);
      PowerPositive(256, o - 1);
      assert b[1..][o - 1..] == b[o..];
      var n, p := Number(b[1..]), Power(256, o - 1);
      DivMod(n, p);
      var q, r := n / p, n % p;
      assert Number(b) == q * (256 * p) + (256 * r + b[0]) by { Distribute(q, p, r, n, b[0]); }
      assert 256 * r + b[0] < 256 * p;
      DivUnique(Number(b), 256 * p, q, 256 * r + b[0]);
    }
  }

  lemma Distribute(q: nat, p: nat, r: nat, n: nat, x: nat)
    requires n == q * p + r
    ensures x + 256 * n == q * (256 * p) + (256 * r + x)
  {
    assert q * (256 * p) == 256 * (q * p);
  }

  /** The two, three or four bytes at `o` are the low ones of the shifted number. */
  lemma NumberBytes(b: Bytes, o: nat)
    requires o + 2 <= |b|
    ensures var n := Number(b[o..]);
            && n == Word(b[o], b[o + 1]) + 0x1_0000 * Number(b[o + 2..])
            && (o + 4 <= |b| ==> n == Dword(b[o], b[o + 1], b[o + 2], b[o + 3]) + 0x1_0000_0000 * Number(b[o + 4..]))
  {
    Step(b, o);
    Step(b, o + 1);
    if o + 4 <= |b| {
      Step(b, o + 2);
      Step(b, o + 3);
    }
    hide Number;
  }

  lemma Step(b: Bytes, o: nat)
    requires o < |b|
    ensures Number(b[o..]) == b[o] + 256 * Number(b[o + 1..])
  {
    assert b[o..][1..] == b[o + 1..];
  }

  /** Entries of w bits each, packed without gaps, the first ones lowest: entry c of a table is the
      whole table's number shifted right by c entries and cut to the entry's width; of a 32-bit
      entry only 28 bits count. */
  lemma EntryOfNumber(ty: FatType, b: Bytes, c: nat)
    requires Fits(ty, |b|, c)
    ensures Power(16, 3 * c) > 0 && Power(0x1_0000, c) > 0 && Power(0x1_0000_0000, c) > 0
    ensures ty == Fat12 ==> Get(ty, b, c) == Number(b) / Power(16, 3 * c) % 0x1000
    ensures ty == Fat16 ==> Get(ty, b, c) == Number(b) / Power(0x1_0000, c) % 0x1_0000
    ensures ty == Fat32 ==> Get(ty, b, c) == Number(b) / Power(0x1_0000_0000, c) % 0x1000_0000
  {
    PowerPositive(16, 3 * c);
    PowerPositive(0x1_0000, c);
    PowerPositive(0x1_0000_0000, c);
    match ty
    case Fat12 => Entry12(b, c);
    case Fat16 => Entry16(b, c);
    case Fat32 => Entry32(b, c);
  }

  lemma Entry16(b: Bytes, c: nat)
    requires Fits(Fat16, |b|, c)
    ensures Power(0x1_0000, c) > 0 && Get(Fat16, b, c) == Number(b) / Power(0x1_0000, c) % 0x1_0000
  {
    PowerBytes(2, c);
    NumberTail(b, 2 * c);
    NumberBytes(b, 2 * c);
    hide Number, Power;
    var n := Number(b[2 * c..]);
    DivUnique(n, 0x1_0000, Number(b[2 * c + 2..]), Word(b[2 * c], b[2 * c + 1]));
  }

  lemma Entry32(b: Bytes, c: nat)
    requires Fits(Fat32, |b|, c)
    ensures Power(0x1_0000_0000, c) > 0 && Get(Fat32, b, c) == Number(b) / Power(0x1_0000_0000, c) % 0x1000_0000
  {
    PowerBytes(4, c);
    NumberTail(b, 4 * c);
    NumberBytes(b, 4 * c);
    hide Number, Power;
    var o := 4 * c;
    var v := Dword(b[o], b[o + 1], b[o + 2], b[o + 3]);
    GetDword(b, c);
    hide Get, Dword;
    DivMod(v, 0x1000_0000);
    DivUnique(Number(b[o..]), 0x1000_0000, 16 * Number(b[o + 4..]) + v / 0x1000_0000, v % 0x1000_0000);
  }

  /** Two or four bytes at a time. */
  lemma {:induction false} PowerBytes(w: nat, c: nat)
    requires w == 2 || w == 4
    ensures Power(if w == 2 then 0x1_0000 else 0x1_0000_0000, c) == Power(256, w * c) > 0
    decreases c
  {
    PowerPositive(256, w * c);
    if c > 0 {
      PowerBytes(w, c - 1);
      var k := w * (c - 1);
      assert w * c == k + w;
      assert Power(256, k + 1) == 256 * Power(256, k);
      assert Power(256, k + 2) == 256 * Power(256, k + 1);
      if w == 4 {
        assert Power(256, k + 3) == 256 * Power(256, k + 2);
        assert Power(256, k + 4) == 256 * Power(256, k + 3);
      }
    }
  }

  lemma Entry12(b: Bytes, c: nat)
    requires Fits(Fat12, |b|, c)
    ensures Power(16, 3 * c) > 0 && Get(Fat12, b, c) == Number(b) / Power(16, 3 * c) % 0x1000
  {
    var o := c + c / 2;
    PowerPositive(16, 3 * c);
    NumberTail(b, o);
    NumberBytes(b, o);
    GetPair(b, c);
    PowerNibbles(o);
    var n, wc, rest := Number(b[o..]), Word(b[o], b[o + 1]), Number(b[o + 2..]);
    if c % 2 == 0 {
      assert 3 * c == 2 * o;
      hide Number, Power, Get, Word;
      DivMod(wc, 0x1000);
      DivUnique(n, 0x1000, 16 * rest + wc / 0x1000, wc % 0x1000);
    } else {
      assert 3 * c == 2 * o + 1;
      PowerAdd(16, 2 * o, 1);
      assert Power(16, 1) == 16 * Power(16, 0) == 16;
      HalfByte(Number(b), Power(256, o), n);
      hide Number, Power, Get;
      DivMod(wc, 16);
      DivUnique(n, 16, 0x1000 * rest + wc / 16, wc % 16);
      assert wc / 16 < 0x1000;
      DivUnique(0x1000 * rest + wc / 16, 0x1000, rest, wc / 16);
    }
  }

  /** Dividing by a product is dividing twice. */
  lemma HalfByte(x: nat, p: nat, n: nat)
    requires p > 0 && n == x / p
    ensures p * 16 > 0 && x / (p * 16) == n / 16
  {
    DivMod(x, p);
    DivMod(n, 16);
    var q, r := n / 16, n % 16;
    var e := x % p;
    assert x == q * (p * 16) + (r * p + e) by { assert (q * 16 + r) * p == q * (p * 16) + r * p; }
    assert r * p + e < p * 16 by { MulMore(r, 15, p); }
    DivUnique(x, p * 16, q, r * p + e);
  }

  // ----- sectors -----

  /** Byte `i` of the table is byte i % 512 of sector i / 512 behind the table's begin. */
  lemma FatByteOnDisk(g: Geometry, d: seq<Sector>, i: nat)
    requires GeometryOk(g, |d|) && i < g.fSize * 512
    ensures g.fatBase + i / 512 < |d| && FatBytes(g, d)[i] == d[g.fatBase + i / 512][i % 512]
  {
    SectorInFat(g, i);
  }

  /** With two tables, every sector of the second equals that of the first. */
  lemma CopiesEqual(v: Volume, i: nat)
    requires v.Valid() && v.g.nFats == 2 && i < v.g.fSize
    ensures v.g.fatBase + v.g.fSize + i < |v.disk|
    ensures v.disk[v.g.fatBase + v.g.fSize + i] == v.disk[v.g.fatBase + i]
  {
    assert InFat2(v.g, v.g.fatBase + v.g.fSize + i);
  }

  /** The number of bytes that mounting asks of a table is exactly what its entries take. */
  lemma NeededIff(ty: FatType, n: nat, size: nat)
    requires n > 0
    ensures NeededBytes(ty, n) <= size <==> forall c: nat :: c < n ==> Fits(ty, size, c)
  {
    LastEntryEnd(ty, n);
    forall c: nat | c < n ensures Offset(ty, c) <= Offset(ty, n - 1) { OffsetGrows(ty, c, n - 1); }
    hide NeededBytes, Offset, Span;
    assert (forall c: nat :: c < n ==> Fits(ty, size, c)) ==> Fits(ty, size, n - 1);
  }

  lemma LastEntryEnd(ty: FatType, n: nat)
    requires n > 0
    ensures NeededBytes(ty, n) == Offset(ty, n - 1) + Span(ty)
  {
    var h, r := n / 2, n % 2;
    DivMod(n, 2);
    if r == 0 {
      DivUnique(n * 3, 2, 3 * h, 0);
      DivUnique(n - 1, 2, h - 1, 1);
    } else {
      DivUnique(n * 3, 2, 3 * h + 1, 1);
      DivUnique(n - 1, 2, h, 0);
    }
  }

  lemma OffsetGrows(ty: FatType, c: nat, d: nat)
    requires c <= d
    ensures Offset(ty, c) <= Offset(ty, d)
  {
    DivMod(c, 2);
    DivMod(d, 2);
  }

  // ----- values -----

  /** A chain ends with an entry of all ones. */
  lemma EndMark(g: Geometry)
    ensures Eoc(g) == match g.ty case Fat12 => 0xFFF case Fat16 => 0xFFFF case Fat32 => 0xFFF_FFFF
  {
    DivUnique(0xFFFF_FFFF, 0x1000, 0xF_FFFF, 0xFFF);
    DivUnique(0xFFFF_FFFF, 0x1_0000, 0xFFFF, 0xFFFF);
    DivUnique(0xFFFF_FFFF, 0x1000_0000, 0xF, 0xFFF_FFFF);
  }

  /** The free clusters below `k`. */
  function FreeSet(e: Entries, k: nat): set<nat>
    requires k <= |e|
  {
    set c: nat | 2 <= c < k && e[c] == 0
  }

  /** The free count is the number of free clusters. */
  lemma {:induction false} FreeIsCardinality(e: Entries, k: nat)
    requires k <= |e|
    ensures Free(e, k) == |FreeSet(e, k)|
    decreases k
  {
    if k > 0 {
      FreeIsCardinality(e, k - 1);
      FreeSetStep(e, k);
      hide FreeSet;
    } else {
      assert FreeSet(e, 0) == {};
    }
  }

  lemma FreeSetStep(e: Entries, k: nat)
    requires 0 < k <= |e|
    ensures FreeSet(e, k) == if k - 1 >= 2 && e[k - 1] == 0 then FreeSet(e, k - 1) + {k - 1} else FreeSet(e, k - 1)
    ensures k - 1 !in FreeSet(e, k - 1)
  {
  }
}
