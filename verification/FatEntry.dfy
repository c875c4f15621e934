/** FAT entries in the bytes of a file allocation table: 12, 16 or 32 bits wide. */
module FatEntry {
  import opened Arith

  type Byte = b: nat | b < 256

  type Bytes = seq<Byte>

  datatype FatType = Fat12 | Fat16 | Fat32

  /** Entries hold values below this. Of a 32-bit entry only 28 bits count. */
  function Width(ty: FatType): nat {
    match ty case Fat12 => 0x1000 case Fat16 => 0x1_0000 case Fat32 => 0x1000_0000
  }

  /** First byte of an entry. 12-bit entries take one and a half bytes. */
  function Offset(ty: FatType, c: nat): nat {
    match ty case Fat12 => c + c / 2 case Fat16 => c * 2 case Fat32 => c * 4
  }

  function Span(ty: FatType): nat {
    match ty case Fat12 => 2 case Fat16 => 2 case Fat32 => 4
  }

  predicate Fits(ty: FatType, size: nat, c: nat) {
    Offset(ty, c) + Span(ty) <= size
  }

  function Word(lo: Byte, hi: Byte): nat {
    lo + hi * 256
  }

  function Dword(b0: Byte, b1: Byte, b2: Byte, b3: Byte): nat {
    b0 + b1 * 256 + b2 * 0x1_0000 + b3 * 0x100_0000
  }

  /** What `get_fat` makes of an entry's bytes. */
  function Get(ty: FatType, b: Bytes, c: nat): (v: nat)
    requires Fits(ty, |b|, c)
    ensures v < Width(ty)
  {
    var o := Offset(ty, c);
    match ty
    case Fat12 =>
      var wc := Word(b[o], b[o + 1]);
      if c % 2 == 1 then wc / 16 else wc % 0x1000
    case Fat16 => Word(b[o], b[o + 1])
    case Fat32 => Dword(b[o], b[o + 1], b[o + 2], b[o + 3]) % 0x1000_0000
  }

  /** The bytes after `put_fat`. A 12-bit entry keeps the neighbour's half of the byte they
      share, a 32-bit entry keeps its four reserved bits. */
  function Put(ty: FatType, b: Bytes, c: nat, val: nat): (r: Bytes)
    requires Fits(ty, |b|, c)
    ensures |r| == |b|
  {
    var o := Offset(ty, c);
    match ty
    case Fat12 =>
      var first: Byte := if c % 2 == 1 then b[o] % 16 + (val % 16) * 16 else val % 256;
      var second: Byte := if c % 2 == 1 then (val / 16) % 256 else b[o + 1] - b[o + 1] % 16 + (val / 256) % 16;
      b[o := first][o + 1 := second]
    case Fat16 =>
      var first: Byte, second: Byte := val % 256, (val / 256) % 256;
      b[o := first][o + 1 := second]
    case Fat32 =>
      var v := val % 0x1000_0000;
      var b0: Byte, b1: Byte, b2: Byte := v % 256, (v / 256) % 256, (v / 0x1_0000) % 256;
      var b3: Byte := b[o + 3] - b[o + 3] % 16 + v / 0x100_0000;
      b[o := b0][o + 1 := b1][o + 2 := b2][o + 3 := b3]
  }

  // ----- store and load -----

  /** A number's three low hexadecimal digits. */
  lemma Digits(val: nat)
    ensures var (a, b, c) := (val % 16, (val / 16) % 16, (val / 256) % 16);
            && val % 0x1000 == a + b * 16 + c * 256
            && val % 256 == a + b * 16 && (val / 16) % 256 == b + c * 16
  {
    var x := val / 16;
    var y := x / 16;
    var t := y / 16;
    assert y == val / 256 by { DivTwice(val, x, y); }
    var a, b, c := val % 16, x % 16, y % 16;
    DivMod(val, 16);
    DivMod(x, 16);
    DivMod(y, 16);
    DivUnique(val, 0x1000, t, a + b * 16 + c * 256);
    DivUnique(val, 256, y, a + b * 16);
    DivUnique(x, 256, t, b + c * 16);
  }

  lemma DivTwice(v: nat, x: nat, y: nat)
    requires x == v / 16 && y == x / 16
    ensures y == v / 256
  {
    DivMod(v, 16);
    DivMod(x, 16);
    DivUnique(v, 256, y, x % 16 * 16 + v % 16);
  }

  lemma Nibbles(first: Byte, second: Byte, val: nat)
    ensures Word(first % 16 + (val % 16) * 16, (val / 16) % 256) / 16 == val % 0x1000
    ensures Word(val % 256, second - second % 16 + (val / 256) % 16) % 0x1000 == val % 0x1000
  {
    Digits(val);
    OddNibbles(first % 16, val % 16, (val / 16) % 256);
    EvenNibbles(val % 256, (val / 256) % 16, second);
  }

  lemma OddNibbles(other: nat, a: nat, b: Byte)
    requires other < 16 && a < 16
    ensures Word(other + a * 16, b) / 16 == a + b * 16
  {
    DivUnique(Word(other + a * 16, b), 16, a + b * 16, other);
  }

  lemma EvenNibbles(low: Byte, high: nat, other: Byte)
    requires high < 16
    ensures other - other % 16 + high < 256
    ensures Word(low, other - other % 16 + high) % 0x1000 == low + high * 256
  {
    DivMod(other, 16);
    DivUnique(Word(low, other - other % 16 + high), 0x1000, other / 16, low + high * 256);
  }

  lemma Quads(v: nat, top: Byte)
    requires v < 0x1000_0000
    ensures top - top % 16 + v / 0x100_0000 < 256
    ensures Dword(v % 256, (v / 256) % 256, (v / 0x1_0000) % 256, top - top % 16 + v / 0x100_0000) % 0x1000_0000 == v
  {
    var x, a := v / 256, v % 256;
    var y, b := x / 256, x % 256;
    var d, c := y / 256, y % 256;
    DivMod(v, 256);
    DivMod(x, 256);
    DivMod(y, 256);
    DivUnique(v, 0x1_0000, y, b * 256 + a);
    DivUnique(v, 0x100_0000, d, c * 0x1_0000 + b * 256 + a);
    DivMod(top, 16);
    DivUnique(Dword(a, b, c, top - top % 16 + d), 0x1000_0000, top / 16, v);
  }

  lemma Pairs(val: nat)
    ensures Word(val % 256, (val / 256) % 256) == val % 0x1_0000
  {
    var x := val / 256;
    DivMod(val, 256);
    DivMod(x, 256);
    DivUnique(val, 0x1_0000, x / 256, x % 256 * 256 + val % 256);
  }

  /** Loading what was stored gives the value, cut to the entry's width. */
  lemma GetPut(ty: FatType, b: Bytes, c: nat, val: nat)
    requires Fits(ty, |b|, c)
    ensures Get(ty, Put(ty, b, c, val), c) == val % Width(ty)
  {
    var o := Offset(ty, c);
    match ty
    case Fat12 => Nibbles(b[o], b[o + 1], val);
    case Fat16 => Pairs(val);
    case Fat32 => Quads(val % 0x1000_0000, b[o + 3]);
  }

  /** Storing an entry leaves every other entry as it was, also the two 12-bit entries that
      share a byte with it. */
  lemma GetPutOther(ty: FatType, b: Bytes, c: nat, val: nat, d: nat)
    requires Fits(ty, |b|, c) && Fits(ty, |b|, d) && c != d
    ensures Get(ty, Put(ty, b, c, val), d) == Get(ty, b, d)
  {
    if ty == Fat12 {
      if d == c + 1 { SharedHalf(b, c, val); }
      else if c == d + 1 { SharedHalf2(b, c, val); }
      else { Fat12Apart(c, d); }
    }
  }

  lemma Fat12Apart(c: nat, d: nat)
    requires c != d && d != c + 1 && c != d + 1
    ensures var o, q := c + c / 2, d + d / 2; o != q && o != q + 1 && o + 1 != q
  {
  }

  lemma SharedHalf(b: Bytes, c: nat, val: nat)
    requires Fits(Fat12, |b|, c) && Fits(Fat12, |b|, c + 1)
    ensures Get(Fat12, Put(Fat12, b, c, val), c + 1) == Get(Fat12, b, c + 1)
  {
    var o := c + c / 2;
    if c % 2 == 0 {
      assert Offset(Fat12, c + 1) == o + 1;
      HighNibble(b[o + 1], (val / 256) % 16, b[o + 2]);
    } else {
      assert Offset(Fat12, c + 1) == o + 2;
    }
  }

  lemma SharedHalf2(b: Bytes, c: nat, val: nat)
    requires c > 0 && Fits(Fat12, |b|, c) && Fits(Fat12, |b|, c - 1)
    ensures Get(Fat12, Put(Fat12, b, c, val), c - 1) == Get(Fat12, b, c - 1)
  {
    var o := c + c / 2;
    if c % 2 == 1 {
      assert Offset(Fat12, c - 1) == o - 1;
      LowNibble(b[o - 1], b[o], val % 16);
    } else {
      assert Offset(Fat12, c - 1) == o - 2;
    }
  }

  lemma HighNibble(x: Byte, low: nat, y: Byte)
    requires low < 16
    ensures Word(x - x % 16 + low, y) / 16 == Word(x, y) / 16
  {
    var q := x / 16;
    assert x == q * 16 + x % 16;
  }

  lemma LowNibble(x: Byte, y: Byte, high: nat)
    requires high < 16
    ensures Word(x, y % 16 + high * 16) % 0x1000 == Word(x, y) % 0x1000
  {
    var q := y / 16;
    assert y == q * 16 + y % 16;
  }
}
