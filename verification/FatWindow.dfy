/** The volume behind its one-sector write-back window. */
module FatWindow {
  import opened Arith
  import opened FatEntry

  const SS := 512

  /** The sector of a byte, and its place there. */
  function Sec(o: nat): nat { o / SS }

  function Off(o: nat): (r: nat) ensures r < SS { o % SS }

  type Sector = s: Bytes | |s| == 512 witness seq(512, _ => 0)

  /** What mounting found: entry width, number of entries, and where the FATs are. */
  datatype Geometry = Geometry(ty: FatType, nEnt: nat, fatBase: nat, fSize: nat, nFats: nat)

  /** Bytes a FAT of `n` entries needs. */
  function NeededBytes(ty: FatType, n: nat): nat {
    match ty case Fat12 => n * 3 / 2 + n % 2 case Fat16 => n * 2 case Fat32 => n * 4
  }

  /** What mounting checks. */
  predicate GeometryOk(g: Geometry, sectors: nat) {
    && 2 < g.nEnt
    && g.nEnt <= (match g.ty case Fat12 => 0xFF7 case Fat16 => 0xFFF7 case Fat32 => 0xFFF_FFF7)
    && (g.nFats == 1 || g.nFats == 2)
    && NeededBytes(g.ty, g.nEnt) <= g.fSize * SS
    && g.fatBase + g.fSize * g.nFats <= sectors
  }

  predicate InFat1(g: Geometry, s: nat) {
    g.fatBase <= s < g.fatBase + g.fSize
  }

  predicate InFat2(g: Geometry, s: nat) {
    g.nFats == 2 && g.fatBase + g.fSize <= s < g.fatBase + 2 * g.fSize
  }

  /** The second copy equals the first. */
  ghost predicate Mirrored(g: Geometry, d: seq<Sector>) {
    forall s: nat :: InFat2(g, s) && s < |d| && g.fSize <= s ==> d[s] == d[s - g.fSize]
  }

  /** The sector that mirrors `s`, or `s` itself. */
  function MirrorOf(g: Geometry, s: nat): nat {
    if g.nFats == 2 && InFat1(g, s) then s + g.fSize else s
  }

  /** The first FAT's bytes on a disk. */
  ghost function FatBytes(g: Geometry, d: seq<Sector>): (b: Bytes)
    requires GeometryOk(g, |d|)
    ensures |b| == g.fSize * SS
  {
    seq(g.fSize * SS, i requires 0 <= i < g.fSize * SS =>
      SectorInFat(g, i); d[g.fatBase + Sec(i)][Off(i)])
  }

  lemma SectorInFat(g: Geometry, i: nat)
    requires i < g.fSize * SS
    ensures Sec(i) < g.fSize
  {
  }

  lemma EntryFits(g: Geometry, sectors: nat, c: nat)
    requires GeometryOk(g, sectors) && c < g.nEnt
    ensures Fits(g.ty, g.fSize * SS, c)
  {
  }

  /** A sector written in the first FAT, with its mirror. */
  function Write(g: Geometry, d: seq<Sector>, s: nat, x: Sector): seq<Sector>
    requires GeometryOk(g, |d|) && s < |d|
  {
    d[s := x][MirrorOf(g, s) := x]
  }

  lemma WriteMirrored(g: Geometry, d: seq<Sector>, s: nat, x: Sector)
    requires GeometryOk(g, |d|) && s < |d| && Mirrored(g, d) && !InFat2(g, s)
    ensures Mirrored(g, Write(g, d, s, x))
  {
  }

  /** Writing one byte of a FAT sector writes that byte of the FAT. */
  lemma WriteFatByte(g: Geometry, d: seq<Sector>, o: nat, v: Byte, x: Sector)
    requires GeometryOk(g, |d|) && o < g.fSize * SS
    requires Sec(o) < g.fSize && x == d[g.fatBase + Sec(o)][Off(o) := v]
    ensures FatBytes(g, Write(g, d, g.fatBase + Sec(o), x)) == FatBytes(g, d)[o := v]
  {
    hide Sec, Off;
    Parts(o);
    var s := g.fatBase + Sec(o);
    var r := Write(g, d, s, x);
    forall i: nat | i < g.fSize * SS ensures FatBytes(g, r)[i] == FatBytes(g, d)[o := v][i] {
      SectorInFat(g, i);
      assert g.fatBase + Sec(i) != MirrorOf(g, s) || MirrorOf(g, s) == s;
      Parts(i);
    }
  }

  class Volume {
    const g: Geometry
    var disk: seq<Sector>
    const win: array<Byte>
    var winSect: nat
    var wflag: bool
    /** The disk as it would be if the window were flushed. */
    ghost var log: seq<Sector>

    /** The disk lags behind only where the window is dirty; both FAT copies on the disk are
        always equal. */
    ghost predicate Valid() reads this, win {
      && GeometryOk(g, |disk|)
      && win.Length == SS
      && |log| == |disk|
      && (winSect < |disk| ==> win[..] == log[winSect])
      && (wflag ==> winSect < |disk| && !InFat2(g, winSect))
      && (forall s: nat :: s < |disk| && !(wflag && (s == winSect || s == MirrorOf(g, winSect))) ==> disk[s] == log[s])
      && Mirrored(g, disk) && Mirrored(g, log)
    }

    /** A mounted volume whose window holds nothing yet. */
    constructor (g: Geometry, disk: seq<Sector>)
      requires GeometryOk(g, |disk|) && Mirrored(g, disk)
      ensures Valid() && this.g == g && this.disk == disk && log == disk && fresh(win)
    {
      this.g := g;
      this.disk := disk;
      win := new Byte[SS](_ => 0);
      winSect := |disk|;
      wflag := false;
      log := disk;
    }

    /** sync_window: write the window back, to both FATs if it belongs to the first. */
    method SyncWindow()
      requires Valid()
      modifies this`disk, this`wflag
      ensures Valid() && !wflag && disk == log
    {
      if wflag {
        disk := disk[winSect := win[..]];
        wflag := false;
        if g.fatBase <= winSect < g.fatBase + g.fSize {
          if g.nFats == 2 {
            disk := disk[winSect + g.fSize := win[..]];
          }
        }
        forall s: nat | s < |disk| ensures disk[s] == log[s] {
          assert InFat2(g, s) ==> log[s] == log[s - g.fSize];
        }
      }
      assert disk == log;
    }

    /** move_window. */
    method MoveWindow(sect: nat)
      requires Valid() && sect < |disk|
      modifies this`disk, this`wflag, this`winSect, win
      ensures Valid() && log == old(log) && winSect == sect && |disk| == |old(disk)|
      ensures wflag ==> old(wflag) && winSect == old(winSect)
    {
      if sect != winSect {
        SyncWindow();
        forall i | 0 <= i < SS { win[i] := disk[sect][i]; }
        winSect := sect;
        assert win[..] == log[sect];
      }
    }

    /** Change one byte of the window, which must hold a sector of the first FAT. */
    method SetByte(ghost o: nat, k: nat, v: Byte)
      requires Valid() && o < g.fSize * SS && k == Off(o) && winSect == g.fatBase + Sec(o)
      modifies this`wflag, this`log, win
      ensures Valid() && wflag
      ensures FatBytes(g, log) == FatBytes(g, old(log))[o := v]
      ensures forall s: nat :: s < |disk| && !InFat1(g, s) && !InFat2(g, s) ==> log[s] == old(log)[s]
    {
      SectorInFat(g, o);
      assert winSect < |disk|;
      win[k] := v;
      wflag := true;
      ghost var x: Sector := win[..];
      assert x == old(log)[winSect][k := v];
      log := Write(g, log, winSect, x);
      WriteMirrored(g, old(log), winSect, x);
      WriteFatByte(g, old(log), o, v, x);
    }

    /** get_fat. */
    method GetFat(c: nat) returns (val: nat)
      requires Valid()
      modifies this`disk, this`wflag, this`winSect, win
      ensures Valid() && log == old(log) && |disk| == |old(disk)|
      ensures c < 2 || c >= g.nEnt ==> val == 1
      ensures 2 <= c < g.nEnt ==> Fits(g.ty, g.fSize * SS, c) && val == Get(g.ty, FatBytes(g, log), c)
      ensures wflag ==> old(wflag) && winSect == old(winSect)
    {
      hide FatBytes, Mirrored, MirrorOf, Get;
      if c < 2 || c >= g.nEnt { return 1; }
      EntryFits(g, |disk|, c);
      if g.ty == Fat12 {
        val := GetFat12(c);
      } else if g.ty == Fat16 {
        val := GetFat16(c);
      } else {
        val := GetFat32(c);
      }
    }

    method GetFat12(c: nat) returns (val: nat)
      requires Valid() && Fits(Fat12, g.fSize * SS, c)
      modifies this`disk, this`wflag, this`winSect, win
      ensures Valid() && log == old(log) && |disk| == |old(disk)| && val == Get(Fat12, FatBytes(g, log), c)
      ensures wflag ==> old(wflag) && winSect == old(winSect)
    {
      hide FatBytes, Mirrored, MirrorOf, Word, Get, GeometryOk, Sec, Off;
      var bc := c + c / 2;
      var first := FatByte(bc);
      var second := FatByte(bc + 1);
      GetPair(FatBytes(g, log), c);
      var wc := Word(first, second);
      val := if c % 2 == 1 then wc / 16 else wc % 0x1000;
    }

    method GetFat16(c: nat) returns (val: nat)
      requires Valid() && g.ty == Fat16 && Fits(Fat16, g.fSize * SS, c)
      modifies this`disk, this`wflag, this`winSect, win
      ensures Valid() && log == old(log) && |disk| == |old(disk)| && val == Get(Fat16, FatBytes(g, log), c)
      ensures wflag ==> old(wflag) && winSect == old(winSect)
    {
      hide FatBytes, Mirrored, MirrorOf, Word, Get, GeometryOk, Sec, Off;
      LoadFat(c * 2);
      var o := Off(c * 2);
      GetWord(g, log, c, o);
      val := Word(win[o], win[o + 1]);
    }

    method GetFat32(c: nat) returns (val: nat)
      requires Valid() && g.ty == Fat32 && Fits(Fat32, g.fSize * SS, c)
      modifies this`disk, this`wflag, this`winSect, win
      ensures Valid() && log == old(log) && |disk| == |old(disk)| && val == Get(Fat32, FatBytes(g, log), c)
      ensures wflag ==> old(wflag) && winSect == old(winSect)
    {
      hide FatBytes, Mirrored, MirrorOf, Dword, Get, GeometryOk, Sec, Off;
      LoadFat(c * 4);
      var o := Off(c * 4);
      GetQuad(g, log, c, o);
      val := Dword(win[o], win[o + 1], win[o + 2], win[o + 3]) % 0x1000_0000;
    }

    /** The window on the sector of a FAT byte. */
    method LoadFat(bc: nat)
      requires Valid() && bc < g.fSize * SS
      modifies this`disk, this`wflag, this`winSect, win
      ensures Valid() && log == old(log) && |disk| == |old(disk)|
      ensures winSect == g.fatBase + Sec(bc) && winSect < |disk|
      ensures forall i: nat :: i < g.fSize * SS && Sec(i) == Sec(bc) ==> win[Off(i)] == FatBytes(g, log)[i]
      ensures wflag ==> old(wflag) && winSect == old(winSect)
    {
      SectorInFat(g, bc);
      MoveWindow(g.fatBase + Sec(bc));
    }

    /** One byte of the FAT, through the window. */
    method FatByte(bc: nat) returns (v: Byte)
      requires Valid() && bc < g.fSize * SS
      modifies this`disk, this`wflag, this`winSect, win
      ensures Valid() && log == old(log) && |disk| == |old(disk)| && winSect == g.fatBase + Sec(bc)
      ensures v == FatBytes(g, log)[bc]
      ensures wflag ==> old(wflag) && winSect == old(winSect)
    {
      hide FatBytes, Mirrored, MirrorOf;
      LoadFat(bc);
      v := win[Off(bc)];
    }

    /** Whether the 16- or 32-bit entry at offset `i` of the window is zero. */
    method WordIsZero(ghost c: nat, i: nat) returns (zero: bool)
      requires Valid() && g.ty != Fat12 && Fits(g.ty, g.fSize * SS, c)
      requires i == Off(Offset(g.ty, c)) && winSect == g.fatBase + Sec(Offset(g.ty, c)) < |disk|
      ensures zero <==> Get(g.ty, FatBytes(g, log), c) == 0
    {
      hide FatBytes, Mirrored, MirrorOf, Dword, Word, Get, GeometryOk, Sec, Off;
      if g.ty == Fat16 {
        GetWord(g, log, c, i);
        zero := Word(win[i], win[i + 1]) == 0;
      } else {
        GetQuad(g, log, c, i);
        zero := Dword(win[i], win[i + 1], win[i + 2], win[i + 3]) % 0x1000_0000 == 0;
      }
    }

    /** put_fat. */
    method PutFat(c: nat, val: nat) returns (ok: bool)
      requires Valid()
      modifies this`disk, this`wflag, this`winSect, this`log, win
      ensures Valid() && |disk| == |old(disk)|
      ensures ok == (2 <= c < g.nEnt)
      ensures !ok ==> log == old(log)
      ensures ok ==> Fits(g.ty, g.fSize * SS, c) && FatBytes(g, log) == Put(g.ty, FatBytes(g, old(log)), c, val)
      ensures forall s: nat :: s < |disk| && !InFat1(g, s) && !InFat2(g, s) ==> log[s] == old(log)[s]
    {
      if c < 2 || c >= g.nEnt { return false; }
      EntryFits(g, |disk|, c);
      hide FatBytes, Mirrored, MirrorOf, Put;
      if g.ty == Fat12 {
        PutFat12(c, val);
      } else if g.ty == Fat16 {
        PutFat16(c, val);
      } else {
        PutFat32(c, val);
      }
      return true;
    }

    method PutFat12(c: nat, val: nat)
      requires Valid() && g.ty == Fat12 && Fits(Fat12, g.fSize * SS, c)
      modifies this`disk, this`wflag, this`winSect, this`log, win
      ensures Valid() && |disk| == |old(disk)| && FatBytes(g, log) == Put(Fat12, FatBytes(g, old(log)), c, val)
      ensures forall s: nat :: s < |disk| && !InFat1(g, s) && !InFat2(g, s) ==> log[s] == old(log)[s]
    {
      hide FatBytes, Mirrored, MirrorOf, Sec, Off;
      var bc := c + c / 2;
      var p := FatByte(bc);
      SetByte(bc, Off(bc), if c % 2 == 1 then p % 16 + (val % 16) * 16 else val % 256);
      p := FatByte(bc + 1);
      SetByte(bc + 1, Off(bc + 1), if c % 2 == 1 then (val / 16) % 256 else p - p % 16 + (val / 256) % 16);
    }

    method PutFat16(c: nat, val: nat)
      requires Valid() && g.ty == Fat16 && Fits(Fat16, g.fSize * SS, c)
      modifies this`disk, this`wflag, this`winSect, this`log, win
      ensures Valid() && |disk| == |old(disk)| && FatBytes(g, log) == Put(Fat16, FatBytes(g, old(log)), c, val)
      ensures forall s: nat :: s < |disk| && !InFat1(g, s) && !InFat2(g, s) ==> log[s] == old(log)[s]
    {
      hide FatBytes, Mirrored, MirrorOf, Sec, Off;
      var o := c * 2;
      SameSector(o, 2);
      LoadFat(o);
      SetByte(o, Off(o), val % 256);
      SetByte(o + 1, Off(o) + 1, (val / 256) % 256);
    }

    method PutFat32(c: nat, val: nat)
      requires Valid() && g.ty == Fat32 && Fits(Fat32, g.fSize * SS, c)
      modifies this`disk, this`wflag, this`winSect, this`log, win
      ensures Valid() && |disk| == |old(disk)| && FatBytes(g, log) == Put(Fat32, FatBytes(g, old(log)), c, val)
      ensures forall s: nat :: s < |disk| && !InFat1(g, s) && !InFat2(g, s) ==> log[s] == old(log)[s]
    {
      hide FatBytes, Mirrored, MirrorOf, GeometryOk, Put, Sec, Off;
      var o := c * 4;
      ghost var b := FatBytes(g, log);
      SameSector(o, 4);
      LoadFat(o);
      var top := win[Off(o) + 3];
      var b0, b1, b2, b3 := Quad(val % 0x1000_0000, top);
      SetQuad(o, b0, b1, b2, b3);
      PutQuad(b, c, val);
    }

    /** Four bytes in one sector of the FAT, through the window. */
    method SetQuad(o: nat, b0: Byte, b1: Byte, b2: Byte, b3: Byte)
      requires Valid() && o % 4 == 0 && o + 4 <= g.fSize * SS && winSect == g.fatBase + Sec(o)
      modifies this`wflag, this`log, win
      ensures Valid() && FatBytes(g, log) == FatBytes(g, old(log))[o := b0][o + 1 := b1][o + 2 := b2][o + 3 := b3]
      ensures forall s: nat :: s < |disk| && !InFat1(g, s) && !InFat2(g, s) ==> log[s] == old(log)[s]
    {
      hide FatBytes, Mirrored, MirrorOf, GeometryOk, Sec, Off;
      SameSector(o, 4);
      SetByte(o, Off(o), b0);
      SetByte(o + 1, Off(o) + 1, b1);
      SetByte(o + 2, Off(o) + 2, b2);
      SetByte(o + 3, Off(o) + 3, b3);
    }
  }

  /** The bytes of a 28-bit value, with the upper half of the byte that was there. */
  method Quad(v: nat, top: Byte) returns (b0: Byte, b1: Byte, b2: Byte, b3: Byte)
    requires v < 0x1000_0000
    ensures b0 == v % 256 && b1 == (v / 256) % 256 && b2 == (v / 0x1_0000) % 256 && b3 == top - top % 16 + v / 0x100_0000
  {
    hide Dword;
    Quads(v, top);
    return v % 256, (v / 256) % 256, (v / 0x1_0000) % 256, top - top % 16 + v / 0x100_0000;
  }

  lemma FatByteAt(g: Geometry, d: seq<Sector>, i: nat)
    requires GeometryOk(g, |d|) && i < g.fSize * SS
    ensures Sec(i) < g.fSize && FatBytes(g, d)[i] == d[g.fatBase + Sec(i)][Off(i)]
  {
  }

  /** A 16-bit entry in the sector that holds it. */
  lemma GetWord(g: Geometry, d: seq<Sector>, c: nat, i: nat)
    requires GeometryOk(g, |d|) && g.ty == Fat16 && Fits(Fat16, g.fSize * SS, c) && i == Off(c * 2)
    ensures i + 2 <= SS && Sec(c * 2) < g.fSize
    ensures var s := d[g.fatBase + Sec(c * 2)]; Get(Fat16, FatBytes(g, d), c) == Word(s[i], s[i + 1])
  {
    hide FatBytes, Sec, Off;
    SameSector(c * 2, 2);
    FatByteAt(g, d, c * 2); FatByteAt(g, d, c * 2 + 1);
  }

  /** A 32-bit entry in the sector that holds it. */
  lemma GetQuad(g: Geometry, d: seq<Sector>, c: nat, i: nat)
    requires GeometryOk(g, |d|) && g.ty == Fat32 && Fits(Fat32, g.fSize * SS, c) && i == Off(c * 4)
    ensures i + 4 <= SS && Sec(c * 4) < g.fSize
    ensures var s := d[g.fatBase + Sec(c * 4)];
            Get(Fat32, FatBytes(g, d), c) == Dword(s[i], s[i + 1], s[i + 2], s[i + 3]) % 0x1000_0000
  {
    hide FatBytes, Dword, Get, GeometryOk, Sec, Off;
    QuadBytes(g, d, c * 4);
    GetDword(FatBytes(g, d), c);
  }

  lemma QuadBytes(g: Geometry, d: seq<Sector>, o: nat)
    requires GeometryOk(g, |d|) && o % 4 == 0 && o + 4 <= g.fSize * SS
    ensures Off(o) + 4 <= SS && Sec(o) < g.fSize
    ensures var (s, b) := (d[g.fatBase + Sec(o)], FatBytes(g, d));
            b[o] == s[Off(o)] && b[o + 1] == s[Off(o) + 1] && b[o + 2] == s[Off(o) + 2] && b[o + 3] == s[Off(o) + 3]
  {
    hide FatBytes, Sec, Off;
    SameSector(o, 4);
    FatByteAt(g, d, o);
    FatByteAt(g, d, o + 1);
    FatByteAt(g, d, o + 2);
    FatByteAt(g, d, o + 3);
  }

  lemma GetDword(b: Bytes, c: nat)
    requires Fits(Fat32, |b|, c)
    ensures var o := c * 4; Get(Fat32, b, c) == Dword(b[o], b[o + 1], b[o + 2], b[o + 3]) % 0x1000_0000
  {
  }

  /** A 32-bit entry is stored byte by byte; the top four bits stay. */
  lemma PutQuad(b: Bytes, c: nat, val: nat)
    requires Fits(Fat32, |b|, c)
    ensures var o, v := c * 4, val % 0x1000_0000;
            Put(Fat32, b, c, val) == b[o := v % 256][o + 1 := (v / 256) % 256][o + 2 := (v / 0x1_0000) % 256]
                                      [o + 3 := b[o + 3] - b[o + 3] % 16 + v / 0x100_0000]
  {
  }

  lemma GetPair(b: Bytes, c: nat)
    requires Fits(Fat12, |b|, c)
    ensures var wc := Word(b[c + c / 2], b[c + c / 2 + 1]);
            Get(Fat12, b, c) == if c % 2 == 1 then wc / 16 else wc % 0x1000
  {
  }

  /** The sector and the place in it of a byte. */
  lemma SectorParts(o: nat, q: nat, r: nat)
    requires o == q * SS + r && r < SS
    ensures Sec(o) == q && Off(o) == r
  {
    DivUnique(o, SS, q, r);
  }

  lemma Parts(o: nat)
    ensures o == Sec(o) * SS + Off(o)
  {
    DivMod(o, SS);
  }

  /** 16- and 32-bit entries never straddle two sectors. */
  lemma SameSector(o: nat, n: nat)
    requires (n == 2 || n == 4) && o % n == 0
    ensures Off(o) + n <= SS
    ensures Sec(o + 1) == Sec(o) && Off(o + 1) == Off(o) + 1
    ensures n == 4 ==> Sec(o + 2) == Sec(o) && Off(o + 2) == Off(o) + 2
    ensures n == 4 ==> Sec(o + 3) == Sec(o) && Off(o + 3) == Off(o) + 3
  {
    hide Sec, Off;
    var q, r := Sec(o), Off(o);
    Parts(o);
    EvenRest(o, n, q, r);
    SectorParts(o + 1, q, r + 1);
    if n == 4 {
      SectorParts(o + 2, q, r + 2);
      SectorParts(o + 3, q, r + 3);
    }
  }

  lemma EvenRest(o: nat, n: nat, q: nat, r: nat)
    requires (n == 2 || n == 4) && o % n == 0 && o == q * SS + r && r < SS
    ensures r % n == 0 && r + n <= SS
  {
    var k := o / n;
    assert o == n * k;
    if n == 2 { assert r == 2 * (k - q * 256); } else { assert r == 4 * (k - q * 128); }
  }
}
