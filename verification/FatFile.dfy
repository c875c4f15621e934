/** Following a file's cluster chain while reading and seeking. */
module FatFile {
  import opened Arith
  import opened FatEntry
  import opened FatWindow
  import opened FatChains
  import opened FatAlloc

  /** The cluster reached after following `k` links. */
  ghost function Walk(e: Entries, c: nat, k: nat): nat {
    if k == 0 then c
    else var p := Walk(e, c, k - 1); if IsCluster(e, p) then e[p] else 0
  }

  lemma {:induction false} WalkChain(e: Entries, ch: seq<nat>, k: nat)
    requires ChainOk(e, ch) && k < |ch|
    ensures Walk(e, ch[0], k) == ch[k]
  {
    if k > 0 {
      WalkChain(e, ch, k - 1);
      assert LinkOk(e, ch, k - 1) && IsCluster(e, ch[k - 1]);
    }
  }

  // ----- positions and clusters of `n` bytes -----

  /** Which cluster of a file a byte lies in. */
  function Nth(p: nat, n: nat): nat requires n > 0 { p / n }

  /** Where a cluster begins. */
  function Start(k: nat, n: nat): nat { k * n }

  lemma NthUnique(x: nat, n: nat, k: nat)
    requires n > 0 && Start(k, n) <= x < Start(k, n) + n
    ensures Nth(x, n) == k
  {
    DivUnique(x, n, k, x - Start(k, n));
  }

  lemma NthBounds(x: nat, n: nat)
    requires n > 0
    ensures Start(Nth(x, n), n) <= x < Start(Nth(x, n), n) + n
    ensures x % n == x - Start(Nth(x, n), n)
  {
    DivMod(x, n);
  }

  lemma StartNext(k: nat, n: nat)
    ensures Start(k + 1, n) == Start(k, n) + n
    ensures Start(0, n) == 0
  {
  }

  lemma NthLess(x: nat, n: nat, k: nat)
    requires n > 0 && x < Start(k, n)
    ensures Nth(x, n) < k
  {
    DivLess(x, k, n);
  }

  lemma StartGrows(j: nat, k: nat, n: nat)
    requires j <= k
    ensures Start(j, n) <= Start(k, n)
  {
    MulMore(j, k, n);
  }

  /** The byte before a cluster's begin lies in the cluster before it. */
  lemma NthBefore(k: nat, n: nat)
    requires n > 0 && k > 0
    ensures Start(k, n) > 0 && Nth(Start(k, n) - 1, n) == k - 1 && Nth(Start(k, n), n) == k
  {
    StartNext(k - 1, n);
    NthUnique(Start(k, n) - 1, n, k - 1);
    NthUnique(Start(k, n), n, k);
  }

  // ----- places on the disk -----

  /** First sector of a cluster; the data area starts with cluster 2. */
  function ClusterSector(base: nat, csize: nat, c: nat): (s: nat)
    requires c >= 2
    ensures s >= base
  {
    base + csize * (c - 2)
  }

  /** The data area starts with cluster 2, and clusters follow each other. */
  lemma ClusterStarts(base: nat, csize: nat, c: nat)
    requires c >= 2
    ensures ClusterSector(base, csize, 2) == base
    ensures ClusterSector(base, csize, c + 1) == ClusterSector(base, csize, c) + csize
  {
    assert csize * (c - 1) == csize * (c - 2) + csize;
  }

  /** Two clusters share no sector. */
  lemma ClustersApart(base: nat, csize: nat, c: nat, d: nat, s: nat)
    requires c >= 2 && d >= 2 && c != d
    requires ClusterSector(base, csize, c) <= s < ClusterSector(base, csize, c) + csize
    ensures !(ClusterSector(base, csize, d) <= s < ClusterSector(base, csize, d) + csize)
  {
    var lo, hi := if c < d then c else d, if c < d then d else c;
    MulMore(lo - 1, hi - 2, csize);
    assert csize * (lo - 1) == csize * (lo - 2) + csize;
  }

  /** Sector `s` does not belong to cluster `c`. */
  predicate Outside(base: nat, csize: nat, c: nat, s: nat) {
    c >= 2 ==> s < ClusterSector(base, csize, c) || ClusterSector(base, csize, c) + csize <= s
  }

  lemma ClusterFits(base: nat, csize: nat, c: nat, n: nat)
    requires 2 <= c < n
    ensures base <= ClusterSector(base, csize, c)
    ensures ClusterSector(base, csize, c) + csize <= base + csize * (n - 2)
  {
    MulMore(c - 2, c - 1, csize);
    MulMore(c - 1, n - 2, csize);
  }

  /** Shifting a sector number inside a cluster. */
  lemma ModShift(s: nat, x: nat, n: nat)
    requires n > 0 && s % n + x < n
    ensures (s + x) % n == s % n + x
  {
    var k := Nth(s, n);
    NthBounds(s, n);
    NthUnique(s + x, n, k);
    NthBounds(s + x, n);
  }

  /** Which sector of its cluster a byte lies in. */
  function SectorIn(p: nat, csize: nat): nat requires csize > 0 { p / SS % csize }

  /** A byte's place in its cluster is its sector's place there, plus its place in the sector. */
  lemma SectorPlace(p: nat, csize: nat)
    requires csize > 0
    ensures p == Start(Nth(p, csize * SS), csize * SS) + SectorIn(p, csize) * SS + p % SS
    ensures SectorIn(p, csize) < csize
  {
    var s, r := p / SS, p % SS;
    var k, t := s / csize, s % csize;
    DivMod(p, SS);
    DivMod(s, csize);
    var bcs := csize * SS;
    assert k * bcs == (k * csize) * SS;
    NthUnique(p, bcs, k);
  }

  /** The bytes that follow `p` in its cluster, read sector by sector. */
  lemma BytesAfter(p: nat, j: nat, csize: nat)
    requires csize > 0 && SectorIn(p, csize) * SS + p % SS + j < csize * SS
    ensures Nth(p + j, csize * SS) == Nth(p, csize * SS)
    ensures SectorIn(p + j, csize) == SectorIn(p, csize) + (p % SS + j) / SS
    ensures (p + j) % SS == (p % SS + j) % SS
  {
    SectorPlace(p, csize);
    NthUnique(p + j, csize * SS, Nth(p, csize * SS));
    var s, r := p / SS, p % SS;
    var x := (r + j) / SS;
    assert p == s * SS + r && r + j == x * SS + (r + j) % SS;
    assert (p + j) / SS == s + x;
    assert s % csize + x < csize;
    ModShift(s, x, csize);
  }

  /** The byte `y` places after the start of sector `s`. */
  ghost function Raw(d: seq<Sector>, s: nat, y: nat): nat {
    if s + y / SS < |d| then d[s + y / SS][y % SS] else 0
  }

  /** Byte `p` of the file whose chain is `ch`. */
  ghost function ByteAt(d: seq<Sector>, database: nat, csize: nat, ch: seq<nat>, p: nat): nat
    requires csize > 0
  {
    var k := Nth(p, csize * SS);
    if k < |ch| && ch[k] >= 2 then Raw(d, ClusterSector(database, csize, ch[k]) + SectorIn(p, csize), p % SS) else 0
  }

  lemma RawAt(d: seq<Sector>, s: nat, y: nat)
    requires y < SS && s < |d|
    ensures Raw(d, s, y) == d[s][y]
  {
    DivUnique(y, SS, 0, y);
  }

  lemma RawShift(d: seq<Sector>, s: nat, y: nat)
    ensures Raw(d, s + y / SS, y % SS) == Raw(d, s, y)
  {
  }

  /** Up to the end of the cluster, the file's bytes follow each other on the disk. */
  lemma ByteAfter(d: seq<Sector>, database: nat, csize: nat, ch: seq<nat>, p: nat, x: nat)
    requires csize > 0 && SectorIn(p, csize) * SS + p % SS + x < csize * SS
    requires Nth(p, csize * SS) < |ch| && ch[Nth(p, csize * SS)] >= 2
    ensures var s := ClusterSector(database, csize, ch[Nth(p, csize * SS)]) + SectorIn(p, csize);
            ByteAt(d, database, csize, ch, p + x) == Raw(d, s, p % SS + x)
  {
    hide Raw, Nth, ClusterSector;
    BytesAfter(p, x, csize);
    RawShift(d, ClusterSector(database, csize, ch[Nth(p, csize * SS)]) + SectorIn(p, csize), p % SS + x);
  }

  /** `data` is what the disk holds from byte `o` of sector `s` on. */
  ghost predicate OnDisk(d: seq<Sector>, s: nat, o: nat, data: Bytes) {
    forall x: nat :: x < |data| ==> data[x] == Raw(d, s, o + x)
  }

  /** `data` is the file's content from byte `p` on. */
  ghost predicate InFile(d: seq<Sector>, database: nat, csize: nat, ch: seq<nat>, p: nat, data: Bytes)
    requires csize > 0
  {
    forall x: nat :: x < |data| ==> data[x] == ByteAt(d, database, csize, ch, p + x)
  }

  /** Bytes read from the place of byte `p` on, within its cluster, are the file's. */
  lemma Arrived(d: seq<Sector>, database: nat, csize: nat, ch: seq<nat>, p: nat, data: Bytes)
    requires csize > 0 && |data| > 0 && Nth(p, csize * SS) < |ch| && ch[Nth(p, csize * SS)] >= 2
    requires SectorIn(p, csize) * SS + p % SS + |data| <= csize * SS
    requires OnDisk(d, ClusterSector(database, csize, ch[Nth(p, csize * SS)]) + SectorIn(p, csize), p % SS, data)
    ensures Nth(p + |data| - 1, csize * SS) == Nth(p, csize * SS)
    ensures InFile(d, database, csize, ch, p, data)
  {
    hide Nth, ClusterSector, Raw, ByteAt;
    var s := ClusterSector(database, csize, ch[Nth(p, csize * SS)]) + SectorIn(p, csize);
    BytesAfter(p, |data| - 1, csize);
    forall x: nat | x < |data| ensures data[x] == ByteAt(d, database, csize, ch, p + x) {
      assert data[x] == Raw(d, s, p % SS + x);
      ByteAfter(d, database, csize, ch, p, x);
    }
  }

  /** `v` is byte `q` of the file with chain `ch`, told by sector numbers: byte q % 512 of sector
      q / 512 % csize of the cluster that is number q / (512 * csize) of the chain, where cluster 2
      begins at `database`. */
  ghost predicate IsByte(d: seq<Sector>, database: nat, csize: nat, ch: seq<nat>, q: nat, v: nat)
    requires csize > 0
  {
    var k := q / (csize * 512);
    && 0 <= k < |ch| && ch[k] >= 2
    && var s: int := database + csize * (ch[k] - 2) + q / 512 % csize;
       0 <= s < |d| && v == d[s][q % 512]
  }

  /** `data` are the bytes from `p` on. */
  ghost predicate Content(d: seq<Sector>, database: nat, csize: nat, ch: seq<nat>, p: nat, data: Bytes)
    requires csize > 0
  {
    forall x: nat :: x < |data| ==> IsByte(d, database, csize, ch, p + x, data[x])
  }

  lemma NumberIsByte(d: seq<Sector>, database: nat, csize: nat, ch: seq<nat>, q: nat, s: nat)
    requires csize > 0 && Nth(q, csize * SS) < |ch| && ch[Nth(q, csize * SS)] >= 2 && s < |d|
    requires s == database + csize * (ch[Nth(q, csize * SS)] - 2) + q / 512 % csize
    ensures IsByte(d, database, csize, ch, q, d[s][q % SS])
  {
  }

  lemma InFileJoin(d: seq<Sector>, database: nat, csize: nat, ch: seq<nat>, p: nat, a: Bytes, b: Bytes)
    requires csize > 0 && InFile(d, database, csize, ch, p, a) && InFile(d, database, csize, ch, p + |a|, b)
    ensures InFile(d, database, csize, ch, p, a + b)
  {
    hide ByteAt;
    forall x: nat | x < |a + b| ensures (a + b)[x] == ByteAt(d, database, csize, ch, p + x) {
      assert x >= |a| ==> (a + b)[x] == b[x - |a|] && p + x == p + |a| + (x - |a|);
    }
  }

  class File {
    const fs: Fs
    /** First data sector, sectors per cluster (a power of two) and bytes per cluster. */
    const database: nat
    const csize: nat
    const bcs: nat
    const sclust: nat
    const objsize: nat
    var fptr: nat
    var clust: nat
    /** The sector cache: which sector it holds, and its bytes. */
    var sect: nat
    var buf: Bytes

    /** The data area lies behind the FATs. */
    ghost predicate DataArea() reads this, fs, fs.vol {
      var g := fs.vol.g;
      && 0 < g.fatBase + g.fSize * g.nFats <= database
      && csize > 0 && bcs == csize * SS
      && 2 <= g.nEnt && database + csize * (g.nEnt - 2) <= |fs.vol.disk|
    }

    /** The file has a chain that is long enough for its size, and a sector that waits in the window
        to be written back is none of its own. */
    ghost predicate Backed(ch: seq<nat>) reads this, fs, fs.vol {
      && (objsize > 0 ==> ChainOk(fs.ents, ch) && ch[0] == sclust && objsize <= Start(|ch|, bcs))
      && (fs.vol.wflag ==> forall k: nat :: k < |ch| ==> Outside(database, csize, ch[k], fs.vol.winSect))
    }

    /** The sector that holds byte `p` of the file. */
    ghost function Place(ch: seq<nat>, p: nat): (s: nat)
      requires DataArea() && Nth(p, bcs) < |ch| && ch[Nth(p, bcs)] >= 2
      reads this, fs, fs.vol
    {
      ClusterSector(database, csize, ch[Nth(p, bcs)]) + SectorIn(p, csize)
    }

    /** The sector cache is empty or holds what the disk does. */
    ghost predicate CacheOk() reads this, fs, fs.vol {
      |buf| == SS && (sect == 0 || (database <= sect < |fs.vol.log| && buf == fs.vol.log[sect]))
    }

    /** Past the start of the file the cached cluster is the one that holds the byte before the
        file pointer; the sector cache is what the disk has there, and inside a sector it holds
        that sector. */
    ghost predicate Valid(ch: seq<nat>) reads this, fs, fs.vol, fs.vol.win {
      && fs.Valid() && DataArea() && Backed(ch)
      && fptr <= objsize
      && (fptr > 0 ==> Nth(fptr - 1, bcs) < |ch| && clust == ch[Nth(fptr - 1, bcs)])
      && CacheOk()
      && (fptr % SS != 0 ==> clust >= 2 && sect == ClusterSector(database, csize, clust) + SectorIn(fptr, csize))
    }

    lemma PlaceInArea(ch: seq<nat>, p: nat)
      requires fs.Valid() && DataArea() && Backed(ch) && p < objsize
      ensures Nth(p, bcs) < |ch| && IsCluster(fs.ents, ch[Nth(p, bcs)])
      ensures database <= Place(ch, p) < |fs.vol.log|
      ensures ClusterSector(database, csize, ch[Nth(p, bcs)]) + csize <= |fs.vol.log|
      ensures SectorIn(p, csize) < csize
    {
      hide Nth, Start, EntriesOf, ClusterSector, SectorIn;
      NthLess(p, bcs, |ch|);
      EntryCount(fs.vol.g, fs.vol.log);
      var c := ch[Nth(p, bcs)];
      assert IsCluster(fs.ents, c);
      ClusterFits(database, csize, c, fs.vol.g.nEnt);
      SectorPlace(p, csize);
    }

    constructor (fs: Fs, database: nat, csize: nat, sclust: nat, objsize: nat, ghost ch: seq<nat>)
      requires fs.Valid() && csize > 0
      requires var g := fs.vol.g;
               && 0 < g.fatBase + g.fSize * g.nFats <= database
               && database + csize * (g.nEnt - 2) <= |fs.vol.disk|
               && (fs.vol.wflag ==> forall k: nat :: k < |ch| ==> Outside(database, csize, ch[k], fs.vol.winSect))
      requires objsize > 0 ==> ChainOk(fs.ents, ch) && ch[0] == sclust && objsize <= Start(|ch|, csize * SS)
      ensures this.fs == fs && this.csize == csize && this.sclust == sclust && this.objsize == objsize
      ensures Valid(ch) && fptr == 0
    {
      this.fs, this.database, this.csize, this.sclust, this.objsize := fs, database, csize, sclust, objsize;
      bcs := csize * SS;
      fptr, clust, sect := 0, 0, 0;
      buf := seq(SS, _ => 0);
    }

    /** f_lseek on a file opened for reading. It goes on from the cached cluster when the target
        is not before it, and still ends at the cluster that a walk from the first one finds. */
    method Seek(target: nat, ghost ch: seq<nat>) returns (res: Res)
      requires Valid(ch)
      modifies this`fptr, this`clust, this`sect, this`buf, fs.vol`disk, fs.vol`wflag, fs.vol`winSect, fs.vol.win
      ensures Valid(ch) && res == FrOk && fs.vol.log == old(fs.vol.log)
      ensures fptr == if target > objsize then objsize else target
      ensures fptr > 0 ==> clust == Walk(fs.ents, sclust, Nth(fptr - 1, bcs))
    {
      hide Nth, Start, EntriesOf, ClusterSector, SectorIn, Walk, Outside;
      var ofs: nat := if target > objsize then objsize else target;
      ghost var goal := ofs;
      var ifptr: nat := fptr;
      fptr := 0;
      if ofs == 0 { return FrOk; }
      StartNext(0, bcs);
      if ifptr > 0 && Nth(ofs - 1, bcs) >= Nth(ifptr - 1, bcs) {
        NthBounds(ifptr - 1, bcs);
        NthBounds(ofs - 1, bcs);
        StartGrows(Nth(ifptr - 1, bcs), Nth(ofs - 1, bcs), bcs);
        fptr := (ifptr - 1) - (ifptr - 1) % bcs;
        ofs := ofs - fptr;
        res, ofs := Follow(ofs, goal, Nth(ifptr - 1, bcs), ch);
      } else {
        clust := sclust;
        res, ofs := Follow(ofs, goal, 0, ch);
      }
      NthLess(goal - 1, bcs, |ch|);
      WalkChain(fs.ents, ch, Nth(goal - 1, bcs));
      FillCache(ofs, ch);
    }

    /** The cluster-following loop of f_lseek, from the start of cluster number `k0` forward. */
    method Follow(ofs0: nat, ghost goal: nat, ghost k0: nat, ghost ch: seq<nat>) returns (res: Res, rest: nat)
      requires fs.Valid() && DataArea() && Backed(ch) && 0 < goal <= objsize && fptr + ofs0 == goal && ofs0 > 0
      requires fptr == Start(k0, bcs) && k0 < |ch| && clust == ch[k0]
      modifies this`fptr, this`clust, fs.vol`disk, fs.vol`wflag, fs.vol`winSect, fs.vol.win
      ensures fs.Valid() && DataArea() && Backed(ch) && fs.vol.log == old(fs.vol.log)
      ensures 0 < rest <= bcs && goal == Start(Nth(goal - 1, bcs), bcs) + rest
      ensures res == FrOk && fptr == goal && Nth(goal - 1, bcs) < |ch| && clust == ch[Nth(goal - 1, bcs)]
    {
      hide Nth, Start, EntriesOf;
      assert |fs.ents| == fs.vol.g.nEnt by { EntryCount(fs.vol.g, fs.vol.log); }
      res, rest := FrIntErr, 0;
      var ofs := ofs0;
      ghost var k: nat := k0;
      while ofs > bcs
        invariant fs.Valid() && DataArea() && Backed(ch) && fs.vol.log == old(fs.vol.log)
        invariant fptr + ofs == goal && ofs > 0
        invariant fptr == Start(k, bcs) && k < |ch| && clust == ch[k]
        decreases ofs
      {
        StartNext(k, bcs);
        NthBefore(k + 1, bcs);
        NthLess(fptr + bcs, bcs, |ch|);
        ofs := ofs - bcs;
        fptr := fptr + bcs;
        assert LinkOk(fs.ents, ch, k) && IsCluster(fs.ents, ch[k]) && IsCluster(fs.ents, ch[k + 1]);
        var c := fs.GetEntry(clust);
        if c <= 1 || c >= fs.vol.g.nEnt { return; }
        clust := c;
        k := k + 1;
      }
      NthUnique(goal - 1, bcs, k);
      fptr := fptr + ofs;
      return FrOk, ofs;
    }

    /** Load the sector of the file pointer, `ofs` bytes into its cluster, if it is inside one. */
    method FillCache(ofs: nat, ghost ch: seq<nat>)
      requires fs.Valid() && DataArea() && Backed(ch) && CacheOk() && 0 < fptr <= objsize
      requires Nth(fptr - 1, bcs) < |ch| && clust == ch[Nth(fptr - 1, bcs)]
      requires fptr == Start(Nth(fptr - 1, bcs), bcs) + ofs
      modifies this`sect, this`buf
      ensures Valid(ch)
    {
      hide Nth, Start, EntriesOf, ClusterSector, SectorIn, Outside;
      RestPlace(fptr, ofs, csize);
      if ofs % SS != 0 {
        PlaceInArea(ch, fptr - 1);
        var nsect := ClusterSector(database, csize, clust) + ofs / SS;
        LoadSector(nsect, clust);
      }
    }

    /** No sector of cluster `c` waits to be written back. */
    ghost predicate Readable(c: nat) reads this, fs, fs.vol {
      c >= 2 && (fs.vol.wflag ==> Outside(database, csize, c, fs.vol.winSect))
    }

    /** disk_read into the sector cache, unless it already holds that sector. */
    method LoadSector(s: nat, ghost c: nat)
      requires fs.Valid() && DataArea() && s < |fs.vol.disk| && CacheOk() && Readable(c)
      requires ClusterSector(database, csize, c) <= s < ClusterSector(database, csize, c) + csize
      modifies this`sect, this`buf
      ensures sect == s && buf == fs.vol.log[s]
    {
      hide ClusterSector, GeometryOk, Mirrored, EntriesOf;
      if sect != s {
        assert fs.vol.disk[s] == fs.vol.log[s];
        buf := fs.vol.disk[s];
      }
      sect := s;
    }

    /** f_read: `btr` bytes, or what is left. They are the file's bytes from the file pointer on,
        however the pointer got there. */
    method Read(btr: nat, ghost ch: seq<nat>) returns (res: Res, data: Bytes)
      requires Valid(ch)
      modifies this`fptr, this`clust, this`sect, this`buf, fs.vol`disk, fs.vol`wflag, fs.vol`winSect, fs.vol.win
      ensures Valid(ch) && res == FrOk && fs.vol.log == old(fs.vol.log)
      ensures |data| == if btr > objsize - old(fptr) then objsize - old(fptr) else btr
      ensures fptr == old(fptr) + |data|
      ensures Content(fs.vol.log, database, csize, ch, old(fptr), data)
      ensures |data| > 0 ==> clust == Walk(fs.ents, sclust, Nth(fptr - 1, bcs))
    {
      hide Nth, Start, EntriesOf, ClusterSector, ByteAt, InFile, Content;
      var todo: nat := if btr > objsize - fptr then objsize - fptr else btr;
      data := [];
      assert InFile(fs.vol.log, database, csize, ch, fptr, data) by { Nothing(fs.vol.log, database, csize, ch, fptr); }
      res := FrOk;
      while todo > 0
        invariant Valid(ch) && res == FrOk && fptr == old(fptr) + |data| && fs.vol.log == old(fs.vol.log)
        invariant |data| + todo == if btr > objsize - old(fptr) then objsize - old(fptr) else btr
        invariant InFile(fs.vol.log, database, csize, ch, old(fptr), data)
        decreases todo
      {
        var more: Bytes;
        res, more := ReadSome(todo, ch);
        todo := todo - |more|;
        InFileJoin(fs.vol.log, database, csize, ch, old(fptr), data, more);
        data := data + more;
      }
      if data != [] {
        WalkChain(fs.ents, ch, Nth(fptr - 1, bcs));
      }
      ReadContent(ch, old(fptr), data);
    }

    /** The file's bytes by sector numbers. */
    lemma ReadContent(ch: seq<nat>, p: nat, data: Bytes)
      requires fs.Valid() && DataArea() && Backed(ch) && p + |data| <= objsize
      requires InFile(fs.vol.log, database, csize, ch, p, data)
      ensures Content(fs.vol.log, database, csize, ch, p, data)
    {
      hide EntriesOf, Backed, IsByte, ByteAt;
      forall x: nat | x < |data| ensures IsByte(fs.vol.log, database, csize, ch, p + x, data[x]) {
        assert data[x] == ByteAt(fs.vol.log, database, csize, ch, p + x);
        ContentAt(ch, p + x);
      }
    }

    /** One byte of the file by sector number. */
    lemma ContentAt(ch: seq<nat>, q: nat)
      requires fs.Valid() && DataArea() && Backed(ch) && q < objsize
      ensures IsByte(fs.vol.log, database, csize, ch, q, ByteAt(fs.vol.log, database, csize, ch, q))
    {
      PlaceInArea(ch, q);
      PlaceNumber(ch, q);
      RawAt(fs.vol.log, Place(ch, q), q % SS);
      NumberIsByte(fs.vol.log, database, csize, ch, q, Place(ch, q));
      hide Nth, Start, ClusterSector, SectorIn, Raw, IsByte, Backed;
    }

    lemma PlaceNumber(ch: seq<nat>, q: nat)
      requires DataArea() && Nth(q, bcs) < |ch| && ch[Nth(q, bcs)] >= 2
      ensures Nth(q, bcs) == q / (csize * 512)
      ensures Place(ch, q) == database + csize * (ch[Nth(q, bcs)] - 2) + q / 512 % csize
    {
    }

    /** The cluster of the file pointer: at a cluster boundary the chain is followed one step. */
    method Advance(ghost ch: seq<nat>) returns (res: Res)
      requires Valid(ch) && fptr < objsize
      modifies this`clust, fs.vol`disk, fs.vol`wflag, fs.vol`winSect, fs.vol.win
      ensures res == FrOk && fs.Valid() && DataArea() && Backed(ch) && fs.vol.log == old(fs.vol.log)
      ensures Nth(fptr, bcs) < |ch| && clust == ch[Nth(fptr, bcs)]
      ensures fptr % SS != 0 ==> clust == old(clust)
    {
      hide Nth, Start, EntriesOf;
      res := FrIntErr;
      NthLess(fptr, bcs, |ch|);
      ghost var k := Nth(fptr, bcs);
      SectorPlace(fptr, csize);
      if fptr % SS == 0 && SectorIn(fptr, csize) == 0 {
        var c: nat;
        if fptr == 0 {
          StartNext(0, bcs);
          NthUnique(0, bcs, 0);
          c := sclust;
        } else {
          assert k > 0 by { StartNext(0, bcs); }
          NthBefore(k, bcs);
          assert LinkOk(fs.ents, ch, k - 1) && IsCluster(fs.ents, ch[k - 1]);
          c := fs.GetEntry(clust);
        }
        assert IsCluster(fs.ents, ch[k]);
        if c < 2 { return; }
        clust := c;
      } else {
        NthUnique(fptr - 1, bcs, k);
      }
      res := FrOk;
    }

    /** One turn of the read loop: whole sectors up to the cluster's end, straight from the disk,
        or the rest of one sector through the cache. */
    method ReadSome(todo: nat, ghost ch: seq<nat>) returns (res: Res, data: Bytes)
      requires Valid(ch) && 0 < todo <= objsize - fptr
      modifies this`fptr, this`clust, this`sect, this`buf, fs.vol`disk, fs.vol`wflag, fs.vol`winSect, fs.vol.win
      ensures Valid(ch) && res == FrOk && fs.vol.log == old(fs.vol.log)
      ensures 0 < |data| <= todo && fptr == old(fptr) + |data|
      ensures InFile(fs.vol.log, database, csize, ch, old(fptr), data)
    {
      hide Nth, Start, EntriesOf, ClusterSector, Raw, ByteAt, OnDisk, InFile;
      res := Advance(ch);
      data := Transfer(todo, ch);
      Arrived(fs.vol.log, database, csize, ch, fptr, data);
      fptr := fptr + |data|;
    }

    method Transfer(todo: nat, ghost ch: seq<nat>) returns (data: Bytes)
      requires fs.Valid() && DataArea() && Backed(ch) && 0 < todo <= objsize - fptr && CacheOk()
      requires Nth(fptr, bcs) < |ch| && clust == ch[Nth(fptr, bcs)]
      requires fptr % SS != 0 ==> clust >= 2 && sect == ClusterSector(database, csize, clust) + SectorIn(fptr, csize)
      modifies this`sect, this`buf
      ensures clust >= 2 && CacheOk() && 0 < |data| <= todo
      ensures SectorIn(fptr, csize) * SS + fptr % SS + |data| <= csize * SS
      ensures OnDisk(fs.vol.log, ClusterSector(database, csize, clust) + SectorIn(fptr, csize), fptr % SS, data)
      ensures (fptr + |data|) % SS != 0 ==> fptr / SS == (fptr + |data|) / SS && sect == ClusterSector(database, csize, clust) + SectorIn(fptr, csize)
    {
      hide Nth, Start, EntriesOf, ClusterSector, Raw, OnDisk, SectorIn, Outside;
      PlaceInArea(ch, fptr);
      SectorPlace(fptr, csize);
      assert csize > 0 && Readable(clust) && database > 0;
      hide Backed, Readable, ChainOk, DataArea;
      var csect := SectorIn(fptr, csize);
      var s := ClusterSector(database, csize, clust) + csect;
      var cc := todo / SS;
      if fptr % SS == 0 && cc > 0 {
        if csect + cc > csize { cc := csize - csect; }
        data := ReadSectors(s, cc, clust);
      } else {
        data := PartOfSector(s, todo, clust);
      }
    }

    /** The rest of one sector, or what is asked of it, through the cache. */
    method PartOfSector(s: nat, todo: nat, ghost c: nat) returns (data: Bytes)
      requires fs.Valid() && DataArea() && CacheOk() && Readable(c) && todo > 0 && s < |fs.vol.disk|
      requires ClusterSector(database, csize, c) <= s < ClusterSector(database, csize, c) + csize
      requires if fptr % SS == 0 then todo < SS else sect == s
      modifies this`sect, this`buf
      ensures CacheOk() && sect == s && OnDisk(fs.vol.log, s, fptr % SS, data)
      ensures |data| == if SS - fptr % SS > todo then todo else SS - fptr % SS
    {
      hide ClusterSector, OnDisk, EntriesOf;
      if fptr % SS == 0 { LoadSector(s, c); }
      var rcnt := SS - fptr % SS;
      if rcnt > todo { rcnt := todo; }
      data := Cached(fptr % SS, rcnt);
    }

    /** The bytes of the cached sector from `o` on. */
    method Cached(o: nat, n: nat) returns (data: Bytes)
      requires |buf| == SS && sect < |fs.vol.log| && buf == fs.vol.log[sect] && o + n <= SS
      ensures |data| == n && OnDisk(fs.vol.log, sect, o, data)
    {
      data := buf[o..o + n];
    }

    /** disk_read of `n` sectors. */
    method ReadSectors(s: nat, n: nat, ghost c: nat) returns (data: Bytes)
      requires fs.Valid() && DataArea() && s + n <= |fs.vol.disk| && Readable(c)
      requires ClusterSector(database, csize, c) <= s && s + n <= ClusterSector(database, csize, c) + csize
      ensures |data| == n * SS && OnDisk(fs.vol.log, s, 0, data)
    {
      hide ClusterSector, GeometryOk, Mirrored, EntriesOf;
      var d := fs.vol.disk;
      assert forall t: nat :: s <= t < s + n ==> d[t] == fs.vol.log[t];
      data := seq(n * SS, x requires 0 <= x < n * SS => d[s + x / SS][x % SS]);
    }
  }

  lemma Nothing(d: seq<Sector>, database: nat, csize: nat, ch: seq<nat>, p: nat)
    requires csize > 0
    ensures InFile(d, database, csize, ch, p, [])
  {
  }

  lemma SameSectorBefore(p: nat)
    requires p % SS != 0
    ensures p > 0 && (p - 1) / SS == p / SS && (p - 1) % SS + 1 == p % SS
  {
  }

  /** The sector that f_lseek derives from the rest of the offset in the last cluster. */
  lemma RestPlace(p: nat, rest: nat, csize: nat)
    requires csize > 0 && p > 0 && p == Start(Nth(p - 1, csize * SS), csize * SS) + rest
    ensures p % SS == rest % SS
    ensures p % SS != 0 ==> rest / SS == SectorIn(p, csize) == SectorIn(p - 1, csize)
  {
    hide Nth, Start;
    SectorPlace(p - 1, csize);
    if p % SS != 0 { SameSectorBefore(p); }
    hide SectorIn;
  }
}
