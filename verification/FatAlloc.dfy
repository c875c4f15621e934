/** Allocating and freeing clusters on a volume, with the cached count of free clusters. */
module FatAlloc {
  import opened FatEntry
  import opened FatWindow
  import opened FatChains

  const ALL_ONES := 0xFFFF_FFFF

  /** The table's entries. */
  ghost function EntriesOf(g: Geometry, d: seq<Sector>): (e: Entries)
    requires GeometryOk(g, |d|)
    ensures |e| == g.nEnt
  {
    seq(g.nEnt, c requires 0 <= c < g.nEnt => EntryFits(g, |d|, c); Get(g.ty, FatBytes(g, d), c))
  }

  /** The value that marks the end of a chain, cut to the entry's width. */
  function Eoc(g: Geometry): nat {
    ALL_ONES % Width(g.ty)
  }

  lemma EocEnds(g: Geometry, sectors: nat)
    requires GeometryOk(g, sectors)
    ensures Eoc(g) >= g.nEnt
    ensures forall v: nat :: v < g.nEnt ==> v % Width(g.ty) == v
  {
  }

  /** Storing an entry through the window changes that entry and no other. */
  lemma EntriesPut(g: Geometry, d: seq<Sector>, d': seq<Sector>, c: nat, val: nat)
    requires GeometryOk(g, |d|) && |d'| == |d| && c < g.nEnt && Fits(g.ty, g.fSize * SS, c)
    requires FatBytes(g, d') == Put(g.ty, FatBytes(g, d), c, val)
    ensures EntriesOf(g, d') == EntriesOf(g, d)[c := val % Width(g.ty)]
  {
    hide FatBytes, Put, Get;
    var e, e' := EntriesOf(g, d), EntriesOf(g, d');
    GetPut(g.ty, FatBytes(g, d), c, val);
    forall i: nat | i < g.nEnt ensures e'[i] == e[c := val % Width(g.ty)][i] {
      EntryFits(g, |d|, i);
      if i != c { GetPutOther(g.ty, FatBytes(g, d), c, val, i); }
    }
  }

  datatype Res = FrOk | FrIntErr

  /** A cached count is known when it is not larger than the number of clusters; it is right
      when it then equals the number of free entries. */
  predicate CountRight(e: Entries, free: nat)
    requires |e| >= 2
  {
    free <= |e| - 2 ==> free == FreeCount(e)
  }

  /** `ncl` is the first free cluster behind `scl`, going round the table. */
  ghost predicate FirstFree(e: Entries, scl: nat, ncl: nat) {
    && IsCluster(e, ncl) && e[ncl] == 0
    && (ncl > scl ==> forall c: nat :: scl < c < ncl ==> e[c] != 0)
    && (ncl <= scl ==> forall c: nat :: c < |e| && (scl < c || 2 <= c < ncl) ==> e[c] != 0)
  }

  /** Which cluster a chain gets: the one behind its end if that is free, else the first free one
      behind the last allocation (or behind the end if nothing was allocated yet); a new chain the
      first free one behind the last allocation. */
  ghost predicate Chosen(e: Entries, clst: nat, last: nat, ncl: nat)
    requires |e| > 2
  {
    var next := if clst + 1 < |e| then clst + 1 else 2;
    if clst == 0 then FirstFree(e, if 0 < last < |e| then last else 1, ncl)
    else if e[next] == 0 then ncl == next
    else FirstFree(e, if 2 <= last < |e| then last else clst, ncl)
  }

  class Fs {
    const vol: Volume
    var freeClst: nat
    var lastClst: nat
    /** The entries of the table. */
    ghost var ents: Entries

    ghost predicate Valid() reads this, vol, vol.win {
      vol.Valid() && ents == EntriesOf(vol.g, vol.log)
    }

    /** A freshly mounted volume: nothing is known about free clusters. */
    constructor (vol: Volume)
      requires vol.Valid()
      ensures this.vol == vol && Valid() && freeClst == ALL_ONES && lastClst == ALL_ONES
    {
      this.vol := vol;
      freeClst := ALL_ONES;
      lastClst := ALL_ONES;
      ents := EntriesOf(vol.g, vol.log);
    }

    method GetEntry(c: nat) returns (val: nat)
      requires Valid()
      modifies vol`disk, vol`wflag, vol`winSect, vol.win
      ensures Valid() && vol.log == old(vol.log) && |vol.disk| == |old(vol.disk)|
      ensures vol.wflag ==> old(vol.wflag) && vol.winSect == old(vol.winSect)
      ensures val == if IsCluster(ents, c) then ents[c] else 1
    {
      hide FatBytes, Get;
      val := vol.GetFat(c);
    }

    method PutEntry(c: nat, val: nat) returns (ok: bool)
      requires Valid()
      modifies this`ents, vol`disk, vol`wflag, vol`winSect, vol`log, vol.win
      ensures Valid()
      ensures ok == IsCluster(old(ents), c)
      ensures ents == if ok then old(ents)[c := val % Width(vol.g.ty)] else old(ents)
    {
      hide FatBytes, Get, Put;
      ok := vol.PutFat(c, val);
      if ok {
        EntriesPut(vol.g, old(vol.log), vol.log, c, val);
      }
      ents := EntriesOf(vol.g, vol.log);
    }

    // ----- removing -----

    /** remove_chain. */
    method RemoveChain(clst: nat, pclst: nat) returns (res: Res)
      requires Valid()
      modifies this`ents, this`freeClst, vol`disk, vol`wflag, vol`winSect, vol`log, vol.win
      ensures Valid() && |ents| == |old(ents)|
      ensures if !IsCluster(old(ents), clst) || (pclst != 0 && !IsCluster(old(ents), pclst)) then
                res == FrIntErr && ents == old(ents)
              else
                var m := if pclst == 0 then old(ents) else old(ents)[pclst := Eoc(vol.g)];
                (ents, res == FrOk) == RemoveFrom(m, clst)
      ensures (CountRight(old(ents), old(freeClst)) && (IsCluster(old(ents), pclst) ==> old(ents)[pclst] != 0)) ==>
                CountRight(ents, freeClst)
      ensures old(freeClst) > |ents| - 2 ==> freeClst == old(freeClst)
    {
      hide EntriesOf;
      assert |ents| == vol.g.nEnt by { EntryCount(vol.g, vol.log); }
      if clst < 2 || clst >= vol.g.nEnt { return FrIntErr; }
      EocEnds(vol.g, |vol.disk|);
      if pclst != 0 {
        var ok := PutEntry(pclst, ALL_ONES);
        if !ok { return FrIntErr; }
        FreeUpdate(old(ents), pclst, Eoc(vol.g), |old(ents)|);
      }
      res := RemoveLoop(clst);
    }

    /** The removal loop. It ends on every table, also on a cyclic chain: each turn clears an
        entry that was not zero. */
    method RemoveLoop(clst: nat) returns (res: Res)
      requires Valid() && IsCluster(ents, clst)
      modifies this`ents, this`freeClst, vol`disk, vol`wflag, vol`winSect, vol`log, vol.win
      ensures Valid() && |ents| == |old(ents)|
      ensures (ents, res == FrOk) == RemoveFrom(old(ents), clst)
      ensures CountRight(old(ents), old(freeClst)) ==> CountRight(ents, freeClst)
      ensures old(freeClst) > |ents| - 2 ==> freeClst == old(freeClst)
    {
      hide EntriesOf, FreeCount, NonZero;
      assert |ents| == vol.g.nEnt by { EntryCount(vol.g, vol.log); }
      var c: nat := clst;
      while true
        invariant Valid() && |ents| == |old(ents)| == vol.g.nEnt && IsCluster(ents, c)
        invariant RemoveFrom(ents, c) == RemoveFrom(old(ents), clst)
        invariant CountRight(old(ents), old(freeClst)) ==> CountRight(ents, freeClst)
        invariant old(freeClst) > |ents| - 2 ==> freeClst == old(freeClst)
        decreases NonZero(ents)
      {
        var nxt: nat := GetEntry(c);
        if nxt == 0 { return FrOk; }
        if nxt == 1 { return FrIntErr; }
        ClearFreesOne(ents, c);
        var ok := PutEntry(c, 0);
        if freeClst < vol.g.nEnt - 2 {
          freeClst := freeClst + 1;
        }
        c := nxt;
        if c >= vol.g.nEnt { return FrOk; }
      }
    }

    // ----- creating -----

    /** Look for a free cluster, from the one after `scl` round to `scl`; 0 if there is none, 1
        if an invalid entry is in the way. */
    method FindFree(scl: nat) returns (ncl: nat)
      requires Valid() && 1 <= scl < |ents| && |ents| > 2
      modifies vol`disk, vol`wflag, vol`winSect, vol.win
      ensures Valid() && vol.log == old(vol.log)
      ensures ncl >= 2 ==> FirstFree(ents, scl, ncl)
      ensures ncl == 0 ==> FreeCount(ents) == 0
      ensures ncl == 1 ==> exists c: nat :: IsCluster(ents, c) && ents[c] == 1
    {
      hide EntriesOf;
      assert |ents| == vol.g.nEnt by { EntryCount(vol.g, vol.log); }
      FreeBound(ents, |ents|);
      ncl := scl;
      var wrapped := false;
      while true
        invariant Valid() && vol.log == old(vol.log)
        invariant if wrapped then 2 <= ncl <= scl else scl <= ncl < |ents|
        invariant forall c: nat :: scl < c && (c <= ncl || wrapped) && c < |ents| ==> ents[c] != 0
        invariant wrapped ==> ncl < scl && forall c: nat :: 2 <= c <= ncl ==> ents[c] != 0
        decreases !wrapped, |ents| - ncl
      {
        ncl := ncl + 1;
        if ncl >= vol.g.nEnt {
          ncl := 2;
          wrapped := true;
          if ncl > scl { return 0; }
        }
        var cs := GetEntry(ncl);
        if cs == 0 { return; }
        if cs == 1 { return 1; }
        if ncl == scl { return 0; }
      }
    }

    /** create_chain: lengthen the chain that ends at `clst`, or start a new one. */
    method CreateChain(clst: nat) returns (ncl: nat)
      requires Valid()
      modifies this`ents, this`freeClst, this`lastClst, vol`disk, vol`wflag, vol`winSect, vol`log, vol.win
      ensures Valid() && |ents| == |old(ents)|
      // an unusable cluster, or one that is already followed by another
      ensures clst != 0 && (!IsCluster(old(ents), clst) || old(ents)[clst] < 2) ==> ncl == 1 && ents == old(ents)
      ensures IsCluster(old(ents), clst) && 2 <= old(ents)[clst] < |ents| ==> ncl == old(ents)[clst] && ents == old(ents)
      // otherwise a free cluster, no free cluster, or an invalid entry
      ensures clst == 0 || (IsCluster(old(ents), clst) && old(ents)[clst] >= |ents|) ==>
                if ncl >= 2 then
                  && IsCluster(old(ents), ncl) && old(ents)[ncl] == 0 && lastClst == ncl
                  && |old(ents)| > 2 && Chosen(old(ents), clst, old(lastClst), ncl)
                  && ents == (if clst == 0 then old(ents)[ncl := Eoc(vol.g)] else old(ents)[ncl := Eoc(vol.g)][clst := ncl])
                else
                  && ents == old(ents) && freeClst == old(freeClst)
                  && (ncl == 0 ==> old(freeClst) == 0 || FreeCount(ents) == 0)
                  && (ncl == 1 ==> exists c: nat :: IsCluster(ents, c) && ents[c] == 1)
      ensures CountRight(old(ents), old(freeClst)) ==> CountRight(ents, freeClst)
      ensures old(freeClst) > |ents| - 2 ==> freeClst == old(freeClst)
    {
      hide EntriesOf;
      assert |ents| == vol.g.nEnt by { EntryCount(vol.g, vol.log); }
      var scl;
      if clst == 0 {
        scl := lastClst;
        if scl == 0 || scl >= vol.g.nEnt { scl := 1; }
      } else {
        var cs := GetEntry(clst);
        if cs < 2 { return 1; }
        if cs < vol.g.nEnt { return cs; }
        scl := clst;
      }
      if freeClst == 0 { return 0; }
      ncl := 0;
      if scl == clst {
        ncl := scl + 1;
        if ncl >= vol.g.nEnt { ncl := 2; }
        var cs := GetEntry(ncl);
        if cs == 1 { return cs; }
        if cs != 0 {
          cs := lastClst;
          if cs >= 2 && cs < vol.g.nEnt { scl := cs; }
          ncl := 0;
        }
      }
      if ncl == 0 {
        ncl := FindFree(scl);
        if ncl < 2 { return; }
      }
      Link(clst, ncl);
      lastClst := ncl;
    }

    /** Mark a free cluster as the end of a chain, link it, and count it. */
    method Link(clst: nat, ncl: nat)
      requires Valid() && IsCluster(ents, ncl) && ents[ncl] == 0 && freeClst > 0
      requires clst == 0 || (IsCluster(ents, clst) && ents[clst] >= |ents|)
      modifies this`ents, this`freeClst, vol`disk, vol`wflag, vol`winSect, vol`log, vol.win
      ensures Valid() && |ents| == |old(ents)|
      ensures ents == if clst == 0 then old(ents)[ncl := Eoc(vol.g)] else old(ents)[ncl := Eoc(vol.g)][clst := ncl]
      ensures CountRight(old(ents), old(freeClst)) ==> CountRight(ents, freeClst)
      ensures old(freeClst) > |ents| - 2 ==> freeClst == old(freeClst)
    {
      hide EntriesOf;
      assert |ents| == vol.g.nEnt by { EntryCount(vol.g, vol.log); }
      EocEnds(vol.g, |vol.disk|);
      FreeUpdate(ents, ncl, Eoc(vol.g), |ents|);
      FreeBound(ents, |ents|);
      var ok := PutEntry(ncl, ALL_ONES);
      if clst != 0 {
        FreeUpdate(ents, clst, ncl, |ents|);
        ok := PutEntry(clst, ncl);
      }
      if freeClst <= vol.g.nEnt - 2 {
        freeClst := freeClst - 1;
      }
    }

    // ----- the same, on well-formed tables -----

    /** Start a chain: it takes a free cluster, and fails only if none is free. */
    method NewChain(ghost chains: seq<seq<nat>>) returns (ncl: nat, ghost chains': seq<seq<nat>>)
      requires Valid() && WellFormed(ents, chains) && CountRight(ents, freeClst)
      modifies this`ents, this`freeClst, this`lastClst, vol`disk, vol`wflag, vol`winSect, vol`log, vol.win
      ensures Valid() && WellFormed(ents, chains') && CountRight(ents, freeClst)
      ensures ncl == 0 || (IsCluster(old(ents), ncl) && old(ents)[ncl] == 0)
      ensures ncl == 0 <==> FreeCount(old(ents)) == 0
      ensures chains' == if ncl == 0 then chains else chains + [[ncl]]
    {
      hide EntriesOf, WellFormed;
      EntryCount(vol.g, vol.log);
      EocEnds(vol.g, |vol.disk|);
      FreeBound(ents, |ents|);
      forall c: nat | IsCluster(ents, c) ensures ents[c] != 1 { NoInvalidEntry(ents, chains, c); }
      ncl := CreateChain(0);
      chains' := chains;
      if ncl != 0 {
        StartsChain(old(ents), chains, ncl, Eoc(vol.g));
        chains' := chains + [[ncl]];
      }
    }

    /** Lengthen the chain that ends at `clst`. */
    method GrowChain(clst: nat, ghost chains: seq<seq<nat>>, ghost k: nat) returns (ncl: nat, ghost chains': seq<seq<nat>>)
      requires Valid() && WellFormed(ents, chains) && CountRight(ents, freeClst)
      requires k < |chains| && |chains[k]| > 0 && chains[k][|chains[k]| - 1] == clst
      modifies this`ents, this`freeClst, this`lastClst, vol`disk, vol`wflag, vol`winSect, vol`log, vol.win
      ensures Valid() && WellFormed(ents, chains') && CountRight(ents, freeClst)
      ensures ncl == 0 || (IsCluster(old(ents), ncl) && old(ents)[ncl] == 0)
      ensures ncl == 0 <==> FreeCount(old(ents)) == 0
      ensures chains' == if ncl == 0 then chains else chains[k := chains[k] + [ncl]]
    {
      EntryCount(vol.g, vol.log);
      EocEnds(vol.g, |vol.disk|);
      FreeBound(ents, |ents|);
      assert ChainOk(ents, chains[k]);
      assert LinkOk(ents, chains[k], |chains[k]| - 1) && IsCluster(ents, clst);
      forall c: nat | IsCluster(ents, c) ensures ents[c] != 1 { NoInvalidEntry(ents, chains, c); }
      hide EntriesOf, WellFormed;
      ncl := CreateChain(clst);
      chains' := chains;
      if ncl != 0 {
        StretchesChain(old(ents), chains, k, ncl, Eoc(vol.g));
        chains' := chains[k := chains[k] + [ncl]];
      }
    }

    /** Remove a chain from its cluster `clst` on; `pclst` is the cluster before, or 0. */
    method CutChain(clst: nat, pclst: nat, ghost chains: seq<seq<nat>>, ghost k: nat, ghost i: nat)
      returns (res: Res, ghost chains': seq<seq<nat>>)
      requires Valid() && WellFormed(ents, chains) && CountRight(ents, freeClst)
      requires k < |chains| && i < |chains[k]| && chains[k][i] == clst
      requires pclst == if i == 0 then 0 else chains[k][i - 1]
      modifies this`ents, this`freeClst, vol`disk, vol`wflag, vol`winSect, vol`log, vol.win
      ensures Valid() && WellFormed(ents, chains') && CountRight(ents, freeClst)
      ensures res == FrOk && chains' == Cut(chains, k, i)
    {
      EntryCount(vol.g, vol.log);
      EocEnds(vol.g, |vol.disk|);
      assert ChainOk(ents, chains[k]) && IsCluster(ents, clst);
      if i > 0 { assert IsCluster(ents, pclst) && LinkOk(ents, chains[k], i - 1); }
      RemovesTail(ents, chains, k, i, Eoc(vol.g));
      hide EntriesOf, WellFormed;
      res := RemoveChain(clst, pclst);
      chains' := Cut(chains, k, i);
    }

    // ----- counting -----

    /** f_getfree: the cached count if it is known, else a scan of the table. A scan of 16- or
        32-bit entries starts at entry 0, so it also counts reserved entries that are zero. */
    method GetFree() returns (res: Res, nfree: nat)
      requires Valid()
      modifies this`freeClst, vol`disk, vol`wflag, vol`winSect, vol.win
      ensures Valid() && vol.log == old(vol.log)
      ensures res == FrIntErr <==>
                old(freeClst) > |ents| - 2 && vol.g.ty == Fat12 && exists c: nat :: IsCluster(ents, c) && ents[c] == 1
      ensures res == FrIntErr ==> freeClst == old(freeClst)
      ensures res == FrOk ==> freeClst == nfree
      ensures res == FrOk && old(freeClst) <= |ents| - 2 ==> nfree == old(freeClst)
      ensures res == FrOk && old(freeClst) > |ents| - 2 ==>
                nfree == FreeCount(ents)
                  + if vol.g.ty == Fat12 then 0 else (if ents[0] == 0 then 1 else 0) + (if ents[1] == 0 then 1 else 0)
    {
      hide EntriesOf;
      EntryCount(vol.g, vol.log);
      res := FrOk;
      if freeClst <= vol.g.nEnt - 2 { return FrOk, freeClst; }
      if vol.g.ty == Fat12 {
        res, nfree := ScanEntries();
      } else {
        nfree := ScanWords();
        ZerosAreFree(ents, |ents|);
      }
      if res == FrOk { freeClst := nfree; }
    }

    /** Entry by entry; an invalid entry ends the scan with an error. */
    method ScanEntries() returns (res: Res, nfree: nat)
      requires Valid()
      modifies vol`disk, vol`wflag, vol`winSect, vol.win
      ensures Valid() && vol.log == old(vol.log)
      ensures res == FrIntErr <==> exists c: nat :: IsCluster(ents, c) && ents[c] == 1
      ensures res == FrOk ==> nfree == FreeCount(ents)
    {
      hide EntriesOf;
      EntryCount(vol.g, vol.log);
      nfree := 0;
      var clst := 2;
      while clst < vol.g.nEnt
        invariant Valid() && vol.log == old(vol.log) && 2 <= clst <= |ents|
        invariant nfree == Free(ents, clst)
        invariant forall c: nat :: 2 <= c < clst ==> ents[c] != 1
      {
        var stat := GetEntry(clst);
        if stat == 1 { return FrIntErr, nfree; }
        if stat == 0 { nfree := nfree + 1; }
        clst := clst + 1;
      }
      return FrOk, nfree;
    }

    /** Sector by sector, two or four bytes at a time. */
    method ScanWords() returns (nfree: nat)
      requires Valid() && vol.g.ty != Fat12
      modifies vol`disk, vol`wflag, vol`winSect, vol.win
      ensures Valid() && vol.log == old(vol.log)
      ensures nfree == Zeros(ents, |ents|)
    {
      hide EntriesOf, FatBytes, Get, GeometryOk, Sec, Off;
      SectorParts(0, 0, 0); SectorParts(SS - 1, 0, SS - 1);
      assert |ents| == vol.g.nEnt by { EntryCount(vol.g, vol.log); }
      nfree := 0;
      var width := if vol.g.ty == Fat16 then 2 else 4;
      ghost var j: nat := 0;
      var clst := vol.g.nEnt;
      var sect := vol.g.fatBase;
      var i := 0;
      while clst > 0
        invariant Valid() && vol.log == old(vol.log)
        invariant clst >= 0 && j + clst == |ents| && i == Off(j * width)
        invariant sect == vol.g.fatBase + Sec(j * width + SS - 1)
        invariant i != 0 ==> vol.winSect == vol.g.fatBase + Sec(j * width)
        invariant nfree == Zeros(ents, j)
      {
        EntryPlace(vol.g, vol.log, j, width);
        NextWord(j, width);
        if i == 0 {
          vol.MoveWindow(sect);
          sect := sect + 1;
        }
        var zero := vol.WordIsZero(j, i);
        if zero { nfree := nfree + 1; }
        i := Off(i + width);
        j := j + 1;
        clst := clst - 1;
      }
    }
  }

  lemma EntryPlace(g: Geometry, d: seq<Sector>, c: nat, width: nat)
    requires GeometryOk(g, |d|) && g.ty != Fat12 && c < g.nEnt && width == if g.ty == Fat16 then 2 else 4
    ensures Fits(g.ty, g.fSize * SS, c) && Offset(g.ty, c) == c * width
    ensures EntriesOf(g, d)[c] == Get(g.ty, FatBytes(g, d), c)
    ensures InFat1(g, g.fatBase + Sec(c * width)) && !InFat2(g, g.fatBase + Sec(c * width))
    ensures g.fatBase + Sec(c * width) < |d|
  {
    hide FatBytes, Get, Sec, Off;
    EntryFits(g, |d|, c);
    SectorInFat(g, c * width);
  }

  /** Where the scan stands after one more entry. */
  lemma NextWord(j: nat, width: nat)
    requires width == 2 || width == 4
    ensures Off((j + 1) * width) == Off(Off(j * width) + width)
    ensures Off(j * width) == 0 ==> Sec(j * width + SS - 1) == Sec(j * width)
    ensures Sec((j + 1) * width + SS - 1) == Sec(j * width) + 1
    ensures Off(j * width) != 0 ==> Sec(j * width + SS - 1) == Sec(j * width) + 1
    ensures Off((j + 1) * width) != 0 ==> Sec((j + 1) * width) == Sec(j * width)
  {
    hide Sec, Off;
    var o := j * width;
    assert (j + 1) * width == o + width;
    assert o % width == 0;
    StepParts(o, width);
  }

  lemma StepParts(o: nat, width: nat)
    requires (width == 2 || width == 4) && o % width == 0
    ensures Off(o + width) == Off(Off(o) + width)
    ensures Off(o) == 0 ==> Sec(o + SS - 1) == Sec(o)
    ensures Sec(o + width + SS - 1) == Sec(o) + 1
    ensures Off(o) != 0 ==> Sec(o + SS - 1) == Sec(o) + 1
    ensures Off(o + width) != 0 ==> Sec(o + width) == Sec(o)
  {
    hide Sec, Off;
    var q, r := Sec(o), Off(o);
    Parts(o);
    EvenRest(o, width, q, r);
    if r + width < SS { SectorParts(r + width, 0, r + width); } else { SectorParts(r + width, 1, 0); }
    if r + width < SS { SectorParts(o + width, q, r + width); } else { SectorParts(o + width, q + 1, 0); }
    if r == 0 { SectorParts(o + SS - 1, q, SS - 1); } else { SectorParts(o + SS - 1, q + 1, r - 1); }
    SectorParts(o + width + SS - 1, q + 1, r + width - 1);
  }

  /** In a well-formed table no cluster's entry is invalid. */
  lemma NoInvalidEntry(e: Entries, chains: seq<seq<nat>>, c: nat)
    requires WellFormed(e, chains) && IsCluster(e, c)
    ensures e[c] != 1
  {
    if e[c] != 0 {
      assert Used(chains, c);
      var a: nat, i: nat :| a < |chains| && i < |chains[a]| && chains[a][i] == c;
      assert ChainOk(e, chains[a]) && LinkOk(e, chains[a], i);
      if i + 1 < |chains[a]| { assert IsCluster(e, chains[a][i + 1]); }
    }
  }

  /** Zero entries below `k`, the reserved ones included. */
  function Zeros(e: Entries, k: nat): nat
    requires k <= |e|
  {
    if k == 0 then 0 else Zeros(e, k - 1) + if e[k - 1] == 0 then 1 else 0
  }

  /** Counting from entry 0 finds the free clusters, plus the reserved entries that are zero. */
  lemma {:induction false} ZerosAreFree(e: Entries, k: nat)
    requires 2 <= k <= |e|
    ensures Zeros(e, k) == Free(e, k) + (if e[0] == 0 then 1 else 0) + (if e[1] == 0 then 1 else 0)
  {
    if k > 2 { ZerosAreFree(e, k - 1); } else { assert Zeros(e, 2) == Zeros(e, 1) + if e[1] == 0 then 1 else 0; }
  }

  lemma {:induction false} AllZero(e: Entries, k: nat)
    requires k <= |e| && forall i: nat :: i < k ==> e[i] == 0
    ensures Zeros(e, k) == k
  {
    if k > 0 { AllZero(e, k - 1); }
  }

  /** A blank 16-bit table of 5000 entries: the scan counts 5000, but only 4998 clusters are free. */
  lemma BlankTableMiscounted()
    ensures var g := Geometry(Fat16, 5000, 0, 20, 1);
            var d: seq<Sector> := seq(20, _ => seq(512, _ => 0));
            GeometryOk(g, |d|) && Zeros(EntriesOf(g, d), 5000) == 5000 && FreeCount(EntriesOf(g, d)) == 4998
  {
    var g := Geometry(Fat16, 5000, 0, 20, 1);
    var d: seq<Sector> := seq(20, _ => seq(512, _ => 0));
    var e := EntriesOf(g, d);
    forall c: nat | c < 5000 ensures e[c] == 0 {
      EntryFits(g, 20, c);
      FatByteAt(g, d, c * 2);
      FatByteAt(g, d, c * 2 + 1);
    }
    AllZero(e, 5000);
    ZerosAreFree(e, 5000);
  }

  /** Clearing an entry frees one cluster, and makes the table smaller for the loop. */
  lemma ClearFreesOne(e: Entries, c: nat)
    requires IsCluster(e, c) && e[c] != 0
    ensures NonZero(e[c := 0]) < NonZero(e)
    ensures FreeCount(e[c := 0]) == FreeCount(e) + 1 && FreeCount(e) < |e| - 2
  {
    NonZeroDrops(e, c);
    FreeUpdate(e, c, 0, |e|);
    FreeBound(e, |e|);
  }

  lemma EntryCount(g: Geometry, d: seq<Sector>)
    requires GeometryOk(g, |d|)
    ensures |EntriesOf(g, d)| == g.nEnt
  {
  }
}
