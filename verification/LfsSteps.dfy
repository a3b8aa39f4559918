// How single reads, writes and allocations keep the layout invariant.

module LfsSteps {
  import opened LfsCodec
  import opened LfsLayout

  /** Two disk images that agree on the data area. */
  ghost predicate SameDataArea(g: Geometry, a: seq<Sector>, b: seq<Sector>)
  {
    |a| == |b| && forall s :: 0 <= s < |a| && g.first <= s ==> a[s] == b[s]
  }

  lemma DecodedElsewhere(g: Geometry, disk: seq<Sector>, ibd: seq<IBlk>, at: int, x: Sector)
    requires GeometryOK(g) && Decoded(g, disk, ibd)
    requires at == 0 || (g.first <= at < g.nsect && x.Raw?)
    ensures Decoded(g, disk[at := x], ibd)
  {
    forall i | 0 <= i < g.nib
      ensures Ib2Sect(i) < g.first && IbAt(disk[at := x], i) == ibd[i]
    {
      assert IbAt(disk, i) == ibd[i];
    }
  }

  lemma JustStored(g: Geometry, s: State, L: Layout)
    requires Core(g, s, L) && s.disk[0] == DirSector(s.dir)
    ensures DirStored(s)
  {
  }

  lemma IndexSector(g: Geometry, disk: seq<Sector>, ibd: seq<IBlk>, inum: int)
    requires GeometryOK(g) && Decoded(g, disk, ibd) && 0 <= inum < g.nib
    ensures 1 <= Ib2Sect(inum) < g.first < g.nsect <= |disk| && disk[Ib2Sect(inum)].Raw?
    ensures IbAt(disk, inum) == ibd[inum] && |ibd| == g.nib
  {
  }

  lemma DirStoredFrame(s: State, s': State)
    requires DirStored(s) && |s'.disk| == |s.disk| && s'.disk[0] == s.disk[0]
    requires s'.dirdirty || (!s.dirdirty && s'.dir == s.dir)
    ensures DirStored(s')
  {
  }

  lemma DecodedAfterPut(g: Geometry, disk: seq<Sector>, ibd: seq<IBlk>, inum: int, ib: IBlk, c: Block)
    requires GeometryOK(g) && Decoded(g, disk, ibd) && 0 <= inum < g.nib && Encodable(ib)
    requires 1 <= Ib2Sect(inum) < |disk| && disk[Ib2Sect(inum)].Raw?
    requires Spliced(disk[Ib2Sect(inum)].b, Ib2Disp(inum), IbBytes(ib), c)
    ensures Decoded(g, disk[Ib2Sect(inum) := Raw(c)], ibd[inum := ib])
  {
    IbPutGet(disk, inum, ib, c);
    forall i | 0 <= i < g.nib
      ensures Ib2Sect(i) < g.first && IbAt(disk[Ib2Sect(inum) := Raw(c)], i) == ibd[inum := ib][i]
    {
      assert IbAt(disk, i) == ibd[i];
    }
  }

  /** Every index block of the layout fits its 72 bytes. */
  lemma ImageEncodable(g: Geometry, L: Layout, k: int, j: int)
    requires OwnershipOK(g, L) && SizesOK(L) && 0 <= k < |L.chain| && 0 <= j < |L.chain[k]|
    ensures Encodable(IbImage(L.chain[k], L.blks[k], j))
  {
  }

  /** No position reaches 2^32. */
  lemma PositionFits(g: Geometry, s: State, L: Layout, m: int)
    requires Core(g, s, L) && 0 <= m < |s.tab| && s.tab[m].used
    ensures 0 <= s.tab[m].pos / LF_IDATA < MAX_CHAIN
  {
    hide IbImage, IbAt, NextFree, Holds, Partition;
    EntryInRange(g, s.tab, L, m);
    PartitionBound(g.first, g.nsect, L.blks, L.dfl, L.down, s.tab[m].entry);
  }

  lemma CoreGeometry(g: Geometry, s: State, L: Layout)
    requires Core(g, s, L)
    ensures GeometryOK(g) && OwnershipOK(g, L) && Decoded(g, s.disk, s.ibd)
    ensures g.first < g.nsect <= |s.disk| && s.disk[0].DirSector?
    ensures !s.dirdirty && DirStored(s) ==> Synced(s.disk[0].dir, s.dir)
  {
  }

  lemma CachedIndexEncodable(g: Geometry, s: State, L: Layout, m: int)
    requires Core(g, s, L) && 0 <= m < |s.tab| && s.tab[m].used && (s.tab[m].ibdirty || s.tab[m].inum != LF_INULL)
    ensures 0 <= s.tab[m].inum < g.nib && |s.tab[m].iblock.dba| == LF_IBLEN && Encodable(s.tab[m].iblock)
  {
    hide IbImage, IbAt, NextFree, Holds;
    EntryInRange(g, s.tab, L, m);
    ImageEncodable(g, L, s.tab[m].entry, L.iown[s.tab[m].inum].at);
  }

  // ---- flushing ------------------------------------------------------------------

  lemma FlushDirectory(g: Geometry, s: State, L: Layout)
    requires Core(g, s, L)
    ensures Core(g, s.(disk := s.disk[0 := DirSector(s.dir)], dirdirty := false), L)
    ensures DirStored(s.(disk := s.disk[0 := DirSector(s.dir)], dirdirty := false))
  {
    DecodedElsewhere(g, s.disk, s.ibd, 0, DirSector(s.dir));
  }

  lemma FlushData(g: Geometry, s: State, L: Layout, m: int)
    requires Core(g, s, L) && 0 <= m < |s.tab| && s.tab[m].used && s.tab[m].dbdirty
    ensures g.first <= s.tab[m].dnum < g.nsect
    ensures Core(g, s.(disk := s.disk[s.tab[m].dnum := Raw(s.tab[m].dblock)],
                       tab := s.tab[m := s.tab[m].(dbdirty := false)]), L)
  {
    hide IbImage, IbAt, NextFree, Holds, Partition, DirtyIb, DirtyDb, Placed;
    var c := s.tab[m];
    var disk', tab' := s.disk[c.dnum := Raw(c.dblock)], s.tab[m := c.(dbdirty := false)];
    CachedDataRange(g, s.tab, L, m);
    DecodedElsewhere(g, s.disk, s.ibd, c.dnum, Raw(c.dblock));
    DataFlushed(g, s, L, m);
    KeepsDirtyIb(s.tab, tab');
    FlushedTab(g, s.tab, L, m);
    FlushedFree(g, s, L, m);
  }

  lemma CachedDataRange(g: Geometry, tab: seq<FileBlock>, L: Layout, m: int)
    requires OwnershipOK(g, L) && TabOK(g, tab, L) && 0 <= m < |tab| && tab[m].used && tab[m].dbdirty
    ensures g.first <= tab[m].dnum < g.nsect && 1 <= g.first
  {
    assert OpenOK(g, tab[m], L);
  }

  lemma FlushedTab(g: Geometry, tab: seq<FileBlock>, L: Layout, m: int)
    requires OwnershipOK(g, L) && TabOK(g, tab, L) && 0 <= m < |tab| && tab[m].used
    ensures TabOK(g, tab[m := tab[m].(dbdirty := false)], L)
  {
    hide IbImage, Holds, OwnershipOK;
    assert OpenOK(g, tab[m], L);
  }

  lemma FlushedFree(g: Geometry, s: State, L: Layout, m: int)
    requires OwnershipOK(g, L) && TabOK(g, s.tab, L) && 0 <= m < |s.tab| && s.tab[m].used && s.tab[m].dbdirty
    requires g.nsect <= |s.disk| && |s.ibd| == g.nib && (forall x :: 1 <= x < g.nsect ==> s.disk[x].Raw?)
             && FreeOK(g, s.disk, s.ibd, L)
    ensures g.first <= s.tab[m].dnum < g.nsect && FreeOK(g, s.disk[s.tab[m].dnum := Raw(s.tab[m].dblock)], s.ibd, L)
  {
    hide IbImage, Holds, NextFree, Placed;
    assert OpenOK(g, s.tab[m], L);
  }

  lemma DataFlushed(g: Geometry, s: State, L: Layout, m: int)
    requires OwnershipOK(g, L) && g.nsect <= |s.disk| && (forall x :: 1 <= x < g.nsect ==> s.disk[x].Raw?)
    requires DataOK(g, s.disk, s.tab, L) && TabOK(g, s.tab, L)
    requires 0 <= m < |s.tab| && s.tab[m].used && s.tab[m].dbdirty
    ensures DataOK(g, s.disk[s.tab[m].dnum := Raw(s.tab[m].dblock)], s.tab[m := s.tab[m].(dbdirty := false)], L)
  {
    hide IbImage, Holds;
    var c := s.tab[m];
    var disk', tab' := s.disk[c.dnum := Raw(c.dblock)], s.tab[m := c.(dbdirty := false)];
    forall k, p | 0 <= k < |L.blks| && 0 <= p < |L.blks[k]|
      ensures Holds(disk'[L.blks[k][p]].b, L.data[k], p) || DirtyDb(tab', L.blks[k][p])
    {
      var d := L.blks[k][p];
      assert L.down[d] == Used(k, p);
      if d != c.dnum && DirtyDb(s.tab, d) {
        var n :| 0 <= n < |s.tab| && s.tab[n].used && s.tab[n].dbdirty && s.tab[n].dnum == d;
        assert tab'[n] == s.tab[n];
      }
    }
  }

  lemma FlushIndex(g: Geometry, s: State, L: Layout, m: int, disk': seq<Sector>, ibd': seq<IBlk>)
    requires Core(g, s, L) && 0 <= m < |s.tab| && s.tab[m].used && s.tab[m].ibdirty
    requires SameDataArea(g, s.disk, disk') && disk'[0].DirSector? && ibd' == s.ibd[s.tab[m].inum := s.tab[m].iblock]
             && Decoded(g, disk', ibd')
    ensures Core(g, s.(disk := disk', ibd := ibd', tab := s.tab[m := s.tab[m].(ibdirty := false)]), L)
  {
    hide IbImage, IbAt, NextFree, Holds, Partition, DirtyIb, DirtyDb, Placed;
    var tab' := s.tab[m := s.tab[m].(ibdirty := false)];
    IndexFlushed(g, s, L, m);
    KeepsDirtyDb(s.tab, tab');
    DataFrame(g, s.disk, disk', s.tab, tab', L);
    FreeIndexFrame(g, s, L, disk', ibd');
    CleanIndexTab(g, s.tab, L, m);
  }

  lemma CleanIndexTab(g: Geometry, tab: seq<FileBlock>, L: Layout, m: int)
    requires OwnershipOK(g, L) && TabOK(g, tab, L) && 0 <= m < |tab| && tab[m].used
    ensures TabOK(g, tab[m := tab[m].(ibdirty := false)], L)
  {
    hide IbImage, Holds, OwnershipOK;
    assert OpenOK(g, tab[m], L);
  }

  lemma IndexFlushed(g: Geometry, s: State, L: Layout, m: int)
    requires OwnershipOK(g, L) && |s.ibd| == g.nib && IndexOK(g, s.ibd, s.tab, L) && TabOK(g, s.tab, L)
    requires 0 <= m < |s.tab| && s.tab[m].used && s.tab[m].ibdirty
    ensures IndexOK(g, s.ibd[s.tab[m].inum := s.tab[m].iblock], s.tab[m := s.tab[m].(ibdirty := false)], L)
  {
    hide IbImage, Holds;
    var c := s.tab[m];
    var ibd', tab' := s.ibd[c.inum := c.iblock], s.tab[m := c.(ibdirty := false)];
    forall k, j | 0 <= k < |L.chain| && 0 <= j < |L.chain[k]|
      ensures ibd'[L.chain[k][j]] == IbImage(L.chain[k], L.blks[k], j) || DirtyIb(tab', L.chain[k][j])
    {
      var i := L.chain[k][j];
      assert L.iown[i] == Used(k, j);
      if i != c.inum && DirtyIb(s.tab, i) {
        var n :| 0 <= n < |s.tab| && s.tab[n].used && s.tab[n].ibdirty && s.tab[n].inum == i;
        assert tab'[n] == s.tab[n];
      }
    }
  }

  lemma DataFrame(g: Geometry, disk: seq<Sector>, disk': seq<Sector>, tab: seq<FileBlock>, tab': seq<FileBlock>,
      L: Layout)
    requires OwnershipOK(g, L) && g.nsect <= |disk| == |disk'|
    requires forall s :: 1 <= s < g.nsect ==> disk[s].Raw? && disk'[s].Raw?
    requires SameDataArea(g, disk, disk') && forall d :: DirtyDb(tab, d) ==> DirtyDb(tab', d)
    requires DataOK(g, disk, tab, L)
    ensures DataOK(g, disk', tab', L)
  {
  }

  lemma FreeIndexFrame(g: Geometry, s: State, L: Layout, disk': seq<Sector>, ibd': seq<IBlk>)
    requires OwnershipOK(g, L) && Decoded(g, s.disk, s.ibd) && FreeOK(g, s.disk, s.ibd, L)
    requires SameDataArea(g, s.disk, disk') && Decoded(g, disk', ibd')
    requires forall i :: 0 <= i < g.nib && L.iown[i].Free? ==> ibd'[i] == s.ibd[i]
    ensures FreeOK(g, disk', ibd', L)
  {
  }

  lemma KeepsDirtyIb(tab: seq<FileBlock>, tab': seq<FileBlock>)
    requires |tab| == |tab'|
    requires forall m :: 0 <= m < |tab| ==>
               tab[m].used == tab'[m].used && tab[m].ibdirty == tab'[m].ibdirty && tab[m].inum == tab'[m].inum
    ensures forall i :: DirtyIb(tab, i) ==> DirtyIb(tab', i)
  {
    forall i | DirtyIb(tab, i)
      ensures DirtyIb(tab', i)
    {
      var m :| 0 <= m < |tab| && tab[m].used && tab[m].ibdirty && tab[m].inum == i;
      assert tab'[m].used;
    }
  }

  lemma KeepsDirtyDb(tab: seq<FileBlock>, tab': seq<FileBlock>)
    requires |tab| == |tab'|
    requires forall m :: 0 <= m < |tab| ==>
               tab[m].used == tab'[m].used && tab[m].dbdirty == tab'[m].dbdirty && tab[m].dnum == tab'[m].dnum
    ensures forall d :: DirtyDb(tab, d) ==> DirtyDb(tab', d)
  {
    forall d | DirtyDb(tab, d)
      ensures DirtyDb(tab', d)
    {
      var m :| 0 <= m < |tab| && tab[m].used && tab[m].dbdirty && tab[m].dnum == d;
      assert tab'[m].used;
    }
  }

  // ---- reading through the caches ---------------------------------------------------

  /** While the caches of an open file are clean, no table entry supersedes a block of that file. */
  lemma OwnBlocksClean(g: Geometry, tab: seq<FileBlock>, L: Layout, m: int)
    requires OwnershipOK(g, L) && TabOK(g, tab, L)
    requires 0 <= m < |tab| && tab[m].used && !tab[m].ibdirty && !tab[m].dbdirty
    ensures forall j :: 0 <= j < |L.chain[tab[m].entry]| ==> !DirtyIb(tab, L.chain[tab[m].entry][j])
    ensures forall p :: 0 <= p < |L.blks[tab[m].entry]| ==> !DirtyDb(tab, L.blks[tab[m].entry][p])
  {
    hide IbImage, Holds;
    var k := tab[m].entry;
    forall j, n | 0 <= j < |L.chain[k]| && 0 <= n < |tab| && tab[n].used && tab[n].ibdirty
      ensures tab[n].inum != L.chain[k][j]
    {
      assert OpenOK(g, tab[n], L) && L.iown[L.chain[k][j]] == Used(k, j);
    }
    forall p, n | 0 <= p < |L.blks[k]| && 0 <= n < |tab| && tab[n].used && tab[n].dbdirty
      ensures tab[n].dnum != L.blks[k][p]
    {
      assert OpenOK(g, tab[n], L) && L.down[L.blks[k][p]] == Used(k, p);
    }
  }

  /** Fetching the j-th index block of an open file whose caches are clean. */
  lemma LoadIb(g: Geometry, s: State, L: Layout, m: int, j: int, dnum: int)
    requires Core(g, s, L) && 0 <= m < |s.tab| && s.tab[m].used && !s.tab[m].ibdirty && !s.tab[m].dbdirty
    requires s.tab[m].byteptr == LF_BLKSIZ && (dnum == s.tab[m].dnum || dnum == LF_DNULL)
    requires 0 <= j < |L.chain[s.tab[m].entry]|
    ensures var i := L.chain[s.tab[m].entry][j];
            0 <= i < g.nib && L.iown[i] == Used(s.tab[m].entry, j)
            && s.ibd[i] == IbImage(L.chain[s.tab[m].entry], L.blks[s.tab[m].entry], j)
            && Core(g, s.(tab := s.tab[m := s.tab[m].(inum := i, iblock := s.ibd[i], dnum := dnum)]), L)
  {
    hide IbImage, IbAt, NextFree, Holds;
    var c := s.tab[m];
    var i := L.chain[c.entry][j];
    OwnBlocksClean(g, s.tab, L, m);
    ReplaceClean(g, s, L, m, c.(inum := i, iblock := s.ibd[i], dnum := dnum));
  }

  /** Fetching the p-th data block. */
  lemma LoadDb(g: Geometry, s: State, L: Layout, m: int, p: int)
    requires Core(g, s, L) && 0 <= m < |s.tab| && s.tab[m].used && !s.tab[m].ibdirty && !s.tab[m].dbdirty
    requires 0 <= p < |L.blks[s.tab[m].entry]| && p == s.tab[m].pos / 512
    ensures var d := L.blks[s.tab[m].entry][p];
            g.first <= d < g.nsect
            && Core(g, s.(tab := s.tab[m :=
               s.tab[m].(dnum := d, dblock := s.disk[d].b, byteptr := s.tab[m].pos % 512)]), L)
  {
    hide IbImage, IbAt, NextFree, Holds;
    var c := s.tab[m];
    var d := L.blks[c.entry][p];
    OwnBlocksClean(g, s.tab, L, m);
    ReplaceClean(g, s, L, m, c.(dnum := d, dblock := s.disk[d].b, byteptr := c.pos % 512));
  }

  /** Changing one table entry whose cached blocks are stored, to another such state. */
  lemma ReplaceClean(g: Geometry, s: State, L: Layout, m: int, c: FileBlock)
    requires Core(g, s, L) && 0 <= m < |s.tab| && !(s.tab[m].used && (s.tab[m].ibdirty || s.tab[m].dbdirty))
    requires c.used ==> !c.ibdirty && !c.dbdirty && OpenOK(g, c, L)
    requires forall n :: 0 <= n < |s.tab| && n != m && s.tab[n].used && c.used ==> s.tab[n].entry != c.entry
    ensures Core(g, s.(tab := s.tab[m := c]), L)
  {
    hide IbImage, IbAt, NextFree, Holds, OpenOK, DirtyIb, DirtyDb;
    KeepsDirtyBut(s.tab, s.tab[m := c], m);
    assert TabOK(g, s.tab[m := c], L);
  }

  lemma KeepsDirtyBut(tab: seq<FileBlock>, tab': seq<FileBlock>, m: int)
    requires 0 <= m < |tab| == |tab'| && !(tab[m].used && (tab[m].ibdirty || tab[m].dbdirty))
    requires forall n :: 0 <= n < |tab| && n != m ==> tab'[n] == tab[n]
    ensures forall i :: DirtyIb(tab, i) ==> DirtyIb(tab', i)
    ensures forall d :: DirtyDb(tab, d) ==> DirtyDb(tab', d)
  {
    forall i | DirtyIb(tab, i)
      ensures DirtyIb(tab', i)
    {
      var n :| 0 <= n < |tab| && tab[n].used && tab[n].ibdirty && tab[n].inum == i;
      assert tab'[n] == tab[n];
    }
    forall d | DirtyDb(tab, d)
      ensures DirtyDb(tab', d)
    {
      var n :| 0 <= n < |tab| && tab[n].used && tab[n].dbdirty && tab[n].dnum == d;
      assert tab'[n] == tab[n];
    }
  }

  /** Making a cached data block current again. */
  lemma KeepDb(g: Geometry, s: State, L: Layout, m: int)
    requires Core(g, s, L) && 0 <= m < |s.tab| && s.tab[m].used && s.tab[m].dnum != LF_DNULL
    requires 0 <= s.tab[m].entry < |L.blks| && 0 <= s.tab[m].pos / 512 < |L.blks[s.tab[m].entry]|
    requires L.blks[s.tab[m].entry][s.tab[m].pos / 512] == s.tab[m].dnum
    ensures Core(g, s.(tab := s.tab[m := s.tab[m].(byteptr := s.tab[m].pos % 512)]), L)
  {
    hide IbImage, IbAt, NextFree, Holds, IndexOK, DataOK, FreeOK, DirOK, SizesOK;
    var c := s.tab[m];
    EntryInRange(g, s.tab, L, m);
    assert L.down[c.dnum] == Used(c.entry, c.pos / 512);
    Reposition(g, s, L, m, c.pos, c.pos % 512);
  }

  /** Pointer slot and block number agree. */
  lemma SlotOf(chain: seq<int>, blks: seq<int>, pos: int)
    requires 0 <= pos && pos / LF_IDATA < |chain|
    ensures var slot := pos % LF_IDATA / LF_BLKSIZ;
            && 0 <= slot < LF_IBLEN && slot == pos / LF_BLKSIZ % LF_IBLEN
               && pos / LF_BLKSIZ / LF_IBLEN == pos / LF_IDATA
            && IbImage(chain, blks, pos / LF_IDATA).dba[slot]
               == if pos / LF_BLKSIZ < |blks| then blks[pos / LF_BLKSIZ] else LF_DNULL
  {
    assert pos / LF_BLKSIZ == LF_IBLEN * (pos / LF_IDATA) + pos % LF_IDATA / LF_BLKSIZ;
  }

  /** Moving the position without touching the cached blocks or their dirty bits. */
  lemma Reposition(g: Geometry, s: State, L: Layout, m: int, pos: int, byteptr: int)
    requires Core(g, s, L) && 0 <= m < |s.tab| && s.tab[m].used
    requires 0 <= pos <= |L.data[s.tab[m].entry]|
    requires byteptr == LF_BLKSIZ
             || (0 <= byteptr < LF_BLKSIZ && s.tab[m].dnum != LF_DNULL && L.down[s.tab[m].dnum].at == pos / 512
                && byteptr == pos % 512)
    ensures Core(g, s.(tab := s.tab[m := s.tab[m].(pos := pos, byteptr := byteptr)]), L)
  {
    hide IbImage, IbAt, NextFree, Holds, Partition, DirtyIb, DirtyDb, Placed;
    var tab' := s.tab[m := s.tab[m].(pos := pos, byteptr := byteptr)];
    KeepsDirtyIb(s.tab, tab');
    KeepsDirtyDb(s.tab, tab');
    if s.tab[m].dnum != LF_DNULL {
      DataRange(g, s.tab, L, m);
    }
    RepositionTab(g, s.tab, L, m, pos, byteptr);
  }

  lemma DataRange(g: Geometry, tab: seq<FileBlock>, L: Layout, m: int)
    requires OwnershipOK(g, L) && TabOK(g, tab, L) && 0 <= m < |tab| && tab[m].used && tab[m].dnum != LF_DNULL
    ensures 0 <= tab[m].dnum < |L.down|
  {
    assert OpenOK(g, tab[m], L);
  }

  lemma RepositionTab(g: Geometry, tab: seq<FileBlock>, L: Layout, m: int, pos: int, byteptr: int)
    requires OwnershipOK(g, L) && TabOK(g, tab, L) && 0 <= m < |tab| && tab[m].used && 0 <= tab[m].entry < |L.data|
             && 0 <= pos <= |L.data[tab[m].entry]|
    requires byteptr == LF_BLKSIZ
             || (0 <= byteptr < LF_BLKSIZ && tab[m].dnum != LF_DNULL && 0 <= tab[m].dnum < |L.down|
                && L.down[tab[m].dnum].at == pos / 512 && byteptr == pos % 512)
    ensures TabOK(g, tab[m := tab[m].(pos := pos, byteptr := byteptr)], L)
  {
    hide IbImage, Holds, OwnershipOK, Partition;
    assert OpenOK(g, tab[m], L);
  }

  /** The current index block of an open file: where it stands in the chain and what it says. */
  lemma CachedIndex(g: Geometry, s: State, L: Layout, m: int)
    requires Core(g, s, L) && 0 <= m < |s.tab| && s.tab[m].used
    ensures var c := s.tab[m]; var k := c.entry;
            && 0 <= k < |L.chain| == |L.blks| == |L.data| && |L.iown| == g.nib && |L.down| == g.nsect
            && 0 <= c.pos <= |L.data[k]| <= 512 * |L.blks[k]| && |L.blks[k]| <= LF_IBLEN * |L.chain[k]|
            && 0 <= k < |s.dir.files| && s.dir.files[k] == DirEntry(|L.data[k]|, Head(L.chain[k]), L.names[k])
            && (if L.chain[k] == [] then c.dnum == LF_DNULL && c.inum == LF_INULL else 0 <= L.chain[k][0] < g.nib)
            && (c.inum == LF_INULL || (0 <= c.inum < g.nib && L.iown[c.inum].Used? && L.iown[c.inum].file == k
                && 0 <= L.iown[c.inum].at < |L.chain[k]| && L.chain[k][L.iown[c.inum].at] == c.inum
                && c.iblock == IbImage(L.chain[k], L.blks[k], L.iown[c.inum].at)
                && c.iblock.offset == LF_IDATA * L.iown[c.inum].at))
  {
    EntryInRange(g, s.tab, L, m);
    if s.tab[m].dnum != LF_DNULL {
      BlockAt(g, L, s.tab[m].dnum);
    }
  }

  lemma ImageLink(chain: seq<int>, blks: seq<int>, j: int)
    requires 0 <= j < |chain|
    ensures IbImage(chain, blks, j).next == (if j + 1 < |chain| then chain[j + 1] else LF_INULL)
    ensures IbImage(chain, blks, j).offset == LF_IDATA * j && |IbImage(chain, blks, j).dba| == LF_IBLEN
  {
  }

  /** A null link marks the last block of a chain. */
  lemma ChainEnds(g: Geometry, s: State, L: Layout, k: int, j: int)
    requires Core(g, s, L) && 0 <= k < |L.chain| && 0 <= j < |L.chain[k]|
    requires IbImage(L.chain[k], L.blks[k], j).next == LF_INULL
    ensures j == |L.chain[k]| - 1
  {
    hide IndexOK, DataOK, FreeOK, TabOK, DirOK, SizesOK;
  }

  lemma LinkedImageEncodable(g: Geometry, s: State, L: Layout, k: int, j: int, i: int)
    requires Core(g, s, L) && 0 <= k < |L.chain| && 0 <= j < |L.chain[k]| && 0 <= i < g.nib
    ensures Encodable(IbImage(L.chain[k], L.blks[k], j).(next := i))
  {
    ImageEncodable(g, L, k, j);
  }

  /** The heads of the free lists are the tops of the stacks, and pop to what lies below. */
  lemma FreeHeads(g: Geometry, s: State, L: Layout)
    requires Core(g, s, L)
    ensures s.dir.ifree == Top(L.ifl) && s.dir.dfree == Top(L.dfl)
    ensures L.ifl != [] ==> 0 <= Top(L.ifl) < g.nib == |s.ibd| && s.ibd[Top(L.ifl)].next == Top(L.ifl[..|L.ifl| - 1])
    ensures L.dfl != [] ==> g.first <= Top(L.dfl) < g.nsect <= |s.disk| && s.disk[Top(L.dfl)].Raw?
                            && NextFree(s.disk[Top(L.dfl)].b) == Top(L.dfl[..|L.dfl| - 1])
  {
    hide IbImage, IbAt, NextFree, IndexOK, DataOK, TabOK, SizesOK, Below, Placed;
    if L.ifl != [] {
      BelowTop(L.ifl);
      assert s.ibd[L.ifl[|L.ifl| - 1]].next == Below(L.ifl, |L.ifl| - 1);
    }
    if L.dfl != [] {
      BelowTop(L.dfl);
      assert NextFree(s.disk[L.dfl[|L.dfl| - 1]].b) == Below(L.dfl, |L.dfl| - 1);
    }
  }

  lemma BelowTop(free: seq<int>)
    requires free != []
    ensures Below(free, |free| - 1) == Top(free[..|free| - 1])
  {
  }

  /** What lfsetup makes of the layout for a position in file k. */
  function GrowTo(L: Layout, k: int, pos: int): Layout
    requires 0 <= k < |L.chain| == |L.blks|
  {
    var L' := if pos / LF_IDATA >= |L.chain[k]| then TakeIndex(L, k) else L;
    if pos / LF_BLKSIZ >= |L.blks[k]| then TakeData(L', k) else L'
  }

  /** The layout and the table after index block j of the file open at m has been made current. */
  ghost predicate IndexMoved(L: Layout, L': Layout, tab: seq<FileBlock>, tab': seq<FileBlock>, m: int, j: int)
  {
    && 0 <= m < |tab| == |tab'|
    && tab' == tab[m := tab[m].(inum := tab'[m].inum, iblock := tab'[m].iblock, ibdirty := tab'[m].ibdirty,
       dnum := tab'[m].dnum)]
    && (tab'[m].dnum == tab[m].dnum || tab'[m].dnum == LF_DNULL)
    && 0 <= tab[m].entry < |L'.chain|
    && 0 <= tab'[m].inum < |L'.iown| && L'.iown[tab'[m].inum] == Used(tab[m].entry, j)
  }

  /** The table after the data block at the position of m has been made current. */
  ghost predicate Positioned(L': Layout, tab: seq<FileBlock>, tab': seq<FileBlock>, m: int)
  {
    && 0 <= m < |tab| == |tab'|
    && tab' == tab[m := tab[m].(inum := tab'[m].inum, iblock := tab'[m].iblock, ibdirty := tab'[m].ibdirty,
                                dnum := tab'[m].dnum, dblock := tab'[m].dblock, dbdirty := tab'[m].dbdirty,
                                byteptr := tab[m].pos % LF_BLKSIZ)]
  }

  lemma BlockNumber(g: Geometry, L: Layout, k: int, p: int)
    requires OwnershipOK(g, L) && 0 <= k < |L.blks| && 0 <= p
    ensures p < |L.blks[k]| ==> g.first <= L.blks[k][p] < g.nsect && L.blks[k][p] != LF_DNULL
  {
  }

  // ---- extending a file ----------------------------------------------------------------

  /** Moves the top of the index free list to the end of chain k. */
  function TakeIndex(L: Layout, k: int): Layout
  {
    if !(0 <= k < |L.chain| && L.ifl != [] && 0 <= Top(L.ifl) < |L.iown|) then L else
    L.(chain := L.chain[k := L.chain[k] + [Top(L.ifl)]], ifl := L.ifl[..|L.ifl| - 1],
       iown := L.iown[Top(L.ifl) := Used(k, |L.chain[k]|)])
  }

  /** Moves the top of the data free list to the end of the blocks of file k. */
  function TakeData(L: Layout, k: int): Layout
  {
    if !(0 <= k < |L.blks| && L.dfl != [] && 0 <= Top(L.dfl) < |L.down|) then L else
    L.(blks := L.blks[k := L.blks[k] + [Top(L.dfl)]], dfl := L.dfl[..|L.dfl| - 1],
       down := L.down[Top(L.dfl) := Used(k, |L.blks[k]|)])
  }

  /** Appending an index block links it behind the last one and starts it empty. */
  lemma ImageOfGrownChain(chain: seq<int>, blks: seq<int>, i: int)
    requires |blks| <= LF_IBLEN * |chain|
    ensures forall j :: 0 <= j < |chain| - 1 ==> IbImage(chain + [i], blks, j) == IbImage(chain, blks, j)
    ensures chain != [] ==> IbImage(chain + [i], blks, |chain| - 1) == IbImage(chain, blks, |chain| - 1).(next := i)
    ensures IbImage(chain + [i], blks, |chain|) == ClearedIb(LF_IDATA * |chain|)
  {
    forall j | 0 <= j < |chain| - 1
      ensures IbImage(chain + [i], blks, j) == IbImage(chain, blks, j)
    {
      assert IbImage(chain + [i], blks, j).dba == IbImage(chain, blks, j).dba;
    }
    if chain != [] {
      assert IbImage(chain + [i], blks, |chain| - 1).dba == IbImage(chain, blks, |chain| - 1).dba;
    }
    assert IbImage(chain + [i], blks, |chain|).dba == ClearedIb(LF_IDATA * |chain|).dba;
  }

  /** Appending a data block fills one pointer of one index block. */
  lemma ImageOfGrownBlocks(chain: seq<int>, blks: seq<int>, d: int)
    requires |blks| < LF_IBLEN * |chain|
    ensures forall j ::
            0 <= j < |chain| && j != |blks| / LF_IBLEN ==> IbImage(chain, blks + [d], j) == IbImage(chain, blks, j)
    ensures var j := |blks| / LF_IBLEN;
            var old' := IbImage(chain, blks, j);
            IbImage(chain, blks + [d], j) == old'.(dba := old'.dba[|blks| % LF_IBLEN := d])
            && old'.dba[|blks| % LF_IBLEN] == LF_DNULL
  {
    forall j | 0 <= j < |chain| && j != |blks| / LF_IBLEN
      ensures IbImage(chain, blks + [d], j) == IbImage(chain, blks, j)
    {
      assert IbImage(chain, blks + [d], j).dba == IbImage(chain, blks, j).dba;
    }
    var j := |blks| / LF_IBLEN;
    assert IbImage(chain, blks + [d], j).dba == IbImage(chain, blks, j).dba[|blks| % LF_IBLEN := d];
  }

  /** The table entry of an open file once index block i has become its current, still empty, block. */
  function WithNewIndex(c: FileBlock, i: int, n: int): FileBlock
  {
    c.(inum := i, iblock := ClearedIb(LF_IDATA * n), ibdirty := true, dnum := LF_DNULL)
  }

  /** Extending the chain of the file open at m by the top of the index free list. */
  lemma GrowChain(g: Geometry, s: State, L: Layout, m: int, s': State)
    requires Core(g, s, L) && 0 <= m < |s.tab| && s.tab[m].used && !s.tab[m].ibdirty && !s.tab[m].dbdirty
    requires s.tab[m].byteptr == LF_BLKSIZ && L.ifl != []
    requires 0 <= s.tab[m].entry < |L.chain| && |L.chain[s.tab[m].entry]| < MAX_CHAIN
    requires SameDataArea(g, s.disk, s'.disk) && s'.disk[0].DirSector? && Decoded(g, s'.disk, s'.ibd)
    requires var k := s.tab[m].entry; var n := |L.chain[k]|; var i := Top(L.ifl);
             && s'.ibd == (if n == 0 then s.ibd
                           else s.ibd[L.chain[k][n - 1] := IbImage(L.chain[k], L.blks[k], n - 1).(next := i)])
             && s'.dir == s.dir.(ifree := Top(L.ifl[..|L.ifl| - 1]),
                                 files := s.dir.files[k := s.dir.files[k].(ilist := Head(L.chain[k] + [i]))])
             && s'.tab == s.tab[m := WithNewIndex(s.tab[m], i, n)]
    ensures Core(g, s', TakeIndex(L, s.tab[m].entry))
  {
    hide IbImage, IbAt, ClearedIb, IndexOK, DataOK, FreeOK, TabOK, DirOK, SizesOK, Partition;
    var k := s.tab[m].entry;
    EntryInRange(g, s.tab, L, m);
    GrowChainLayout(g, s.dir, L, k);
    ImageOfGrownChain(L.chain[k], L.blks[k], Top(L.ifl));
    GrowChainIndex(g, s, L, m, s');
    GrowChainTab(g, s, L, m, s'.tab);
    GrowChainFree(g, s, L, k, s');
    GrowChainData(g, s, L, m, s');
  }

  lemma EntryInRange(g: Geometry, tab: seq<FileBlock>, L: Layout, m: int)
    requires OwnershipOK(g, L) && TabOK(g, tab, L) && 0 <= m < |tab| && tab[m].used
    ensures OpenOK(g, tab[m], L)
  {
  }

  lemma GrowChainLayout(g: Geometry, dir: Directory, L: Layout, k: int)
    requires OwnershipOK(g, L) && SizesOK(L) && DirOK(dir, L) && 0 <= k < |L.chain| && |L.chain[k]| < MAX_CHAIN
             && L.ifl != []
    ensures |L.blks[k]| <= LF_IBLEN * |L.chain[k]| && 0 <= Top(L.ifl) < g.nib && L.iown[Top(L.ifl)].Free?
    ensures OwnershipOK(g, TakeIndex(L, k)) && SizesOK(TakeIndex(L, k))
    ensures DirOK(dir.(ifree := Top(L.ifl[..|L.ifl| - 1]),
                       files := dir.files[k := dir.files[k].(ilist := Head(L.chain[k] + [Top(L.ifl)]))]),
                           TakeIndex(L, k))
    ensures |L.chain[k]| > 0 ==> 0 <= L.chain[k][|L.chain[k]| - 1] < g.nib && L.iown[L.chain[k][|L.chain[k]| - 1]].Used?
  {
    hide Partition;
    PartitionTake(0, g.nib, L.chain, L.ifl, L.iown, k);
    LastOwned(g, L, k);
    TopFree(g, L);
  }

  lemma LastOwned(g: Geometry, L: Layout, k: int)
    requires OwnershipOK(g, L) && 0 <= k < |L.chain|
    ensures |L.chain[k]| > 0 ==> 0 <= L.chain[k][|L.chain[k]| - 1] < g.nib && L.iown[L.chain[k][|L.chain[k]| - 1]].Used?
  {
  }

  lemma TopFree(g: Geometry, L: Layout)
    requires OwnershipOK(g, L)
    ensures |L.iown| == g.nib && |L.down| == g.nsect
    ensures L.ifl != [] ==> 0 <= Top(L.ifl) < g.nib && L.iown[Top(L.ifl)].Free?
    ensures L.dfl != [] ==> g.first <= Top(L.dfl) < g.nsect && L.down[Top(L.dfl)].Free?
  {
  }

  lemma GrowChainIndex(g: Geometry, s: State, L: Layout, m: int, s': State)
    requires OwnershipOK(g, L) && |s.ibd| == |s'.ibd| == g.nib && IndexOK(g, s.ibd, s.tab, L) && L.ifl != []
    requires 0 <= m < |s.tab| && s.tab[m].used && !s.tab[m].ibdirty && 0 <= s.tab[m].entry < |L.chain|
    requires |L.blks[s.tab[m].entry]| <= LF_IBLEN * |L.chain[s.tab[m].entry]|
    requires OwnershipOK(g, TakeIndex(L, s.tab[m].entry))
    requires var k := s.tab[m].entry; var n := |L.chain[k]|; var i := Top(L.ifl);
             && s'.ibd == (if n == 0 then s.ibd
                           else s.ibd[L.chain[k][n - 1] := IbImage(L.chain[k], L.blks[k], n - 1).(next := i)])
             && s'.tab == s.tab[m := WithNewIndex(s.tab[m], i, n)]
    ensures IndexOK(g, s'.ibd, s'.tab, TakeIndex(L, s.tab[m].entry))
  {
    hide IbImage, ClearedIb, Placed;
    var k, i := s.tab[m].entry, Top(L.ifl);
    var L' := TakeIndex(L, k);
    TopFree(g, L);
    assert L'.chain == L.chain[k := L.chain[k] + [i]] && L'.blks == L.blks;
    ImageOfGrownChain(L.chain[k], L.blks[k], i);
    forall k', j | 0 <= k' < |L'.chain| && 0 <= j < |L'.chain[k']|
      ensures s'.ibd[L'.chain[k'][j]] == IbImage(L'.chain[k'], L'.blks[k'], j) || DirtyIb(s'.tab, L'.chain[k'][j])
    {
      var x := L'.chain[k'][j];
      if k' == k && j == |L.chain[k]| {
        assert s'.tab[m].inum == x;
      } else {
        assert x == L.chain[k'][j] && L.iown[x] == Used(k', j);
        if DirtyIb(s.tab, x) {
          var n :| 0 <= n < |s.tab| && s.tab[n].used && s.tab[n].ibdirty && s.tab[n].inum == x;
          assert s'.tab[n] == s.tab[n];
        }
      }
    }
  }

  lemma GrowChainTab(g: Geometry, s: State, L: Layout, m: int, tab': seq<FileBlock>)
    requires OwnershipOK(g, L) && TabOK(g, s.tab, L) && L.ifl != []
    requires 0 <= m < |s.tab| && s.tab[m].used && s.tab[m].byteptr == LF_BLKSIZ && !s.tab[m].dbdirty
    requires var k := s.tab[m].entry; OwnershipOK(g, TakeIndex(L, k)) && |L.blks[k]| <= LF_IBLEN * |L.chain[k]|
    requires tab' == s.tab[m := WithNewIndex(s.tab[m], Top(L.ifl), |L.chain[s.tab[m].entry]|)]
    ensures TabOK(g, tab', TakeIndex(L, s.tab[m].entry))
  {
    hide IbImage, Holds, ClearedIb;
    var k, i := s.tab[m].entry, Top(L.ifl);
    var L' := TakeIndex(L, k);
    ImageOfGrownChain(L.chain[k], L.blks[k], i);
    forall n | 0 <= n < |tab'| && tab'[n].used
      ensures OpenOK(g, tab'[n], L')
    {
      if n != m {
        assert OpenOK(g, s.tab[n], L) && tab'[n] == s.tab[n];
        assert s.tab[n].entry != k;
      } else {
        assert OpenOK(g, s.tab[m], L);
        assert L'.iown[i] == Used(k, |L.chain[k]|);
      }
    }
  }

  lemma GrowChainFree(g: Geometry, s: State, L: Layout, k: int, s': State)
    requires OwnershipOK(g, L) && Decoded(g, s.disk, s.ibd) && FreeOK(g, s.disk, s.ibd, L) && L.ifl != []
    requires 0 <= k < |L.chain| && OwnershipOK(g, TakeIndex(L, k))
    requires SameDataArea(g, s.disk, s'.disk) && Decoded(g, s'.disk, s'.ibd)
    requires forall i :: 0 <= i < g.nib && L.iown[i].Free? ==> s'.ibd[i] == s.ibd[i]
    ensures FreeOK(g, s'.disk, s'.ibd, TakeIndex(L, k))
  {
    hide IbAt;
    var L' := TakeIndex(L, k);
    forall q | 0 <= q < |L'.ifl|
      ensures s'.ibd[L'.ifl[q]].next == Below(L'.ifl, q)
    {
      assert L.iown[L.ifl[q]] == Free(q) && Below(L'.ifl, q) == Below(L.ifl, q);
    }
  }

  lemma GrowChainData(g: Geometry, s: State, L: Layout, m: int, s': State)
    requires OwnershipOK(g, L) && Decoded(g, s.disk, s.ibd) && Decoded(g, s'.disk, s'.ibd) && L.ifl != []
    requires DataOK(g, s.disk, s.tab, L) && SameDataArea(g, s.disk, s'.disk)
    requires 0 <= m < |s.tab| && s.tab[m].used && !s.tab[m].dbdirty && 0 <= s.tab[m].entry < |L.chain|
    requires |s'.tab| == |s.tab| && (forall n :: 0 <= n < |s.tab| && n != m ==> s'.tab[n] == s.tab[n])
    requires OwnershipOK(g, TakeIndex(L, s.tab[m].entry))
    ensures DataOK(g, s'.disk, s'.tab, TakeIndex(L, s.tab[m].entry))
  {
    hide Holds, IbAt;
    var L' := TakeIndex(L, s.tab[m].entry);
    forall k, p | 0 <= k < |L'.blks| && 0 <= p < |L'.blks[k]|
      ensures Holds(s'.disk[L'.blks[k][p]].b, L'.data[k], p) || DirtyDb(s'.tab, L'.blks[k][p])
    {
      var d := L.blks[k][p];
      assert s'.disk[d] == s.disk[d];
      if DirtyDb(s.tab, d) {
        var n :| 0 <= n < |s.tab| && s.tab[n].used && s.tab[n].dbdirty && s.tab[n].dnum == d;
        assert s'.tab[n] == s.tab[n];
      }
    }
  }

  /** The table entry of an open file once data block d, filled with filler, has become its current block. */
  function WithNewData(c: FileBlock, slot: int, d: int, fill: Block): FileBlock
    requires 0 <= slot < |c.iblock.dba|
  {
    c.(iblock := c.iblock.(dba := c.iblock.dba[slot := d]), ibdirty := true, dnum := d, dblock := fill,
       byteptr := c.pos % 512)
  }

  /** Appending the top of the data free list to the file open at m. */
  lemma GrowBlocks(g: Geometry, s: State, L: Layout, m: int, fill: Block, s': State)
    requires Core(g, s, L) && 0 <= m < |s.tab| && s.tab[m].used && !s.tab[m].dbdirty && L.dfl != []
    requires var c := s.tab[m]; var n := |L.blks[c.entry]|;
             && n == c.pos / 512 && |L.data[c.entry]| <= 512 * n && n < LF_IBLEN * |L.chain[c.entry]|
             && c.inum == L.chain[c.entry][n / LF_IBLEN]
             && s' == s.(disk := s.disk[0 := DirSector(s'.dir)], dirdirty := false,
                         dir := s.dir.(dfree := Top(L.dfl[..|L.dfl| - 1])),
                         tab := s.tab[m := WithNewData(c, n % LF_IBLEN, Top(L.dfl), fill)])
    ensures Core(g, s', TakeData(L, s.tab[m].entry)) && DirStored(s')
  {
    hide IbImage, IbAt, IndexOK, DataOK, FreeOK, TabOK, SizesOK, Partition;
    var k := s.tab[m].entry;
    EntryInRange(g, s.tab, L, m);
    GrowBlocksLayout(g, s.dir, L, k);
    DecodedElsewhere(g, s.disk, s.ibd, 0, DirSector(s'.dir));
    ImageOfGrownBlocks(L.chain[k], L.blks[k], Top(L.dfl));
    GrowBlocksIndex(g, s, L, m, s'.tab);
    GrowBlocksTab(g, s, L, m, fill);
    GrowBlocksFree(g, s, L, k, s');
    GrowBlocksData(g, s, L, m, s');
  }

  lemma GrowBlocksLayout(g: Geometry, dir: Directory, L: Layout, k: int)
    requires OwnershipOK(g, L) && SizesOK(L) && DirOK(dir, L) && 0 <= k < |L.chain| && L.dfl != []
    requires |L.blks[k]| < LF_IBLEN * |L.chain[k]|
    ensures g.first <= Top(L.dfl) < g.nsect && L.down[Top(L.dfl)].Free?
    ensures OwnershipOK(g, TakeData(L, k)) && SizesOK(TakeData(L, k))
    ensures DirOK(dir.(dfree := Top(L.dfl[..|L.dfl| - 1])), TakeData(L, k))
  {
    PartitionTake(g.first, g.nsect, L.blks, L.dfl, L.down, k);
    TopFree(g, L);
  }

  lemma GrowBlocksIndex(g: Geometry, s: State, L: Layout, m: int, tab': seq<FileBlock>)
    requires OwnershipOK(g, L) && |s.ibd| == g.nib && IndexOK(g, s.ibd, s.tab, L) && L.dfl != []
    requires 0 <= m < |s.tab| && s.tab[m].used && 0 <= s.tab[m].entry < |L.chain|
    requires var c := s.tab[m]; var n := |L.blks[c.entry]|;
             n < LF_IBLEN * |L.chain[c.entry]| && c.inum == L.chain[c.entry][n / LF_IBLEN]
    requires OwnershipOK(g, TakeData(L, s.tab[m].entry))
    requires |tab'| == |s.tab| && (forall n :: 0 <= n < |s.tab| && n != m ==> tab'[n] == s.tab[n])
    requires tab'[m].used && tab'[m].ibdirty && tab'[m].inum == s.tab[m].inum
    ensures IndexOK(g, s.ibd, tab', TakeData(L, s.tab[m].entry))
  {
    hide IbImage;
    var k := s.tab[m].entry;
    var L' := TakeData(L, k);
    ImageOfGrownBlocks(L.chain[k], L.blks[k], Top(L.dfl));
    forall k', j | 0 <= k' < |L'.chain| && 0 <= j < |L'.chain[k']|
      ensures s.ibd[L'.chain[k'][j]] == IbImage(L'.chain[k'], L'.blks[k'], j) || DirtyIb(tab', L'.chain[k'][j])
    {
      var x := L.chain[k'][j];
      assert L.iown[x] == Used(k', j);
      if k' == k && j == |L.blks[k]| / LF_IBLEN {
        assert tab'[m].inum == x;
      } else if DirtyIb(s.tab, x) {
        var n :| 0 <= n < |s.tab| && s.tab[n].used && s.tab[n].ibdirty && s.tab[n].inum == x;
        assert n != m ==> tab'[n] == s.tab[n];
      }
    }
  }

  lemma GrowBlocksTab(g: Geometry, s: State, L: Layout, m: int, fill: Block)
    requires OwnershipOK(g, L) && TabOK(g, s.tab, L) && L.dfl != []
    requires 0 <= m < |s.tab| && s.tab[m].used
    requires var c := s.tab[m]; var n := |L.blks[c.entry]|;
             && n == c.pos / 512 && |L.data[c.entry]| <= 512 * n && n < LF_IBLEN * |L.chain[c.entry]|
             && c.inum == L.chain[c.entry][n / LF_IBLEN]
    requires OwnershipOK(g, TakeData(L, s.tab[m].entry)) && L.down[Top(L.dfl)].Free?
    ensures TabOK(g, s.tab[m := WithNewData(s.tab[m], |L.blks[s.tab[m].entry]| % LF_IBLEN, Top(L.dfl), fill)],
                  TakeData(L, s.tab[m].entry))
  {
    hide IbImage, OpenOK, Placed, Partition, TakeData, WithNewData;
    EntryInRange(g, s.tab, L, m);
    GrownEntry(g, s, L, m, fill);
    var k, d := s.tab[m].entry, Top(L.dfl);
    var L' := TakeData(L, k);
    var tab' := s.tab[m := WithNewData(s.tab[m], |L.blks[k]| % LF_IBLEN, d, fill)];
    forall n | 0 <= n < |tab'| && tab'[n].used
      ensures OpenOK(g, tab'[n], L')
    {
      if n != m {
        GrownOther(g, s.tab[n], L, k);
      } else {
        GrownOwn(g, s.tab[m], L, fill);
      }
    }
  }

  lemma GrownEntry(g: Geometry, s: State, L: Layout, m: int, fill: Block)
    requires OwnershipOK(g, L) && TabOK(g, s.tab, L) && L.dfl != []
    requires 0 <= m < |s.tab| && s.tab[m].used && 0 <= s.tab[m].entry < |L.blks|
    requires var n := |L.blks[s.tab[m].entry]|;
             n < LF_IBLEN * |L.chain[s.tab[m].entry]| && s.tab[m].inum == L.chain[s.tab[m].entry][n / LF_IBLEN]
    ensures |s.tab[m].iblock.dba| == LF_IBLEN && |L.blks| == |L.chain|
    ensures var c := WithNewData(s.tab[m], |L.blks[s.tab[m].entry]| % LF_IBLEN, Top(L.dfl), fill);
            c.used && c.entry == s.tab[m].entry
  {
    hide IbImage, Holds;
    assert OpenOK(g, s.tab[m], L);
  }

  /** Another file's caches when file k gets a data block. */
  lemma GrownOther(g: Geometry, c: FileBlock, L: Layout, k: int)
    requires OwnershipOK(g, L) && 0 <= k < |L.blks| && L.dfl != [] && OwnershipOK(g, TakeData(L, k))
             && L.down[Top(L.dfl)].Free?
    requires OpenOK(g, c, L) && c.entry != k
    ensures OpenOK(g, c, TakeData(L, k))
  {
    hide IbImage, Holds;
  }

  /** The file's own caches. */
  lemma GrownOwn(g: Geometry, c: FileBlock, L: Layout, fill: Block)
    requires OwnershipOK(g, L) && OpenOK(g, c, L) && L.dfl != [] && OwnershipOK(g, TakeData(L, c.entry))
             && L.down[Top(L.dfl)].Free?
    requires var n := |L.blks[c.entry]|;
             && n == c.pos / 512 && |L.data[c.entry]| <= 512 * n && n < LF_IBLEN * |L.chain[c.entry]|
             && c.inum == L.chain[c.entry][n / LF_IBLEN]
    ensures OpenOK(g, WithNewData(c, |L.blks[c.entry]| % LF_IBLEN, Top(L.dfl), fill), TakeData(L, c.entry))
  {
    hide IbImage;
    var k, d := c.entry, Top(L.dfl);
    var L' := TakeData(L, k);
    ImageOfGrownBlocks(L.chain[k], L.blks[k], d);
    assert L'.down[d] == Used(k, |L.blks[k]|);
    assert L.iown[c.inum] == Used(k, |L.blks[k]| / LF_IBLEN);
  }

  lemma GrowBlocksFree(g: Geometry, s: State, L: Layout, k: int, s': State)
    requires OwnershipOK(g, L) && Decoded(g, s.disk, s.ibd) && FreeOK(g, s.disk, s.ibd, L) && L.dfl != []
    requires 0 <= k < |L.blks| && OwnershipOK(g, TakeData(L, k))
    requires SameDataArea(g, s.disk, s'.disk) && Decoded(g, s'.disk, s'.ibd) && s'.ibd == s.ibd
    ensures FreeOK(g, s'.disk, s'.ibd, TakeData(L, k))
  {
    hide NextFree, IbAt;
    var L' := TakeData(L, k);
    forall q | 0 <= q < |L'.dfl|
      ensures NextFree(s'.disk[L'.dfl[q]].b) == Below(L'.dfl, q)
    {
      assert s'.disk[L.dfl[q]] == s.disk[L.dfl[q]] && Below(L'.dfl, q) == Below(L.dfl, q);
    }
  }

  lemma GrowBlocksData(g: Geometry, s: State, L: Layout, m: int, s': State)
    requires OwnershipOK(g, L) && Decoded(g, s.disk, s.ibd) && Decoded(g, s'.disk, s'.ibd) && L.dfl != []
    requires DataOK(g, s.disk, s.tab, L) && SameDataArea(g, s.disk, s'.disk)
    requires 0 <= m < |s.tab| && s.tab[m].used && !s.tab[m].dbdirty && 0 <= s.tab[m].entry < |L.blks|
    requires |L.data[s.tab[m].entry]| <= 512 * |L.blks[s.tab[m].entry]|
    requires |s'.tab| == |s.tab| && (forall n :: 0 <= n < |s.tab| && n != m ==> s'.tab[n] == s.tab[n])
    requires OwnershipOK(g, TakeData(L, s.tab[m].entry))
    ensures DataOK(g, s'.disk, s'.tab, TakeData(L, s.tab[m].entry))
  {
    hide IbAt;
    var L' := TakeData(L, s.tab[m].entry);
    forall k, p | 0 <= k < |L'.blks| && 0 <= p < |L'.blks[k]|
      ensures Holds(s'.disk[L'.blks[k][p]].b, L'.data[k], p) || DirtyDb(s'.tab, L'.blks[k][p])
    {
      if p < |L.blks[k]| {
        var d := L.blks[k][p];
        assert s'.disk[d] == s.disk[d];
        if DirtyDb(s.tab, d) {
          var n :| 0 <= n < |s.tab| && s.tab[n].used && s.tab[n].dbdirty && s.tab[n].dnum == d;
          assert s'.tab[n] == s.tab[n];
        }
      }
    }
  }

  // ---- moving bytes ----------------------------------------------------------------

  /** Storing a byte in the current data block of the file open at m. */
  lemma PutByte(g: Geometry, s: State, L: Layout, m: int, ch: byte, s': State)
    requires Core(g, s, L) && 0 <= m < |s.tab| && s.tab[m].used && s.tab[m].byteptr < LF_BLKSIZ
    requires var c := s.tab[m]; var k := c.entry; var data' := PutAt(L.data[k], c.pos, ch);
             && s' == s.(dir := s.dir.(files := s.dir.files[k := s.dir.files[k].(size := |data'|)]),
                         dirdirty := s'.dirdirty,
                         tab := s.tab[m := c.(dblock := c.dblock[c.byteptr := ch], byteptr := c.byteptr + 1,
                                              pos := c.pos + 1, dbdirty := true)])
    ensures Core(g, s', L.(data := L.data[s.tab[m].entry := PutAt(L.data[s.tab[m].entry], s.tab[m].pos, ch)]))
  {
    hide IbImage, IbAt, NextFree, IndexOK, DataOK, FreeOK, TabOK, Partition;
    var c := s.tab[m];
    var k := c.entry;
    EntryInRange(g, s.tab, L, m);
    var L' := L.(data := L.data[k := PutAt(L.data[k], c.pos, ch)]);
    BlockAt(g, L, c.dnum);
    PutByteTab(g, s, L, m, ch);
    PutByteData(g, s, L, m, ch, s'.tab);
    PutByteFrame(g, s, L, m, L', s'.tab);
  }

  lemma PutByteFrame(g: Geometry, s: State, L: Layout, m: int, L': Layout, tab': seq<FileBlock>)
    requires OwnershipOK(g, L) && OwnershipOK(g, L') && Decoded(g, s.disk, s.ibd)
    requires L' == L.(data := L'.data) && |tab'| == |s.tab| && 0 <= m < |s.tab|
    requires forall n ::
             0 <= n < |s.tab| ==>
               tab'[n].used == s.tab[n].used && tab'[n].ibdirty == s.tab[n].ibdirty && tab'[n].inum == s.tab[n].inum
    requires IndexOK(g, s.ibd, s.tab, L) && FreeOK(g, s.disk, s.ibd, L)
    ensures IndexOK(g, s.ibd, tab', L') && FreeOK(g, s.disk, s.ibd, L')
  {
    hide IbImage, IbAt, NextFree, Partition;
    KeepsDirtyIb(s.tab, tab');
  }

  lemma PutByteTab(g: Geometry, s: State, L: Layout, m: int, ch: byte)
    requires OwnershipOK(g, L) && TabOK(g, s.tab, L) && 0 <= m < |s.tab| && s.tab[m].used
             && s.tab[m].byteptr < LF_BLKSIZ
    ensures 0 <= s.tab[m].entry < |L.data| && 0 <= s.tab[m].pos <= |L.data[s.tab[m].entry]| && 0 <= s.tab[m].byteptr
    ensures OwnershipOK(g, L.(data := L.data[s.tab[m].entry := PutAt(L.data[s.tab[m].entry], s.tab[m].pos, ch)]))
    ensures var c := s.tab[m];
            TabOK(g, s.tab[m := c.(dblock := c.dblock[c.byteptr := ch], byteptr := c.byteptr + 1, pos := c.pos + 1,
                dbdirty := true)],
                  L.(data := L.data[c.entry := PutAt(L.data[c.entry], c.pos, ch)]))
  {
    hide IbImage, Placed;
    var c := s.tab[m];
    assert OpenOK(g, c, L);
    var L' := L.(data := L.data[c.entry := PutAt(L.data[c.entry], c.pos, ch)]);
    var c' := c.(dblock := c.dblock[c.byteptr := ch], byteptr := c.byteptr + 1, pos := c.pos + 1, dbdirty := true);
    BlockAt(g, L, c.dnum);
    assert c.pos == 512 * (c.pos / 512) + c.pos % 512;
    assert Holds(c'.dblock, L'.data[c.entry], L.down[c.dnum].at);
    assert OpenOK(g, c', L');
    forall n | 0 <= n < |s.tab| && n != m && s.tab[n].used
      ensures OpenOK(g, s.tab[n], L')
    {
      assert OpenOK(g, s.tab[n], L) && s.tab[n].entry != c.entry;
    }
  }

  lemma PutByteData(g: Geometry, s: State, L: Layout, m: int, ch: byte, tab': seq<FileBlock>)
    requires OwnershipOK(g, L) && Decoded(g, s.disk, s.ibd) && DataOK(g, s.disk, s.tab, L)
    requires TabOK(g, s.tab, L) && 0 <= m < |s.tab| && s.tab[m].used && s.tab[m].byteptr < LF_BLKSIZ
    requires |tab'| == |s.tab| && (forall n :: 0 <= n < |s.tab| && n != m ==> tab'[n] == s.tab[n])
    requires tab'[m].used && tab'[m].dbdirty && tab'[m].dnum == s.tab[m].dnum
    requires 0 <= s.tab[m].entry < |L.data| && 0 <= s.tab[m].pos <= |L.data[s.tab[m].entry]|
    requires OwnershipOK(g, L.(data := L.data[s.tab[m].entry := PutAt(L.data[s.tab[m].entry], s.tab[m].pos, ch)]))
    ensures DataOK(g, s.disk, tab',
            L.(data := L.data[s.tab[m].entry := PutAt(L.data[s.tab[m].entry], s.tab[m].pos, ch)]))
  {
    hide IbImage, IbAt;
    var c := s.tab[m];
    assert OpenOK(g, c, L);
    var L' := L.(data := L.data[c.entry := PutAt(L.data[c.entry], c.pos, ch)]);
    forall k, p | 0 <= k < |L.blks| && 0 <= p < |L.blks[k]|
      ensures Holds(s.disk[L.blks[k][p]].b, L'.data[k], p) || DirtyDb(tab', L.blks[k][p])
    {
      var d := L.blks[k][p];
      assert L.down[d] == Used(k, p);
      if d == c.dnum {
        assert tab'[m].dnum == d;
      } else if DirtyDb(s.tab, d) {
        var n :| 0 <= n < |s.tab| && s.tab[n].used && s.tab[n].dbdirty && s.tab[n].dnum == d;
        assert tab'[n] == s.tab[n];
      } else if k == c.entry {
        assert p != c.pos / 512 by {
          if p == c.pos / 512 {
            BlockAt(g, L, c.dnum);
          }
        }
        OtherBlockHolds(s.disk[d].b, L.data[k], c.pos, ch, p);
      }
    }
  }

  lemma BlockAt(g: Geometry, L: Layout, d: int)
    requires OwnershipOK(g, L) && g.first <= d < g.nsect && L.down[d].Used?
    ensures 0 <= L.down[d].file < |L.blks| && 0 <= L.down[d].at < |L.blks[L.down[d].file]|
    ensures L.blks[L.down[d].file][L.down[d].at] == d
  {
    assert Placed(L.blks, L.dfl, L.down[d], d);
  }

  lemma OtherBlockHolds(b: seq<byte>, data: seq<byte>, pos: int, ch: byte, p: int)
    requires Holds(b, data, p) && 0 <= pos <= |data| && p != pos / 512
    ensures Holds(b, PutAt(data, pos, ch), p)
  {
    forall t | 0 <= t < 512 && 0 <= 512 * p + t < |PutAt(data, pos, ch)|
      ensures b[t] == PutAt(data, pos, ch)[512 * p + t]
    {
      assert (512 * p + t) / 512 == p;
    }
  }

  // ---- opening -------------------------------------------------------------------------

  /** The layout with one more, empty, file. */
  function AddFile(L: Layout, name: string): Layout
  {
    L.(names := L.names + [name], data := L.data + [[]], chain := L.chain + [[]], blks := L.blks + [[]])
  }

  lemma CreateFile(g: Geometry, s: State, L: Layout, name: string, dir': Directory)
    requires Inv(g, s, L) && |L.names| < LF_NUM_DIR_ENT
    requires dir' == s.dir.(nfiles := s.dir.nfiles + 1,
             files := s.dir.files[s.dir.nfiles := DirEntry(0, LF_INULL, name)])
    ensures Core(g, s.(dir := dir'), AddFile(L, name)) && Tight(AddFile(L, name)) && DirStored(s.(dir := dir'))
  {
    hide IbImage, Holds, NextFree, IbAt, IndexOK, DataOK, FreeOK, TabOK, Partition;
    CreateFileLists(g, L, name);
    CreateFileBlocks(g, s, L, name);
    CreateFileTab(g, s, L, name);
  }

  lemma CreateFileLists(g: Geometry, L: Layout, name: string)
    requires OwnershipOK(g, L) && |L.names| < LF_NUM_DIR_ENT
    ensures OwnershipOK(g, AddFile(L, name))
  {
    var L' := AddFile(L, name);
    forall i | 0 <= i < g.nib
      ensures Placed(L'.chain, L'.ifl, L'.iown[i], i)
    {
      assert Placed(L.chain, L.ifl, L.iown[i], i);
    }
    forall d | g.first <= d < g.nsect
      ensures Placed(L'.blks, L'.dfl, L'.down[d], d)
    {
      assert Placed(L.blks, L.dfl, L.down[d], d);
    }
  }

  lemma CreateFileBlocks(g: Geometry, s: State, L: Layout, name: string)
    requires OwnershipOK(g, L) && OwnershipOK(g, AddFile(L, name)) && Decoded(g, s.disk, s.ibd)
    requires IndexOK(g, s.ibd, s.tab, L) && DataOK(g, s.disk, s.tab, L) && FreeOK(g, s.disk, s.ibd, L)
    ensures IndexOK(g, s.ibd, s.tab, AddFile(L, name)) && DataOK(g, s.disk, s.tab, AddFile(L, name))
    ensures FreeOK(g, s.disk, s.ibd, AddFile(L, name))
  {
    hide IbImage, Holds, NextFree, IbAt, DirtyIb, DirtyDb, Placed;
    var L' := AddFile(L, name);
    assert forall k ::
           0 <= k < |L.chain| ==> L'.chain[k] == L.chain[k] && L'.blks[k] == L.blks[k] && L'.data[k] == L.data[k];
  }

  lemma CreateFileTab(g: Geometry, s: State, L: Layout, name: string)
    requires OwnershipOK(g, L) && OwnershipOK(g, AddFile(L, name)) && TabOK(g, s.tab, L)
    ensures TabOK(g, s.tab, AddFile(L, name))
  {
    hide IbImage, Holds, Partition;
    var L' := AddFile(L, name);
    forall m | 0 <= m < |s.tab| && s.tab[m].used
      ensures OpenOK(g, s.tab[m], L')
    {
      assert OpenOK(g, s.tab[m], L);
      var k := s.tab[m].entry;
      assert L'.chain[k] == L.chain[k] && L'.blks[k] == L.blks[k] && L'.data[k] == L.data[k];
    }
  }
}
