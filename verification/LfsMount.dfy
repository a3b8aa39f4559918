// What survives when a disk is taken over by a fresh start of the system.

module LfsMount {
  import opened LfsCodec
  import opened LfsLayout

  /** A table entry after lflinit. */
  function ClosedBlock(): FileBlock
  {
    FileBlock(false, 0, 0, 0, "", LF_INULL, IBlk(0, 0, seq(LF_IBLEN, i => 0)), 0, seq(LF_BLKSIZ, i => 0), LF_BLKSIZ,
        false, false)
  }

  lemma MoreClosedEntries(g: Geometry, s: State, L: Layout, tab: seq<FileBlock>)
    requires Inv(g, s, L) && s.tab == [] && forall m :: 0 <= m < |tab| ==> !tab[m].used
    ensures Inv(g, s.(tab := tab), L)
  {
    hide IbImage, Holds, NextFree, IbAt, Partition, Synced;
    assert forall i :: !DirtyIb(s.tab, i);
    assert forall d :: !DirtyDb(s.tab, d);
  }

  /** The layout of the first n files. */
  function Trim(L: Layout, n: int): Layout
    requires 0 <= n <= |L.names| == |L.data| == |L.chain| == |L.blks|
  {
    L.(names := L.names[..n], data := L.data[..n], chain := L.chain[..n], blks := L.blks[..n])
  }

  /** With every file closed, the disk alone is a sound file system that holds all files
      the stored directory reaches; the others are empty. */
  lemma Remountable(g: Geometry, s: State, L: Layout)
    requires Inv(g, s, L) && forall m :: 0 <= m < |s.tab| ==> !s.tab[m].used
    ensures |s.disk| > 0 && s.disk[0].DirSector?
    ensures var n := s.disk[0].dir.nfiles;
            && 0 <= n <= |L.names| == |L.data| == |L.chain| == |L.blks|
            && (forall k :: n <= k < |L.data| ==> L.data[k] == [])
            && Inv(g, State(s.disk, s.ibd, s.disk[0].dir, false, []), Trim(L, n))
  {
    hide IbImage, Holds, NextFree, IbAt, Partition, IndexOK, DataOK, FreeOK, SizesOK, Tight, DirOK, DirtyIb, DirtyDb;
    var stored := s.disk[0].dir;
    UnreachedFiles(g, s, L);
    TrimLists(0, g.nib, L.chain, L.ifl, L.iown, stored.nfiles);
    TrimLists(g.first, g.nsect, L.blks, L.dfl, L.down, stored.nfiles);
    assert OwnershipOK(g, Trim(L, stored.nfiles));
    NothingDirty(s.tab);
    TrimBlocks(g, s, L, stored.nfiles);
    TrimDirectory(g, s, L);
  }

  lemma NothingDirty(tab: seq<FileBlock>)
    requires forall m :: 0 <= m < |tab| ==> !tab[m].used
    ensures (forall i :: !DirtyIb(tab, i)) && (forall d :: !DirtyDb(tab, d))
  {
  }

  lemma UnreachedFiles(g: Geometry, s: State, L: Layout)
    requires Inv(g, s, L) && forall m :: 0 <= m < |s.tab| ==> !s.tab[m].used
    ensures |s.disk| > 0 && s.disk[0].DirSector? && !s.dirdirty && Synced(s.disk[0].dir, s.dir)
    ensures 0 <= s.disk[0].dir.nfiles <= |L.names| == |L.data| == |L.chain| == |L.blks|
    ensures forall k :: s.disk[0].dir.nfiles <= k < |L.data| ==> L.data[k] == [] && L.chain[k] == [] && L.blks[k] == []
  {
    hide IbImage, Holds, NextFree, IbAt, Partition, IndexOK, DataOK, FreeOK, TabOK, SizesOK;
    forall k | s.disk[0].dir.nfiles <= k < |L.data|
      ensures L.data[k] == [] && L.chain[k] == [] && L.blks[k] == []
    {
      assert s.dir.files[k].size == 0;
    }
  }

  lemma TrimDirectory(g: Geometry, s: State, L: Layout)
    requires OwnershipOK(g, L) && SizesOK(L) && DirOK(s.dir, L) && Tight(L) && |s.disk| > 0 && s.disk[0].DirSector?
    requires Synced(s.disk[0].dir, s.dir) && OwnershipOK(g, Trim(L, s.disk[0].dir.nfiles))
    ensures var L' := Trim(L, s.disk[0].dir.nfiles); SizesOK(L') && Tight(L') && DirOK(s.disk[0].dir, L')
    ensures DirStored(State(s.disk, s.ibd, s.disk[0].dir, false, []))
  {
    hide Partition, Placed;
  }

  lemma TrimLists(lo: int, hi: int, ls: seq<seq<int>>, free: seq<int>, own: seq<Owner>, n: int)
    requires Partition(lo, hi, ls, free, own) && 0 <= n <= |ls| && forall k :: n <= k < |ls| ==> ls[k] == []
    ensures Partition(lo, hi, ls[..n], free, own)
  {
    forall i | lo <= i < hi
      ensures Placed(ls[..n], free, own[i], i)
    {
      assert Placed(ls, free, own[i], i);
    }
    assert forall k :: 0 <= k < n ==> ls[..n][k] == ls[k];
  }

  lemma TrimBlocks(g: Geometry, s: State, L: Layout, n: int)
    requires Core(g, s, L) && 0 <= n <= |L.names| && OwnershipOK(g, Trim(L, n))
    requires (forall i :: !DirtyIb(s.tab, i)) && (forall d :: !DirtyDb(s.tab, d))
    ensures IndexOK(g, s.ibd, [], Trim(L, n)) && DataOK(g, s.disk, [], Trim(L, n))
            && FreeOK(g, s.disk, s.ibd, Trim(L, n))
  {
    hide IbImage, Holds, NextFree, IbAt, DirtyIb, DirtyDb, Placed;
    var L' := Trim(L, n);
    assert forall k ::
           0 <= k < |L'.chain| ==> L'.chain[k] == L.chain[k] && L'.blks[k] == L.blks[k] && L'.data[k] == L.data[k];
  }
}
