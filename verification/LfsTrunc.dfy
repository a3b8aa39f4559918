// Truncation: how the disk looks while the blocks of one file are handed back,
// and why the finished job is a sound layout again.

module LfsTrunc {
  import opened LfsCodec
  import opened LfsLayout
  import opened LfsSteps

  /** The data free stack once the first f blocks of file k have been freed. */
  function FreedStack(L: Layout, k: int, f: int): seq<int>
    requires 0 <= k < |L.blks| && 0 <= f <= |L.blks[k]|
  {
    L.dfl + L.blks[k][..f]
  }

  /** Data block d belongs to one of the first f blocks of file k. */
  predicate Gone(own: seq<Owner>, d: int, k: int, f: int)
    requires 0 <= d < |own|
  {
    own[d].Used? && own[d].file == k && own[d].at < f
  }

  /** The first f data blocks of file k are chained onto the free list; the other data sectors are untouched. */
  ghost predicate DataFreed(g: Geometry, before: seq<Sector>, L: Layout, k: int, f: int, disk: seq<Sector>, dfree: int)
    requires OwnershipOK(g, L) && 0 <= k < |L.blks|
  {
    && 0 <= f <= |L.blks[k]| && g.nsect <= |disk| == |before|
    && (forall s :: 1 <= s < g.nsect ==> disk[s].Raw?)
    && dfree == Top(FreedStack(L, k, f))
    && (forall q :: 0 <= q < |FreedStack(L, k, f)| ==> LinksDown(g, disk, FreedStack(L, k, f), q))
    && (forall d :: g.first <= d < g.nsect && !Gone(L.down, d, k, f) ==> disk[d] == before[d])
  }

  ghost predicate LinksDown(g: Geometry, disk: seq<Sector>, free: seq<int>, q: int)
    requires 0 <= q < |free|
  {
    0 <= free[q] < |disk| && disk[free[q]].Raw? && NextFree(disk[free[q]].b) == Below(free, q)
  }

  /** The first j index blocks of file k have been rewritten, still linked in order and ending at the old free list. */
  ghost predicate IndexFreed(g: Geometry, before: seq<IBlk>, L: Layout, k: int, j: int, ibd: seq<IBlk>)
    requires OwnershipOK(g, L) && 0 <= k < |L.chain|
  {
    && 0 <= j <= |L.chain[k]| && |ibd| == |before| == g.nib
    && (forall i :: 0 <= i < g.nib && !Gone(L.iown, i, k, j) ==> ibd[i] == before[i])
    && (forall x :: 0 <= x < j ==> ibd[L.chain[k][x]].next == Onward(L, k, x))
  }

  /** Where index block x of the file leads during and after truncation. */
  function Onward(L: Layout, k: int, x: int): int
    requires 0 <= k < |L.chain| && 0 <= x < |L.chain[k]|
  {
    if x + 1 < |L.chain[k]| then L.chain[k][x + 1] else Top(L.ifl)
  }

  lemma NothingFreed(g: Geometry, s: State, L: Layout, k: int)
    requires Core(g, s, L) && 0 <= k < |L.chain|
    ensures DataFreed(g, s.disk, L, k, 0, s.disk, s.dir.dfree) && IndexFreed(g, s.ibd, L, k, 0, s.ibd)
  {
    hide IbImage, Holds, NextFree, IbAt, IndexOK, DataOK, TabOK, SizesOK;
    assert L.dfl + L.blks[k][..0] == L.dfl;
    forall q | 0 <= q < |L.dfl|
      ensures LinksDown(g, s.disk, L.dfl, q)
    {
      assert g.first <= L.dfl[q] < g.nsect;
    }
  }

  /** Pushing the next data block of the file. */
  lemma FreeOneMore(g: Geometry, before: seq<Sector>, L: Layout, k: int, f: int, disk: seq<Sector>, dfree: int,
      b: Block, dirsect: Sector)
    requires OwnershipOK(g, L) && 0 <= k < |L.blks| && DataFreed(g, before, L, k, f, disk, dfree) && f < |L.blks[k]|
    requires NextFree(b) == dfree
    ensures g.first <= L.blks[k][f] < g.nsect
    ensures DataFreed(g, before, L, k, f + 1, disk[L.blks[k][f] := Raw(b)][0 := dirsect], L.blks[k][f])
  {
    hide NextFree, Placed;
    var d := L.blks[k][f];
    assert L.down[d] == Used(k, f);
    var F, F' := FreedStack(L, k, f), FreedStack(L, k, f + 1);
    var disk' := disk[d := Raw(b)][0 := dirsect];
    assert F' == F + [d];
    forall q | 0 <= q < |F'|
      ensures LinksDown(g, disk', F', q)
    {
      if q < |F| {
        assert LinksDown(g, disk, F, q) && F'[q] == F[q] && Below(F', q) == Below(F, q);
        FreedOwner(g, L, k, f, q);
      }
    }
  }

  lemma FreedOwner(g: Geometry, L: Layout, k: int, f: int, q: int)
    requires OwnershipOK(g, L) && 0 <= k < |L.blks| && 0 <= f <= |L.blks[k]| && 0 <= q < |FreedStack(L, k, f)|
    ensures var d := FreedStack(L, k, f)[q];
            && g.first <= d < g.nsect
            && L.down[d] == if q < |L.dfl| then Free(q) else Used(k, q - |L.dfl|)
  {
    if q >= |L.dfl| {
      assert FreedStack(L, k, f)[q] == L.blks[k][q - |L.dfl|];
    }
  }

  /** Rewriting the next index block. */
  lemma FreeOneIndex(g: Geometry, before: seq<IBlk>, L: Layout, k: int, j: int, ibd: seq<IBlk>, ib: IBlk)
    requires OwnershipOK(g, L) && 0 <= k < |L.chain| && IndexFreed(g, before, L, k, j, ibd) && j < |L.chain[k]|
    requires ib.next == Onward(L, k, j)
    ensures 0 <= L.chain[k][j] < g.nib
    ensures IndexFreed(g, before, L, k, j + 1, ibd[L.chain[k][j] := ib])
  {
    hide Placed;
    var i := L.chain[k][j];
    assert L.iown[i] == Used(k, j);
    var ibd' := ibd[i := ib];
    forall x | 0 <= x < j + 1
      ensures ibd'[L.chain[k][x]].next == Onward(L, k, x)
    {
      assert L.iown[L.chain[k][x]] == Used(k, x);
    }
  }

  /** Data sectors are what counts for the data part. */
  lemma DataFreedFrame(g: Geometry, before: seq<Sector>, L: Layout, k: int, f: int, disk: seq<Sector>, dfree: int,
      disk': seq<Sector>)
    requires OwnershipOK(g, L) && 0 <= k < |L.blks| && DataFreed(g, before, L, k, f, disk, dfree)
    requires SameDataArea(g, disk, disk') && forall s :: 1 <= s < g.nsect ==> disk'[s].Raw?
    ensures DataFreed(g, before, L, k, f, disk', dfree)
  {
    hide NextFree, Placed;
    forall q | 0 <= q < |FreedStack(L, k, f)|
      ensures LinksDown(g, disk', FreedStack(L, k, f), q)
    {
      FreedOwner(g, L, k, f, q);
      assert LinksDown(g, disk, FreedStack(L, k, f), q);
    }
  }

  lemma FreedHead(g: Geometry, before: seq<Sector>, L: Layout, k: int, f: int, disk: seq<Sector>, dfree: int)
    requires OwnershipOK(g, L) && 0 <= k < |L.blks| && DataFreed(g, before, L, k, f, disk, dfree)
    ensures IsInt32(dfree) && GeometryOK(g) && g.nsect <= |disk|
  {
    hide Placed, NextFree;
    if FreedStack(L, k, f) != [] {
      FreedOwner(g, L, k, f, |FreedStack(L, k, f)| - 1);
    }
  }

  /** The stop marker of the walk is met only behind the last block. */
  lemma StopMarker(g: Geometry, L: Layout, k: int, j: int)
    requires OwnershipOK(g, L) && 0 <= k < |L.chain| && 0 <= j < |L.chain[k]|
    ensures 0 <= L.chain[k][j] < g.nib && L.chain[k][j] != Top(L.ifl) && IsInt32(Top(L.ifl)) && -1 <= Top(L.ifl)
    ensures GeometryOK(g) && |L.iown| == g.nib && |L.chain| == |L.blks| && !Gone(L.iown, L.chain[k][j], k, j)
    ensures j + 1 < |L.chain[k]| ==> L.chain[k][j + 1] >= 0
  {
    TopFree(g, L);
    assert L.iown[L.chain[k][j]] == Used(k, j);
  }

  lemma StillImage(g: Geometry, before: seq<IBlk>, L: Layout, k: int, j: int, ibd: seq<IBlk>)
    requires OwnershipOK(g, L) && 0 <= k < |L.chain| && 0 <= j < |L.chain[k]| && IndexFreed(g, before, L, k, j, ibd)
    requires forall i ::
             0 <= i < |L.chain[k]| ==>
               0 <= L.chain[k][i] < |before| && before[L.chain[k][i]] == IbImage(L.chain[k], L.blks[k], i)
    ensures ibd[L.chain[k][j]] == IbImage(L.chain[k], L.blks[k], j)
  {
    hide IbImage, Placed;
    StopMarker(g, L, k, j);
  }

  /** The block written back by lftruncate, linked onward, fits its 72 bytes. */
  lemma ClearedEncodable(g: Geometry, L: Layout, k: int, j: int)
    requires OwnershipOK(g, L) && 0 <= k < |L.chain| && 0 <= j < |L.chain[k]|
    ensures Encodable(ClearedIb(0).(next := Onward(L, k, j)))
  {
    TopFree(g, L);
    if j + 1 < |L.chain[k]| {
      assert L.iown[L.chain[k][j + 1]] == Used(k, j + 1);
    }
  }

  lemma ClearedOffset(offset: int)
    ensures ClearedIb(offset).(offset := 0) == ClearedIb(0)
  {
    assert ClearedIb(offset).dba == ClearedIb(0).dba;
  }

  lemma AllRaw(g: Geometry, disk: seq<Sector>, ibd: seq<IBlk>)
    requires GeometryOK(g) && Decoded(g, disk, ibd)
    ensures |ibd| == g.nib && g.nsect <= |disk| && forall s :: 1 <= s < g.nsect ==> disk[s].Raw?
  {
  }

  /** With the caches stored, the disk holds the images of the file's index blocks. */
  lemma StoredImages(g: Geometry, s: State, L: Layout, m: int)
    requires Core(g, s, L) && 0 <= m < |s.tab| && s.tab[m].used && !s.tab[m].ibdirty && !s.tab[m].dbdirty
    ensures 0 <= s.tab[m].entry < |L.chain| && |s.ibd| == g.nib
    ensures var k := s.tab[m].entry;
            forall i ::
                0 <= i < |L.chain[k]| ==>
                  0 <= L.chain[k][i] < |s.ibd| && s.ibd[L.chain[k][i]] == IbImage(L.chain[k], L.blks[k], i)
  {
    hide IbImage, Holds, NextFree, IbAt, DataOK, FreeOK, SizesOK, DirOK, Placed;
    EntryInRange(g, s.tab, L, m);
    OwnBlocksClean(g, s.tab, L, m);
  }

  lemma ChainOfContents(g: Geometry, s: State, L: Layout, k: int)
    requires Core(g, s, L) && 0 <= k < |L.data|
    ensures |L.data| == |L.chain| && (L.data[k] != [] ==> L.chain[k] != [])
  {
  }

  /** An empty file has no blocks and its position is 0. */
  lemma AlreadyEmpty(g: Geometry, s: State, L: Layout, m: int)
    requires Core(g, s, L) && Tight(L) && 0 <= m < |s.tab| && s.tab[m].used && 0 <= s.tab[m].entry < |L.data|
             && L.data[s.tab[m].entry] == []
    ensures |L.data| == |L.chain| == |L.blks| && s.tab[m].pos == 0
    ensures L == Truncated(L, s.tab[m].entry, L.iown, L.down)
  {
    hide IbImage, Holds, NextFree, IbAt, DataOK, FreeOK, IndexOK, Partition;
    EntryInRange(g, s.tab, L, m);
    var k := s.tab[m].entry;
    assert L.chain[k] == [] && L.blks[k] == [] && Reverse(L.chain[k]) == [];
    assert L.data[k := []] == L.data && L.chain[k := []] == L.chain && L.blks[k := []] == L.blks;
    assert L.ifl + Reverse(L.chain[k]) == L.ifl && L.dfl + L.blks[k] == L.dfl;
  }

  // ---- the finished job --------------------------------------------------------------------

  function Truncated(L: Layout, k: int, iown: seq<Owner>, down: seq<Owner>): Layout
    requires 0 <= k < |L.data| == |L.chain| == |L.blks|
  {
    L.(data := L.data[k := []], chain := L.chain[k := []], blks := L.blks[k := []],
       ifl := L.ifl + Reverse(L.chain[k]), dfl := L.dfl + L.blks[k], iown := iown, down := down)
  }

  /** The table entry of a truncated file. */
  function Rewound(c: FileBlock): FileBlock
  {
    c.(pos := 0, inum := LF_INULL, dnum := LF_DNULL, byteptr := LF_BLKSIZ)
  }

  /** All blocks of the file have moved to the free lists, nothing else has changed. */
  lemma TruncationDone(g: Geometry, s: State, L: Layout, m: int, s': State) returns (L': Layout)
    requires Core(g, s, L) && Tight(L) && 0 <= m < |s.tab| && s.tab[m].used && !s.tab[m].ibdirty && !s.tab[m].dbdirty
    requires 0 <= s.tab[m].entry < |L.chain| == |L.blks| == |L.data| && L.chain[s.tab[m].entry] != []
    requires var k := s.tab[m].entry;
             && IndexFreed(g, s.ibd, L, k, |L.chain[k]|, s'.ibd)
             && DataFreed(g, s.disk, L, k, |L.blks[k]|, s'.disk, s'.dir.dfree)
             && Decoded(g, s'.disk, s'.ibd) && s'.disk[0].DirSector?
             && s'.dir == s.dir.(dfree := s'.dir.dfree, ifree := L.chain[k][0],
                                 files := s.dir.files[k := s.dir.files[k].(size := 0, ilist := LF_INULL)])
             && s'.tab == s.tab[m := Rewound(s.tab[m])]
    ensures L' == Truncated(L, s.tab[m].entry, L'.iown, L'.down) && Core(g, s', L') && Tight(L')
  {
    hide IbImage, Holds, NextFree, IbAt, IndexOK, DataOK, FreeOK, TabOK, Partition, DataFreed, IndexFreed;
    var k := s.tab[m].entry;
    var iown := PartitionRelease(0, g.nib, L.chain, L.ifl, L.iown, k, true);
    var down := PartitionRelease(g.first, g.nsect, L.blks, L.dfl, L.down, k, false);
    L' := Truncated(L, k, iown, down);
    TruncateTab(g, s, L, m, L');
    TruncateIndex(g, s, L, m, s', L');
    TruncateData(g, s, L, m, s', L');
    TruncateFree(g, s, L, k, s', L');
    assert Top(L'.ifl) == L.chain[k][0];
    assert s'.dir.dfree == Top(L'.dfl) by { FreedTop(g, s, L, k, s'); }
  }

  lemma FreedTop(g: Geometry, s: State, L: Layout, k: int, s': State)
    requires OwnershipOK(g, L) && 0 <= k < |L.blks| && DataFreed(g, s.disk, L, k, |L.blks[k]|, s'.disk, s'.dir.dfree)
    ensures s'.dir.dfree == Top(L.dfl + L.blks[k])
  {
    hide Partition;
    assert L.blks[k][..|L.blks[k]|] == L.blks[k];
  }

  lemma TruncateTab(g: Geometry, s: State, L: Layout, m: int, L': Layout)
    requires OwnershipOK(g, L) && OwnershipOK(g, L') && TabOK(g, s.tab, L) && 0 <= m < |s.tab| && s.tab[m].used
    requires !s.tab[m].ibdirty && !s.tab[m].dbdirty && 0 <= s.tab[m].entry < |L.chain|
    requires L' == Truncated(L, s.tab[m].entry, L'.iown, L'.down)
    ensures TabOK(g, s.tab[m := Rewound(s.tab[m])], L')
  {
    hide IbImage, Holds;
    var k := s.tab[m].entry;
    var tab' := s.tab[m := Rewound(s.tab[m])];
    forall n | 0 <= n < |tab'| && tab'[n].used
      ensures OpenOK(g, tab'[n], L')
    {
      assert OpenOK(g, s.tab[n], L);
      if n != m {
        var c := s.tab[n];
        assert c.entry != k && L'.chain[c.entry] == L.chain[c.entry] && L'.blks[c.entry] == L.blks[c.entry];
        if c.inum != LF_INULL {
          assert L'.chain[c.entry][L.iown[c.inum].at] == c.inum;
        }
        if c.dnum != LF_DNULL {
          BlockAt(g, L, c.dnum);
          assert L'.blks[c.entry][L.down[c.dnum].at] == c.dnum;
        }
      }
    }
  }

  lemma TruncateIndex(g: Geometry, s: State, L: Layout, m: int, s': State, L': Layout)
    requires OwnershipOK(g, L) && OwnershipOK(g, L') && |s.ibd| == g.nib && IndexOK(g, s.ibd, s.tab, L)
    requires 0 <= m < |s.tab| && s.tab[m].used && !s.tab[m].ibdirty && !s.tab[m].dbdirty
             && 0 <= s.tab[m].entry < |L.chain|
    requires IndexFreed(g, s.ibd, L, s.tab[m].entry, |L.chain[s.tab[m].entry]|, s'.ibd)
    requires L' == Truncated(L, s.tab[m].entry, L'.iown, L'.down) && s'.tab == s.tab[m := Rewound(s.tab[m])]
    ensures |s'.ibd| == g.nib && IndexOK(g, s'.ibd, s'.tab, L')
  {
    hide IbImage, Placed;
    KeepsDirtyBut(s.tab, s'.tab, m);
    hide DirtyIb;
    forall k, j | 0 <= k < |L'.chain| && 0 <= j < |L'.chain[k]|
      ensures s'.ibd[L'.chain[k][j]] == IbImage(L'.chain[k], L'.blks[k], j) || DirtyIb(s'.tab, L'.chain[k][j])
    {
      assert k != s.tab[m].entry && L'.chain[k] == L.chain[k] && L'.blks[k] == L.blks[k];
      assert L.iown[L.chain[k][j]] == Used(k, j);
    }
  }

  lemma TruncateData(g: Geometry, s: State, L: Layout, m: int, s': State, L': Layout)
    requires OwnershipOK(g, L) && OwnershipOK(g, L') && Decoded(g, s.disk, s.ibd) && Decoded(g, s'.disk, s'.ibd)
    requires DataOK(g, s.disk, s.tab, L)
    requires 0 <= m < |s.tab| && s.tab[m].used && !s.tab[m].ibdirty && !s.tab[m].dbdirty
             && 0 <= s.tab[m].entry < |L.blks|
    requires DataFreed(g, s.disk, L, s.tab[m].entry, |L.blks[s.tab[m].entry]|, s'.disk, s'.dir.dfree)
    requires L' == Truncated(L, s.tab[m].entry, L'.iown, L'.down) && s'.tab == s.tab[m := Rewound(s.tab[m])]
    ensures DataOK(g, s'.disk, s'.tab, L')
  {
    hide Holds, Placed, IbAt, NextFree;
    KeepsDirtyBut(s.tab, s'.tab, m);
    forall k, p | 0 <= k < |L'.blks| && 0 <= p < |L'.blks[k]|
      ensures Holds(s'.disk[L'.blks[k][p]].b, L'.data[k], p) || DirtyDb(s'.tab, L'.blks[k][p])
    {
      assert k != s.tab[m].entry && L'.blks[k] == L.blks[k] && L'.data[k] == L.data[k];
      assert L.down[L.blks[k][p]] == Used(k, p);
    }
  }

  lemma TruncateFree(g: Geometry, s: State, L: Layout, k: int, s': State, L': Layout)
    requires OwnershipOK(g, L) && OwnershipOK(g, L') && Decoded(g, s.disk, s.ibd) && Decoded(g, s'.disk, s'.ibd)
    requires FreeOK(g, s.disk, s.ibd, L) && 0 <= k < |L.blks| && L.chain[k] != []
    requires IndexFreed(g, s.ibd, L, k, |L.chain[k]|, s'.ibd)
    requires DataFreed(g, s.disk, L, k, |L.blks[k]|, s'.disk, s'.dir.dfree)
    requires L' == Truncated(L, k, L'.iown, L'.down)
    ensures FreeOK(g, s'.disk, s'.ibd, L')
  {
    hide NextFree, IbAt, Placed, DataFreed, IndexFreed, Below;
    forall q | 0 <= q < |L'.ifl|
      ensures s'.ibd[L'.ifl[q]].next == Below(L'.ifl, q)
    {
      FreedIndexLink(g, s, L, k, s', q);
    }
    FreedStackLinks(g, s, L, k, s');
    assert FreedStack(L, k, |L.blks[k]|) == L'.dfl;
    forall q | 0 <= q < |L'.dfl|
      ensures NextFree(s'.disk[L'.dfl[q]].b) == Below(L'.dfl, q)
    {
      assert LinksDown(g, s'.disk, FreedStack(L, k, |L.blks[k]|), q);
    }
  }

  lemma FreedStackLinks(g: Geometry, s: State, L: Layout, k: int, s': State)
    requires OwnershipOK(g, L) && 0 <= k < |L.blks| && DataFreed(g, s.disk, L, k, |L.blks[k]|, s'.disk, s'.dir.dfree)
    ensures forall q ::
            0 <= q < |FreedStack(L, k, |L.blks[k]|)| ==> LinksDown(g, s'.disk, FreedStack(L, k, |L.blks[k]|), q)
  {
  }

  lemma FreedIndexLink(g: Geometry, s: State, L: Layout, k: int, s': State, q: int)
    requires OwnershipOK(g, L) && g.nsect <= |s.disk| && |s.ibd| == g.nib
             && (forall x :: 1 <= x < g.nsect ==> s.disk[x].Raw?)
    requires FreeOK(g, s.disk, s.ibd, L) && 0 <= k < |L.chain| && L.chain[k] != []
    requires IndexFreed(g, s.ibd, L, k, |L.chain[k]|, s'.ibd) && 0 <= q < |L.ifl + Reverse(L.chain[k])|
    ensures var free := L.ifl + Reverse(L.chain[k]); 0 <= free[q] < g.nib && s'.ibd[free[q]].next == Below(free, q)
  {
    hide NextFree, Placed;
    var free, n := L.ifl + Reverse(L.chain[k]), |L.chain[k]|;
    if q < |L.ifl| {
      assert free[q] == L.ifl[q] && L.iown[L.ifl[q]] == Free(q) && Below(free, q) == Below(L.ifl, q);
    } else {
      var x := n - 1 - (q - |L.ifl|);
      assert free[q] == L.chain[k][x];
      assert s'.ibd[L.chain[k][x]].next == Onward(L, k, x);
      if x + 1 < n {
        assert free[q - 1] == L.chain[k][x + 1];
      }
    }
  }
}
