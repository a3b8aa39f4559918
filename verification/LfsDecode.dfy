// A reader of the stored file system that knows only the disk: it follows the
// directory entry, the index chain and the pointers, with no cache and no
// knowledge of who owns what.

module LfsDecode {
  import opened LfsCodec
  import opened LfsLayout
  import opened LfsSteps

  function ByteAt(disk: seq<Sector>, d: int, i: int): byte
  {
    if 0 <= d < |disk| && disk[d].Raw? && 0 <= i < LF_BLKSIZ then disk[d].b[i] else 0
  }

  /** The first n bytes reachable from the pointers of one index block. */
  function DecodeBlocks(disk: seq<Sector>, dba: seq<int>, n: int): (r: seq<byte>)
    requires |dba| == LF_IBLEN && 0 <= n <= LF_IDATA
    ensures |r| == n
  {
    seq(n, i requires 0 <= i < n => ByteAt(disk, dba[i / LF_BLKSIZ], i % LF_BLKSIZ))
  }

  /** The size bytes of the file whose index chain starts at ib; bytes behind a broken link are missing. */
  function DecodeFile(disk: seq<Sector>, ib: int, size: int): seq<byte>
    decreases size
  {
    if size <= 0 || ib < 0 || Ib2Sect(ib) >= |disk| || !disk[Ib2Sect(ib)].Raw? then []
    else
      var n := if size < LF_IDATA then size else LF_IDATA;
      DecodeBlocks(disk, IbAt(disk, ib).dba, n) + DecodeFile(disk, IbAt(disk, ib).next, size - n)
  }

  /** No open file holds unwritten blocks of file k. */
  ghost predicate CleanFile(tab: seq<FileBlock>, k: int)
  {
    forall m :: 0 <= m < |tab| && tab[m].used && tab[m].entry == k ==> !tab[m].ibdirty && !tab[m].dbdirty
  }

  /** With no unwritten blocks, the disk alone gives back the contents of file k. */
  lemma CleanFileDecodes(g: Geometry, s: State, L: Layout, k: int)
    requires Core(g, s, L) && 0 <= k < |L.data| && |L.data| == |L.chain| && CleanFile(s.tab, k)
    ensures DecodeFile(s.disk, Head(L.chain[k]), |L.data[k]|) == L.data[k]
  {
    hide IbImage, Holds, NextFree, IbAt, DecodeFile, FreeOK;
    CleanBlocks(g, s.tab, L, k);
    DecodeSuffix(g, s, L, k, 0);
    assert L.data[k][0..] == L.data[k];
  }

  lemma CleanBlocks(g: Geometry, tab: seq<FileBlock>, L: Layout, k: int)
    requires OwnershipOK(g, L) && TabOK(g, tab, L) && 0 <= k < |L.data| && CleanFile(tab, k)
    ensures forall j :: 0 <= j < |L.chain[k]| ==> !DirtyIb(tab, L.chain[k][j])
    ensures forall p :: 0 <= p < |L.blks[k]| ==> !DirtyDb(tab, L.blks[k][p])
  {
    hide IbImage, Holds;
    forall j, n | 0 <= j < |L.chain[k]| && 0 <= n < |tab| && tab[n].used && tab[n].ibdirty
      ensures tab[n].inum != L.chain[k][j]
    {
      assert OpenOK(g, tab[n], L) && L.iown[L.chain[k][j]] == Used(k, j);
    }
    forall p, n | 0 <= p < |L.blks[k]| && 0 <= n < |tab| && tab[n].used && tab[n].dbdirty
      ensures tab[n].dnum != L.blks[k][p]
    {
      assert OpenOK(g, tab[n], L) && L.down[L.blks[k][p]] == Used(k, p);
    }
  }

  lemma StoredIndex(g: Geometry, s: State, L: Layout, k: int, j: int)
    requires OwnershipOK(g, L) && Decoded(g, s.disk, s.ibd) && 0 <= k < |L.chain| && 0 <= j < |L.chain[k]|
    ensures 0 <= L.chain[k][j] < g.nib && IbAt(s.disk, L.chain[k][j]) == s.ibd[L.chain[k][j]]
    ensures Ib2Sect(L.chain[k][j]) < |s.disk| && s.disk[Ib2Sect(L.chain[k][j])].Raw?
  {
    hide IbAt;
  }

  /** Reading on from the j-th index block gives the contents from byte 8192 j on. */
  lemma {:induction false} DecodeSuffix(g: Geometry, s: State, L: Layout, k: int, j: int)
    requires OwnershipOK(g, L) && Decoded(g, s.disk, s.ibd) && SizesOK(L)
    requires 0 <= k < |L.data| && 0 <= j <= |L.chain[k]|
    requires forall i :: 0 <= i < |L.chain[k]| ==> s.ibd[L.chain[k][i]] == IbImage(L.chain[k], L.blks[k], i)
    requires forall p :: 0 <= p < |L.blks[k]| ==> Holds(s.disk[L.blks[k][p]].b, L.data[k], p)
    ensures var data := L.data[k]; var at := if LF_IDATA * j <= |data| then LF_IDATA * j else |data|;
            DecodeFile(s.disk, if j < |L.chain[k]| then L.chain[k][j] else LF_INULL, |data| - LF_IDATA * j)
                == data[at..]
    decreases |L.chain[k]| - j
  {
    hide IbImage, Holds, IbAt, Partition, DecodeFile, DecodeBlocks, Decoded, SizesOK;
    var data, chain := L.data[k], L.chain[k];
    var left := |data| - LF_IDATA * j;
    if j < |chain| && left > 0 {
      StoredIndex(g, s, L, k, j);
      var n := if left < LF_IDATA then left else LF_IDATA;
      DecodeSuffix(g, s, L, k, j + 1);
      NextLink(chain, L.blks[k], j);
      DecodeOneIndex(g, s, L, k, j, n);
      DecodeStep(s.disk, chain[j], left, n);
      if left < LF_IDATA {
        DecodeNothing(s.disk, IbAt(s.disk, chain[j]).next, left - n);
      }
      Rejoin(data, LF_IDATA * j, n);
    } else {
      ChainSuffices(L, k, j);
      DecodeNothing(s.disk, if j < |chain| then chain[j] else LF_INULL, left);
    }
  }

  lemma DecodeStep(disk: seq<Sector>, ib: int, left: int, n: int)
    requires left > 0 && 0 <= ib && Ib2Sect(ib) < |disk| && disk[Ib2Sect(ib)].Raw? && n == if left < LF_IDATA then left
             else LF_IDATA
    ensures DecodeFile(disk, ib, left)
            == DecodeBlocks(disk, IbAt(disk, ib).dba, n) + DecodeFile(disk, IbAt(disk, ib).next, left - n)
  {
  }

  lemma DecodeNothing(disk: seq<Sector>, ib: int, left: int)
    requires left <= 0
    ensures DecodeFile(disk, ib, left) == []
  {
  }

  lemma ChainSuffices(L: Layout, k: int, j: int)
    requires |L.names| == |L.data| == |L.chain| == |L.blks| && SizesOK(L) && 0 <= k < |L.data|
    ensures j >= |L.chain[k]| ==> |L.data[k]| <= LF_IDATA * j
  {
  }

  lemma Rejoin(data: seq<byte>, at: int, n: int)
    requires 0 <= at && 0 <= n && at + n <= |data|
    ensures data[at..] == data[at..at + n] + data[at + n..]
  {
  }

  lemma NextLink(chain: seq<int>, blks: seq<int>, j: int)
    requires 0 <= j < |chain|
    ensures IbImage(chain, blks, j).next == if j + 1 < |chain| then chain[j + 1] else LF_INULL
  {
  }

  lemma DecodeOneIndex(g: Geometry, s: State, L: Layout, k: int, j: int, n: int)
    requires OwnershipOK(g, L) && Decoded(g, s.disk, s.ibd) && SizesOK(L)
    requires 0 <= k < |L.data| && 0 <= j < |L.chain[k]| && 0 <= n <= LF_IDATA && LF_IDATA * j + n <= |L.data[k]|
    requires forall p :: 0 <= p < |L.blks[k]| ==> Holds(s.disk[L.blks[k][p]].b, L.data[k], p)
    ensures DecodeBlocks(s.disk, IbImage(L.chain[k], L.blks[k], j).dba, n) == L.data[k][LF_IDATA * j..LF_IDATA * j + n]
  {
    hide IbAt;
    var data, blks := L.data[k], L.blks[k];
    var dba := IbImage(L.chain[k], blks, j).dba;
    forall i | 0 <= i < n
      ensures ByteAt(s.disk, dba[i / LF_BLKSIZ], i % LF_BLKSIZ) == data[LF_IDATA * j + i]
    {
      var p := LF_IBLEN * j + i / LF_BLKSIZ;
      assert LF_IDATA * j + i == LF_BLKSIZ * p + i % LF_BLKSIZ;
      assert p < |blks| && dba[i / LF_BLKSIZ] == blks[p];
      assert g.first <= blks[p] < g.nsect;
      assert Holds(s.disk[blks[p]].b, data, p);
    }
  }

  /** File k is on the disk under its name, and the disk alone gives back its contents. */
  ghost predicate OnDisk(disk: seq<Sector>, k: int, name: string, data: seq<byte>)
  {
    && |disk| > 0 && disk[0].DirSector?
    && 0 <= k < disk[0].dir.nfiles && k < |disk[0].dir.files|
    && disk[0].dir.files[k].name == name && disk[0].dir.files[k].size == |data|
    && DecodeFile(disk, disk[0].dir.files[k].ilist, |data|) == data
  }

  /** The directory sector after a flush: written when the directory has changed, and only then. */
  ghost predicate DirFlushed(disk: seq<Sector>, dir: Directory, dirdirty: bool, disk': seq<Sector>)
  {
    |disk| > 0 && |disk'| > 0 && disk'[0] == if dirdirty then DirSector(dir) else disk[0]
  }

  /** A file whose blocks a flush has left written is on the disk exactly when the directory was
      marked as changed before the flush or the directory on the disk counted the file already; that is certain
      once the file is not empty. */
  lemma StoredFile(g: Geometry, before: seq<Sector>, dirdirty: bool, s: State, L: Layout, k: int)
    requires Core(g, s, L) && DirStored(s) && !s.dirdirty && 0 <= k < |L.names| == |L.data| && CleanFile(s.tab, k)
    requires DirFlushed(before, s.dir, dirdirty, s.disk) && before[0].DirSector?
    ensures OnDisk(s.disk, k, L.names[k], L.data[k]) <==> dirdirty || k < before[0].dir.nfiles
    ensures L.data[k] != [] ==> OnDisk(s.disk, k, L.names[k], L.data[k])
  {
    hide IbImage, Holds, NextFree, IbAt, DecodeFile, FreeOK, IndexOK, DataOK, TabOK, SizesOK, Decoded, Partition;
    CleanFileDecodes(g, s, L, k);
  }

  /** A file is open at most once, so closing it leaves nobody holding its blocks. */
  lemma OnlyOpener(g: Geometry, s: State, L: Layout, m: int)
    requires Core(g, s, L) && 0 <= m < |s.tab| && s.tab[m].used
    ensures CleanFile(s.tab[m := s.tab[m].(used := false)], s.tab[m].entry)
  {
    hide IbImage, Holds, NextFree, IbAt, OpenOK, IndexOK, DataOK, FreeOK, SizesOK, DirOK, Decoded, Partition;
  }
}
