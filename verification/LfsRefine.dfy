// How the layout and the open-file table stand for a volume, and how many
// blocks are free in terms of that volume.

module LfsRefine {
  import opened Common
  import opened LfsCodec
  import opened LfsLayout
  import opened LfsSteps
  import opened LfsVolume

  function FdOf(c: FileBlock): Fd { if c.used then Open(c.entry, c.pos) else Closed }

  ghost function VolumeOf(L: Layout, tab: seq<FileBlock>): Volume
    requires |L.names| == |L.data|
  {
    Volume(seq(|L.names|, k requires 0 <= k < |L.names| => FileImage(L.names[k], L.data[k])),
           seq(|tab|, m requires 0 <= m < |tab| => FdOf(tab[m])))
  }

  /** Open files of a sound state are positions within distinct files. */
  lemma VolumeIsOK(g: Geometry, s: State, L: Layout)
    requires Core(g, s, L)
    ensures |L.names| == |L.data| && VolumeOK(VolumeOf(L, s.tab))
  {
    hide IbImage, IbAt, Holds, NextFree, IndexOK, DataOK, FreeOK, SizesOK, DirOK, Decoded, Partition;
    var v := VolumeOf(L, s.tab);
    forall m | 0 <= m < |v.fds| && v.fds[m].Open?
      ensures 0 <= v.fds[m].file < |v.files| && 0 <= v.fds[m].pos <= |v.files[v.fds[m].file].data|
    {
      EntryInRange(g, s.tab, L, m);
    }
  }

  // ---- counting ------------------------------------------------------------------------

  function Total(ls: seq<seq<int>>): int
  {
    if ls == [] then 0 else Total(ls[..|ls| - 1]) + |ls[|ls| - 1]|
  }

  /** Conservation: free and used blocks add up to the size of the area. */
  lemma {:induction false} FreePlusUsed(lo: int, hi: int, ls: seq<seq<int>>, free: seq<int>, own: seq<Owner>)
    requires Partition(lo, hi, ls, free, own)
    ensures |free| + Total(ls) == hi - lo
    decreases |ls|
  {
    if ls == [] {
      forall i | lo <= i < hi
        ensures i in free
      {
        assert Placed(ls, free, own[i], i);
      }
      forall p, q | 0 <= p < q < |free|
        ensures free[p] != free[q]
      {
        assert own[free[p]] == Free(p) && own[free[q]] == Free(q);
      }
      DistinctCover(free, lo, hi);
    } else {
      var k := |ls| - 1;
      var own' := PartitionRelease(lo, hi, ls, free, own, k, false);
      DropEmpty(lo, hi, ls, free + ls[k], own');
      FreePlusUsed(lo, hi, ls[..k], free + ls[k], own');
    }
  }

  lemma DropEmpty(lo: int, hi: int, ls: seq<seq<int>>, free: seq<int>, own: seq<Owner>)
    requires ls != [] && Partition(lo, hi, ls[|ls| - 1 := []], free, own)
    ensures Partition(lo, hi, ls[..|ls| - 1], free, own)
  {
    var ls1 := ls[|ls| - 1 := []];
    forall i | lo <= i < hi
      ensures Placed(ls[..|ls| - 1], free, own[i], i)
    {
      assert Placed(ls1, free, own[i], i);
    }
    forall k, j | 0 <= k < |ls| - 1 && 0 <= j < |ls[..|ls| - 1][k]|
      ensures lo <= ls[k][j] < hi && own[ls[k][j]] == Used(k, j)
    {
      assert ls1[k][j] == ls[k][j];
    }
  }

  lemma {:induction false} DistinctCover(s: seq<int>, lo: int, hi: int)
    requires lo <= hi
    requires forall i :: 0 <= i < |s| ==> lo <= s[i] < hi
    requires forall i, j :: 0 <= i < j < |s| ==> s[i] != s[j]
    requires forall x :: lo <= x < hi ==> x in s
    ensures |s| == hi - lo
    decreases hi - lo
  {
    if s == [] {
      assert lo < hi ==> lo in s;
    } else {
      assert lo <= s[0] < hi;
      assert hi - 1 in s;
      var i :| 0 <= i < |s| && s[i] == hi - 1;
      var rest := s[..i] + s[i + 1..];
      forall x | lo <= x < hi - 1
        ensures x in rest
      {
        assert x in s;
        var j :| 0 <= j < |s| && s[j] == x;
        assert x == if j < i then rest[j] else rest[j - 1];
      }
      DistinctCover(rest, lo, hi - 1);
    }
  }

  /** Block totals of a tight layout are what the volume demands. */
  lemma {:induction false} TotalIsDemand(names: seq<string>, data: seq<seq<byte>>, ls: seq<seq<int>>,
      files: seq<FileImage>, n: int, d: int)
    requires d > 0 && 0 <= n <= |data| == |ls| == |files|
    requires forall k :: 0 <= k < |data| ==> files[k].data == data[k] && |ls[k]| == Ceil(|data[k]|, d)
    ensures Total(ls[..n]) == Demand(files, n, d)
  {
    if n == 0 {
    } else {
      TotalIsDemand(names, data, ls, files, n - 1, d);
      assert ls[..n][..n - 1] == ls[..n - 1];
    }
  }

  /** The free lists are as long as the disk is larger than the volume. */
  lemma FreeCounts(g: Geometry, s: State, L: Layout)
    requires Core(g, s, L) && Tight(L)
    ensures var v := VolumeOf(L, s.tab);
            && |L.dfl| + Demand(v.files, |v.files|, LF_BLKSIZ) == g.nsect - g.first
            && |L.ifl| + Demand(v.files, |v.files|, LF_IDATA) == g.nib
  {
    hide IbImage, IbAt, Holds, NextFree, IndexOK, DataOK, FreeOK, SizesOK, DirOK, Decoded, Partition, TabOK;
    var files := VolumeOf(L, s.tab).files;
    FreePlusUsed(0, g.nib, L.chain, L.ifl, L.iown);
    FreePlusUsed(g.first, g.nsect, L.blks, L.dfl, L.down);
    TotalIsDemand(L.names, L.data, L.chain, files, |files|, LF_IDATA);
    TotalIsDemand(L.names, L.data, L.blks, files, |files|, LF_BLKSIZ);
    assert L.chain[..|files|] == L.chain && L.blks[..|files|] == L.blks;
  }

  /** Block d is the p-th of list k. */
  predicate At(ls: seq<seq<int>>, k: int, p: int, d: int)
  {
    0 <= k < |ls| && 0 <= p < |ls[k]| && ls[k][p] == d
  }

  /** Block d is on the free list or in a list, and nowhere twice. */
  ghost predicate OwnedOnce(ls: seq<seq<int>>, free: seq<int>, d: int)
  {
    && (d in free <==> !exists k, p :: At(ls, k, p, d))
    && (forall q, q' :: 0 <= q < |free| && 0 <= q' < |free| && free[q] == free[q'] == d ==> q == q')
    && (forall k, p, k', p' :: At(ls, k, p, d) && At(ls, k', p', d) ==> k == k' && p == p')
  }

  lemma PartitionOwnsOnce(lo: int, hi: int, ls: seq<seq<int>>, free: seq<int>, own: seq<Owner>, d: int)
    requires Partition(lo, hi, ls, free, own) && lo <= d < hi
    ensures OwnedOnce(ls, free, d)
  {
    assert Placed(ls, free, own[d], d);
    if own[d].Used? {
      assert At(ls, own[d].file, own[d].at, d);
    }
  }

  /** Every index block and every data block has exactly one owner: its free list or one place in one file. */
  lemma ExactlyOneOwner(g: Geometry, s: State, L: Layout)
    requires Core(g, s, L)
    ensures forall i :: 0 <= i < g.nib ==> OwnedOnce(L.chain, L.ifl, i)
    ensures forall d :: g.first <= d < g.nsect ==> OwnedOnce(L.blks, L.dfl, d)
  {
    hide IbImage, Holds, NextFree, IbAt, IndexOK, DataOK, FreeOK, TabOK, DirOK, SizesOK, OwnedOnce, Partition;
    forall i | 0 <= i < g.nib
      ensures OwnedOnce(L.chain, L.ifl, i)
    {
      PartitionOwnsOnce(0, g.nib, L.chain, L.ifl, L.iown, i);
    }
    forall d | g.first <= d < g.nsect
      ensures OwnedOnce(L.blks, L.dfl, d)
    {
      PartitionOwnsOnce(g.first, g.nsect, L.blks, L.dfl, L.down, d);
    }
  }

  /** Sizes and positions never reach 2^32, so the 32-bit counters of the original do not wrap. */
  lemma SizesFit(g: Geometry, s: State, L: Layout, k: int)
    requires Core(g, s, L) && 0 <= k < |L.data|
    ensures |L.data[k]| <= LF_BLKSIZ * (g.nsect - g.first) < 0x1_0000_0000
  {
    hide IbImage, Holds, NextFree, IbAt, IndexOK, DataOK, FreeOK, TabOK, DirOK;
    PartitionBound(g.first, g.nsect, L.blks, L.dfl, L.down, k);
  }

  /** Changing one file changes the demand by the difference. */
  lemma {:induction false} DemandOfUpdate(files: seq<FileImage>, k: int, f: FileImage, n: int, d: int)
    requires d > 0 && 0 <= k < |files| && 0 <= n <= |files|
    ensures Demand(files[k := f], n, d)
            == Demand(files, n, d) + if k < n then Ceil(|f.data|, d) - Ceil(|files[k].data|, d) else 0
  {
    if n == 0 {
    } else {
      DemandOfUpdate(files, k, f, n - 1, d);
    }
  }

  /** If the volume still fits after a write at pos, the blocks that lfsetup will take are there. */
  lemma RoomToPut(g: Geometry, s: State, L: Layout, m: int, data': seq<byte>)
    requires Core(g, s, L) && Tight(L) && 0 <= m < |s.tab| && s.tab[m].used
    requires |L.names| == |L.data| && 0 <= s.tab[m].entry < |L.data| == |L.blks| == |L.chain|
    requires 0 <= s.tab[m].pos <= |L.data[s.tab[m].entry]| && |data'| > s.tab[m].pos
             && |data'| >= |L.data[s.tab[m].entry]|
    requires VolumeOK(VolumeOf(L, s.tab)) && Fits(g, Update(VolumeOf(L, s.tab), m, data', s.tab[m].pos + 1))
    ensures s.tab[m].pos / LF_BLKSIZ >= |L.blks[s.tab[m].entry]| ==> L.dfl != []
    ensures s.tab[m].pos / LF_IDATA >= |L.chain[s.tab[m].entry]| ==> L.ifl != []
  {
    hide Core, Demand;
    var v := VolumeOf(L, s.tab);
    var k, pos := s.tab[m].entry, s.tab[m].pos;
    FreeCounts(g, s, L);
    DemandOfUpdate(v.files, k, v.files[k].(data := data'), |v.files|, LF_BLKSIZ);
    DemandOfUpdate(v.files, k, v.files[k].(data := data'), |v.files|, LF_IDATA);
    assert |L.blks[k]| == Ceil(|L.data[k]|, LF_BLKSIZ) && |L.chain[k]| == Ceil(|L.data[k]|, LF_IDATA);
    assert Ceil(|data'|, LF_BLKSIZ) > pos / LF_BLKSIZ && Ceil(|data'|, LF_IDATA) > pos / LF_IDATA;
  }

  /** Writing one byte after lfsetup leaves the block counts exact. */
  lemma TightAfterPut(g: Geometry, s: State, L: Layout, m: int, ch: byte)
    requires Core(g, s, L) && Tight(L) && 0 <= m < |s.tab| && s.tab[m].used
    requires 0 <= s.tab[m].entry < |L.data| == |L.blks| == |L.chain| == |L.names|
    requires 0 <= s.tab[m].pos <= |L.data[s.tab[m].entry]|
    requires s.tab[m].pos / LF_BLKSIZ >= |L.blks[s.tab[m].entry]| ==> L.dfl != []
    requires s.tab[m].pos / LF_IDATA >= |L.chain[s.tab[m].entry]| ==> L.ifl != []
    ensures var L1 := GrowTo(L, s.tab[m].entry, s.tab[m].pos);
            && L1.names == L.names && L1.data == L.data && |L1.chain| == |L1.blks| == |L.names|
            && Tight(L1.(data := L.data[s.tab[m].entry := PutAt(L.data[s.tab[m].entry], s.tab[m].pos, ch)]))
  {
    hide IbImage, IbAt, Holds, NextFree, IndexOK, DataOK, FreeOK, DirOK, Decoded, Partition, TabOK;
    TopFree(g, L);
  }

  // ---- single operations -------------------------------------------------------------------

  /** The byte at the position is the byte under the pointer. */
  lemma ReadByte(g: Geometry, s: State, L: Layout, m: int)
    requires Core(g, s, L) && 0 <= m < |s.tab| && s.tab[m].used && s.tab[m].byteptr < LF_BLKSIZ
    ensures 0 <= s.tab[m].entry < |L.data| && 0 <= s.tab[m].byteptr && 0 <= s.tab[m].pos
    ensures s.tab[m].pos < |L.data[s.tab[m].entry]| ==>
            s.tab[m].dblock[s.tab[m].byteptr] == L.data[s.tab[m].entry][s.tab[m].pos]
  {
    hide IbImage, IbAt, NextFree, IndexOK, DataOK, FreeOK, SizesOK, DirOK, Decoded;
    var c := s.tab[m];
    EntryInRange(g, s.tab, L, m);
    assert Holds(c.dblock, L.data[c.entry], c.pos / 512);
    assert c.pos == 512 * (c.pos / 512) + c.pos % 512;
  }

  /** Stepping the position and the pointer together. */
  lemma StepPosition(g: Geometry, s: State, L: Layout, m: int)
    requires Core(g, s, L) && 0 <= m < |s.tab| && s.tab[m].used && s.tab[m].byteptr < LF_BLKSIZ
    requires 0 <= s.tab[m].entry < |L.data| && s.tab[m].pos < |L.data[s.tab[m].entry]|
    ensures Core(g, s.(tab := s.tab[m := s.tab[m].(pos := s.tab[m].pos + 1, byteptr := s.tab[m].byteptr + 1)]), L)
  {
    hide IbImage, IbAt, NextFree, IndexOK, DataOK, FreeOK, SizesOK, DirOK, Decoded, Holds;
    EntryInRange(g, s.tab, L, m);
    Reposition(g, s, L, m, s.tab[m].pos + 1, s.tab[m].byteptr + 1);
  }

  /** Positions inside the file need no new blocks. */
  lemma NoGrowth(g: Geometry, s: State, L: Layout, m: int)
    requires Core(g, s, L) && 0 <= m < |s.tab| && s.tab[m].used
    ensures var k := s.tab[m].entry;
            && 0 <= k < |L.data| == |L.names| == |L.blks| == |L.chain| && k < |s.dir.files|
               && |L.data[k]| == s.dir.files[k].size
            && 0 <= s.tab[m].pos <= |L.data[k]| && 0 <= s.tab[m].byteptr <= LF_BLKSIZ
            && (s.tab[m].pos < |L.data[k]| || s.tab[m].byteptr < LF_BLKSIZ ==>
                s.tab[m].pos / LF_BLKSIZ < |L.blks[k]| && s.tab[m].pos / LF_IDATA < |L.chain[k]|
                && GrowTo(L, k, s.tab[m].pos) == L)
  {
    hide IbImage, IbAt, NextFree, IndexOK, DataOK, FreeOK, Decoded, Holds;
    EntryInRange(g, s.tab, L, m);
    if s.tab[m].byteptr < LF_BLKSIZ {
      BlockAt(g, L, s.tab[m].dnum);
    }
  }

  // ---- runs of bytes -----------------------------------------------------------------------

  /** Writing one more byte behind a spliced run splices a run longer by one. */
  lemma SpliceStep(data: seq<byte>, pos: int, buf: seq<byte>, i: int)
    requires 0 <= pos <= |data| && 0 <= i < |buf|
    ensures PutAt(Splice(data, pos, buf[..i]), pos + i, buf[i]) == Splice(data, pos, buf[..i + 1])
  {
    assert buf[..i + 1] == buf[..i] + [buf[i]];
  }

  /** Replacing contents and position twice is replacing them once. */
  lemma UpdateTwice(v: Volume, m: int, data: seq<byte>, pos: int, data': seq<byte>, pos': int)
    requires VolumeOK(v) && 0 <= m < |v.fds| && v.fds[m].Open? && 0 <= pos <= |data|
    ensures var now := Update(v, m, data, pos);
            && VolumeOK(now) && |now.fds| == |v.fds| && now.fds[m] == Open(v.fds[m].file, pos)
               && Contents(now, m) == data
            && Update(now, m, data', pos') == Update(v, m, data', pos')
    ensures Update(v, m, Contents(v, m), v.fds[m].pos) == v
  {
    var now := Update(v, m, data, pos);
    assert Update(now, m, data', pos').files == Update(v, m, data', pos').files;
  }

  /** One byte written after i bytes of a run, seen from the volume before the run. */
  lemma PutcInRun(v: Volume, m: int, buf: seq<byte>, i: int)
    requires VolumeOK(v) && 0 <= m < |v.fds| && v.fds[m].Open? && 0 <= i < |buf|
    ensures var data, pos := Contents(v, m), v.fds[m].pos;
            var now := Update(v, m, Splice(data, pos, buf[..i]), pos + i);
            VolumeOK(now) && (i == 0 ==> now == v)
            && Putc(now, m, buf[i]) == (Update(v, m, Splice(data, pos, buf[..i + 1]), pos + i + 1), OK)
  {
    hide PutAt, Update;
    var data, pos := Contents(v, m), v.fds[m].pos;
    SpliceStep(data, pos, buf, i);
    UpdateTwice(v, m, Splice(data, pos, buf[..i]), pos + i, Splice(data, pos, buf[..i + 1]), pos + i + 1);
    assert i == 0 ==> Splice(data, pos, buf[..i]) == data;
  }

  /** One byte read after i bytes of a run. */
  lemma GetcInRun(v: Volume, m: int, i: int)
    requires VolumeOK(v) && 0 <= m < |v.fds| && v.fds[m].Open? && 0 <= i <= |Contents(v, m)| - v.fds[m].pos
    ensures var data, pos := Contents(v, m), v.fds[m].pos;
            var now := Update(v, m, data, pos + i);
            VolumeOK(now) && (i == 0 ==> now == v)
            && Getc(now, m) == if pos + i >= |data| then (now, EOF)
               else (Update(v, m, data, pos + i + 1), data[pos + i])
  {
    hide Update;
    UpdateTwice(v, m, Contents(v, m), v.fds[m].pos + i, Contents(v, m), v.fds[m].pos + i + 1);
  }

  /** A volume that fits still fits with one file no longer than it is. */
  lemma FitsShorter(g: Geometry, v: Volume, m: int, data: seq<byte>, pos: int, data': seq<byte>, pos': int)
    requires VolumeOK(v) && 0 <= m < |v.fds| && v.fds[m].Open? && |data'| <= |data|
    requires Fits(g, Update(v, m, data, pos))
    ensures Fits(g, Update(v, m, data', pos'))
  {
    var k := v.fds[m].file;
    DemandOfUpdate(v.files, k, v.files[k].(data := data), |v.files|, LF_BLKSIZ);
    DemandOfUpdate(v.files, k, v.files[k].(data := data), |v.files|, LF_IDATA);
    DemandOfUpdate(v.files, k, v.files[k].(data := data'), |v.files|, LF_BLKSIZ);
    DemandOfUpdate(v.files, k, v.files[k].(data := data'), |v.files|, LF_IDATA);
  }

  // ---- opening ---------------------------------------------------------------------------

  /** The table entry that lfsopen leaves behind. */
  function Opened(c: FileBlock, k: int, name: string, mode: int): FileBlock
  {
    c.(used := true, entry := k, mode := mode, pos := 0, name := name, inum := LF_INULL, dnum := LF_DNULL,
       byteptr := LF_BLKSIZ, ibdirty := false, dbdirty := false)
  }

  /** Opening file k, which nobody has open, through the free table entry m. */
  lemma OpenEntry(g: Geometry, s: State, L: Layout, m: int, k: int, mode: int)
    requires Core(g, s, L) && 0 <= m < |s.tab| && !s.tab[m].used && 0 <= k < |L.names| == |L.data|
    requires forall n :: 0 <= n < |s.tab| && s.tab[n].used ==> s.tab[n].entry != k
    ensures Core(g, s.(tab := s.tab[m := Opened(s.tab[m], k, L.names[k], mode)]), L)
  {
    hide IbImage, Holds, NextFree, IbAt, IndexOK, DataOK, FreeOK, TabOK, Partition;
    ReplaceClean(g, s, L, m, Opened(s.tab[m], k, L.names[k], mode));
  }

  /** Names of open files are the names in the directory. */
  lemma OpenNames(g: Geometry, s: State, L: Layout)
    requires Core(g, s, L)
    ensures |L.names| == |L.data| == s.dir.nfiles <= LF_NUM_DIR_ENT == |s.dir.files|
    ensures forall k :: 0 <= k < |L.names| ==> s.dir.files[k].name == L.names[k]
    ensures forall m ::
            0 <= m < |s.tab| && s.tab[m].used ==>
              0 <= s.tab[m].entry < |L.names| && s.tab[m].name == L.names[s.tab[m].entry]
  {
    hide IbImage, Holds, NextFree, IbAt, IndexOK, DataOK, FreeOK, Partition;
    forall m | 0 <= m < |s.tab| && s.tab[m].used
      ensures 0 <= s.tab[m].entry < |L.names| && s.tab[m].name == L.names[s.tab[m].entry]
    {
      assert OpenOK(g, s.tab[m], L);
    }
  }
}
