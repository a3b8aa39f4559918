// The logical layout behind a local file system: which block belongs to whom,
// what each cached or stored block has to hold, and the lemmas that keep this
// true while blocks move between the free lists, the files and the caches.

module LfsLayout {
  import opened LfsCodec

  /** Owner of one block: position in the free stack, or file and position in that file. */
  datatype Owner = Free(at: int) | Used(file: int, at: int)

  /** struct lflcblk, one entry of lfltab. `byteptr` is lfbyte as an index into lfdblock. */
  datatype FileBlock = FileBlock(used: bool, entry: int, mode: int, pos: int, name: string,
                                 inum: int, iblock: IBlk, dnum: int, dblock: Block,
                                 byteptr: int, ibdirty: bool, dbdirty: bool)

  /** Extent of the index area [0, nib) and of the data area [first, nsect). */
  datatype Geometry = Geometry(nib: int, first: int, nsect: int)

  /** File k has the bytes data[k], the index blocks chain[k] and the data blocks blks[k];
      the free lists are stacks whose top is the last element. */
  datatype Layout = Layout(names: seq<string>, data: seq<seq<byte>>, chain: seq<seq<int>>, blks: seq<seq<int>>,
                           ifl: seq<int>, dfl: seq<int>, iown: seq<Owner>, down: seq<Owner>)

  /** At least one sector of index blocks, at least one for data, and a disk whose size in bytes fits 32 bits. */
  ghost predicate GeometryOK(g: Geometry)
  {
    0 < g.nib && g.nib % IBPERSECT == 0 && g.first == g.nib / IBPERSECT + 1 && g.first < g.nsect <= 0x80_0000
  }

  // ---- one owner per block ---------------------------------------------------------

  /** The blocks lo..hi-1 are shared out between the free stack and the lists, each to exactly one place. */
  ghost predicate Partition(lo: int, hi: int, ls: seq<seq<int>>, free: seq<int>, own: seq<Owner>)
  {
    && 0 <= lo <= hi == |own|
    && (forall q :: 0 <= q < |free| ==> lo <= free[q] < hi && own[free[q]] == Free(q))
    && (forall k, j :: 0 <= k < |ls| && 0 <= j < |ls[k]| ==> lo <= ls[k][j] < hi && own[ls[k][j]] == Used(k, j))
    && (forall i :: lo <= i < hi ==> Placed(ls, free, own[i], i))
  }

  ghost predicate Placed(ls: seq<seq<int>>, free: seq<int>, o: Owner, i: int)
  {
    match o
    case Free(at) => 0 <= at < |free| && free[at] == i
    case Used(k, at) => 0 <= k < |ls| && 0 <= at < |ls[k]| && ls[k][at] == i
  }

  function Top(free: seq<int>): int
  {
    if free == [] then -1 else free[|free| - 1]
  }

  /** What the block at position q of a free stack links to. */
  function Below(free: seq<int>, q: int): int
    requires 0 <= q < |free|
  {
    if q > 0 then free[q - 1] else -1
  }

  function Head(chain: seq<int>): int
  {
    if chain == [] then -1 else chain[0]
  }

  /** Popping the free stack and appending the block to list k. */
  lemma PartitionTake(lo: int, hi: int, ls: seq<seq<int>>, free: seq<int>, own: seq<Owner>, k: int)
    requires Partition(lo, hi, ls, free, own) && 0 <= k < |ls| && free != []
    ensures var d := Top(free);
            lo <= d < hi
            && Partition(lo, hi, ls[k := ls[k] + [d]], free[..|free| - 1], own[d := Used(k, |ls[k]|)])
  {
    var d := Top(free);
    var ls', free', own' := ls[k := ls[k] + [d]], free[..|free| - 1], own[d := Used(k, |ls[k]|)];
    forall i | lo <= i < hi
      ensures Placed(ls', free', own'[i], i)
    {
      assert Placed(ls, free, own[i], i);
    }
    forall k', j | 0 <= k' < |ls'| && 0 <= j < |ls'[k']|
      ensures lo <= ls'[k'][j] < hi && own'[ls'[k'][j]] == Used(k', j)
    {
      if k' != k || j < |ls[k]| {
        assert ls'[k'][j] == ls[k'][j];
      }
    }
  }

  /** The owners once list k is released onto the free stack of the given height. */
  ghost function ReleasedOwners(own: seq<Owner>, k: int, height: int, n: int, reversed: bool): (r: seq<Owner>)
    ensures |r| == |own|
  {
    seq(|own|, i requires 0 <= i < |own| =>
      if own[i].Used? && own[i].file == k then Free(height + if reversed then n - 1 - own[i].at else own[i].at)
         else own[i])
  }

  /** Releasing all of list k onto the free stack in the order given by r, a rearrangement of the list. */
  lemma PartitionRelease(lo: int, hi: int, ls: seq<seq<int>>, free: seq<int>, own: seq<Owner>, k: int, reversed: bool)
    returns (own': seq<Owner>)
    requires Partition(lo, hi, ls, free, own) && 0 <= k < |ls|
    ensures Partition(lo, hi, ls[k := []], free + (if reversed then Reverse(ls[k]) else ls[k]), own')
  {
    hide Placed, Reverse;
    own' := ReleasedOwners(own, k, |free|, |ls[k]|, reversed);
    var ls', free' := ls[k := []], free + if reversed then Reverse(ls[k]) else ls[k];
    forall i | lo <= i < hi
      ensures Placed(ls', free', own'[i], i)
    {
      ReleasedPlaces(lo, hi, ls, free, own, k, reversed, i);
    }
    forall q | 0 <= q < |free'|
      ensures lo <= free'[q] < hi && own'[free'[q]] == Free(q)
    {
      ReleasedFree(lo, hi, ls, free, own, k, reversed, q);
    }
    forall k', j | 0 <= k' < |ls'| && 0 <= j < |ls'[k']|
      ensures lo <= ls'[k'][j] < hi && own'[ls'[k'][j]] == Used(k', j)
    {
      assert ls'[k'][j] == ls[k'][j];
    }
  }

  lemma ReleasedPlaces(lo: int, hi: int, ls: seq<seq<int>>, free: seq<int>, own: seq<Owner>, k: int, reversed: bool,
      i: int)
    requires Partition(lo, hi, ls, free, own) && 0 <= k < |ls| && lo <= i < hi
    ensures Placed(ls[k := []], free + (if reversed then Reverse(ls[k]) else ls[k]),
            ReleasedOwners(own, k, |free|, |ls[k]|, reversed)[i], i)
  {
    assert Placed(ls, free, own[i], i);
  }

  lemma ReleasedFree(lo: int, hi: int, ls: seq<seq<int>>, free: seq<int>, own: seq<Owner>, k: int, reversed: bool,
      q: int)
    requires Partition(lo, hi, ls, free, own) && 0 <= k < |ls| && 0 <= q < |free| + |ls[k]|
    ensures var free' := free + if reversed then Reverse(ls[k]) else ls[k];
            lo <= free'[q] < hi && ReleasedOwners(own, k, |free|, |ls[k]|, reversed)[free'[q]] == Free(q)
  {
    if q >= |free| {
      var j := if reversed then |ls[k]| - 1 - (q - |free|) else q - |free|;
      assert own[ls[k][j]] == Used(k, j);
    }
  }

  function Reverse(s: seq<int>): (r: seq<int>)
    ensures |r| == |s|
    ensures forall q :: 0 <= q < |s| ==> r[q] == s[|s| - 1 - q]
  {
    seq(|s|, q requires 0 <= q < |s| => s[|s| - 1 - q])
  }

  /** Pigeonhole: a list of the partition is no longer than the range. */
  lemma PartitionBound(lo: int, hi: int, ls: seq<seq<int>>, free: seq<int>, own: seq<Owner>, k: int)
    requires Partition(lo, hi, ls, free, own) && 0 <= k < |ls|
    ensures |ls[k]| <= hi - lo
  {
    var s := ls[k];
    assert forall i, j :: 0 <= i < j < |s| ==> s[i] != s[j] by {
      forall i, j | 0 <= i < j < |s| ensures s[i] != s[j] {
        assert own[ls[k][i]] == Used(k, i) && own[ls[k][j]] == Used(k, j);
      }
    }
    DistinctBound(s, lo, hi);
  }

  lemma DistinctBound(s: seq<int>, lo: int, hi: int)
    requires lo <= hi
    requires forall i :: 0 <= i < |s| ==> lo <= s[i] < hi
    requires forall i, j :: 0 <= i < j < |s| ==> s[i] != s[j]
    ensures |s| <= hi - lo
    decreases hi - lo
  {
    if s != [] {
      assert lo <= s[0] < hi;
      if exists i :: 0 <= i < |s| && s[i] == hi - 1 {
        var i :| 0 <= i < |s| && s[i] == hi - 1;
        DistinctBound(s[..i] + s[i + 1..], lo, hi - 1);
      } else {
        DistinctBound(s, lo, hi - 1);
      }
    }
  }

  // ---- what a block has to hold -----------------------------------------------------

  /** The j-th index block of a file with these index and data blocks. */
  function IbImage(chain: seq<int>, blks: seq<int>, j: int): (ib: IBlk)
    requires 0 <= j < |chain|
    ensures |ib.dba| == LF_IBLEN
  {
    IBlk(if j + 1 < |chain| then chain[j + 1] else LF_INULL, LF_IDATA * j,
         seq(LF_IBLEN, t requires 0 <= t < LF_IBLEN => if LF_IBLEN * j + t < |blks| then blks[LF_IBLEN * j + t]
             else LF_DNULL))
  }

  /** Block b holds the p-th 512 bytes of the file contents (and anything beyond their end). */
  ghost predicate Holds(b: seq<byte>, data: seq<byte>, p: int)
  {
    |b| == 512 && forall t :: 0 <= t < 512 && 0 <= 512 * p + t < |data| ==> b[t] == data[512 * p + t]
  }

  /** The contents after writing one byte at pos: an overwrite, or an append at the end. */
  function PutAt(data: seq<byte>, pos: int, ch: byte): (r: seq<byte>)
    requires 0 <= pos <= |data|
    ensures |r| == if pos < |data| then |data| else pos + 1
  {
    if pos < |data| then data[pos := ch] else data + [ch]
  }

  ghost predicate DirtyIb(tab: seq<FileBlock>, i: int)
  {
    exists m :: 0 <= m < |tab| && tab[m].used && tab[m].ibdirty && tab[m].inum == i
  }

  ghost predicate DirtyDb(tab: seq<FileBlock>, d: int)
  {
    exists m :: 0 <= m < |tab| && tab[m].used && tab[m].dbdirty && tab[m].dnum == d
  }

  // ---- the invariant, part by part ----------------------------------------------------

  /** Every index and data block has exactly one owner. */
  ghost predicate OwnershipOK(g: Geometry, L: Layout)
  {
    && GeometryOK(g)
    && |L.names| == |L.data| == |L.chain| == |L.blks| <= LF_NUM_DIR_ENT
    && Partition(0, g.nib, L.chain, L.ifl, L.iown)
    && Partition(g.first, g.nsect, L.blks, L.dfl, L.down)
  }

  /** The index blocks that a file with 32-bit positions can have. */
  const MAX_CHAIN := 0x8_0000

  /** Blocks suffice for the contents, index blocks suffice for the blocks and cover 32-bit positions. */
  ghost predicate SizesOK(L: Layout)
    requires |L.names| == |L.data| == |L.chain| == |L.blks|
  {
    forall k ::
        0 <= k < |L.data| ==>
          |L.data[k]| <= 512 * |L.blks[k]| && |L.blks[k]| <= LF_IBLEN * |L.chain[k]| <= LF_IBLEN * MAX_CHAIN
  }

  function Ceil(n: int, d: int): int
    requires d > 0
  {
    (n + d - 1) / d
  }

  /** No file has more blocks than its size needs. */
  ghost predicate Tight(L: Layout)
    requires |L.names| == |L.data| == |L.chain| == |L.blks|
  {
    forall k ::
        0 <= k < |L.data| ==> |L.blks[k]| == Ceil(|L.data[k]|, 512) && |L.chain[k]| == Ceil(|L.data[k]|, LF_IDATA)
  }

  /** The directory describes the layout. */
  ghost predicate DirOK(dir: Directory, L: Layout)
    requires |L.names| == |L.data| == |L.chain| == |L.blks|
  {
    && |dir.files| == LF_NUM_DIR_ENT
    && dir.nfiles == |L.names| <= LF_NUM_DIR_ENT
    && (forall k :: 0 <= k < |L.names| ==> dir.files[k] == DirEntry(|L.data[k]|, Head(L.chain[k]), L.names[k]))
    && dir.ifree == Top(L.ifl)
    && dir.dfree == Top(L.dfl)
  }

  /** ibd is the index area as stored on the disk. */
  ghost predicate Decoded(g: Geometry, disk: seq<Sector>, ibd: seq<IBlk>)
    requires GeometryOK(g)
  {
    && g.nsect <= |disk|
    && |ibd| == g.nib
    && (forall s :: 1 <= s < g.nsect ==> disk[s].Raw?)
    && (forall i {:trigger IbAt(disk, i)} :: 0 <= i < g.nib ==> Ib2Sect(i) < g.first && IbAt(disk, i) == ibd[i])
  }

  /** Stored index blocks are right unless a dirty cached copy supersedes them. */
  ghost predicate IndexOK(g: Geometry, ibd: seq<IBlk>, tab: seq<FileBlock>, L: Layout)
    requires OwnershipOK(g, L) && |ibd| == g.nib
  {
    forall k, j :: 0 <= k < |L.chain| && 0 <= j < |L.chain[k]| ==>
      ibd[L.chain[k][j]] == IbImage(L.chain[k], L.blks[k], j) || DirtyIb(tab, L.chain[k][j])
  }

  ghost predicate DataOK(g: Geometry, disk: seq<Sector>, tab: seq<FileBlock>, L: Layout)
    requires OwnershipOK(g, L) && g.nsect <= |disk| && (forall s :: 1 <= s < g.nsect ==> disk[s].Raw?)
  {
    forall k, p :: 0 <= k < |L.blks| && 0 <= p < |L.blks[k]| ==>
      Holds(disk[L.blks[k][p]].b, L.data[k], p) || DirtyDb(tab, L.blks[k][p])
  }

  /** Both free lists are null-terminated chains through the stacks. */
  ghost predicate FreeOK(g: Geometry, disk: seq<Sector>, ibd: seq<IBlk>, L: Layout)
    requires OwnershipOK(g, L) && g.nsect <= |disk| && |ibd| == g.nib
    requires forall s :: 1 <= s < g.nsect ==> disk[s].Raw?
  {
    && (forall q :: 0 <= q < |L.ifl| ==> ibd[L.ifl[q]].next == Below(L.ifl, q))
    && (forall q :: 0 <= q < |L.dfl| ==> NextFree(disk[L.dfl[q]].b) == Below(L.dfl, q))
  }

  /** One open file: the caches belong to its file and hold what they should. */
  ghost predicate OpenOK(g: Geometry, c: FileBlock, L: Layout)
    requires OwnershipOK(g, L)
  {
    && 0 <= c.entry < |L.names|
    && c.name == L.names[c.entry]
    && 0 <= c.pos <= |L.data[c.entry]|
    && (c.inum != LF_INULL ==>
        0 <= c.inum < g.nib && L.iown[c.inum].Used? && L.iown[c.inum].file == c.entry
        && Placed(L.chain, L.ifl, L.iown[c.inum], c.inum)
        && c.iblock == IbImage(L.chain[c.entry], L.blks[c.entry], L.iown[c.inum].at))
    && (c.ibdirty ==> c.inum != LF_INULL)
    && (c.dnum != LF_DNULL ==>
        g.first <= c.dnum < g.nsect && L.down[c.dnum].Used? && L.down[c.dnum].file == c.entry
        && Holds(c.dblock, L.data[c.entry], L.down[c.dnum].at))
    && (c.dbdirty ==> c.dnum != LF_DNULL)
    && 0 <= c.byteptr <= LF_BLKSIZ
    && (c.byteptr < LF_BLKSIZ ==>
        c.dnum != LF_DNULL && L.down[c.dnum].at == c.pos / 512 && c.byteptr == c.pos % 512)
  }

  ghost predicate TabOK(g: Geometry, tab: seq<FileBlock>, L: Layout)
    requires OwnershipOK(g, L)
  {
    && (forall m :: 0 <= m < |tab| && tab[m].used ==> OpenOK(g, tab[m], L))
    && (forall m, n :: 0 <= m < n < |tab| && tab[m].used && tab[n].used ==> tab[m].entry != tab[n].entry)
  }

  /** The stored directory lags behind the one in memory at most by files that are still empty. */
  ghost predicate Synced(stored: Directory, dir: Directory)
  {
    && |stored.files| == |dir.files| == LF_NUM_DIR_ENT
    && 0 <= stored.nfiles <= dir.nfiles <= LF_NUM_DIR_ENT
    && stored.ifree == dir.ifree && stored.dfree == dir.dfree
    && (forall k :: 0 <= k < stored.nfiles ==> stored.files[k] == dir.files[k])
    && (forall k :: stored.nfiles <= k < dir.nfiles ==> dir.files[k].size == 0)
  }

  /** Everything the caches and the disk hold. */
  datatype State = State(disk: seq<Sector>, ibd: seq<IBlk>, dir: Directory, dirdirty: bool, tab: seq<FileBlock>)

  /** The invariant, apart from how far the stored directory and the block counts lag. */
  ghost predicate Core(g: Geometry, s: State, L: Layout)
  {
    && OwnershipOK(g, L) && SizesOK(L) && DirOK(s.dir, L)
    && Decoded(g, s.disk, s.ibd) && s.disk[0].DirSector?
    && IndexOK(g, s.ibd, s.tab, L) && DataOK(g, s.disk, s.tab, L) && FreeOK(g, s.disk, s.ibd, L)
    && TabOK(g, s.tab, L)
  }

  ghost predicate DirStored(s: State)
  {
    |s.disk| > 0 && s.disk[0].DirSector? && (!s.dirdirty ==> Synced(s.disk[0].dir, s.dir))
  }

  ghost predicate Inv(g: Geometry, s: State, L: Layout)
  {
    && Core(g, s, L) && Tight(L) && DirStored(s)
    && (s.dirdirty ==> exists m :: 0 <= m < |s.tab| && s.tab[m].used)
  }
}
