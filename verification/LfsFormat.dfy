// Creating an empty file system on a disk (device/lfs/lfscreate.c).

module LfsFormat {
  import opened Common
  import opened LfsCodec
  import opened LfsLayout
  import opened LfsSteps
  import D = LfsDisk


  /** Everything is free; block 0 of either area heads its list. */
  function EmptyLayout(g: Geometry): Layout
    requires 0 <= g.first <= g.nsect && 0 <= g.nib
  {
    Layout([], [], [], [], seq(g.nib, q => g.nib - 1 - q), seq(g.nsect - g.first, q => g.nsect - 1 - q),
           seq(g.nib, i => Free(g.nib - 1 - i)), seq(g.nsect, d => Free(g.nsect - 1 - d)))
  }

  /** Index block i of a fresh disk. */
  function FreshIb(nib: int, i: int): IBlk
  {
    ClearedIb(0).(next := if i < nib - 1 then i + 1 else LF_INULL)
  }

  ghost predicate FreshAt(disk: seq<Sector>, nib: int, i: int)
    requires 0 <= i
  {
    Ib2Sect(i) < |disk| && disk[Ib2Sect(i)].Raw? && IbAt(disk, i) == FreshIb(nib, i)
  }

  ghost predicate FreshIndex(disk: seq<Sector>, nib: int, n: int)
  {
    forall i :: 0 <= i < n ==> FreshAt(disk, nib, i)
  }

  ghost predicate FreshData(disk: seq<Sector>, first: int, nsect: int, n: int)
  {
    && 0 <= first && n <= nsect <= |disk|
    && forall d :: first <= d < n ==> disk[d].Raw? && NextFree(disk[d].b) == if d < nsect - 1 then d + 1 else LF_DNULL
  }

  lemma OneMoreIndex(disk: seq<Sector>, nib: int, n: int, c: Block)
    requires 0 <= n < nib < 0x8000_0000 && Ib2Sect(n) < |disk| && disk[Ib2Sect(n)].Raw? && FreshIndex(disk, nib, n)
    requires Spliced(disk[Ib2Sect(n)].b, Ib2Disp(n), IbBytes(FreshIb(nib, n)), c)
    ensures FreshIndex(disk[Ib2Sect(n) := Raw(c)], nib, n + 1)
  {
    hide IbAt, IbBytes, Spliced, ClearedIb;
    FreshEncodable(nib, n);
    IbPutGet(disk, n, FreshIb(nib, n), c);
    var disk' := disk[Ib2Sect(n) := Raw(c)];
    forall i | 0 <= i < n
      ensures FreshAt(disk', nib, i)
    {
      assert FreshAt(disk, nib, i);
    }
  }

  lemma FreshEncodable(nib: int, i: int)
    requires 0 <= i < nib < 0x8000_0000
    ensures Encodable(FreshIb(nib, i))
  {
  }

  lemma IndexSurvives(disk: seq<Sector>, nib: int, at: int, x: Sector)
    requires FreshIndex(disk, nib, nib) && 0 <= at < |disk| && (forall i :: 0 <= i < nib ==> Ib2Sect(i) != at)
    ensures FreshIndex(disk[at := x], nib, nib)
  {
    hide FreshIb;
    var disk' := disk[at := x];
    forall i | 0 <= i < nib
      ensures FreshAt(disk', nib, i)
    {
      assert FreshAt(disk, nib, i);
    }
  }

  /** A disk with both chains in place is a sound file system without files. */
  lemma FreshIsSound(g: Geometry, disk: seq<Sector>)
    requires GeometryOK(g) && g.nsect <= |disk| && (forall s :: 1 <= s < g.nsect ==> disk[s].Raw?)
    requires disk[0].DirSector? && disk[0].dir == FreshDir(g.first)
    requires FreshIndex(disk, g.nib, g.nib) && FreshData(disk, g.first, g.nsect, g.nsect)
    ensures Inv(g, State(disk, seq(g.nib, i => FreshIb(g.nib, i)), disk[0].dir, false, []), EmptyLayout(g))
  {
    hide IbAt, NextFree, IbImage, Holds, FreshIb, FreeOK, Partition, FreshIndex, Decoded;
    var L := EmptyLayout(g);
    EmptyOwners(g);
    FreshLinks(g, disk);
    FreshDecodes(g, disk);
    assert OwnershipOK(g, L);
  }

  lemma EmptyOwners(g: Geometry)
    requires GeometryOK(g)
    ensures var L := EmptyLayout(g);
            && Partition(0, g.nib, L.chain, L.ifl, L.iown) && Partition(g.first, g.nsect, L.blks, L.dfl, L.down)
            && Top(L.ifl) == 0 && Top(L.dfl) == g.first
  {
    hide Partition;
    var L := EmptyLayout(g);
    AllFree(0, g.nib, L.ifl, L.iown);
    AllFree(g.first, g.nsect, L.dfl, L.down);
  }

  lemma AllFree(lo: int, hi: int, free: seq<int>, own: seq<Owner>)
    requires 0 <= lo <= hi == |own| && |free| == hi - lo
    requires forall q :: 0 <= q < |free| ==> free[q] == hi - 1 - q
    requires forall i :: 0 <= i < hi ==> own[i] == Free(hi - 1 - i)
    ensures Partition(lo, hi, [], free, own)
  {
  }

  lemma FreshDecodes(g: Geometry, disk: seq<Sector>)
    requires GeometryOK(g) && g.nsect <= |disk| && (forall s :: 1 <= s < g.nsect ==> disk[s].Raw?)
    requires FreshIndex(disk, g.nib, g.nib)
    ensures Decoded(g, disk, seq(g.nib, i => FreshIb(g.nib, i)))
  {
    hide IbAt, FreshIb;
    forall i | 0 <= i < g.nib
      ensures Ib2Sect(i) < g.first && IbAt(disk, i) == FreshIb(g.nib, i)
    {
      assert FreshAt(disk, g.nib, i);
    }
  }

  lemma FreshLinks(g: Geometry, disk: seq<Sector>)
    requires GeometryOK(g) && g.nsect <= |disk| && OwnershipOK(g, EmptyLayout(g))
             && (forall s :: 1 <= s < g.nsect ==> disk[s].Raw?)
    requires FreshData(disk, g.first, g.nsect, g.nsect)
    ensures FreeOK(g, disk, seq(g.nib, i => FreshIb(g.nib, i)), EmptyLayout(g))
  {
    hide NextFree, Partition, ClearedIb;
  }

  function FreshDir(first: int): Directory
  {
    Directory(first, 0, 0, seq(LF_NUM_DIR_ENT, i => DirEntry(0, 0, "")))
  }

  /** Writes a sector, if there is such a sector; outside says that there is none. */
  method WriteSector(disk: array<Sector>, nsect: int, at: int, x: Sector) returns (outside: bool)
    requires nsect <= disk.Length
    modifies disk
    ensures outside <==> !(0 <= at < nsect)
    ensures disk[..] == if outside then old(disk[..]) else old(disk[..])[at := x]
  {
    if 0 <= at < nsect {
      disk[at] := x;
      return false;
    }
    return true;
  }

  /** lfibput, if there is such a sector. */
  method WriteIndex(disk: array<Sector>, nsect: int, nib: int, i: int, iblock: IBlk) returns (outside: bool)
    requires 0 <= i < 0x8000_0000 && nib < 0x8000_0000 && nsect <= disk.Length && |iblock.dba| == LF_IBLEN
    requires AllRaw(disk[..], 1, nsect) && (i < nib ==> iblock == FreshIb(nib, i) && FreshIndex(disk[..], nib, i))
    modifies disk
    ensures outside <==> Ib2Sect(i) >= nsect
    ensures AllRaw(disk[..], 1, nsect)
            && forall s :: 0 <= s < disk.Length && !(1 <= s < nsect) ==> disk[s] == old(disk[s])
    ensures !outside && i < nib ==> FreshIndex(disk[..], nib, i + 1)
  {
    hide IbAt, IbBytes, Spliced, ClearedIb, FreshIndex;
    if Ib2Sect(i) >= nsect {
      return true;
    }
    ghost var before := disk[..];
    D.IbPut(disk, i, iblock);
    if i < nib {
      OneMoreIndex(before, nib, i, disk[Ib2Sect(i)].b);
    }
    return false;
  }

  ghost predicate AllRaw(disk: seq<Sector>, lo: int, hi: int)
    requires 0 <= lo && hi <= |disk|
  {
    forall s :: lo <= s < hi ==> disk[s].Raw?
  }

  /** First loop of lfscreate: the chain of free index blocks.  With none, block 0 is written all the same. */
  method FormatIndex(disk: array<Sector>, nib: int, nsect: int) returns (outside: bool)
    requires 0 <= nib < 0x8000_0000 && nib % 7 == 0 && 0 <= nsect <= disk.Length && AllRaw(disk[..], 1, nsect)
    requires nib > 0 ==> nib / 7 < nsect
    modifies disk
    ensures AllRaw(disk[..], 1, nsect)
            && forall s :: 0 <= s < disk.Length && !(1 <= s < nsect) ==> disk[s] == old(disk[s])
    ensures outside <==> nsect < 2
    ensures FreshIndex(disk[..], nib, nib)
  {
    hide IbAt, IbBytes, Spliced, ClearedIb, FreshIndex;
    var iblock := D.IbClear(0);
    assert FreshIndex(disk[..], nib, 0) by { NothingFresh(disk[..], nib); }
    var i := 0;
    while i < nib - 1
      invariant 0 <= i <= (if nib > 0 then nib - 1 else 0)
      invariant AllRaw(disk[..], 1, nsect)
                && forall s :: 0 <= s < disk.Length && !(1 <= s < nsect) ==> disk[s] == old(disk[s])
      invariant |iblock.dba| == LF_IBLEN && iblock == ClearedIb(0).(next := iblock.next)
      invariant FreshIndex(disk[..], nib, i)
    {
      iblock := iblock.(next := i + 1);
      outside := WriteIndex(disk, nsect, nib, i, iblock);
      i := i + 1;
    }
    iblock := iblock.(next := LF_INULL);
    outside := WriteIndex(disk, nsect, nib, i, iblock);
    if nib == 0 {
      NothingFresh(disk[..], nib);
    }
  }

  lemma NothingFresh(disk: seq<Sector>, nib: int)
    ensures FreshIndex(disk, nib, 0)
  {
  }


  /** A sum kept in a signed 32-bit variable. */
  function Wrapped(x: int): int
  {
    if IsInt32(x) then x else x - WORD
  }

  /** The chain of free data blocks is in place up to sector n. */
  ghost predicate DataLinked(disk: seq<Sector>, nib: int, first: int, nsect: int, n: int)
  {
    0 <= nsect <= |disk| && AllRaw(disk, 1, nsect) && FreshIndex(disk, nib, nib) && FreshData(disk, first, nsect, n)
  }

  /** One turn of the second loop of lfscreate. */
  method LinkData(disk: array<Sector>, nib: int, first: int, nsect: int, at: int, next: int) returns (outside: bool)
    requires 0 <= nib && nib % 7 == 0 && first == nib / 7 + 1 && 0 <= nsect <= disk.Length && nsect < 0x80_0000
    requires nsect > first ==> first <= at < nsect && DataLinked(disk[..], nib, first, nsect, at)
    requires nsect > first ==> next == if at < nsect - 1 then at + 1 else LF_DNULL
    modifies disk
    ensures outside <==> !(0 <= at < nsect)
    ensures nsect > first ==> disk[0] == old(disk[0]) && DataLinked(disk[..], nib, first, nsect, at + 1)
  {
    hide NextFree, FreshIndex;
    var zeros: Block := seq(LF_BLKSIZ, x => 0);
    var dblock := FreeBlock(next, zeros);
    if nsect > first {
      IndexSurvives(disk[..], nib, at, Raw(dblock));
    }
    outside := WriteSector(disk, nsect, at, Raw(dblock));
  }

  /** Second loop of lfscreate: the chain of free data blocks from dbindex on.  The number of data
      blocks and its predecessor are unsigned: with no sector left for data the loop runs off the disk. */
  method FormatData(disk: array<Sector>, nib: int, first: int, nsect: int) returns (outside: bool)
    requires 0 <= nib && nib % 7 == 0 && first == nib / 7 + 1 <= nsect + 1 && 0 <= nsect <= disk.Length
             && nsect < 0x80_0000
    requires AllRaw(disk[..], 1, nsect) && FreshIndex(disk[..], nib, nib)
    modifies disk
    ensures outside <==> nsect <= first
    ensures !outside ==> disk[0] == old(disk[0]) && DataLinked(disk[..], nib, first, nsect, nsect)
  {
    var dbindex, dblks := first, (nsect - first) % WORD;
    assert nsect > first ==> DataLinked(disk[..], nib, first, nsect, first);
    hide DataLinked, AllRaw, FreshIndex;
    var last := (dblks - 1) % WORD;
    var i, gone := 0, false;
    outside := false;
    while i < last
      invariant 0 <= i <= last && IsInt32(dbindex)
      invariant outside <==> nsect <= first && i > 0
      invariant i == 0 ==> dbindex == first
      invariant nsect > first ==>
                dbindex == first + i && disk[0] == old(disk[0]) && DataLinked(disk[..], nib, first, nsect, dbindex)
    {
      gone := LinkData(disk, nib, first, nsect, dbindex, Wrapped(dbindex + 1));
      outside := outside || gone;
      dbindex := Wrapped(dbindex + 1);
      i := i + 1;
    }
    gone := LinkData(disk, nib, first, nsect, dbindex, LF_DNULL);
    outside := outside || gone;
  }

  /** The disk alone is a sound file system. */
  ghost predicate SoundDisk(disk: seq<Sector>)
  {
    |disk| > 0 && disk[0].DirSector? && exists g, ibd, L :: Inv(g, State(disk, ibd, disk[0].dir, false, []), L)
  }

  /** lfscreate for any number of index blocks and any size in bytes; outside says that a sector was
      written that the disk does not have.  Once the guard has passed, the result is a sound file system,
      written inside the disk, exactly when at least one index block was asked for and the sectors of
      the index blocks leave room for the directory and one data block. */
  method Format(disk: array<Sector>, lfiblks: int, dsiz: int) returns (r: int, outside: bool, ghost g: Geometry)
    requires IsInt32(lfiblks) && IsUint32(dsiz) && dsiz / 512 <= disk.Length && AllRaw(disk[..], 1, dsiz / 512)
    modifies disk
    ensures r == (if (lfiblks + 6) % WORD / 7 > dsiz / 512 / 2 then SYSERR else OK)
    ensures r == SYSERR ==> disk[..] == old(disk[..]) && !outside
    ensures r == OK ==> (outside <==> dsiz / 512 < (lfiblks + 6) % WORD / 7 + 2)
    ensures r == OK ==> (SoundDisk(disk[..]) && !outside <==> lfiblks > 0 && dsiz / 512 >= (lfiblks + 6) % WORD / 7 + 2)
    ensures g.nib == 7 * ((lfiblks + 6) % WORD / 7) && g.first == g.nib / 7 + 1 && g.nsect == dsiz / 512
    ensures r == OK && !outside ==>
            disk.Length > 0 && disk[0] == DirSector(FreshDir(g.first)) && AllRaw(disk[..], 1, g.nsect)
    ensures r == OK && !outside && lfiblks > 0 ==>
              Inv(g, State(disk[..], seq(g.nib, i => FreshIb(g.nib, i)), disk[0].dir, false, []), EmptyLayout(g))
  {
    hide Inv, FreshData, FreshIndex;
    var sectors := dsiz / LF_BLKSIZ;
    var ibpersector := LF_BLKSIZ / IBSIZE;
    var ibsectors := (lfiblks + (ibpersector - 1)) % WORD / ibpersector;
    var nib := ibsectors * ibpersector;
    g := Geometry(nib, ibsectors + 1, sectors);
    if ibsectors > sectors / 2 {
      return SYSERR, false, g;
    }
    outside := WriteSector(disk, sectors, 0, DirSector(FreshDir(ibsectors + 1)));
    var gone := FormatIndex(disk, nib, sectors);
    outside := outside || gone;
    gone := FormatData(disk, nib, ibsectors + 1, sectors);
    outside := outside || gone;
    if !outside && nib == 0 {
      HeadsMeet(disk[..]);
    } else if !outside {
      FreshIsSound(g, disk[..]);
    }
    return OK, outside, g;
  }

  /** Formatting with no index blocks leaves index block 0, the head of one free list, inside the
      data block that heads the other; no sound file system looks like that. */
  lemma HeadsLieApart(g: Geometry, s: State, L: Layout)
    requires Core(g, s, L) && s.dir.ifree >= 0
    ensures Ib2Sect(s.dir.ifree) != s.dir.dfree
  {
    hide IbImage, Holds, NextFree, IbAt, IndexOK, DataOK, FreeOK, TabOK, SizesOK;
    TopFree(g, L);
  }

  lemma HeadsMeet(disk: seq<Sector>)
    requires |disk| > 0 && disk[0] == DirSector(FreshDir(1))
    ensures !SoundDisk(disk)
  {
    hide Core, Tight;
    if SoundDisk(disk) {
      var g, ibd, L :| Inv(g, State(disk, ibd, disk[0].dir, false, []), L);
      HeadsLieApart(g, State(disk, ibd, disk[0].dir, false, []), L);
    }
  }

  /** The smallest disk on which the guard lets index blocks through has no sector left for data:
      formatting it for seven index blocks reports success and writes behind the disk. */
  method TwoSectorDisk() returns (disk: array<Sector>, r: int, outside: bool)
    ensures fresh(disk) && disk.Length == 2 && r == OK && outside
  {
    disk := new Sector[2](i => Raw(seq(LF_BLKSIZ, x => 0)));
    ghost var g;
    r, outside, g := Format(disk, 7, 1024);
  }
}
