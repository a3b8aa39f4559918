// The local file system itself (device/lfs): the disk, the directory kept in
// memory, and the table of open files with their cached blocks.

module Lfs {
  import opened Common
  import opened LfsCodec
  import opened LfsLayout
  import opened LfsSteps
  import opened LfsRefine
  import opened LfsDecode
  import opened LfsTrunc
  import opened LfsMount
  import D = LfsDisk
  import V = LfsVolume

  class LocalFs {
    const disk: array<Sector>
    const lfltab: array<FileBlock>
    var dir: Directory
    var dirpresent: bool
    var dirdirty: bool
    ghost const geo: Geometry
    ghost var ibd: seq<IBlk>
    ghost var lay: Layout

    /** lfsinit and lflinit over a disk that holds a sound file system: every file is closed
        and the directory is not in memory yet. */
    constructor (d: array<Sector>, ndevs: nat, ghost g: Geometry, ghost stored: seq<IBlk>, ghost L: Layout)
      requires d.Length > 0 && d[0].DirSector? && Inv(g, State(d[..], stored, d[0].dir, false, []), L)
      ensures Valid() && disk == d && d[..] == old(d[..]) && fresh(lfltab) && lfltab.Length == ndevs && geo == g
              && lay == L
      ensures !dirpresent && forall m :: 0 <= m < ndevs ==> !lfltab[m].used
    {
      hide Inv, IbImage, Holds, NextFree, IbAt;
      disk := d;
      lfltab := new FileBlock[ndevs](i => ClosedBlock());
      dir := Directory(0, 0, 0, []);
      dirpresent := false;
      dirdirty := false;
      geo := g;
      ibd := stored;
      lay := L;
      new;
      MoreClosedEntries(g, State(d[..], stored, d[0].dir, false, []), L, lfltab[..]);
    }

    ghost function Now(): State
      reads this, disk, lfltab
    {
      State(disk[..], ibd, dir, dirdirty, lfltab[..])
    }

    /** All files of an absent directory are closed; the directory on the disk then counts. */
    ghost predicate Valid()
      reads this, disk, lfltab
    {
      && disk as object != lfltab
      && disk.Length > 0
      && if dirpresent then Inv(geo, Now(), lay)
         else disk[0].DirSector? && Inv(geo, Now().(dir := disk[0].dir), lay) && !dirdirty
              && forall m :: 0 <= m < lfltab.Length ==> !lfltab[m].used
    }

    /** The volume as callers see it. */
    ghost function Volume(): V.Volume
      reads this, lfltab
      requires |lay.names| == |lay.data|
    {
      VolumeOf(lay, lfltab[..])
    }

    lemma VolumeSound()
      requires Valid()
      ensures |lay.names| == |lay.data| && V.VolumeOK(Volume()) && |Volume().fds| == lfltab.Length
    {
      VolumeIsOK(geo, if dirpresent then Now() else Now().(dir := disk[0].dir), lay);
    }

    /** Index m is an open file whose caches are stored and whose byte pointer is invalid. */
    ghost predicate Settled(m: int)
      reads lfltab
    {
      0 <= m < lfltab.Length && lfltab[m].used && !lfltab[m].ibdirty && !lfltab[m].dbdirty
          && lfltab[m].byteptr == LF_BLKSIZ
    }

    // ---- index blocks -----------------------------------------------------------------

    /** lfibget on this disk. */
    method IbGet(inum: int) returns (ib: IBlk)
      requires GeometryOK(geo) && Decoded(geo, disk[..], ibd) && 0 <= inum < geo.nib
      ensures ib == ibd[inum]
    {
      IndexSector(geo, disk[..], ibd, inum);
      ib := D.IbGet(disk, inum);
    }

    /** lfibput on this disk. */
    method IbPut(inum: int, ib: IBlk)
      requires GeometryOK(geo) && Decoded(geo, disk[..], ibd) && 0 <= inum < geo.nib
      requires |ib.dba| == LF_IBLEN && Encodable(ib) && disk as object != lfltab
      modifies disk, this`ibd
      ensures ibd == old(ibd)[inum := ib] && Decoded(geo, disk[..], ibd)
      ensures forall x :: 0 <= x < disk.Length && x != Ib2Sect(inum) ==> disk[x] == old(disk[x])
      ensures 1 <= Ib2Sect(inum) < geo.first
    {
      hide Encodable, Decoded, IbAt, IbBytes, Spliced;
      ghost var before := disk[..];
      IndexSector(geo, before, ibd, inum);
      D.IbPut(disk, inum, ib);
      DecodedAfterPut(geo, before, ibd, inum, ib, disk[Ib2Sect(inum)].b);
      ibd := ibd[inum := ib];
    }

    /** Writes the directory in memory to its sector. */
    method WriteDir()
      requires disk.Length > 0
      modifies disk
      ensures disk[..] == old(disk[..])[0 := DirSector(dir)]
    {
      disk[0] := DirSector(dir);
    }

    /** lfiballoc: pops the index free list.  An empty list halts the system. */
    method IbAlloc() returns (ibnum: int)
      requires GeometryOK(geo) && Decoded(geo, disk[..], ibd) && disk as object != lfltab
      requires 0 <= dir.ifree < geo.nib
      modifies disk, this`dir, this`dirdirty
      ensures ibnum == old(dir.ifree) && dir == old(dir).(ifree := ibd[ibnum].next) && !dirdirty
      ensures disk[..] == old(disk[..])[0 := DirSector(dir)]
    {
      ibnum := dir.ifree;
      var iblock := IbGet(ibnum);
      dir := dir.(ifree := iblock.next);
      WriteDir();
      dirdirty := false;
    }

    /** lfdballoc: pops the data free list; returns the buffer filled with '+'. */
    method DbAlloc() returns (dnum: int, dbuff: Block)
      requires GeometryOK(geo) && Decoded(geo, disk[..], ibd) && disk as object != lfltab
      requires geo.first <= dir.dfree < geo.nsect
      modifies disk, this`dir, this`dirdirty
      ensures dnum == old(dir.dfree) && dir == old(dir).(dfree := NextFree(old(disk[dnum].b))) && !dirdirty
      ensures disk[..] == old(disk[..])[0 := DirSector(dir)]
    {
      dnum := dir.dfree;
      dbuff := disk[dnum].b;
      dir := dir.(dfree := NextFree(dbuff));
      WriteDir();
      dirdirty := false;
      dbuff := seq(LF_BLKSIZ, i => '+' as int);
    }

    // ---- lfflush -------------------------------------------------------------------------

    /** Stores the directory if it has changed. */
    method StoreDir()
      requires Core(geo, Now(), lay) && DirStored(Now()) && disk as object != lfltab
      modifies disk, this`dirdirty
      ensures Core(geo, Now(), lay) && DirStored(Now()) && !dirdirty
      ensures DirFlushed(old(disk[..]), dir, old(dirdirty), disk[..])
    {
      hide Core, DirStored;
      ghost var s := Now();
      CoreGeometry(geo, s, lay);
      if dirdirty {
        FlushDirectory(geo, s, lay);
        WriteDir();
        dirdirty := false;
        assert Now() == s.(disk := s.disk[0 := DirSector(s.dir)], dirdirty := false);
      }
    }

    /** Stores the cached data block of m if it has changed. */
    method StoreData(m: int)
      requires disk as object != lfltab && 0 <= m < lfltab.Length && lfltab[m].used
      requires Core(geo, Now(), lay) && DirStored(Now())
      modifies disk, lfltab
      ensures Core(geo, Now(), lay) && DirStored(Now())
      ensures lfltab[..] == old(lfltab[..])[m := old(lfltab[m]).(dbdirty := false)]
      ensures disk.Length > 0 && disk[0] == old(disk[0])
    {
      hide Core, DirStored;
      ghost var s := Now();
      CoreGeometry(geo, s, lay);
      if lfltab[m].dbdirty {
        FlushData(geo, s, lay, m);
        disk[lfltab[m].dnum] := Raw(lfltab[m].dblock);
        lfltab[m] := lfltab[m].(dbdirty := false);
        assert Now() == s.(disk := s.disk[s.tab[m].dnum := Raw(s.tab[m].dblock)],
               tab := s.tab[m := s.tab[m].(dbdirty := false)]);
        DirStoredFrame(s, Now());
      }
    }

    /** Stores the cached index block of m if it has changed. */
    method StoreIndex(m: int)
      requires disk as object != lfltab && 0 <= m < lfltab.Length && lfltab[m].used
      requires Core(geo, Now(), lay) && DirStored(Now())
      modifies disk, lfltab, this`ibd
      ensures Core(geo, Now(), lay) && DirStored(Now())
      ensures lfltab[..] == old(lfltab[..])[m := old(lfltab[m]).(ibdirty := false)]
      ensures disk.Length > 0 && disk[0] == old(disk[0])
    {
      hide Core, DirStored, Encodable, Decoded;
      ghost var s := Now();
      CoreGeometry(geo, s, lay);
      if lfltab[m].ibdirty {
        CachedIndexEncodable(geo, s, lay, m);
        assert |lfltab[m].iblock.dba| == LF_IBLEN;
        IbPut(lfltab[m].inum, lfltab[m].iblock);
        FlushIndex(geo, s, lay, m, disk[..], ibd);
        lfltab[m] := lfltab[m].(ibdirty := false);
        assert Now() == s.(disk := disk[..], ibd := ibd, tab := s.tab[m := s.tab[m].(ibdirty := false)]);
        DirStoredFrame(s, Now());
      }
    }

    /** lfflush: stores the directory, the cached data block and the cached index block as needed. */
    method Flush(m: int) returns (r: int)
      requires disk as object != lfltab && 0 <= m < lfltab.Length
      requires Core(geo, Now(), lay) && DirStored(Now())
      modifies disk, lfltab, this`dirdirty, this`ibd
      ensures r == (if old(lfltab[m].used) then OK else SYSERR)
      ensures r == SYSERR ==> Now() == old(Now())
      ensures r == OK ==> Core(geo, Now(), lay) && DirStored(Now()) && !dirdirty
      ensures r == OK ==> lfltab[..] == old(lfltab[..])[m := old(lfltab[m]).(ibdirty := false, dbdirty := false)]
      ensures r == OK ==> DirFlushed(old(disk[..]), dir, old(dirdirty), disk[..])
    {
      hide Core, DirStored;
      if !lfltab[m].used {
        return SYSERR;
      }
      StoreDir();
      assert lfltab[..] == old(lfltab[..]);
      StoreData(m);
      StoreIndex(m);
      return OK;
    }

    // ---- lfsetup --------------------------------------------------------------------------

    /** lfsetup, first step: with no index block in memory fetches or creates the first one;
        with one that lies behind the position goes back to the first.  Index block j becomes current. */
    method FirstIndex(m: int) returns (ghost j: int)
      requires disk as object != lfltab && Settled(m)
      requires Core(geo, Now(), lay) && DirStored(Now()) && 0 <= lfltab[m].entry < |lay.chain|
      requires lay.chain[lfltab[m].entry] == [] ==> lay.ifl != []
      modifies this, disk, lfltab
      ensures dirpresent == old(dirpresent) && Core(geo, Now(), lay)
      ensures IndexMoved(old(lay), lay, old(lfltab[..]), lfltab[..], m, j) && 0 <= j
      ensures j > 0 ==> LF_IDATA * j <= lfltab[m].pos
      ensures if old(lay.chain[lfltab[m].entry]) == [] then lay == TakeIndex(old(lay), old(lfltab[m].entry)) && j == 0
              else lay == old(lay)
      ensures lay == old(lay) ==> DirStored(Now()) && !lfltab[m].ibdirty
    {
      hide Core, Synced, IbImage, IbAt, OpenOK, Decoded, OwnershipOK, Placed;
      ghost var s := Now();
      ghost var k := lfltab[m].entry;
      CoreGeometry(geo, s, lay);
      CachedIndex(geo, s, lay, m);
      var ibnum := lfltab[m].inum;
      j := if ibnum == LF_INULL then 0 else lay.iown[ibnum].at;
      if ibnum == LF_INULL {
        ibnum := dir.files[lfltab[m].entry].ilist;
        if ibnum == LF_INULL {
          FreeHeads(geo, s, lay);
          ibnum := IbAlloc();
          var iblock := D.IbClear(0);
          dir := dir.(files := dir.files[lfltab[m].entry := dir.files[lfltab[m].entry].(ilist := ibnum)]);
          lfltab[m] := lfltab[m].(iblock := iblock, ibdirty := true, inum := ibnum);
          DecodedElsewhere(geo, s.disk, s.ibd, 0, disk[0]);
          GrowChain(geo, s, lay, m, Now());
          lay := TakeIndex(lay, k);
        } else {
          LoadIb(geo, s, lay, m, 0, lfltab[m].dnum);
          var iblock := IbGet(ibnum);
          lfltab[m] := lfltab[m].(iblock := iblock, inum := ibnum);
        }
      } else if lfltab[m].pos < lfltab[m].iblock.offset {
        LoadIb(geo, s, lay, m, 0, lfltab[m].dnum);
        ibnum := dir.files[lfltab[m].entry].ilist;
        var iblock := IbGet(ibnum);
        lfltab[m] := lfltab[m].(iblock := iblock, inum := ibnum);
        j := 0;
      }
    }

    /** Extends the chain behind its last index block j, which is current. */
    method ExtendChain(m: int, ghost j: int)
      requires disk as object != lfltab && Settled(m) && lay.ifl != []
      requires Core(geo, Now(), lay)
      requires 0 <= lfltab[m].entry < |lay.chain| && 0 <= lfltab[m].inum < |lay.iown|
      requires lay.iown[lfltab[m].inum] == Used(lfltab[m].entry, j) && j == |lay.chain[lfltab[m].entry]| - 1
      requires LF_IDATA * (j + 1) <= lfltab[m].pos
      modifies this, disk, lfltab
      ensures dirpresent == old(dirpresent) && Core(geo, Now(), lay) && DirStored(Now())
      ensures lay == TakeIndex(old(lay), old(lfltab[m].entry))
      ensures IndexMoved(old(lay), lay, old(lfltab[..]), lfltab[..], m, j + 1)
    {
      hide Core, DirStored, IbImage, IbAt, OpenOK, Decoded, Encodable, ClearedIb, OwnershipOK, Placed;
      ghost var s := Now();
      ghost var k := lfltab[m].entry;
      CoreGeometry(geo, s, lay);
      CachedIndex(geo, s, lay, m);
      ImageLink(lay.chain[k], lay.blks[k], j);
      PositionFits(geo, s, lay, m);
      FreeHeads(geo, s, lay);
      var ibnum := IbAlloc();
      var iblock := lfltab[m].iblock.(next := ibnum);
      LinkedImageEncodable(geo, s, lay, k, j, ibnum);
      DecodedElsewhere(geo, s.disk, s.ibd, 0, disk[0]);
      IbPut(lfltab[m].inum, iblock);
      var newoffset := iblock.offset + LF_IDATA;
      iblock := D.IbClear(newoffset);
      lfltab[m] := lfltab[m].(inum := ibnum, iblock := iblock, ibdirty := true, dnum := LF_DNULL);
      GrowChain(geo, s, lay, m, Now());
      lay := TakeIndex(lay, k);
      JustStored(geo, Now(), lay);
    }

    /** lfsetup, one turn of its loop: moves from index block j to the next, creating it when there is none. */
    method NextIndex(m: int, ghost j: int)
      requires disk as object != lfltab && Settled(m)
      requires Core(geo, Now(), lay) && DirStored(Now())
      requires 0 <= lfltab[m].entry < |lay.chain| && 0 <= lfltab[m].inum < |lay.iown|
      requires lay.iown[lfltab[m].inum] == Used(lfltab[m].entry, j) && LF_IDATA * (j + 1) <= lfltab[m].pos
      requires j + 1 >= |lay.chain[lfltab[m].entry]| ==> lay.ifl != []
      modifies this, disk, lfltab
      ensures dirpresent == old(dirpresent) && Core(geo, Now(), lay) && DirStored(Now())
      ensures if j + 1 < old(|lay.chain[lfltab[m].entry]|) then lay == old(lay) && !lfltab[m].ibdirty
              else lay == TakeIndex(old(lay), old(lfltab[m].entry))
      ensures IndexMoved(old(lay), lay, old(lfltab[..]), lfltab[..], m, j + 1)
    {
      hide Core, DirStored, IbImage, IbAt, OpenOK, Decoded, OwnershipOK, Placed;
      ghost var s := Now();
      CoreGeometry(geo, s, lay);
      CachedIndex(geo, s, lay, m);
      ImageLink(lay.chain[lfltab[m].entry], lay.blks[lfltab[m].entry], j);
      var ibnum := lfltab[m].iblock.next;
      if ibnum == LF_INULL {
        ChainEnds(geo, s, lay, lfltab[m].entry, j);
        ExtendChain(m, j);
      } else {
        LoadIb(geo, s, lay, m, j + 1, LF_DNULL);
        var iblock := IbGet(ibnum);
        lfltab[m] := lfltab[m].(iblock := iblock, inum := ibnum, dnum := LF_DNULL);
        DirStoredFrame(s, Now());
      }
    }

    /** lfsetup, index part: makes current the index block that covers the position. */
    method SetIndex(m: int)
      requires disk as object != lfltab && Settled(m)
      requires Core(geo, Now(), lay) && DirStored(Now()) && 0 <= lfltab[m].entry < |lay.chain| == |lay.blks|
      requires lfltab[m].pos / LF_IDATA >= |lay.chain[lfltab[m].entry]| ==> lay.ifl != []
      modifies this, disk, lfltab
      ensures dirpresent == old(dirpresent) && Core(geo, Now(), lay)
      ensures IndexMoved(old(lay), lay, old(lfltab[..]), lfltab[..], m, lfltab[m].pos / LF_IDATA)
      ensures if old(lfltab[m].pos / LF_IDATA < |lay.chain[lfltab[m].entry]|)
              then lay == old(lay) && !lfltab[m].ibdirty && DirStored(Now())
              else lay == TakeIndex(old(lay), old(lfltab[m].entry))
    {
      hide Core, DirStored, IbImage, IbAt, OpenOK, Decoded, OwnershipOK, Placed;
      CachedIndex(geo, Now(), lay, m);
      ghost var k, n := lfltab[m].entry, |lay.chain[lfltab[m].entry]|;
      ghost var j := FirstIndex(m);
      CachedIndex(geo, Now(), lay, m);
      while lfltab[m].pos - lfltab[m].pos % LF_IDATA > lfltab[m].iblock.offset
        invariant Core(geo, Now(), lay) && dirpresent == old(dirpresent)
        invariant IndexMoved(old(lay), lay, old(lfltab[..]), lfltab[..], m, j) && 0 <= j
        invariant lfltab[m].iblock.offset == LF_IDATA * j && LF_IDATA * j <= lfltab[m].pos
        invariant if j < n then lay == old(lay) && !lfltab[m].ibdirty && DirStored(Now())
                  else j == n && lay == TakeIndex(old(lay), k)
        decreases lfltab[m].pos - LF_IDATA * j
      {
        CachedIndex(geo, Now(), lay, m);
        NextIndex(m, j);
        j := j + 1;
        CachedIndex(geo, Now(), lay, m);
      }
    }

    /** lfsetup, data part: makes current the data block that covers the position, allocating one past the end. */
    method SetData(m: int)
      requires disk as object != lfltab && Core(geo, Now(), lay)
      requires 0 <= m < lfltab.Length && lfltab[m].used && !lfltab[m].dbdirty && lfltab[m].byteptr == LF_BLKSIZ
      requires 0 <= lfltab[m].entry < |lay.blks| == |lay.chain| && 0 <= lfltab[m].inum < |lay.iown|
      requires lay.iown[lfltab[m].inum] == Used(lfltab[m].entry, lfltab[m].pos / LF_IDATA)
      requires if lfltab[m].pos / LF_BLKSIZ < |lay.blks[lfltab[m].entry]|
               then !lfltab[m].ibdirty && DirStored(Now()) else lay.dfl != []
      modifies this, disk, lfltab
      ensures dirpresent == old(dirpresent) && Core(geo, Now(), lay) && DirStored(Now())
      ensures lay == if old(lfltab[m].pos / LF_BLKSIZ < |lay.blks[lfltab[m].entry]|) then old(lay)
              else TakeData(old(lay), old(lfltab[m].entry))
      ensures Positioned(lay, old(lfltab[..]), lfltab[..], m)
      ensures !lfltab[m].dbdirty
    {
      hide Core, DirStored, IbImage, IbAt, OpenOK, Decoded, OwnershipOK, Placed;
      ghost var s := Now();
      ghost var k := lfltab[m].entry;
      CoreGeometry(geo, s, lay);
      CachedIndex(geo, s, lay, m);
      SlotOf(lay.chain[k], lay.blks[k], lfltab[m].pos);
      var dindex := lfltab[m].pos % LF_IDATA / LF_BLKSIZ;
      var dnum := lfltab[m].iblock.dba[dindex];
      BlockNumber(geo, lay, k, lfltab[m].pos / LF_BLKSIZ);
      if dnum == LF_DNULL {
        FreeHeads(geo, s, lay);
        var fill;
        dnum, fill := DbAlloc();
        lfltab[m] := lfltab[m].(iblock := lfltab[m].iblock.(dba := lfltab[m].iblock.dba[dindex := dnum]),
            ibdirty := true,
                                dnum := dnum, dblock := fill, byteptr := lfltab[m].pos % LF_BLKSIZ);
        GrowBlocks(geo, s, lay, m, fill, Now());
        lay := TakeData(lay, k);
      } else if dnum != lfltab[m].dnum {
        LoadDb(geo, s, lay, m, lfltab[m].pos / LF_BLKSIZ);
        lfltab[m] := lfltab[m].(dblock := disk[dnum].b, dbdirty := false, dnum := dnum,
            byteptr := lfltab[m].pos % LF_BLKSIZ);
        DirStoredFrame(s, Now());
      } else {
        KeepDb(geo, s, lay, m);
        lfltab[m] := lfltab[m].(byteptr := lfltab[m].pos % LF_BLKSIZ);
        DirStoredFrame(s, Now());
      }
    }

    /** lfsetup: flushes what is dirty, then makes the index and data blocks of the position current. */
    method Setup(m: int)
      requires disk as object != lfltab && Core(geo, Now(), lay) && DirStored(Now())
      requires 0 <= m < lfltab.Length && lfltab[m].used && lfltab[m].byteptr == LF_BLKSIZ
      requires 0 <= lfltab[m].entry < |lay.blks| == |lay.chain|
      requires lfltab[m].pos / LF_BLKSIZ >= |lay.blks[lfltab[m].entry]| ==> lay.dfl != []
      requires lfltab[m].pos / LF_IDATA >= |lay.chain[lfltab[m].entry]| ==> lay.ifl != []
      modifies this, disk, lfltab
      ensures dirpresent == old(dirpresent) && Core(geo, Now(), lay) && DirStored(Now())
      ensures lay == GrowTo(old(lay), old(lfltab[m].entry), old(lfltab[m].pos))
      ensures Positioned(lay, old(lfltab[..]), lfltab[..], m)
    {
      hide Core, DirStored, OwnershipOK, Placed, OpenOK, Decoded;
      CachedIndex(geo, Now(), lay, m);
      if lfltab[m].ibdirty || lfltab[m].dbdirty {
        var r := Flush(m);
      }
      SetIndex(m);
      CachedIndex(geo, Now(), lay, m);
      SetData(m);
    }

    // ---- the calls on an open file -----------------------------------------------------------

    /** lflgetc. */
    method Getc(m: int) returns (r: int)
      requires Valid() && 0 <= m < lfltab.Length
      modifies this, disk, lfltab
      ensures Valid() && lay == old(lay) && |lay.names| == |lay.data| && V.VolumeOK(old(Volume()))
      ensures (Volume(), r) == V.Getc(old(Volume()), m)
    {
      hide Core, DirStored, Tight;
      VolumeSound();
      if !lfltab[m].used {
        return SYSERR;
      }
      NoGrowth(geo, Now(), lay, m);
      if lfltab[m].pos >= dir.files[lfltab[m].entry].size {
        return V.EOF;
      }
      if lfltab[m].byteptr >= LF_BLKSIZ {
        Setup(m);
      }
      ghost var s := Now();
      ReadByte(geo, s, lay, m);
      StepPosition(geo, s, lay, m);
      r := lfltab[m].dblock[lfltab[m].byteptr];
      lfltab[m] := lfltab[m].(byteptr := lfltab[m].byteptr + 1, pos := lfltab[m].pos + 1);
      DirStoredFrame(s, Now());
      assert Volume() == V.Update(old(Volume()), m, V.Contents(old(Volume()), m), old(lfltab[m].pos) + 1);
    }

    /** The last part of lflputc: counts an appended byte, stores it and moves on. */
    method StoreByte(m: int, ch: byte)
      requires disk as object != lfltab && Core(geo, Now(), lay) && DirStored(Now())
      requires 0 <= m < lfltab.Length && lfltab[m].used && lfltab[m].byteptr < LF_BLKSIZ
      requires 0 <= lfltab[m].entry < |lay.data| && 0 <= lfltab[m].pos <= |lay.data[lfltab[m].entry]|
      modifies this, lfltab
      ensures dirpresent == old(dirpresent) && ibd == old(ibd) && Core(geo, Now(), lay) && DirStored(Now())
      ensures lay == old(lay.(data := lay.data[lfltab[m].entry := PutAt(lay.data[lfltab[m].entry], lfltab[m].pos, ch)]))
      ensures lfltab[m].used && lfltab[m].entry == old(lfltab[m].entry) && lfltab[m].pos == old(lfltab[m].pos) + 1
      ensures forall n :: 0 <= n < lfltab.Length && n != m ==> lfltab[n] == old(lfltab[n])
    {
      hide Core, DirStored;
      ghost var s := Now();
      NoGrowth(geo, s, lay, m);
      if lfltab[m].pos >= dir.files[lfltab[m].entry].size {
        dir := dir.(files := dir.files[lfltab[m].entry :=
            dir.files[lfltab[m].entry].(size := dir.files[lfltab[m].entry].size + 1)]);
        dirdirty := true;
      }
      lfltab[m] := lfltab[m].(dblock := lfltab[m].dblock[lfltab[m].byteptr := ch],
                              byteptr := lfltab[m].byteptr + 1, pos := lfltab[m].pos + 1, dbdirty := true);
      PutByte(geo, s, lay, m, ch, Now());
      DirStoredFrame(s, Now());
      lay := lay.(data := lay.data[lfltab[m].entry := PutAt(lay.data[lfltab[m].entry], lfltab[m].pos - 1, ch)]);
    }

    /** lflputc.  Running out of blocks halts the system. */
    method Putc(m: int, ch: byte) returns (r: int)
      requires Valid() && 0 <= m < lfltab.Length
      requires |lay.names| == |lay.data| && V.VolumeOK(Volume()) && V.Fits(geo, V.Putc(Volume(), m, ch).0)
      modifies this, disk, lfltab
      ensures Valid() && |lay.names| == |lay.data|
      ensures (Volume(), r) == V.Putc(old(Volume()), m, ch)
    {
      hide Core, DirStored, Tight, GrowTo, V.Fits, PutAt;
      if !lfltab[m].used {
        return SYSERR;
      }
      ghost var s0 := Now();
      ghost var k, pos := lfltab[m].entry, lfltab[m].pos;
      NoGrowth(geo, s0, lay, m);
      RoomToPut(geo, s0, lay, m, PutAt(lay.data[k], pos, ch));
      TightAfterPut(geo, s0, lay, m, ch);
      if lfltab[m].pos > dir.files[lfltab[m].entry].size {
        return SYSERR;
      }
      if lfltab[m].byteptr >= LF_BLKSIZ {
        Setup(m);
      }
      StoreByte(m, ch);
      assert Volume() == V.Update(old(Volume()), m, PutAt(V.Contents(old(Volume()), m), pos, ch), pos + 1);
      return OK;
    }

    /** lflseek. */
    method Seek(m: int, offset: int) returns (r: int)
      requires Valid() && 0 <= m < lfltab.Length && 0 <= offset
      modifies lfltab
      ensures Valid() && |lay.names| == |lay.data| && V.VolumeOK(old(Volume()))
      ensures (Volume(), r) == V.Seek(old(Volume()), m, offset)
    {
      hide Core, DirStored, Tight;
      VolumeSound();
      if !lfltab[m].used {
        return SYSERR;
      }
      ghost var s := Now();
      NoGrowth(geo, s, lay, m);
      if offset > dir.files[lfltab[m].entry].size {
        return SYSERR;
      }
      Reposition(geo, s, lay, m, offset, LF_BLKSIZ);
      lfltab[m] := lfltab[m].(pos := offset, byteptr := LF_BLKSIZ);
      DirStoredFrame(s, Now());
      assert Volume() == old(Volume()).(fds := old(Volume()).fds[m := V.Open(lfltab[m].entry, offset)]);
      return OK;
    }

    /** lflread. */
    method Read(m: int, buff: array<byte>, count: int) returns (r: int)
      requires Valid() && 0 <= m < lfltab.Length && count <= buff.Length
      modifies this, disk, lfltab, buff
      ensures Valid() && |lay.names| == |lay.data| && V.VolumeOK(old(Volume()))
      ensures (Volume(), r) == (V.Read(old(Volume()), m, count).0, V.Read(old(Volume()), m, count).1)
      ensures var got := V.Read(old(Volume()), m, count).2;
              |got| <= buff.Length && buff[..] == got + old(buff[..])[|got|..]
    {
      hide Valid, VolumeOf, V.Update;
      VolumeSound();
      ghost var v := Volume();
      ghost var buff0 := buff[..];
      if count < 0 {
        return SYSERR;
      }
      var numread := 0;
      while numread < count
        invariant 0 <= numread <= count && Valid() && |lay.names| == |lay.data|
        invariant numread == 0 ==> Volume() == v
        invariant numread > 0 ==> v.fds[m].Open? && v.fds[m].pos + numread <= |V.Contents(v, m)|
        invariant numread > 0 ==> Volume() == V.Update(v, m, V.Contents(v, m), v.fds[m].pos + numread)
        invariant forall t :: numread <= t < buff.Length ==> buff[t] == buff0[t]
        invariant forall t :: 0 <= t < numread ==> buff[t] == V.Contents(v, m)[v.fds[m].pos + t]
      {
        if v.fds[m].Open? {
          GetcInRun(v, m, numread);
        }
        var nxtbyte := Getc(m);
        if nxtbyte == SYSERR {
          return SYSERR;
        } else if nxtbyte == V.EOF {
          return if numread == 0 then V.EOF else numread;
        }
        buff[numread] := nxtbyte;
        numread := numread + 1;
      }
      if numread > 0 {
        assert buff[..] == V.Contents(v, m)[v.fds[m].pos..v.fds[m].pos + numread] + buff0[numread..];
      }
      return numread;
    }

    /** lflwrite. */
    method Write(m: int, buff: array<byte>, count: int) returns (r: int)
      requires Valid() && 0 <= m < lfltab.Length && count <= buff.Length
      requires |lay.names| == |lay.data| && V.VolumeOK(Volume()) && V.Fits(geo, V.Write(Volume(), m, buff[..], count).0)
      modifies this, disk, lfltab
      ensures Valid() && |lay.names| == |lay.data|
      ensures (Volume(), r) == V.Write(old(Volume()), m, old(buff[..]), count)
    {
      hide Valid, VolumeOf, V.Fits, PutAt, V.Splice, V.Update;
      VolumeSound();
      ghost var v, buf := Volume(), buff[..];
      if count < 0 {
        return SYSERR;
      }
      for i := 0 to count
        invariant Valid() && |lay.names| == |lay.data|
        invariant i == 0 ==> Volume() == v
        invariant i > 0 ==> v.fds[m].Open?
        invariant i > 0 ==>
                  Volume() == V.Update(v, m, V.Splice(V.Contents(v, m), v.fds[m].pos, buf[..i]), v.fds[m].pos + i)
      {
        if v.fds[m].Open? {
          ghost var data, pos := V.Contents(v, m), v.fds[m].pos;
          PutcInRun(v, m, buf, i);
          FitsShorter(geo, v, m, V.Splice(data, pos, buf[..count]), pos + count, V.Splice(data, pos, buf[..i + 1]),
              pos + i + 1);
        }
        var w := Putc(m, buff[i]);
        if w == SYSERR {
          return SYSERR;
        }
      }
      return count;
    }

    /** lflclose.  Afterwards the file is on the disk exactly when the directory was marked as changed
        before, or the directory on the disk counted the file already; that is certain unless it is empty. */
    method Close(m: int) returns (r: int)
      requires Valid() && 0 <= m < lfltab.Length
      modifies this, disk, lfltab
      ensures Valid() && lay == old(lay) && |lay.names| == |lay.data| && V.VolumeOK(old(Volume()))
      ensures (Volume(), r) == V.Close(old(Volume()), m)
      ensures r == OK ==> !dirdirty && dirpresent && disk[0].DirSector?
      ensures old(!dirdirty && !lfltab[m].ibdirty && !lfltab[m].dbdirty) ==> disk[..] == old(disk[..])
      ensures r == OK ==> 0 <= old(lfltab[m].entry) < |lay.names| && old(disk[0].DirSector?)
      ensures r == OK ==> var k := old(lfltab[m].entry);
              && (OnDisk(disk[..], k, lay.names[k], lay.data[k]) <==> old(dirdirty) || k < old(disk[0].dir.nfiles))
              && (lay.data[k] != [] ==> OnDisk(disk[..], k, lay.names[k], lay.data[k]))
    {
      hide Core, DirStored, Tight, OnDisk;
      VolumeSound();
      if !lfltab[m].used {
        return SYSERR;
      }
      NoGrowth(geo, Now(), lay, m);
      CoreGeometry(geo, Now(), lay);
      if dirdirty || lfltab[m].dbdirty || lfltab[m].ibdirty {
        var f := Flush(m);
      }
      ghost var s := Now();
      CoreGeometry(geo, s, lay);
      ReplaceClean(geo, s, lay, m, lfltab[m].(used := false));
      lfltab[m] := lfltab[m].(used := false);
      DirStoredFrame(s, Now());
      OnlyOpener(geo, s, lay, m);
      StoredFile(geo, old(disk[..]), old(dirdirty), Now(), lay, lfltab[m].entry);
      assert Volume() == old(Volume()).(fds := old(Volume()).fds[m := V.Closed]);
      return OK;
    }

    // ---- lfsopen -----------------------------------------------------------------------------

    /** lfgetmode: the mode bits (1 read, 2 write, 4 new, 8 old), or SYSERR. */
    static method GetMode(mode: string) returns (mbits: int)
      ensures mbits == SYSERR <==> !V.ValidMode(mode)
      ensures V.ValidMode(mode) ==> mbits == ModeBits(mode)
    {
      var r, w, o, n := false, false, false, false;
      for i := 0 to |mode|
        invariant V.ValidMode(mode[..i])
        invariant r == ('r' in mode[..i]) && w == ('w' in mode[..i]) && o == ('o' in mode[..i])
                  && n == ('n' in mode[..i])
      {
        var ch := mode[i];
        assert mode[..i + 1] == mode[..i] + [ch];
        assert ch in "rwon" <==> ch == 'r' || ch == 'w' || ch == 'o' || ch == 'n';
        if ch == 'r' {
          if r { ModeRepeats(mode, i); return SYSERR; }
          r := true;
        } else if ch == 'w' {
          if w { ModeRepeats(mode, i); return SYSERR; }
          w := true;
        } else if ch == 'o' {
          if o || n { ModeRepeats(mode, i); return SYSERR; }
          o := true;
        } else if ch == 'n' {
          if o || n { ModeRepeats(mode, i); return SYSERR; }
          n := true;
        } else {
          return SYSERR;
        }
      }
      assert mode[..|mode|] == mode;
      if !r && !w {
        r, w := true, true;
      }
      return (if r then 1 else 0) + (if w then 2 else 0) + (if n then 4 else 0) + (if o then 8 else 0);
    }

    static lemma ModeRepeats(mode: string, i: int)
      requires 0 <= i < |mode|
      requires mode[i] in mode[..i] || (mode[i] in "on" && ('o' in mode[..i] || 'n' in mode[..i]))
      ensures !V.ValidMode(mode)
    {
      if mode[i] in mode[..i] {
        var j :| 0 <= j < i && mode[j] == mode[i];
      } else {
        var j :| 0 <= j < i && (mode[j] == 'o' || mode[j] == 'n');
        assert mode[j] in "on";
      }
    }

    static function ModeBits(mode: string): int
    {
      var r, w := 'r' in mode, 'w' in mode;
      (if r || !w then 1 else 0) + (if w || !r then 2 else 0) + (if 'n' in mode then 4 else 0)
          + (if 'o' in mode then 8 else 0)
    }

    /** First search of lfsopen: is the name open already, and which device is free? */
    method FindDevice(name: string) returns (r: int, lfnext: int)
      requires Valid()
      ensures |lay.names| == |lay.data| && V.VolumeOK(Volume())
      ensures r == SYSERR || r == OK
      ensures r == SYSERR <==> V.AlreadyOpen(Volume(), name)
      ensures r == OK ==> lfnext == V.FirstClosed(Volume().fds, 0) && -1 <= lfnext < lfltab.Length
      ensures r == OK && lfnext >= 0 ==> !lfltab[lfnext].used
      ensures r == OK ==> forall x :: 0 <= x < lfltab.Length && lfltab[x].used ==> lfltab[x].name != name
    {
      hide Inv, Synced;
      VolumeSound();
      NamesSound();
      lfnext := SYSERR;
      for i := 0 to lfltab.Length
        invariant -1 <= lfnext < i
        invariant forall x :: 0 <= x < (if lfnext == SYSERR then i else lfnext) ==> lfltab[x].used
        invariant lfnext != SYSERR ==> !lfltab[lfnext].used
        invariant forall x :: 0 <= x < i && lfltab[x].used ==> lfltab[x].name != name
      {
        if !lfltab[i].used {
          if lfnext == SYSERR {
            lfnext := i;
          }
          continue;
        }
        if lfltab[i].name == name {
          assert Volume().fds[i].Open?;
          return SYSERR, lfnext;
        }
      }
      assert forall x :: 0 <= x < lfltab.Length ==> Volume().fds[x].Open? == lfltab[x].used;
      V.FirstClosedIs(Volume().fds, 0, lfnext);
      return OK, lfnext;
    }

    lemma NamesSound()
      requires Valid()
      ensures |lay.names| == |lay.data|
      ensures forall m :: 0 <= m < lfltab.Length && lfltab[m].used ==>
                0 <= lfltab[m].entry < |lay.names| && lfltab[m].name == lay.names[lfltab[m].entry]
      ensures dirpresent ==> |lay.names| == dir.nfiles <= LF_NUM_DIR_ENT == |dir.files|
      ensures dirpresent ==> forall k :: 0 <= k < |lay.names| ==> dir.files[k].name == lay.names[k]
    {
      hide Core, Synced;
      OpenNames(geo, if dirpresent then Now() else Now().(dir := disk[0].dir), lay);
    }

    /** Reads the directory unless it is in memory already. */
    method LoadDir()
      requires Valid()
      modifies this`dir, this`dirpresent
      ensures Valid() && dirpresent && Volume() == old(Volume())
    {
      hide Core, Tight, Synced;
      VolumeSound();
      if !dirpresent {
        dir := disk[0].dir;
        dirpresent := true;
      }
    }

    /** Second search of lfsopen: the directory entry with that name, or the number of files. */
    method FindFile(name: string) returns (k: int)
      requires Valid() && dirpresent
      ensures |lay.names| == |lay.data| == dir.nfiles <= LF_NUM_DIR_ENT && Volume().files == VolumeOf(lay, []).files
      ensures 0 <= k <= dir.nfiles == |Volume().files| && (k < dir.nfiles ==> lay.names[k] == name)
      ensures V.FirstNamed(Volume().files, name, 0) == if k < dir.nfiles then k else -1
    {
      hide Core, Tight, Synced, DirStored;
      VolumeSound();
      NamesSound();
      ghost var files := Volume().files;
      k := 0;
      while k < dir.nfiles && dir.files[k].name != name
        invariant 0 <= k <= dir.nfiles
        invariant forall x :: 0 <= x < k ==> dir.files[x].name != name
      {
        k := k + 1;
      }
      assert forall x :: 0 <= x < |files| ==> files[x].name == lay.names[x];
      V.FirstNamedIs(files, name, 0, if k < dir.nfiles then k else -1);
    }

    /** lfsopen: opens an existing file, or creates an empty one in the directory in memory only. */
    method Open(name: string, mode: string) returns (r: int)
      requires Valid()
      modifies this, lfltab
      ensures Valid() && |lay.names| == |lay.data| && V.VolumeOK(old(Volume())) && ibd == old(ibd)
      ensures (Volume(), r) == V.OpenFile(old(Volume()), name, mode)
      ensures dirdirty == old(dirdirty)
      ensures r >= 0 ==> r < lfltab.Length && lfltab[r].used && !lfltab[r].ibdirty && !lfltab[r].dbdirty && dirpresent
    {
      hide Valid, V.ValidMode, V.AlreadyOpen, V.FirstClosed, V.FirstNamed;
      VolumeSound();
      if |name| >= LF_NAME_LEN {
        return SYSERR;
      }
      var mbits := GetMode(mode);
      if mbits == SYSERR {
        return SYSERR;
      }
      var st, lfnext := FindDevice(name);
      if st == SYSERR {
        return SYSERR;
      }
      if lfnext == SYSERR {
        return SYSERR;
      }
      LoadDir();
      var k := FindFile(name);
      if k == dir.nfiles {
        if mbits / 8 % 2 == 1 {
          return SYSERR;
        }
        if dir.nfiles >= LF_NUM_DIR_ENT {
          return SYSERR;
        }
        CreateEntry(name);
      } else if mbits / 4 % 2 == 1 {
        return SYSERR;
      }
      TakeDevice(lfnext, k, name, mbits % 4);
      return lfnext;
    }

    /** Case 1 of lfsopen: the next directory entry becomes an empty file. */
    method CreateEntry(name: string)
      requires Valid() && dirpresent && dir.nfiles < LF_NUM_DIR_ENT
      modifies this`dir, this`lay
      ensures Valid() && lay == AddFile(old(lay), name) && |old(lay).names| == |old(lay).data|
      ensures Volume() == old(Volume()).(files := old(Volume()).files + [V.FileImage(name, [])])
    {
      hide Core, Tight, DirStored;
      NamesSound();
      CreateFile(geo, Now(), lay, name,
                 dir.(nfiles := dir.nfiles + 1, files := dir.files[dir.nfiles := DirEntry(0, LF_INULL, name)]));
      dir := dir.(files := dir.files[dir.nfiles := DirEntry(0, LF_INULL, name)], nfiles := dir.nfiles + 1);
      lay := AddFile(lay, name);
      assert Volume().files == old(Volume()).files + [V.FileImage(name, [])];
    }

    /** The end of lfsopen: fills the table entry of the device. */
    method TakeDevice(m: int, k: int, name: string, mode: int)
      requires Valid() && dirpresent && 0 <= m < lfltab.Length && !lfltab[m].used
      requires 0 <= k < |lay.names| && lay.names[k] == name
      requires forall x :: 0 <= x < lfltab.Length && lfltab[x].used ==> lfltab[x].name != name
      modifies lfltab
      ensures Valid() && |lay.names| == |lay.data| && lfltab[m] == Opened(old(lfltab[m]), k, name, mode)
      ensures Volume() == old(Volume()).(fds := old(Volume()).fds[m := V.Open(k, 0)])
    {
      hide Core, Tight, DirStored;
      NamesSound();
      ghost var s := Now();
      OpenEntry(geo, s, lay, m, k, mode);
      lfltab[m] := Opened(lfltab[m], k, name, mode);
      DirStoredFrame(s, Now());
      assert Volume().fds == old(Volume()).fds[m := V.Open(k, 0)];
    }

    // ---- lftruncate --------------------------------------------------------------------------

    /** lfdbfree: pushes a data block on the free list and stores the directory. */
    method DbFree(dnum: int)
      requires GeometryOK(geo) && geo.first <= dnum < geo.nsect <= disk.Length && IsInt32(dir.dfree)
      modifies disk, this`dir
      ensures dir == old(dir).(dfree := dnum)
      ensures disk[0] == DirSector(dir) && disk[dnum].Raw? && NextFree(disk[dnum].b) == old(dir.dfree)
      ensures disk[..] == old(disk[..])[dnum := disk[dnum]][0 := DirSector(dir)]
    {
      var junk: Block := *;
      var buf := FreeBlock(dir.dfree, junk);
      dir := dir.(dfree := dnum);
      disk[dnum] := Raw(buf);
      WriteDir();
    }

    /** The inner loop of lftruncate: frees the data blocks of index block j of file k. */
    method FreeBlocksOf(iblock: IBlk, ghost k: int, ghost j: int, ghost before: seq<Sector>, ghost d0: Directory)
      returns (cleared: IBlk)
      requires OwnershipOK(geo, lay) && Decoded(geo, disk[..], ibd) && disk.Length > 0 && disk[0].DirSector?
      requires 0 <= k < |lay.chain| && 0 <= j < |lay.chain[k]| && |lay.blks[k]| <= LF_IBLEN * |lay.chain[k]|
      requires iblock == IbImage(lay.chain[k], lay.blks[k], j)
      requires DataFreed(geo, before, lay, k, Least(LF_IBLEN * j, |lay.blks[k]|), disk[..], dir.dfree)
      requires dir == d0.(dfree := dir.dfree)
      modifies disk, this`dir
      ensures Decoded(geo, disk[..], ibd) && disk[0].DirSector?
      ensures DataFreed(geo, before, lay, k, Least(LF_IBLEN * (j + 1), |lay.blks[k]|), disk[..], dir.dfree)
      ensures dir == d0.(dfree := dir.dfree)
      ensures cleared == ClearedIb(iblock.offset).(next := iblock.next)
    {
      hide Partition, Decoded, DataFreed, NextFree, ClearedIb;
      var dba := iblock.dba;
      for i := 0 to LF_IBLEN
        invariant |dba| == LF_IBLEN && dba[i..] == iblock.dba[i..] && forall x :: 0 <= x < i ==> dba[x] == LF_DNULL
        invariant Decoded(geo, disk[..], ibd) && disk[0].DirSector? && dir == d0.(dfree := dir.dfree)
        invariant DataFreed(geo, before, lay, k, Least(LF_IBLEN * j + i, |lay.blks[k]|), disk[..], dir.dfree)
      {
        var nextdb := dba[i];
        assert nextdb == dba[i..][0] == iblock.dba[i..][0];
        ghost var f := LF_IBLEN * j + i;
        BlockNumber(geo, lay, k, f);
        if nextdb != LF_DNULL {
          FreedHead(geo, before, lay, k, f, disk[..], dir.dfree);
          ghost var disk1, dfree1 := disk[..], dir.dfree;
          DbFree(nextdb);
          FreeOneMore(geo, before, lay, k, f, disk1, dfree1, disk[nextdb].b, disk[0]);
          DecodedElsewhere(geo, disk1, ibd, nextdb, disk[nextdb]);
          DecodedElsewhere(geo, disk1[nextdb := disk[nextdb]], ibd, 0, disk[0]);
        }
        dba := dba[i := LF_DNULL];
      }
      cleared := IBlk(iblock.next, iblock.offset, dba);
      ClearedIs(cleared);
    }

    static ghost function Least(a: int, b: int): int { if a < b then a else b }

    /** The outer loop of lftruncate: walks the chain from firstib up to the stop marker ifree. */
    method FreeChain(firstib: int, ifree: int, ghost k: int, ghost s: State)
      requires disk as object != lfltab && disk.Length > 0 && OwnershipOK(geo, lay) && 0 <= k < |lay.chain|
               && lay.chain[k] != []
      requires Decoded(geo, disk[..], ibd) && disk[0].DirSector? && |lay.blks[k]| <= LF_IBLEN * |lay.chain[k]|
      requires firstib == lay.chain[k][0] && ifree == Top(lay.ifl) && ibd == s.ibd && disk[..] == s.disk
      requires forall i ::
               0 <= i < |lay.chain[k]| ==>
                 0 <= lay.chain[k][i] < |s.ibd| && s.ibd[lay.chain[k][i]] == IbImage(lay.chain[k], lay.blks[k], i)
      requires DataFreed(geo, s.disk, lay, k, 0, s.disk, dir.dfree) && IndexFreed(geo, s.ibd, lay, k, 0, s.ibd)
      modifies disk, this`dir, this`ibd
      ensures Decoded(geo, disk[..], ibd) && disk[0].DirSector? && dir == old(dir).(dfree := dir.dfree)
      ensures DataFreed(geo, s.disk, lay, k, |lay.blks[k]|, disk[..], dir.dfree)
      ensures IndexFreed(geo, s.ibd, lay, k, |lay.chain[k]|, ibd)
    {
      hide OwnershipOK, Decoded, DataFreed, IndexFreed, IbImage, ClearedIb, Encodable, NextFree;
      StopMarker(geo, lay, k, 0);
      ghost var j, d0 := 0, dir;
      var nextib := firstib;
      while nextib != ifree
        invariant 0 <= j <= |lay.chain[k]| && nextib == (if j < |lay.chain[k]| then lay.chain[k][j] else ifree)
        invariant Decoded(geo, disk[..], ibd) && disk[0].DirSector? && dir == d0.(dfree := dir.dfree)
        invariant DataFreed(geo, s.disk, lay, k, Least(LF_IBLEN * j, |lay.blks[k]|), disk[..], dir.dfree)
        invariant IndexFreed(geo, s.ibd, lay, k, j, ibd)
        decreases |lay.chain[k]| - j
      {
        StopMarker(geo, lay, k, j);
        StillImage(geo, s.ibd, lay, k, j, ibd);
        ImageLink(lay.chain[k], lay.blks[k], j);
        var iblock := IbGet(nextib);
        iblock := FreeBlocksOf(iblock, k, j, s.disk, d0);
        iblock := iblock.(offset := 0);
        if iblock.next == LF_INULL {
          iblock := iblock.(next := ifree);
        }
        ClearedOffset(LF_IDATA * j);
        ClearedEncodable(geo, lay, k, j);
        ghost var disk1 := disk[..];
        FreeOneIndex(geo, s.ibd, lay, k, j, ibd, iblock);
        IbPut(nextib, iblock);
        AllRaw(geo, disk[..], ibd);
        DataFreedFrame(geo, s.disk, lay, k, Least(LF_IBLEN * (j + 1), |lay.blks[k]|), disk1, dir.dfree, disk[..]);
        nextib := iblock.next;
        j := j + 1;
      }
      if j < |lay.chain[k]| {
        StopMarker(geo, lay, k, j);
      }
    }

    /** The working part of lftruncate, once the caches are stored. */
    method Release(m: int)
      requires disk as object != lfltab && disk.Length > 0 && Core(geo, Now(), lay) && Tight(lay)
      requires 0 <= m < lfltab.Length && lfltab[m].used && !lfltab[m].ibdirty && !lfltab[m].dbdirty
      requires 0 <= lfltab[m].entry < |lay.data| == |lay.chain| == |lay.blks| == |lay.names|
               && lay.chain[lfltab[m].entry] != []
      modifies this, disk, lfltab
      ensures Core(geo, Now(), lay) && Tight(lay) && DirStored(Now()) && dirdirty && dirpresent == old(dirpresent)
      ensures lay == Truncated(old(lay), old(lfltab[m].entry), lay.iown, lay.down)
      ensures lfltab[..] == old(lfltab[..])[m := Rewound(old(lfltab[m]))]
    {
      hide Core, Tight, DataFreed, IndexFreed, Decoded, OwnershipOK, IbImage, ClearedIb, Encodable, NextFree;
      ghost var k, s := lfltab[m].entry, Now();
      CachedIndex(geo, s, lay, m);
      CoreGeometry(geo, s, lay);
      NothingFreed(geo, s, lay, k);
      StoredImages(geo, s, lay, m);
      FreeHeads(geo, s, lay);
      lfltab[m] := lfltab[m].(pos := 0, inum := LF_INULL, dnum := LF_DNULL, byteptr := LF_BLKSIZ);
      var ifree := dir.ifree;
      var firstib := dir.files[lfltab[m].entry].ilist;
      dir := dir.(files := dir.files[lfltab[m].entry := dir.files[lfltab[m].entry].(ilist := LF_INULL, size := 0)]);
      dirdirty := true;
      FreeChain(firstib, ifree, k, s);
      dir := dir.(ifree := firstib);
      dirdirty := true;
      assert lfltab[..] == s.tab[m := Rewound(s.tab[m])];
      lay := TruncationDone(geo, s, lay, m, Now());
    }

    /** lftruncate: hands all index and data blocks of the file back to the free lists. */
    method Truncate(m: int) returns (r: int)
      requires Valid() && 0 <= m < lfltab.Length
      modifies this, disk, lfltab
      ensures Valid() && |lay.names| == |lay.data| && V.VolumeOK(old(Volume()))
      ensures (Volume(), r) == V.Truncate(old(Volume()), m)
      ensures r == OK ==> var k := old(lfltab[m].entry); var L := old(lay);
              0 <= k < |L.data| == |L.chain| == |L.blks| && lay == Truncated(L, k, lay.iown, lay.down)
    {
      hide Core, Tight, DirStored;
      VolumeSound();
      if !lfltab[m].used {
        return SYSERR;
      }
      ghost var v := Volume();
      NoGrowth(geo, Now(), lay, m);
      ChainOfContents(geo, Now(), lay, lfltab[m].entry);
      if dir.files[lfltab[m].entry].size == 0 {
        AlreadyEmpty(geo, Now(), lay, m);
        assert V.Update(v, m, [], 0) == v;
        return OK;
      }
      if lfltab[m].ibdirty || lfltab[m].dbdirty {
        var f := Flush(m);
      }
      Release(m);
      assert Now().tab[m].used;
      assert Volume() == V.Update(v, m, [], 0);
      return OK;
    }
  }

  /** Starting the system afresh on the disk of a file system whose files are all closed:
      the files that the stored directory reaches are back, the others were empty. */
  method Remount(fs: LocalFs, ndevs: nat) returns (again: LocalFs)
    requires fs.Valid() && forall m :: 0 <= m < fs.lfltab.Length ==> !fs.lfltab[m].used
    ensures |fs.lay.names| == |fs.lay.data| && |again.lay.names| == |again.lay.data| && fresh(again)
            && again.disk == fs.disk
    ensures again.Valid() && fs.disk[0].DirSector? && 0 <= fs.disk[0].dir.nfiles <= |fs.Volume().files|
    ensures again.Volume().files == fs.Volume().files[..fs.disk[0].dir.nfiles]
    ensures forall k :: fs.disk[0].dir.nfiles <= k < |fs.Volume().files| ==> fs.Volume().files[k].data == []
  {
    hide Inv;
    fs.VolumeSound();
    ghost var s := if fs.dirpresent then fs.Now() else fs.Now().(dir := fs.disk[0].dir);
    Remountable(fs.geo, s, fs.lay);
    again := new LocalFs(fs.disk, ndevs, fs.geo, fs.ibd, Trim(fs.lay, fs.disk[0].dir.nfiles));
  }
}
