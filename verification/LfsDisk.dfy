// Reading and writing index blocks on a disk of 512-byte sectors.

module LfsDisk {
  import opened LfsCodec

  /** lfibget: copies the 72 bytes of an index block out of its sector. */
  method IbGet(disk: array<Sector>, inum: int) returns (ib: IBlk)
    requires 0 <= inum && Ib2Sect(inum) < disk.Length && disk[Ib2Sect(inum)].Raw?
    ensures ib == IbAt(disk[..], inum)
  {
    var dbuff := disk[Ib2Sect(inum)].b;
    var from := Ib2Disp(inum);
    var ibuff := new byte[IBSIZE](i => 0);
    for i := 0 to IBSIZE
      invariant forall x :: 0 <= x < i ==> ibuff[x] == dbuff[from + x]
    {
      ibuff[i] := dbuff[from + i];
    }
    assert ibuff[..][0..IBSIZE] == dbuff[from..from + IBSIZE];
    IbLoadSame(ibuff[..], 0, dbuff, from);
    ib := IbLoad(ibuff[..], 0);
  }

  /** lfibput: read-modify-write of the sector that holds index block inum. */
  method IbPut(disk: array<Sector>, inum: int, ib: IBlk)
    requires 0 <= inum && Ib2Sect(inum) < disk.Length && disk[Ib2Sect(inum)].Raw? && |ib.dba| == LF_IBLEN
    modifies disk
    ensures disk[Ib2Sect(inum)].Raw? && disk[..] == old(disk[..])[Ib2Sect(inum) := disk[Ib2Sect(inum)]]
    ensures Spliced(old(disk[Ib2Sect(inum)].b), Ib2Disp(inum), IbBytes(ib), disk[Ib2Sect(inum)].b)
  {
    hide IbBytes;
    var diskblock := Ib2Sect(inum);
    var to := Ib2Disp(inum);
    var from := IbBytes(ib);
    var sector := disk[diskblock].b;
    var dbuff := new byte[LF_BLKSIZ](i requires 0 <= i < LF_BLKSIZ => sector[i]);
    for i := 0 to IBSIZE
      modifies dbuff
      invariant forall x :: 0 <= x < LF_BLKSIZ ==> dbuff[x] == if to <= x < to + i then from[x - to] else sector[x]
    {
      dbuff[to + i] := from[i];
    }
    disk[diskblock] := Raw(dbuff[..]);
  }

  /** lfibclear: resets an index block in memory. */
  method IbClear(offset: int) returns (ib: IBlk)
    ensures ib == ClearedIb(offset)
  {
    var dba := new int[LF_IBLEN](i => 0);
    for i := 0 to LF_IBLEN
      invariant forall x :: 0 <= x < i ==> dba[x] == LF_DNULL
    {
      dba[i] := LF_DNULL;
    }
    ib := IBlk(LF_INULL, offset, dba[..]);
    ClearedIs(ib);
  }
}
