// Byte-level packing of the local file system's index area and free list
// (include/lfilesys.h): 32-bit little-endian words, 72-byte index blocks packed
// seven to a 512-byte sector.

module LfsCodec {

  type byte = x: int | 0 <= x < 256

  const LF_BLKSIZ := 512
  const LF_IBLEN := 16
  const LF_IDATA := 8192
  const LF_NUM_DIR_ENT := 20
  const LF_NAME_LEN := 16
  const LF_INULL := -1
  const LF_DNULL := -1
  const IBSIZE := 72
  const IBPERSECT := 7

  type Block = b: seq<byte> | |b| == 512 witness seq(512, i => 0)

  /** struct lfiblk. */
  datatype IBlk = IBlk(next: int, offset: int, dba: seq<int>)

  /** struct ldentry. */
  datatype DirEntry = DirEntry(size: int, ilist: int, name: string)

  /** struct lfdir. */
  datatype Directory = Directory(dfree: int, ifree: int, nfiles: int, files: seq<DirEntry>)

  /** A disk sector: the directory is kept typed, every other sector is 512 raw bytes. */
  datatype Sector = DirSector(dir: Directory) | Raw(b: Block)

  // ---- 32-bit words -------------------------------------------------------------

  predicate IsInt32(x: int) { -0x8000_0000 <= x < 0x8000_0000 }
  predicate IsUint32(x: int) { 0 <= x < 0x1_0000_0000 }

  /** Byte i of the stored form of a 32-bit word (two's complement, low byte first). */
  function WordByte(x: int, i: int): byte
    requires 0 <= i < 4
  {
    var u := x % 0x1_0000_0000;
    if i == 0 then u % 256
    else if i == 1 then u / 256 % 256
    else if i == 2 then u / 256 / 256 % 256
    else u / 256 / 256 / 256
  }

  function LoadUint32(b: seq<byte>, at: int): int
    requires 0 <= at && at + 4 <= |b|
  {
    var b0: int, b1: int, b2: int, b3: int := b[at], b[at + 1], b[at + 2], b[at + 3];
    b0 + 256 * (b1 + 256 * (b2 + 256 * b3))
  }

  function LoadInt32(b: seq<byte>, at: int): int
    requires 0 <= at && at + 4 <= |b|
  {
    var u := LoadUint32(b, at);
    if u < 0x8000_0000 then u else u - 0x1_0000_0000
  }

  /** The bytes at offset `at` store the word x. */
  predicate StoresWord(b: seq<byte>, at: int, x: int)
    requires 0 <= at && at + 4 <= |b|
  {
    b[at] == WordByte(x, 0) && b[at + 1] == WordByte(x, 1) && b[at + 2] == WordByte(x, 2) && b[at + 3] == WordByte(x, 3)
  }

  lemma WordRoundTrip(b: seq<byte>, at: int, x: int)
    requires 0 <= at && at + 4 <= |b| && StoresWord(b, at, x)
    ensures IsUint32(x) ==> LoadUint32(b, at) == x
    ensures IsInt32(x) ==> LoadInt32(b, at) == x
  {
    var u := x % 0x1_0000_0000;
    var q1 := u / 256;
    var q2 := q1 / 256;
    assert u == u % 256 + 256 * q1 && q1 == q1 % 256 + 256 * q2 && q2 == q2 % 256 + 256 * (q2 / 256);
    assert LoadUint32(b, at) == u;
  }

  // ---- index blocks -------------------------------------------------------------

  predicate Encodable(ib: IBlk)
  {
    |ib.dba| == LF_IBLEN && IsInt32(ib.next) && IsUint32(ib.offset)
        && forall t :: 0 <= t < LF_IBLEN ==> IsInt32(ib.dba[t])
  }

  /** Word w of the stored struct lfiblk: the link, the offset, then sixteen pointers. */
  function IbWord(ib: IBlk, w: int): int
    requires |ib.dba| == LF_IBLEN && 0 <= w < 18
  {
    if w == 0 then ib.next else if w == 1 then ib.offset else ib.dba[w - 2]
  }

  /** The 72 bytes of an index block as it lies in memory. */
  function IbBytes(ib: IBlk): (r: seq<byte>)
    requires |ib.dba| == LF_IBLEN
    ensures |r| == IBSIZE
  {
    seq(IBSIZE, i requires 0 <= i < IBSIZE => WordByte(IbWord(ib, i / 4), i % 4))
  }

  /** An index block read back from 72 bytes. */
  function IbLoad(b: seq<byte>, at: int): (ib: IBlk)
    requires 0 <= at && at + IBSIZE <= |b|
    ensures |ib.dba| == LF_IBLEN
  {
    IBlk(LoadInt32(b, at), LoadUint32(b, at + 4),
         seq(LF_IBLEN, t requires 0 <= t < LF_IBLEN => LoadInt32(b, at + 8 + 4 * t)))
  }

  lemma IbRoundTrip(b: seq<byte>, at: int, ib: IBlk)
    requires 0 <= at && at + IBSIZE <= |b| && Encodable(ib)
    requires b[at..at + IBSIZE] == IbBytes(ib)
    ensures IbLoad(b, at) == ib
  {
    hide LoadInt32, LoadUint32, IbBytes, WordByte;
    FieldRoundTrip(b, at, ib, 0);
    FieldRoundTrip(b, at, ib, 1);
    forall t | 0 <= t < LF_IBLEN
      ensures LoadInt32(b, at + 8 + 4 * t) == ib.dba[t]
    {
      FieldRoundTrip(b, at, ib, t + 2);
      assert at + 4 * (t + 2) == at + 8 + 4 * t;
    }
    assert IbLoad(b, at).dba == ib.dba;
  }

  lemma IbLoadSame(b: seq<byte>, at: int, c: seq<byte>, ct: int)
    requires 0 <= at && at + IBSIZE <= |b| && 0 <= ct && ct + IBSIZE <= |c|
    requires b[at..at + IBSIZE] == c[ct..ct + IBSIZE]
    ensures IbLoad(b, at) == IbLoad(c, ct)
  {
    forall w | 0 <= w < 18
      ensures LoadUint32(b, at + 4 * w) == LoadUint32(c, ct + 4 * w)
    {
      LoadFromSlice(b, at, w);
      LoadFromSlice(c, ct, w);
    }
    assert LoadUint32(b, at + 4 * 0) == LoadUint32(c, ct + 4 * 0);
    assert LoadUint32(b, at + 4 * 1) == LoadUint32(c, ct + 4 * 1);
    forall t | 0 <= t < LF_IBLEN
      ensures IbLoad(b, at).dba[t] == IbLoad(c, ct).dba[t]
    {
      assert LoadUint32(b, at + 4 * (t + 2)) == LoadUint32(c, ct + 4 * (t + 2));
    }
  }

  lemma LoadFromSlice(b: seq<byte>, at: int, w: int)
    requires 0 <= at && at + IBSIZE <= |b| && 0 <= w < 18
    ensures LoadUint32(b, at + 4 * w) == LoadUint32(b[at..at + IBSIZE], 4 * w)
  {
  }

  /** Word w of the 72-byte image reads back as the matching field. */
  lemma FieldRoundTrip(b: seq<byte>, at: int, ib: IBlk, w: int)
    requires 0 <= at && at + IBSIZE <= |b| && |ib.dba| == LF_IBLEN && 0 <= w < 18
    requires b[at..at + IBSIZE] == IbBytes(ib)
    ensures IsUint32(IbWord(ib, w)) ==> LoadUint32(b, at + 4 * w) == IbWord(ib, w)
    ensures IsInt32(IbWord(ib, w)) ==> LoadInt32(b, at + 4 * w) == IbWord(ib, w)
  {
    forall i | 0 <= i < 4
      ensures b[at + 4 * w + i] == WordByte(IbWord(ib, w), i)
    {
      assert b[at + 4 * w + i] == b[at..at + IBSIZE][4 * w + i];
      assert (4 * w + i) / 4 == w && (4 * w + i) % 4 == i;
    }
    assert b[at + 4 * w + 0] == WordByte(IbWord(ib, w), 0);
    WordRoundTrip(b, at + 4 * w, IbWord(ib, w));
  }

  // ---- where index blocks lie ------------------------------------------------------

  function Ib2Sect(ib: int): int { ib / IBPERSECT + 1 }
  function Ib2Disp(ib: int): int { ib % IBPERSECT * IBSIZE }

  /** Index block i as the disk holds it. */
  function IbAt(disk: seq<Sector>, i: int): (ib: IBlk)
    requires 0 <= i && Ib2Sect(i) < |disk| && disk[Ib2Sect(i)].Raw?
    ensures |ib.dba| == LF_IBLEN
  {
    IbLoad(disk[Ib2Sect(i)].b, Ib2Disp(i))
  }

  /** A sector with the bytes of one index block replaced. */
  predicate Spliced(b: Block, at: int, bytes: seq<byte>, c: Block)
    requires 0 <= at && at + |bytes| <= 512
  {
    forall x :: 0 <= x < 512 ==> c[x] == if at <= x < at + |bytes| then bytes[x - at] else b[x]
  }

  lemma IbPutGet(disk: seq<Sector>, inum: int, ib: IBlk, c: Block)
    requires 0 <= inum && Ib2Sect(inum) < |disk| && disk[Ib2Sect(inum)].Raw? && Encodable(ib)
    requires Spliced(disk[Ib2Sect(inum)].b, Ib2Disp(inum), IbBytes(ib), c)
    ensures IbAt(disk[Ib2Sect(inum) := Raw(c)], inum) == ib
    ensures forall i {:trigger IbAt(disk, i)} {:trigger IbAt(disk[Ib2Sect(inum) := Raw(c)], i)} ::
              0 <= i && i != inum && Ib2Sect(i) < |disk| && disk[Ib2Sect(i)].Raw?
              ==> IbAt(disk[Ib2Sect(inum) := Raw(c)], i) == IbAt(disk, i)
  {
    var at := Ib2Disp(inum);
    assert c[at..at + IBSIZE] == IbBytes(ib);
    IbRoundTrip(c, at, ib);
    forall i | 0 <= i && i != inum && Ib2Sect(i) < |disk| && disk[Ib2Sect(i)].Raw?
      ensures IbAt(disk[Ib2Sect(inum) := Raw(c)], i) == IbAt(disk, i)
    {
      if Ib2Sect(i) == Ib2Sect(inum) {
        assert i % IBPERSECT != inum % IBPERSECT;
        var d := Ib2Disp(i);
        assert d + IBSIZE <= at || at + IBSIZE <= d;
        assert c[d..d + IBSIZE] == disk[Ib2Sect(i)].b[d..d + IBSIZE];
        IbLoadSame(c, d, disk[Ib2Sect(i)].b, d);
      }
    }
  }

  // ---- free data blocks ------------------------------------------------------------

  /** lf_nextdb of a data block on the free list. */
  function NextFree(b: Block): int { LoadInt32(b, 0) }

  /** A data block as lfdbfree writes it: the link, then whatever the buffer held. */
  function FreeBlock(next: int, junk: Block): (b: Block)
    ensures IsInt32(next) ==> NextFree(b) == next
  {
    var b := [WordByte(next, 0), WordByte(next, 1), WordByte(next, 2), WordByte(next, 3)] + junk[4..];
    WordRoundTrip(b, 0, next);
    b
  }

  /** The state left by lfibclear. */
  function ClearedIb(offset: int): (ib: IBlk)
    ensures |ib.dba| == LF_IBLEN
  {
    IBlk(LF_INULL, offset, seq(LF_IBLEN, t => LF_DNULL))
  }

  lemma ClearedIs(ib: IBlk)
    requires |ib.dba| == LF_IBLEN && forall t :: 0 <= t < LF_IBLEN ==> ib.dba[t] == LF_DNULL
    ensures ib == ClearedIb(ib.offset).(next := ib.next)
  {
    assert ib.dba == ClearedIb(ib.offset).dba;
  }
}
