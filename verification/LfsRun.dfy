// Whole runs of the local file system, compared with runs of the plain volume.

module LfsRun {
  import opened Common
  import opened LfsCodec
  import opened LfsLayout
  import opened LfsRefine
  import opened LfsVolume
  import opened LfsDecode
  import Fmt = LfsFormat
  import F = Lfs

  /** One call on the file system. */
  datatype Op =
    | OpOpen(name: string, mode: string)
    | OpClose(m: int)
    | OpSeek(m: int, offset: int)
    | OpGetc(m: int)
    | OpPutc(m: int, ch: byte)
    | OpRead(m: int, count: int)
    | OpWrite(m: int, buf: seq<byte>)
    | OpTruncate(m: int)

  /** What the caller gets: the returned number and the bytes read. */
  datatype Reply = Reply(code: int, bytes: seq<byte>)

  /** The call names an existing device and a non-negative offset. */
  predicate Callable(n: int, op: Op)
  {
    match op
    case OpOpen(_, _) => true
    case OpSeek(m, offset) => 0 <= m < n && 0 <= offset
    case _ => 0 <= op.m < n
  }

  ghost function Apply(v: Volume, op: Op): (Volume, Reply)
    requires VolumeOK(v) && Callable(|v.fds|, op)
  {
    match op
    case OpOpen(name, mode) => var (w, r) := OpenFile(v, name, mode); (w, Reply(r, []))
    case OpClose(m) => var (w, r) := Close(v, m); (w, Reply(r, []))
    case OpSeek(m, offset) => var (w, r) := Seek(v, m, offset); (w, Reply(r, []))
    case OpGetc(m) => var (w, r) := Getc(v, m); (w, Reply(r, []))
    case OpPutc(m, ch) => var (w, r) := Putc(v, m, ch); (w, Reply(r, []))
    case OpRead(m, count) => var (w, r, bytes) := Read(v, m, count); (w, Reply(r, bytes))
    case OpWrite(m, buf) => var (w, r) := Write(v, m, buf, |buf|); (w, Reply(r, []))
    case OpTruncate(m) => var (w, r) := Truncate(v, m); (w, Reply(r, []))
  }

  /** Every call leads from volumes to volumes over the same devices. */
  lemma ApplyKeepsVolume(v: Volume, op: Op)
    requires VolumeOK(v) && Callable(|v.fds|, op)
    ensures VolumeOK(Apply(v, op).0) && |Apply(v, op).0.fds| == |v.fds|
  {
    hide OpenFile, Getc, Putc, Seek, Read, Write, Truncate, Close, VolumeOK;
    match op
    case OpOpen(name, mode) => OpenKeepsVolume(v, name, mode);
    case OpWrite(m, buf) => SpliceLength(v, m, buf);
    case OpRead(m, count) => ReadKeepsVolume(v, m, count);
    case OpClose(m) => CloseKeepsVolume(v, m);
    case OpSeek(m, offset) => SeekKeepsVolume(v, m, offset);
    case OpGetc(m) => GetcKeepsVolume(v, m);
    case OpPutc(m, ch) => PutcKeepsVolume(v, m, ch);
    case OpTruncate(m) => TruncateKeepsVolume(v, m);
  }

  lemma CloseKeepsVolume(v: Volume, m: int)
    requires VolumeOK(v) && 0 <= m < |v.fds|
    ensures VolumeOK(Close(v, m).0) && |Close(v, m).0.fds| == |v.fds|
  {
  }

  lemma SeekKeepsVolume(v: Volume, m: int, offset: int)
    requires VolumeOK(v) && 0 <= m < |v.fds| && 0 <= offset
    ensures VolumeOK(Seek(v, m, offset).0) && |Seek(v, m, offset).0.fds| == |v.fds|
  {
  }

  lemma GetcKeepsVolume(v: Volume, m: int)
    requires VolumeOK(v) && 0 <= m < |v.fds|
    ensures VolumeOK(Getc(v, m).0) && |Getc(v, m).0.fds| == |v.fds|
  {
  }

  lemma PutcKeepsVolume(v: Volume, m: int, ch: byte)
    requires VolumeOK(v) && 0 <= m < |v.fds|
    ensures VolumeOK(Putc(v, m, ch).0) && |Putc(v, m, ch).0.fds| == |v.fds|
  {
    hide PutAt;
  }

  lemma TruncateKeepsVolume(v: Volume, m: int)
    requires VolumeOK(v) && 0 <= m < |v.fds|
    ensures VolumeOK(Truncate(v, m).0) && |Truncate(v, m).0.fds| == |v.fds|
  {
  }

  lemma SpliceLength(v: Volume, m: int, buf: seq<byte>)
    requires VolumeOK(v) && 0 <= m < |v.fds|
    ensures VolumeOK(Write(v, m, buf, |buf|).0) && |Write(v, m, buf, |buf|).0.fds| == |v.fds|
  {
    hide Splice;
    assert buf[..|buf|] == buf;
  }

  lemma ReadKeepsVolume(v: Volume, m: int, count: int)
    requires VolumeOK(v) && 0 <= m < |v.fds|
    ensures VolumeOK(Read(v, m, count).0) && |Read(v, m, count).0.fds| == |v.fds|
  {
  }

  lemma OpenKeepsVolume(v: Volume, name: string, mode: string)
    requires VolumeOK(v)
    ensures VolumeOK(OpenFile(v, name, mode).0) && |OpenFile(v, name, mode).0.fds| == |v.fds|
  {
    var m, k := FirstClosed(v.fds, 0), FirstNamed(v.files, name, 0);
    FoundNamed(v.files, name, 0);
    if k >= 0 && !AlreadyOpen(v, name) {
      forall n | 0 <= n < |v.fds| && v.fds[n].Open?
        ensures v.fds[n].file != k
      {
        assert v.files[v.fds[n].file].name != name;
      }
    }
  }

  lemma {:induction false} FoundNamed(files: seq<FileImage>, name: string, at: int)
    requires 0 <= at <= |files|
    ensures var k := FirstNamed(files, name, at); k == -1 || (at <= k < |files| && files[k].name == name)
    decreases |files| - at
  {
    if at == |files| || files[at].name == name {
    } else {
      FoundNamed(files, name, at + 1);
    }
  }

  /** The volume and the replies after a list of calls. */
  ghost function Run(v: Volume, ops: seq<Op>): (Volume, seq<Reply>)
    requires VolumeOK(v) && forall i :: 0 <= i < |ops| ==> Callable(|v.fds|, ops[i])
    ensures VolumeOK(Run(v, ops).0) && |Run(v, ops).0.fds| == |v.fds|
    decreases |ops|
  {
    if ops == [] then (v, [])
    else
      var (w, replies) := Run(v, ops[..|ops| - 1]);
      ApplyKeepsVolume(w, ops[|ops| - 1]);
      var (u, reply) := Apply(w, ops[|ops| - 1]);
      (u, replies + [reply])
  }

  /** No call of the run exhausts the disk. */
  ghost predicate RunFits(g: Geometry, v: Volume, ops: seq<Op>)
    requires VolumeOK(v) && forall i :: 0 <= i < |ops| ==> Callable(|v.fds|, ops[i])
  {
    forall i :: 0 <= i <= |ops| ==> Fits(g, Run(v, ops[..i]).0)
  }

  /** Whatever is called, in whatever order, the file system answers as the plain volume does. */
  method Execute(fs: F.LocalFs, ops: seq<Op>) returns (replies: seq<Reply>)
    requires fs.Valid() && forall i :: 0 <= i < |ops| ==> Callable(fs.lfltab.Length, ops[i])
    requires |fs.lay.names| == |fs.lay.data| && VolumeOK(fs.Volume()) && |fs.Volume().fds| == fs.lfltab.Length
    requires RunFits(fs.geo, fs.Volume(), ops)
    modifies fs, fs.disk, fs.lfltab
    ensures fs.Valid() && |fs.lay.names| == |fs.lay.data|
    ensures (fs.Volume(), replies) == Run(old(fs.Volume()), ops)
  {
    hide Apply, Fits, VolumeOf, VolumeOK;
    ghost var v := fs.Volume();
    replies := [];
    for i := 0 to |ops|
      invariant fs.Valid() && |fs.lay.names| == |fs.lay.data|
      invariant (fs.Volume(), replies) == Run(v, ops[..i])
    {
      assert ops[..i + 1][..i] == ops[..i];
      assert Run(v, ops[..i + 1]).0 == Apply(fs.Volume(), ops[i]).0;
      var reply := Step(fs, ops[i]);
      replies := replies + [reply];
    }
    assert ops[..|ops|] == ops;
  }

  /** One call. */
  method Step(fs: F.LocalFs, op: Op) returns (reply: Reply)
    requires fs.Valid() && Callable(fs.lfltab.Length, op)
    requires |fs.lay.names| == |fs.lay.data| && VolumeOK(fs.Volume()) && |fs.Volume().fds| == fs.lfltab.Length
    requires Fits(fs.geo, Apply(fs.Volume(), op).0)
    modifies fs, fs.disk, fs.lfltab
    ensures fs.Valid() && |fs.lay.names| == |fs.lay.data|
    ensures (fs.Volume(), reply) == Apply(old(fs.Volume()), op)
  {
    hide Fits, VolumeOf, VolumeOK;
    var r;
    match op
    case OpOpen(name, mode) =>
      r := fs.Open(name, mode);
      reply := Reply(r, []);
    case OpClose(m) =>
      r := fs.Close(m);
      reply := Reply(r, []);
    case OpSeek(m, offset) =>
      r := fs.Seek(m, offset);
      reply := Reply(r, []);
    case OpGetc(m) =>
      r := fs.Getc(m);
      reply := Reply(r, []);
    case OpPutc(m, ch) =>
      r := fs.Putc(m, ch);
      reply := Reply(r, []);
    case OpRead(m, count) =>
      var buff := new byte[if count < 0 then 0 else count];
      ghost var before := buff[..];
      r := fs.Read(m, buff, count);
      ReadLength(old(fs.Volume()), m, count);
      reply := Reply(r, buff[..if r < 0 then 0 else r]);
    case OpWrite(m, buf) =>
      var buff := new byte[|buf|](i requires 0 <= i < |buf| => buf[i]);
      assert buff[..] == buf;
      r := fs.Write(m, buff, |buf|);
      reply := Reply(r, []);
    case OpTruncate(m) =>
      r := fs.Truncate(m);
      reply := Reply(r, []);
  }

  /** The number returned by a read is the number of bytes read, errors and end of file aside. */
  lemma ReadLength(v: Volume, m: int, count: int)
    requires VolumeOK(v) && 0 <= m < |v.fds|
    ensures var (w, r, got) := Read(v, m, count); |got| == if r < 0 then 0 else r
  {
  }

  // ---- consequences for callers ---------------------------------------------------------------

  /** What was written is read back from where it was written, whatever the file held. */
  lemma WriteSeekRead(v: Volume, m: int, buf: seq<byte>)
    requires VolumeOK(v) && 0 <= m < |v.fds| && v.fds[m].Open? && buf != []
    ensures var (w, written) := Write(v, m, buf, |buf|);
            && VolumeOK(w) && |w.fds| == |v.fds| && written == |buf|
            && var (u, sought) := Seek(w, m, v.fds[m].pos);
               && VolumeOK(u) && |u.fds| == |v.fds| && sought == OK
               && var (_, n, got) := Read(u, m, |buf|); n == |buf| && got == buf
  {
    hide Splice;
    var pos, data := v.fds[m].pos, Contents(v, m);
    assert buf[..|buf|] == buf;
    ApplyKeepsVolume(v, OpWrite(m, buf));
    var w := Write(v, m, buf, |buf|).0;
    assert Contents(w, m) == Splice(data, pos, buf);
    ApplyKeepsVolume(w, OpSeek(m, pos));
    var u := Seek(w, m, pos).0;
    assert Contents(u, m) == Splice(data, pos, buf);
    SpliceReads(data, pos, buf);
  }

  lemma SpliceReads(data: seq<byte>, pos: int, buf: seq<byte>)
    requires 0 <= pos <= |data|
    ensures |Splice(data, pos, buf)| >= pos + |buf| && Splice(data, pos, buf)[pos..pos + |buf|] == buf
  {
  }

  /** A call changes at most the file open at its device; files never disappear or change their names. */
  lemma OtherFilesUntouched(v: Volume, op: Op, k: int)
    requires VolumeOK(v) && Callable(|v.fds|, op) && 0 <= k < |v.files|
    requires !op.OpOpen? && v.fds[op.m].Open? ==> v.fds[op.m].file != k
    ensures k < |Apply(v, op).0.files| && Apply(v, op).0.files[k] == v.files[k]
  {
    hide PutAt, Splice, ValidMode;
  }

  /** Along a run, a file that none of its calls has open keeps its contents. */
  lemma {:induction false} UnopenedFilePreserved(v: Volume, ops: seq<Op>, k: int)
    requires VolumeOK(v) && 0 <= k < |v.files| && forall i :: 0 <= i < |ops| ==> Callable(|v.fds|, ops[i])
    requires forall i :: 0 <= i < |ops| && !ops[i].OpOpen? ==>
               0 <= ops[i].m &&
               var w := Run(v, ops[..i]).0;
               ops[i].m < |w.fds| && (w.fds[ops[i].m].Open? ==> w.fds[ops[i].m].file != k)
    ensures k < |Run(v, ops).0.files| && Run(v, ops).0.files[k] == v.files[k]
    decreases |ops|
  {
    hide Apply;
    if ops == [] {
    } else {
      var init := ops[..|ops| - 1];
      forall i | 0 <= i < |init| && !init[i].OpOpen?
        ensures 0 <= init[i].m
                && var w := Run(v, init[..i]).0;
                   init[i].m < |w.fds| && (w.fds[init[i].m].Open? ==> w.fds[init[i].m].file != k)
      {
        assert init[..i] == ops[..i];
      }
      UnopenedFilePreserved(v, init, k);
      OtherFilesUntouched(Run(v, init).0, ops[|ops| - 1], k);
    }
  }

  lemma OpensFirstFile()
    ensures VolumeOK(Volume([], [Closed]))
    ensures OpenFile(Volume([], [Closed]), "a", "n") == (Volume([FileImage("a", [])], [Open(0, 0)]), 0)
  {
    var v := Volume([], [Closed]);
    assert FirstClosed(v.fds, 0) == 0 && FirstNamed(v.files, "a", 0) == -1 && !AlreadyOpen(v, "a");
    assert "n"[0] == 'n' && 'n' in "rwon" && ValidMode("n") && 'n' in "n" && 'o' !in "n";
    assert Assign(v.fds, 0, Open(0, 0)) == [Open(0, 0)] && v.files + [FileImage("a", [])] == [FileImage("a", [])];
  }

  /** A file that is created and closed again without a byte written is not on the disk. */
  method EmptyFileIsLost() returns (fs: F.LocalFs)
    ensures fs.Valid() && |fs.lay.names| == |fs.lay.data| && fs.Volume() == Volume([FileImage("a", [])], [Closed])
    ensures !OnDisk(fs.disk[..], 0, "a", [])
  {
    hide Inv, OnDisk, OpenFile, Fmt.FreshIb;
    var disk := new Sector[20](i => Raw(seq(LF_BLKSIZ, x => 0)));
    ghost var g;
    var r, outside;
    r, outside, g := Fmt.Format(disk, 7, 20 * 512);
    fs := new F.LocalFs(disk, 1, g, seq(g.nib, i => Fmt.FreshIb(g.nib, i)), Fmt.EmptyLayout(g));
    OpensFirstFile();
    assert fs.Volume() == Volume([], [Closed]);
    r := fs.Open("a", "n");
    assert fs.lay.names[0] == fs.Volume().files[0].name;
    assert fs.lfltab[0].entry == fs.Volume().fds[0].file;
    r := fs.Close(0);
    assert fs.lay.data[0] == fs.Volume().files[0].data;
  }

  /** The volume of a freshly formatted disk. */
  function Blank(ndevs: nat): Volume
  {
    Volume([], seq(ndevs, m => Closed))
  }

  /** Closing every device leaves the files as they are. */
  method CloseAll(fs: F.LocalFs)
    requires fs.Valid() && |fs.lay.names| == |fs.lay.data|
    modifies fs, fs.disk, fs.lfltab
    ensures fs.Valid() && |fs.lay.names| == |fs.lay.data| && fs.Volume().files == old(fs.Volume()).files
    ensures forall m :: 0 <= m < fs.lfltab.Length ==> !fs.lfltab[m].used
  {
    hide Inv, OnDisk, VolumeOK;
    for m := 0 to fs.lfltab.Length
      invariant fs.Valid() && |fs.lay.names| == |fs.lay.data| && fs.Volume().files == old(fs.Volume()).files
      invariant forall n :: 0 <= n < m ==> fs.Volume().fds[n] == Closed
    {
      var r := fs.Close(m);
    }
    assert forall m :: 0 <= m < fs.lfltab.Length ==> fs.Volume().fds[m] == FdOf(fs.lfltab[m]);
  }

  /** From formatting to the next start of the system: after any run of calls, with every file closed,
      starting afresh on the disk brings back all files that are not empty, with the contents that the
      plain volume says they have. */
  method FormatRunRestart(disk: array<Sector>, lfiblks: int, dsiz: int, ndevs: nat,
      ops: seq<Op>) returns (again: F.LocalFs, ghost n: nat)
    requires IsInt32(lfiblks) && IsUint32(dsiz) && dsiz / 512 <= disk.Length && Fmt.AllRaw(disk[..], 1, dsiz / 512)
    requires 0 < lfiblks && (lfiblks + 6) / 7 <= dsiz / 512 / 2 && (lfiblks + 6) / 7 + 2 <= dsiz / 512
    requires forall i :: 0 <= i < |ops| ==> Callable(ndevs, ops[i])
    requires RunFits(Geometry(7 * ((lfiblks + 6) / 7), (lfiblks + 6) / 7 + 1, dsiz / 512), Blank(ndevs), ops)
    modifies disk
    ensures again.Valid() && again.disk == disk && |again.lay.names| == |again.lay.data|
    ensures var files := Run(Blank(ndevs), ops).0.files;
            n <= |files| && again.Volume().files == files[..n] && forall k :: n <= k < |files| ==> files[k].data == []
  {
    hide Inv, Run, RunFits, Fmt.FreshIb;
    ghost var g;
    var r, outside;
    r, outside, g := Fmt.Format(disk, lfiblks, dsiz);
    var fs := new F.LocalFs(disk, ndevs, g, seq(g.nib, i => Fmt.FreshIb(g.nib, i)), Fmt.EmptyLayout(g));
    assert fs.Volume() == Blank(ndevs);
    var replies := Execute(fs, ops);
    CloseAll(fs);
    again := F.Remount(fs, ndevs);
    n := disk[0].dir.nfiles;
  }
}
