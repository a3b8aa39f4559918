// What a caller may rely on, from one call to the next: bulk reads and writes are runs of single
// bytes, reading until the end of file gives the rest of the file, positions and opening
// (device/lfs/lflread.c, lflwrite.c, lflseek.c, lfsopen.c).

module LfsLaws {

  import opened Common
  import opened LfsCodec
  import opened LfsLayout
  import opened LfsVolume
  import opened LfsRefine
  import opened LfsRun

  // ---- reading ----------------------------------------------------------------------------------

  /** The volume after n calls of getc, and what they answer. */
  ghost function Getcs(v: Volume, m: int, n: nat): (r: (Volume, seq<int>))
    requires VolumeOK(v) && 0 <= m < |v.fds|
    ensures |r.1| == n
    decreases n
  {
    if n == 0 then (v, [])
    else
      GetcKeepsVolume(v, m);
      var (w, first) := Getc(v, m);
      var (u, rest) := Getcs(w, m, n - 1);
      (u, [first] + rest)
  }

  /** The answers up to the first that is no byte. */
  function Bytes(answers: seq<int>): seq<int>
    decreases |answers|
  {
    if answers == [] || answers[0] < 0 then [] else [answers[0]] + Bytes(answers[1..])
  }

  lemma {:induction false} GetcsOf(v: Volume, m: int, n: nat)
    requires VolumeOK(v) && 0 <= m < |v.fds| && v.fds[m].Open?
    ensures var data, pos := Contents(v, m), v.fds[m].pos;
            var end := if pos + n <= |data| then pos + n else |data|;
            0 <= pos <= end <= |data| && Bytes(Getcs(v, m, n).1) == data[pos..end]
            && Getcs(v, m, n).0 == Update(v, m, data, end)
    decreases n
  {
    var data, pos := Contents(v, m), v.fds[m].pos;
    if n == 0 {
      assert Update(v, m, data, pos) == v;
    } else {
      GetcKeepsVolume(v, m);
      var w, first := Getc(v, m).0, Getc(v, m).1;
      GetcsOf(w, m, n - 1);
      var answers := Getcs(v, m, n).1;
      assert answers[0] == first && answers[1..] == Getcs(w, m, n - 1).1;
      if pos < |data| {
        var end := if pos + n <= |data| then pos + n else |data|;
        assert data[pos..end] == [data[pos]] + data[pos + 1..end];
      } else {
        assert data[pos..pos] == [];
      }
    }
  }

  /** A read of count bytes does what count calls of getc do.  The buffer gets what they answer up to
      the end of file; the number is how many that are, or EOF if the first is EOF already. */
  lemma ReadIsGetcs(v: Volume, m: int, count: int)
    requires VolumeOK(v) && 0 <= m < |v.fds| && v.fds[m].Open? && count > 0
    ensures var (u, answers) := Getcs(v, m, count);
            var got := Bytes(answers);
            && Read(v, m, count).0 == u && Read(v, m, count).2 == got
            && Read(v, m, count).1 == if Getc(v, m).1 == EOF then EOF else |got|
  {
    GetcsOf(v, m, count);
  }

  /** Reads of count bytes, one after the other, until one answers EOF. */
  ghost function ReadUntilEof(v: Volume, m: int, count: int): seq<byte>
    requires VolumeOK(v) && 0 <= m < |v.fds| && v.fds[m].Open? && count > 0
    decreases |Contents(v, m)| - v.fds[m].pos
  {
    ReadKeepsVolume(v, m, count);
    var (w, r, got) := Read(v, m, count);
    if r == EOF || got == [] then [] else got + ReadUntilEof(w, m, count)
  }

  /** They come to an end with EOF and give the rest of the file. */
  lemma {:induction false} RestOfFile(v: Volume, m: int, count: int)
    requires VolumeOK(v) && 0 <= m < |v.fds| && v.fds[m].Open? && count > 0
    ensures ReadUntilEof(v, m, count) == Contents(v, m)[v.fds[m].pos..]
    ensures Read(v, m, count).1 == EOF <==> Read(v, m, count).2 == []
    decreases |Contents(v, m)| - v.fds[m].pos
  {
    ReadKeepsVolume(v, m, count);
    var (w, r, got) := Read(v, m, count);
    ReadIsGetcs(v, m, count);
    GetcsOf(v, m, count);
    if got == [] {
    } else {
      RestOfFile(w, m, count);
    }
  }

  // ---- writing ----------------------------------------------------------------------------------

  /** The volume after a putc for each byte of buf, in order. */
  ghost function Putcs(v: Volume, m: int, buf: seq<byte>): (w: Volume)
    requires VolumeOK(v) && 0 <= m < |v.fds|
    ensures VolumeOK(w) && |w.fds| == |v.fds|
    decreases |buf|
  {
    if buf == [] then v
    else
      var w := Putcs(v, m, buf[..|buf| - 1]);
      PutcKeepsVolume(w, m, buf[|buf| - 1]);
      Putc(w, m, buf[|buf| - 1]).0
  }

  /** A write does what a putc for each byte does. */
  lemma {:induction false} WriteIsPutcs(v: Volume, m: int, buf: seq<byte>)
    requires VolumeOK(v) && 0 <= m < |v.fds| && v.fds[m].Open?
    ensures Write(v, m, buf, |buf|) == (Putcs(v, m, buf), |buf|)
    decreases |buf|
  {
    hide PutAt, Splice, Update;
    var data, pos := Contents(v, m), v.fds[m].pos;
    if buf == [] {
    } else {
      var init := buf[..|buf| - 1];
      WriteIsPutcs(v, m, init);
      assert init[..|init|] == init && buf[..|buf|] == buf;
      PutcInRun(v, m, buf, |init|);
      if init == [] {
        assert buf[..0] == [];
      }
    }
  }

  /** A byte written is read back from where it was written; all bytes before and behind it are as they
      were, and the file is longer by one if it was written at the end. */
  lemma PutThenGet(v: Volume, m: int, ch: byte)
    requires VolumeOK(v) && 0 <= m < |v.fds| && v.fds[m].Open?
    ensures var w := Putc(v, m, ch).0; var old', new' := Contents(v, m), Contents(w, m); var pos := v.fds[m].pos;
            && Putc(v, m, ch).1 == OK && VolumeOK(w) && w.fds == v.fds[m := Open(v.fds[m].file, pos + 1)]
            && |new'| == (if pos == |old'| then |old'| + 1 else |old'|)
            && (forall i :: 0 <= i < |old'| && i != pos ==> new'[i] == old'[i])
            && var u := Seek(w, m, pos); u.1 == OK && VolumeOK(u.0) && |u.0.fds| == |v.fds| && Getc(u.0, m).1 == ch
  {
  }

  // ---- positions --------------------------------------------------------------------------------

  /** A seek is accepted up to and including the end of the file.  The next getc answers the byte there,
      or EOF at the end, where the next putc appends. */
  lemma SeekThenGet(v: Volume, m: int, offset: int, ch: byte)
    requires VolumeOK(v) && 0 <= m < |v.fds| && v.fds[m].Open? && 0 <= offset
    ensures var data := Contents(v, m);
            var w := Seek(v, m, offset).0;
            && (Seek(v, m, offset).1 == OK <==> offset <= |data|)
               && (Seek(v, m, offset).1 != OK ==> Seek(v, m, offset) == (v, SYSERR))
            && VolumeOK(w) && |w.fds| == |v.fds| && w.files == v.files
            && (offset < |data| ==> Getc(w, m).1 == data[offset])
            && (offset == |data| ==> Getc(w, m).1 == EOF && Putc(w, m, ch).0.files[v.fds[m].file].data == data + [ch])
  {
  }

  // ---- opening and closing ------------------------------------------------------------------------

  /** Somebody has the file of that name open. */
  ghost predicate InUse(v: Volume, name: string)
    requires VolumeOK(v)
  {
    exists m :: 0 <= m < |v.fds| && v.fds[m].Open? && v.files[v.fds[m].file].name == name
  }

  ghost predicate Exists(v: Volume, name: string)
  {
    exists k :: 0 <= k < |v.files| && v.files[k].name == name
  }

  /** open succeeds exactly when the name is short enough, the mode makes sense, the file is not open, a
      device is free, and the file exists or may be created as the letters o and n say. */
  ghost predicate MayOpen(v: Volume, name: string, mode: string)
    requires VolumeOK(v)
  {
    && |name| < LF_NAME_LEN && ValidMode(mode) && !InUse(v, name)
    && (exists m :: 0 <= m < |v.fds| && v.fds[m].Closed?)
    && if Exists(v, name) then 'n' !in mode else 'o' !in mode && |v.files| < LF_NUM_DIR_ENT
  }

  /** Then the lowest free device stands at the start of the first file of that name, which is new and
      empty if there was none; nothing else changes. */
  ghost predicate Opened(v: Volume, name: string, w: Volume, m: int)
  {
    && 0 <= m < |v.fds| && v.fds[m].Closed? && (forall n :: 0 <= n < m ==> v.fds[n].Open?)
    && |w.fds| == |v.fds| && w.fds[m].Open? && w.fds[m].pos == 0
       && (forall n :: 0 <= n < |v.fds| && n != m ==> w.fds[n] == v.fds[n])
    && var k := w.fds[m].file;
       && 0 <= k < |w.files| && w.files[k].name == name && (forall j :: 0 <= j < k ==> w.files[j].name != name)
       && w.files == if Exists(v, name) then v.files else v.files + [FileImage(name, [])]
  }

  lemma OpenLaw(v: Volume, name: string, mode: string)
    requires VolumeOK(v)
    ensures var (w, r) := OpenFile(v, name, mode);
            if MayOpen(v, name, mode) then r >= 0 && Opened(v, name, w, r) else r == SYSERR && w == v
  {
    var m, k := FirstClosed(v.fds, 0), FirstNamed(v.files, name, 0);
    LowestClosed(v.fds, 0);
    LowestNamed(v.files, name, 0);
    assert k >= 0 ==> v.files[k].name == name;
  }

  lemma {:induction false} LowestClosed(fds: seq<Fd>, at: int)
    requires 0 <= at <= |fds|
    ensures var m := FirstClosed(fds, at);
            if m == -1 then forall i :: at <= i < |fds| ==> fds[i].Open?
            else at <= m < |fds| && fds[m].Closed? && forall i :: at <= i < m ==> fds[i].Open?
    decreases |fds| - at
  {
    if at == |fds| || fds[at].Closed? {
    } else {
      LowestClosed(fds, at + 1);
    }
  }

  lemma {:induction false} LowestNamed(files: seq<FileImage>, name: string, at: int)
    requires 0 <= at <= |files|
    ensures var k := FirstNamed(files, name, at);
            if k == -1 then forall i :: at <= i < |files| ==> files[i].name != name
            else at <= k < |files| && files[k].name == name && forall i :: at <= i < k ==> files[i].name != name
    decreases |files| - at
  {
    if at == |files| || files[at].name == name {
    } else {
      LowestNamed(files, name, at + 1);
    }
  }

  /** After a close the device is free and refuses everything; the files are as they were. */
  lemma CloseLaw(v: Volume, m: int)
    requires VolumeOK(v) && 0 <= m < |v.fds|
    ensures var (w, r) := Close(v, m);
            && (r == OK <==> v.fds[m].Open?) && (r == OK || (r == SYSERR && w == v))
            && w.files == v.files && |w.fds| == |v.fds| && w.fds[m].Closed?
               && forall n :: 0 <= n < |v.fds| && n != m ==> w.fds[n] == v.fds[n]
  {
  }

  /** On a device that is not open every call but a read or write of no bytes is refused. */
  lemma ClosedRefuses(v: Volume, op: Op)
    requires VolumeOK(v) && Callable(|v.fds|, op) && !op.OpOpen? && v.fds[op.m].Closed?
    ensures Apply(v, op).0 == v
    ensures !(op.OpRead? && op.count == 0) && !(op.OpWrite? && op.buf == []) ==> Apply(v, op).1 == Reply(SYSERR, [])
  {
  }

  /** Truncating leaves an empty file at its start: the next getc answers EOF. */
  lemma TruncateThenGet(v: Volume, m: int)
    requires VolumeOK(v) && 0 <= m < |v.fds| && v.fds[m].Open?
    ensures var (w, r) := Truncate(v, m);
            && r == OK && VolumeOK(w) && |w.fds| == |v.fds| && w.fds[m].Open? && Contents(w, m) == []
               && Getc(w, m) == (w, EOF)
            && w.fds[m].file == v.fds[m].file && forall n :: 0 <= n < |v.fds| && n != m ==> w.fds[n] == v.fds[n]
  {
  }
}
