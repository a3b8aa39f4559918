// What the local file system means to its callers: files are byte sequences,
// open files are positions in them.  Nothing here knows about blocks or caches,
// except the count of blocks a volume needs.

module LfsVolume {
  import opened Common
  import opened LfsCodec
  import opened LfsLayout

  const EOF := -2

  datatype Fd = Closed | Open(file: int, pos: int)

  datatype FileImage = FileImage(name: string, data: seq<byte>)

  datatype Volume = Volume(files: seq<FileImage>, fds: seq<Fd>)

  ghost predicate VolumeOK(v: Volume)
  {
    && (forall m :: 0 <= m < |v.fds| && v.fds[m].Open? ==>
          0 <= v.fds[m].file < |v.files| && 0 <= v.fds[m].pos <= |v.files[v.fds[m].file].data|)
    && (forall m, n :: 0 <= m < n < |v.fds| && v.fds[m].Open? && v.fds[n].Open? ==> v.fds[m].file != v.fds[n].file)
  }

  /** Replacing the contents and the position of the file open at m. */
  function Update(v: Volume, m: int, data: seq<byte>, pos: int): Volume
    requires 0 <= m < |v.fds| && v.fds[m].Open? && 0 <= v.fds[m].file < |v.files|
  {
    var k := v.fds[m].file;
    Volume(v.files[k := v.files[k].(data := data)], v.fds[m := Open(k, pos)])
  }

  function Contents(v: Volume, m: int): seq<byte>
    requires 0 <= m < |v.fds| && v.fds[m].Open? && 0 <= v.fds[m].file < |v.files|
  {
    v.files[v.fds[m].file].data
  }

  // ---- the operations ---------------------------------------------------------------

  ghost function Getc(v: Volume, m: int): (Volume, int)
    requires VolumeOK(v) && 0 <= m < |v.fds|
  {
    if v.fds[m].Closed? then (v, SYSERR)
    else
      var data, pos := Contents(v, m), v.fds[m].pos;
      if pos >= |data| then (v, EOF) else (Update(v, m, data, pos + 1), data[pos])
  }

  ghost function Putc(v: Volume, m: int, ch: byte): (Volume, int)
    requires VolumeOK(v) && 0 <= m < |v.fds|
  {
    if v.fds[m].Closed? then (v, SYSERR)
    else (Update(v, m, PutAt(Contents(v, m), v.fds[m].pos, ch), v.fds[m].pos + 1), OK)
  }

  ghost function Seek(v: Volume, m: int, offset: int): (Volume, int)
    requires VolumeOK(v) && 0 <= m < |v.fds|
  {
    if v.fds[m].Closed? || offset > |Contents(v, m)| then (v, SYSERR)
    else (v.(fds := v.fds[m := Open(v.fds[m].file, offset)]), OK)
  }

  /** Reading up to count bytes; the third component is what arrives in the buffer. */
  ghost function Read(v: Volume, m: int, count: int): (Volume, int, seq<byte>)
    requires VolumeOK(v) && 0 <= m < |v.fds|
  {
    if count < 0 then (v, SYSERR, [])
    else if count == 0 then (v, 0, [])
    else if v.fds[m].Closed? then (v, SYSERR, [])
    else
      var data, pos := Contents(v, m), v.fds[m].pos;
      var end := if pos + count <= |data| then pos + count else |data|;
      (Update(v, m, data, end), if end == pos then EOF else end - pos, data[pos..end])
  }

  /** The contents after writing buf at pos. */
  function Splice(data: seq<byte>, pos: int, buf: seq<byte>): (r: seq<byte>)
    requires 0 <= pos <= |data|
    ensures |r| == if pos + |buf| <= |data| then |data| else pos + |buf|
  {
    data[..pos] + buf + if pos + |buf| <= |data| then data[pos + |buf|..] else []
  }

  ghost function Write(v: Volume, m: int, buf: seq<byte>, count: int): (Volume, int)
    requires VolumeOK(v) && 0 <= m < |v.fds| && count <= |buf|
  {
    if count < 0 then (v, SYSERR)
    else if count == 0 then (v, 0)
    else if v.fds[m].Closed? then (v, SYSERR)
    else (Update(v, m, Splice(Contents(v, m), v.fds[m].pos, buf[..count]), v.fds[m].pos + count), count)
  }

  ghost function Truncate(v: Volume, m: int): (Volume, int)
    requires VolumeOK(v) && 0 <= m < |v.fds|
  {
    if v.fds[m].Closed? then (v, SYSERR) else (Update(v, m, [], 0), OK)
  }

  ghost function Close(v: Volume, m: int): (Volume, int)
    requires VolumeOK(v) && 0 <= m < |v.fds|
  {
    if v.fds[m].Closed? then (v, SYSERR) else (v.(fds := v.fds[m := Closed]), OK)
  }

  /** Mode characters: r, w at most once, and at most one of o, n. */
  predicate ValidMode(mode: string)
  {
    (forall i :: 0 <= i < |mode| ==> mode[i] in "rwon")
    && (forall i, j :: 0 <= i < j < |mode| ==> mode[i] != mode[j] && !(mode[i] in "on" && mode[j] in "on"))
  }

  /** The lowest closed device from position `at` on, or -1. */
  function FirstClosed(fds: seq<Fd>, at: int): int
    requires 0 <= at <= |fds|
    decreases |fds| - at
  {
    if at == |fds| then -1 else if fds[at].Closed? then at else FirstClosed(fds, at + 1)
  }

  /** The first file of that name from position `at` on, or -1. */
  function FirstNamed(files: seq<FileImage>, name: string, at: int): int
    requires 0 <= at <= |files|
    decreases |files| - at
  {
    if at == |files| then -1 else if files[at].name == name then at else FirstNamed(files, name, at + 1)
  }

  lemma {:induction false} FirstClosedIs(fds: seq<Fd>, at: int, m: int)
    requires 0 <= at <= |fds| && (m == -1 || (at <= m < |fds| && fds[m].Closed?))
    requires forall i :: at <= i < (if m == -1 then |fds| else m) ==> fds[i].Open?
    ensures FirstClosed(fds, at) == m
    decreases |fds| - at
  {
    if at == |fds| || at == m {
    } else {
      FirstClosedIs(fds, at + 1, m);
    }
  }

  lemma {:induction false} FirstNamedIs(files: seq<FileImage>, name: string, at: int, k: int)
    requires 0 <= at <= |files| && (k == -1 || (at <= k < |files| && files[k].name == name))
    requires forall i :: at <= i < (if k == -1 then |files| else k) ==> files[i].name != name
    ensures FirstNamed(files, name, at) == k
    decreases |files| - at
  {
    if at == |files| || at == k {
    } else {
      FirstNamedIs(files, name, at + 1, k);
    }
  }

  ghost predicate AlreadyOpen(v: Volume, name: string)
    requires VolumeOK(v)
  {
    exists m :: 0 <= m < |v.fds| && v.fds[m].Open? && v.files[v.fds[m].file].name == name
  }

  ghost function OpenFile(v: Volume, name: string, mode: string): (Volume, int)
    requires VolumeOK(v)
  {
    var m := FirstClosed(v.fds, 0);
    var k := FirstNamed(v.files, name, 0);
    if |name| >= LF_NAME_LEN || !ValidMode(mode) || AlreadyOpen(v, name) || m < 0 then (v, SYSERR)
    else if k >= 0 then
      if 'n' in mode then (v, SYSERR) else (v.(fds := Assign(v.fds, m, Open(k, 0))), m)
    else if 'o' in mode || |v.files| >= LF_NUM_DIR_ENT then (v, SYSERR)
    else (Volume(v.files + [FileImage(name, [])], Assign(v.fds, m, Open(|v.files|, 0))), m)
  }

  function Assign(fds: seq<Fd>, m: int, fd: Fd): seq<Fd>
  {
    if 0 <= m < |fds| then fds[m := fd] else fds
  }

  // ---- room ----------------------------------------------------------------------------

  /** Blocks of d bytes needed by the first n files. */
  function Demand(files: seq<FileImage>, n: int, d: int): (r: int)
    requires 0 <= n <= |files| && d > 0
    ensures r >= 0
  {
    if n == 0 then 0 else Demand(files, n - 1, d) + Ceil(|files[n - 1].data|, d)
  }

  /** The volume fits the disk. */
  ghost predicate Fits(g: Geometry, v: Volume)
  {
    Demand(v.files, |v.files|, 512) <= g.nsect - g.first && Demand(v.files, |v.files|, LF_IDATA) <= g.nib
  }
}
