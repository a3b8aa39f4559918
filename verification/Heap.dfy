// The heap allocator: a free list in address order, taken from below by getmem,
// from above by getstk, and given back by freemem (system/getmem.c,
// system/getstk.c, system/freemem.c, include/memory.h).

module Heap {

  import opened Common

  const NULL := 0
  /** Address of the list head memlist, outside the heap. */
  const MEMLIST := -1

  /** struct memblk, as stored at the start of a free block. */
  datatype MemBlk = MemBlk(mnext: int, mlength: int)

  /** A stretch of bytes [addr, addr + len). */
  datatype Range = Range(addr: int, len: int)

  function RoundMb(n: int): int { (n + 7) / 8 * 8 }

  /** roundmb of an unsigned 32-bit number. */
  function Rounded(n: int): (r: int)
    requires 0 <= n < WORD
    ensures 0 <= r < WORD && r % 8 == 0 && (n <= WORD - 8 ==> r == RoundMb(n)) && (n > WORD - 8 ==> r == 0)
            && (n % 8 == 0 ==> r == n)
  {
    RoundMb(n) % WORD
  }

  /** A sum kept in an unsigned 32-bit variable. */
  function Sum(a: int, b: int): int { (a + b) % WORD }

  lemma RoundTwice(n: int)
    ensures RoundMb(RoundMb(n)) == RoundMb(n) && n <= RoundMb(n) < n + 8
  {
  }

  // ---- lists of ranges ------------------------------------------------------------------

  /** In order, never touching, in whole memory blocks, from min on. */
  ghost predicate Canonical(f: seq<Range>, min: int)
  {
    && (forall i :: 0 <= i < |f| ==> min <= f[i].addr && f[i].len > 0 && f[i].len % 8 == 0)
    && (forall i, j :: 0 <= i < j < |f| ==> End(f[i]) < f[j].addr)
  }

  function End(r: Range): int { r.addr + r.len }

  predicate Covers(r: Range, x: int) { r.addr <= x < r.addr + r.len }

  /** Byte x lies in one of the ranges. */
  ghost predicate InAny(f: seq<Range>, x: int)
  {
    exists i :: 0 <= i < |f| && Covers(f[i], x)
  }

  ghost predicate Meets(a: Range, b: Range)
  {
    a.addr < b.addr + b.len && b.addr < a.addr + a.len
  }

  /** A canonical list is determined by its set of bytes. */
  lemma {:induction false} CanonicalUnique(f: seq<Range>, g: seq<Range>, min: int)
    requires Canonical(f, min) && Canonical(g, min) && forall x :: InAny(f, x) <==> InAny(g, x)
    ensures f == g
    decreases |f|
  {
    hide InAny, Covers, Canonical;
    if f == [] || g == [] {
      if f != [] {
        HasByte(f, min);
        NoBytes(f[0].addr);
      }
      if g != [] {
        HasByte(g, min);
        NoBytes(g[0].addr);
      }
    } else {
      FirstStart(f, g, min);
      FirstStart(g, f, min);
      FirstEnd(f, g, min);
      FirstEnd(g, f, min);
      assert f[0] == g[0];
      forall x
        ensures InAny(f[1..], x) <==> InAny(g[1..], x)
      {
        TailBytes(f, min, x);
        TailBytes(g, min, x);
      }
      CanonicalTail(f, min);
      CanonicalTail(g, min);
      CanonicalUnique(f[1..], g[1..], min);
      assert f == [f[0]] + f[1..] && g == [g[0]] + g[1..];
    }
  }

  lemma HasByte(f: seq<Range>, min: int)
    requires Canonical(f, min) && f != []
    ensures InAny(f, f[0].addr)
  {
    assert Covers(f[0], f[0].addr);
  }

  lemma CanonicalTail(f: seq<Range>, min: int)
    requires Canonical(f, min) && f != []
    ensures Canonical(f[1..], min)
  {
  }

  lemma FirstStart(f: seq<Range>, g: seq<Range>, min: int)
    requires Canonical(f, min) && Canonical(g, min) && f != [] && g != []
    requires forall x :: InAny(f, x) ==> InAny(g, x)
    ensures f[0].addr >= g[0].addr
  {
    assert Covers(f[0], f[0].addr) && InAny(f, f[0].addr);
    var i :| 0 <= i < |g| && Covers(g[i], f[0].addr);
  }

  lemma FirstEnd(f: seq<Range>, g: seq<Range>, min: int)
    requires Canonical(f, min) && Canonical(g, min) && f != [] && g != [] && f[0].addr == g[0].addr
    requires forall x :: InAny(f, x) ==> InAny(g, x)
    ensures f[0].len <= g[0].len
  {
    var x := g[0].addr + g[0].len;
    forall i | 0 <= i < |g|
      ensures !Covers(g[i], x)
    {
    }
    assert Covers(f[0], x) ==> InAny(f, x);
  }

  lemma TailBytes(f: seq<Range>, min: int, x: int)
    requires Canonical(f, min) && f != []
    ensures InAny(f[1..], x) <==> InAny(f, x) && !Covers(f[0], x)
  {
    if InAny(f[1..], x) {
      var i :| 0 <= i < |f[1..]| && Covers(f[1..][i], x);
      assert Covers(f[i + 1], x);
    }
    if InAny(f, x) && !Covers(f[0], x) {
      var i :| 0 <= i < |f| && Covers(f[i], x);
      assert Covers(f[1..][i - 1], x);
    }
  }

  lemma BytesOfConcat(f: seq<Range>, g: seq<Range>, x: int)
    ensures InAny(f + g, x) <==> InAny(f, x) || InAny(g, x)
  {
    if InAny(f, x) {
      var i :| 0 <= i < |f| && Covers(f[i], x);
      assert (f + g)[i] == f[i];
    }
    if InAny(g, x) {
      var i :| 0 <= i < |g| && Covers(g[i], x);
      assert (f + g)[|f| + i] == g[i];
    }
  }

  /** Replacing the elements i..j-1 of a list by r: what happens to the bytes. */
  lemma BytesOfReplace(f: seq<Range>, i: int, j: int, r: seq<Range>, x: int)
    requires 0 <= i <= j <= |f|
    ensures InAny(f, x) <==> InAny(f[..i], x) || InAny(f[i..j], x) || InAny(f[j..], x)
    ensures InAny(f[..i] + r + f[j..], x) <==> InAny(f[..i], x) || InAny(r, x) || InAny(f[j..], x)
  {
    assert f == f[..i] + f[i..j] + f[j..];
    BytesOfConcat(f[..i] + f[i..j], f[j..], x);
    BytesOfConcat(f[..i], f[i..j], x);
    BytesOfConcat(f[..i] + r, f[j..], x);
    BytesOfConcat(f[..i], r, x);
  }

  lemma BytesOfOne(r: Range, x: int)
    ensures InAny([r], x) <==> Covers(r, x)
  {
    assert [r][0] == r;
  }

  function Total(f: seq<Range>): int
  {
    if f == [] then 0 else Total(f[..|f| - 1]) + f[|f| - 1].len
  }

  lemma {:induction false} TotalOfConcat(f: seq<Range>, g: seq<Range>)
    ensures Total(f + g) == Total(f) + Total(g)
    decreases |g|
  {
    if g == [] {
      assert f + g == f;
    } else {
      assert (f + g)[..|f + g| - 1] == f + g[..|g| - 1];
      TotalOfConcat(f, g[..|g| - 1]);
    }
  }

  lemma TotalOfReplace(f: seq<Range>, i: int, j: int, r: seq<Range>)
    requires 0 <= i <= j <= |f|
    ensures Total(f[..i] + r + f[j..]) == Total(f) - Total(f[i..j]) + Total(r)
  {
    assert f == f[..i] + f[i..j] + f[j..];
    TotalOfConcat(f[..i] + f[i..j], f[j..]);
    TotalOfConcat(f[..i], f[i..j]);
    TotalOfConcat(f[..i] + r, f[j..]);
    TotalOfConcat(f[..i], r);
  }

  // ---- the linked form ------------------------------------------------------------------------

  function PrevAddr(f: seq<Range>, i: int): int
    requires 0 <= i <= |f|
  {
    if i == 0 then MEMLIST else f[i - 1].addr
  }

  function AddrAt(f: seq<Range>, i: int): int
    requires 0 <= i
  {
    if i < |f| then f[i].addr else NULL
  }

  /** The blocks of f, chained in this order from memlist to the null pointer. */
  ghost predicate Linked(mem: map<int, MemBlk>, f: seq<Range>)
  {
    && MEMLIST in mem && mem[MEMLIST].mnext == AddrAt(f, 0)
    && forall i :: 0 <= i < |f| ==> NodeOK(mem, f, i)
  }

  ghost predicate NodeOK(mem: map<int, MemBlk>, f: seq<Range>, i: int)
    requires 0 <= i < |f|
  {
    f[i].addr in mem && mem[f[i].addr] == MemBlk(AddrAt(f, i + 1), f[i].len)
  }

  /** The list with the elements from i to j - 1 replaced by r. */
  function Replace(f: seq<Range>, i: int, j: int, r: seq<Range>): seq<Range>
    requires 0 <= i <= j <= |f|
  {
    f[..i] + r + f[j..]
  }

  /** Relinking around a replaced stretch: one new block, or none. */
  lemma LinkedReplace(mem: map<int, MemBlk>, f: seq<Range>, i: int, j: int, r: seq<Range>, min: int, mem': map<int,
      MemBlk>)
    requires Canonical(f, min) && min > 0 && Linked(mem, f) && 0 <= i <= j <= |f| && |r| <= 1
    requires Canonical(Replace(f, i, j, r), min)
    requires var f' := Replace(f, i, j, r);
             && MEMLIST in mem' && mem'[MEMLIST].mnext == (if i == 0 then AddrAt(f', 0) else mem[MEMLIST].mnext)
             && (i > 0 ==> f[i - 1].addr in mem' && mem'[f[i - 1].addr] == MemBlk(AddrAt(f', i), f[i - 1].len))
             && (|r| == 1 ==> r[0].addr in mem' && mem'[r[0].addr] == MemBlk(AddrAt(f, j), r[0].len))
             && (forall k :: 0 <= k < |f| && (k < i - 1 || k >= j) ==> NodeOK(mem', f, k))
    ensures Linked(mem', Replace(f, i, j, r))
  {
    var f' := Replace(f, i, j, r);
    forall k | 0 <= k < |f'|
      ensures NodeOK(mem', f', k)
    {
      if k < i - 1 {
        assert NodeOK(mem', f, k);
      } else if k >= i + |r| {
        var o := k - i - |r| + j;
        assert f'[k] == f[o] && NodeOK(mem', f, o);
        assert AddrAt(f', k + 1) == AddrAt(f, o + 1);
      }
    }
  }

  // ---- what the calls do to the list ----------------------------------------------------------------

  /** The rest of block i once n bytes are taken from its low or its high end. */
  function Rest(b: Range, n: int, low: bool): seq<Range>
  {
    if b.len == n then [] else if low then [Range(b.addr + n, b.len - n)] else [Range(b.addr, b.len - n)]
  }

  function Taken(b: Range, n: int, low: bool): Range
  {
    Range(if low then b.addr else b.addr + b.len - n, n)
  }

  /** A canonical list stays one when a stretch gives way to a block that touches no neighbour. */
  lemma CanonicalReplace(f: seq<Range>, min: int, i: int, j: int, r: seq<Range>)
    requires Canonical(f, min) && 0 <= i <= j <= |f| && |r| <= 1
    requires |r| == 1 ==> min <= r[0].addr && r[0].len > 0 && r[0].len % 8 == 0
    requires |r| == 1 && i > 0 ==> End(f[i - 1]) < r[0].addr
    requires |r| == 1 && j < |f| ==> End(r[0]) < f[j].addr
    ensures Canonical(Replace(f, i, j, r), min)
  {
    var g := Replace(f, i, j, r);
    forall k, l | 0 <= k < l < |g|
      ensures End(g[k]) < g[l].addr
    {
      ReplacedOrder(f, min, i, j, r, k, l);
    }
    forall k | 0 <= k < |g|
      ensures min <= g[k].addr && g[k].len > 0 && g[k].len % 8 == 0
    {
      ReplacedAt(f, i, j, r, k);
    }
  }

  lemma ReplacedAt(f: seq<Range>, i: int, j: int, r: seq<Range>, k: int)
    requires 0 <= i <= j <= |f| && |r| <= 1 && 0 <= k < |Replace(f, i, j, r)|
    ensures |Replace(f, i, j, r)| == |f| - j + i + |r|
    ensures var g := Replace(f, i, j, r);
            if k < i then g[k] == f[k] else if k < i + |r| then g[k] == r[0] else g[k] == f[k - i - |r| + j]
  {
  }

  lemma InOrder(f: seq<Range>, min: int, k: int, l: int)
    requires Canonical(f, min) && 0 <= k < l < |f|
    ensures End(f[k]) < f[l].addr && f[k].addr < End(f[k]) < End(f[l])
  {
  }

  lemma ReplacedOrder(f: seq<Range>, min: int, i: int, j: int, r: seq<Range>, k: int, l: int)
    requires Canonical(f, min) && 0 <= i <= j <= |f| && |r| <= 1
    requires |r| == 1 && i > 0 ==> End(f[i - 1]) < r[0].addr
    requires |r| == 1 && j < |f| ==> End(r[0]) < f[j].addr
    requires 0 <= k < l < |Replace(f, i, j, r)|
    ensures End(Replace(f, i, j, r)[k]) < Replace(f, i, j, r)[l].addr
  {
    hide Canonical, Replace;
    ReplacedAt(f, i, j, r, k);
    ReplacedAt(f, i, j, r, l);
    var k' := if k < i then k else k - i - |r| + j;
    var l' := if l < i then l else l - i - |r| + j;
    if k < i || k >= i + |r| {
      if l < i || l >= i + |r| {
        InOrder(f, min, k', l');
      } else if k < i - 1 {
        InOrder(f, min, k, i - 1);
      }
    } else if l' > j {
      FollowsEnd(f, min, j, l');
    }
  }

  lemma FollowsEnd(f: seq<Range>, min: int, j: int, l: int)
    requires Canonical(f, min) && 0 <= j < l < |f|
    ensures f[j].addr < f[l].addr
  {
  }

  /** Taking n bytes from block i keeps the list canonical and removes exactly those bytes. */
  lemma Carve(f: seq<Range>, min: int, i: int, n: int, low: bool)
    requires Canonical(f, min) && 0 <= i < |f| && 0 <= n <= f[i].len && n % 8 == 0
    ensures Canonical(Replace(f, i, i + 1, Rest(f[i], n, low)), min)
  {
    hide InAny;
    CanonicalReplace(f, min, i, i + 1, Rest(f[i], n, low));
  }

  lemma CarvedBytes(f: seq<Range>, min: int, i: int, n: int, low: bool, x: int)
    requires Canonical(f, min) && 0 <= i < |f| && 0 <= n <= f[i].len && n % 8 == 0
    ensures InAny(Replace(f, i, i + 1, Rest(f[i], n, low)), x) <==> InAny(f, x) && !Covers(Taken(f[i], n, low), x)
  {
    hide InAny, Canonical;
    var r := Rest(f[i], n, low);
    BytesOfReplace(f, i, i + 1, r, x);
    assert f[i..i + 1] == [f[i]];
    BytesOfOne(f[i], x);
    if r == [] {
      NoBytes(x);
    } else {
      BytesOfOne(r[0], x);
    }
    if Covers(f[i], x) {
      OthersApart(f, min, i, x);
    }
  }

  lemma NoBytes(x: int)
    ensures !InAny([], x)
  {
  }

  lemma OthersApart(f: seq<Range>, min: int, i: int, x: int)
    requires Canonical(f, min) && 0 <= i < |f| && Covers(f[i], x)
    ensures !InAny(f[..i], x) && !InAny(f[i + 1..], x)
  {
  }

  /** Where the freed block lands: the stretch i..j-1 of the list gives way to one block. */
  datatype Landing = Landing(i: int, j: int, block: Range)

  /** The freed block b goes before element at; it is joined with neighbours that it touches. */
  function Join(f: seq<Range>, at: int, b: Range): Landing
    requires 0 <= at <= |f|
  {
    var left := TouchesLeft(f, at, b);
    var right := TouchesRight(f, at, b);
    var start := if left then f[at - 1].addr else b.addr;
    var end := if right then End(f[at]) else End(b);
    Landing(if left then at - 1 else at, if right then at + 1 else at, Range(start, end - start))
  }

  predicate TouchesLeft(f: seq<Range>, at: int, b: Range)
    requires 0 <= at <= |f|
  {
    at > 0 && End(f[at - 1]) == b.addr
  }

  predicate TouchesRight(f: seq<Range>, at: int, b: Range)
    requires 0 <= at <= |f|
  {
    at < |f| && End(b) == f[at].addr
  }

  /** Block b can go before element at: it overlaps neither neighbour. */
  ghost predicate Room(f: seq<Range>, at: int, b: Range)
  {
    && 0 <= at <= |f|
    && (at > 0 ==> End(f[at - 1]) <= b.addr)
    && (at < |f| ==> End(b) <= f[at].addr)
  }

  /** The list after block b has been given back. */
  function Given(f: seq<Range>, at: int, b: Range): seq<Range>
    requires 0 <= at <= |f|
  {
    var p := Join(f, at, b);
    Replace(f, p.i, p.j, [p.block])
  }

  /** Giving a block back keeps the list canonical ... */
  lemma Coalesce(f: seq<Range>, min: int, at: int, b: Range)
    requires Canonical(f, min) && Room(f, at, b) && min <= b.addr && b.len > 0 && b.len % 8 == 0
    ensures Canonical(Given(f, at, b), min)
  {
    hide Canonical;
    var p := Join(f, at, b);
    CloseBy(f, min, at);
    CanonicalReplace(f, min, p.i, p.j, [p.block]);
  }

  lemma CloseBy(f: seq<Range>, min: int, at: int)
    requires Canonical(f, min) && 0 <= at <= |f|
    ensures at >= 2 ==> End(f[at - 2]) < f[at - 1].addr
    ensures at + 1 < |f| ==> End(f[at]) < f[at + 1].addr
    ensures at > 0 ==> min <= f[at - 1].addr && f[at - 1].len > 0 && f[at - 1].len % 8 == 0
    ensures at < |f| ==> min <= f[at].addr && f[at].len > 0 && f[at].len % 8 == 0
  {
  }

  /** ... and adds exactly its bytes. */
  lemma GivenBytes(f: seq<Range>, at: int, b: Range, x: int)
    requires Room(f, at, b) && b.len > 0 && forall k :: 0 <= k < |f| ==> f[k].len > 0
    ensures InAny(Given(f, at, b), x) <==> InAny(f, x) || Covers(b, x)
  {
    hide InAny;
    var p := Join(f, at, b);
    BytesOfReplace(f, p.i, p.j, [p.block], x);
    BytesOfOne(p.block, x);
    MiddleBytes(f, p.i, p.j, x);
  }

  lemma MiddleBytes(f: seq<Range>, i: int, j: int, x: int)
    requires 0 <= i <= j <= |f| && j <= i + 2
    ensures InAny(f[i..j], x) <==> (i < j && Covers(f[i], x)) || (i + 1 < j && Covers(f[i + 1], x))
  {
    if i < j && Covers(f[i], x) {
      assert Covers(f[i..j][0], x);
    }
    if i + 1 < j && Covers(f[i + 1], x) {
      assert Covers(f[i..j][1], x);
    }
  }

  ghost predicate MeetsNone(f: seq<Range>, b: Range)
  {
    forall k :: 0 <= k < |f| ==> !Meets(f[k], b)
  }

  /** freemem looks at the neighbours of the place where it stopped, and only at these:
      that finds every overlap. */
  lemma Neighbours(f: seq<Range>, min: int, at: int, b: Range)
    requires Canonical(f, min) && 0 <= at <= |f| && b.len >= 0
    requires (at > 0 ==> f[at - 1].addr < b.addr) && (at < |f| ==> b.addr <= f[at].addr)
    ensures MeetsNone(f, b) <==> Room(f, at, b)
  {
    if MeetsNone(f, b) {
      assert at > 0 ==> !Meets(f[at - 1], b);
      assert at < |f| ==> !Meets(f[at], b);
    }
    if Room(f, at, b) {
      forall k | 0 <= k < |f|
        ensures !Meets(f[k], b)
      {
        if k < at - 1 {
          InOrder(f, min, k, at - 1);
        } else if k > at {
          InOrder(f, min, at, k);
        }
      }
    }
  }

  // ---- one call, on values ----------------------------------------------------------------------

  ghost predicate InWord(f: seq<Range>)
  {
    forall i :: 0 <= i < |f| ==> End(f[i]) < WORD
  }

  ghost predicate Below(f: seq<Range>, max: int)
  {
    forall i :: 0 <= i < |f| ==> End(f[i]) <= max
  }

  /** The free list is canonical and linked; the length kept in memlist, which is never
      initialised, differs from the number of free bytes by a constant modulo 2^32. */
  ghost predicate HeapOK(mem: map<int, MemBlk>, f: seq<Range>, min: int, skew: int)
  {
    && min > 0
    && Canonical(f, min)
    && Linked(mem, f)
    && InWord(f)
    && (mem[MEMLIST].mlength - Total(f)) % WORD == skew
  }

  /** The blocks of a canonical list sit at different addresses. */
  lemma AddrsDiffer(f: seq<Range>, min: int, i: int, j: int)
    requires Canonical(f, min) && 0 <= i < |f| && 0 <= j < |f| && i != j
    ensures f[i].addr != f[j].addr && f[i].addr >= min
  {
    FollowsEnd(f, min, if i < j then i else j, if i < j then j else i);
  }

  lemma SameSkew(m: int, t: int, d: int, skew: int)
    requires (m - t) % WORD == skew
    ensures ((m + d) % WORD - (t + d)) % WORD == skew
  {
  }

  lemma TotalReplaced(mem: map<int, MemBlk>, f: seq<Range>, min: int, skew: int, i: int, j: int, r: seq<Range>, m: int)
    requires HeapOK(mem, f, min, skew) && 0 <= i <= j <= |f|
    requires m == (mem[MEMLIST].mlength + (Total(r) - Total(f[i..j]))) % WORD
    ensures (m - Total(Replace(f, i, j, r))) % WORD == skew
  {
    hide Canonical, InWord;
    TotalOfReplace(f, i, j, r);
    SameSkew(mem[MEMLIST].mlength, Total(f), Total(r) - Total(f[i..j]), skew);
  }

  lemma BoundReplaced(f: seq<Range>, i: int, j: int, r: seq<Range>, max: int)
    requires 0 <= i <= j <= |f| && |r| <= 1 && Below(f, max) && (|r| == 1 ==> End(r[0]) <= max)
    ensures Below(Replace(f, i, j, r), max)
  {
    var g := Replace(f, i, j, r);
    forall k | 0 <= k < |g|
      ensures End(g[k]) <= max
    {
      ReplacedAt(f, i, j, r, k);
    }
  }

  lemma BelowWord(f: seq<Range>)
    ensures InWord(f) <==> Below(f, WORD - 1)
  {
  }

  lemma NodeAt(mem: map<int, MemBlk>, f: seq<Range>, min: int, skew: int, i: int)
    requires HeapOK(mem, f, min, skew) && 0 <= i < |f|
    ensures f[i].addr in mem && mem[f[i].addr] == MemBlk(AddrAt(f, i + 1), f[i].len) && f[i].addr >= min && f[i].len > 0
            && f[i].len % 8 == 0
  {
    assert NodeOK(mem, f, i);
  }

  /** The null pointer marks the end of the list and nothing else. */
  lemma NullAtEnd(mem: map<int, MemBlk>, f: seq<Range>, min: int, skew: int, i: int)
    requires HeapOK(mem, f, min, skew) && 0 <= i <= |f|
    ensures AddrAt(f, i) == NULL <==> i == |f|
  {
  }

  /** The memory words written when a stretch of the list gives way to at most one block:
      the link before it, the new block, and the count in the head. */
  function Written(mem: map<int, MemBlk>, f: seq<Range>, i: int, j: int, r: seq<Range>, m: int): map<int, MemBlk>
    requires 0 <= i <= j <= |f| && |r| <= 1 && MEMLIST in mem && PrevAddr(f, i) in mem
  {
    var first := if |r| == 1 then r[0].addr else AddrAt(f, j);
    var mem1 := mem[PrevAddr(f, i) := mem[PrevAddr(f, i)].(mnext := first)];
    var mem2 := if |r| == 1 then mem1[r[0].addr := MemBlk(AddrAt(f, j), r[0].len)] else mem1;
    mem2[MEMLIST := mem2[MEMLIST].(mlength := m)]
  }

  /** No header outside the replaced stretch sits at the address of the new block. */
  ghost predicate Apart(f: seq<Range>, i: int, j: int, r: seq<Range>)
  {
    |r| == 1 ==> forall k :: 0 <= k < |f| && (k < i || k >= j) ==> f[k].addr != r[0].addr
  }

  lemma WrittenLinks(mem: map<int, MemBlk>, f: seq<Range>, min: int, skew: int, i: int, j: int, r: seq<Range>, m: int)
    requires HeapOK(mem, f, min, skew) && 0 <= i <= j <= |f| && |r| <= 1 && Apart(f, i, j, r)
    requires |r| == 1 ==> r[0].addr >= min
    requires Canonical(Replace(f, i, j, r), min) && PrevAddr(f, i) in mem
    ensures Linked(Written(mem, f, i, j, r, m), Replace(f, i, j, r))
  {
    hide Total, InWord;
    var mem' := Written(mem, f, i, j, r, m);
    forall k | 0 <= k < |f| && (k < i - 1 || k >= j)
      ensures NodeOK(mem', f, k)
    {
      hide Replace, Canonical;
      NodeAt(mem, f, min, skew, k);
      if i > 0 {
        AddrsDiffer(f, min, i - 1, k);
      }
    }
    if i > 0 {
      NodeAt(mem, f, min, skew, i - 1);
    }
    LinkedReplace(mem, f, i, j, r, min, mem');
  }

  /** The effect of any call on memory and free list. */
  lemma Rewritten(mem: map<int, MemBlk>, f: seq<Range>, min: int, skew: int, i: int, j: int, r: seq<Range>, m: int)
    requires HeapOK(mem, f, min, skew) && 0 <= i <= j <= |f| && |r| <= 1 && Apart(f, i, j, r)
    requires |r| == 1 ==> r[0].addr >= min && End(r[0]) < WORD
    requires Canonical(Replace(f, i, j, r), min) && PrevAddr(f, i) in mem
    requires m == (mem[MEMLIST].mlength + (Total(r) - Total(f[i..j]))) % WORD
    ensures HeapOK(Written(mem, f, i, j, r, m), Replace(f, i, j, r), min, skew)
  {
    hide Canonical, Linked, Apart, Replace, Total, NodeOK, InWord, Below;
    WrittenLinks(mem, f, min, skew, i, j, r, m);
    TotalReplaced(mem, f, min, skew, i, j, r, m);
    BelowWord(f);
    BoundReplaced(f, i, j, r, WORD - 1);
    BelowWord(Replace(f, i, j, r));
  }

  lemma PrevIn(mem: map<int, MemBlk>, f: seq<Range>, min: int, skew: int, i: int)
    requires HeapOK(mem, f, min, skew) && 0 <= i <= |f|
    ensures PrevAddr(f, i) in mem && mem[PrevAddr(f, i)].mnext == AddrAt(f, i)
    ensures i < |f| ==> PrevAddr(f, i) != f[i].addr
  {
    if i > 0 {
      if i < |f| {
        AddrsDiffer(f, min, i - 1, i);
      }
      NodeAt(mem, f, min, skew, i - 1);
    }
  }

  /** Cutting n bytes off block i. */
  lemma CutOK(mem: map<int, MemBlk>, f: seq<Range>, min: int, skew: int, i: int, n: int, low: bool, m: int)
    requires HeapOK(mem, f, min, skew) && 0 <= i < |f| && 0 <= n <= f[i].len && n % 8 == 0 && PrevAddr(f, i) in mem
    requires m == (mem[MEMLIST].mlength - n) % WORD
    ensures var r := Rest(f[i], n, low);
            HeapOK(Written(mem, f, i, i + 1, r, m), Replace(f, i, i + 1, r), min, skew)
  {
    hide Linked, Total, InWord, Written, Replace;
    var r := Rest(f[i], n, low);
    Carve(f, min, i, n, low);
    assert End(f[i]) < WORD by { InWordAt(f, i); }
    OneTotal(f, i);
    if r != [] {
      TotalOfOne(r[0]);
      assert r == [r[0]];
    }
    CutApart(f, min, i, n, low);
    Rewritten(mem, f, min, skew, i, i + 1, r, m);
  }

  /** Giving block b back before element at. */
  lemma GiveOK(mem: map<int, MemBlk>, f: seq<Range>, min: int, skew: int, at: int, b: Range, m: int)
    requires HeapOK(mem, f, min, skew) && Room(f, at, b) && min <= b.addr && b.len > 0 && b.len % 8 == 0
             && End(b) < WORD
    requires PrevAddr(f, Join(f, at, b).i) in mem && m == (mem[MEMLIST].mlength + b.len) % WORD
    ensures var p := Join(f, at, b);
            HeapOK(Written(mem, f, p.i, p.j, [p.block], m), Given(f, at, b), min, skew)
  {
    hide Linked, Total, Written, Replace, Canonical;
    var p := Join(f, at, b);
    Coalesce(f, min, at, b);
    JoinTotal(f, at, b);
    JoinApart(f, min, at, b);
    JoinBounds(f, min, at, b);
    Rewritten(mem, f, min, skew, p.i, p.j, [p.block], m);
  }

  lemma JoinTotal(f: seq<Range>, at: int, b: Range)
    requires Room(f, at, b)
    ensures var p := Join(f, at, b); Total([p.block]) - Total(f[p.i..p.j]) == b.len
  {
    var p := Join(f, at, b);
    TotalOfOne(p.block);
    var mid := f[p.i..p.j];
    assert TouchesLeft(f, at, b) ==> mid[0] == f[at - 1];
    assert TouchesRight(f, at, b) ==> mid[|mid| - 1] == f[at];
    if |mid| == 2 {
      assert mid == [mid[0]] + [mid[1]];
      TotalOfConcat([mid[0]], [mid[1]]);
      TotalOfOne(mid[0]);
      TotalOfOne(mid[1]);
    } else if |mid| == 1 {
      assert mid == [mid[0]];
      TotalOfOne(mid[0]);
    }
  }

  lemma JoinApart(f: seq<Range>, min: int, at: int, b: Range)
    requires Canonical(f, min) && Room(f, at, b) && b.len > 0
    ensures var p := Join(f, at, b); Apart(f, p.i, p.j, [p.block])
  {
    var p := Join(f, at, b);
    forall k | 0 <= k < |f| && (k < p.i || k >= p.j)
      ensures f[k].addr != p.block.addr
    {
      if k < at - 1 {
        FollowsEnd(f, min, k, at - 1);
        InOrder(f, min, k, at - 1);
      } else if k > at {
        FollowsEnd(f, min, at, k);
      }
    }
  }

  lemma JoinBounds(f: seq<Range>, min: int, at: int, b: Range)
    requires Canonical(f, min) && Room(f, at, b) && min <= b.addr && InWord(f) && End(b) < WORD
    ensures var p := Join(f, at, b); 0 <= p.i <= p.j <= |f| && p.block.addr >= min && End(p.block) < WORD
  {
  }

  lemma InWordAt(f: seq<Range>, i: int)
    requires InWord(f) && 0 <= i < |f|
    ensures End(f[i]) < WORD
  {
  }

  lemma CutApart(f: seq<Range>, min: int, i: int, n: int, low: bool)
    requires Canonical(f, min) && 0 <= i < |f| && 0 <= n <= f[i].len
    ensures Apart(f, i, i + 1, Rest(f[i], n, low))
  {
    forall k | 0 <= k < |f| && k != i
      ensures !Covers(f[i], f[k].addr)
    {
      if k < i {
        InOrder(f, min, k, i);
      } else {
        InOrder(f, min, i, k);
      }
    }
  }

  lemma OneTotal(f: seq<Range>, i: int)
    requires 0 <= i < |f|
    ensures Total(f[i..i + 1]) == f[i].len && Total([]) == 0
  {
    TotalOfOne(f[i]);
    assert f[i..i + 1] == [f[i]];
  }

  lemma TotalOfOne(r: Range)
    ensures Total([r]) == r.len
  {
    assert [r][..0] == [];
  }

  /** freemem tests only where a range starts.  The list stays inside the heap exactly when the
      range ends there too. */
  lemma GivenBelow(f: seq<Range>, min: int, max: int, at: int, b: Range)
    requires Canonical(f, min) && Room(f, at, b) && Below(f, max) && b.len > 0
    ensures Below(Given(f, at, b), max) <==> End(b) <= max
  {
    hide Canonical;
    var p := Join(f, at, b);
    var g := Given(f, at, b);
    CloseBy(f, min, at);
    ReplacedAt(f, p.i, p.j, [p.block], p.i);
    assert g[p.i] == p.block;
    if End(b) <= max {
      BoundReplaced(f, p.i, p.j, [p.block], max);
    }
  }
}
