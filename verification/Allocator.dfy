// The allocator itself: getmem takes from below, getstk from above, freemem gives back
// (system/getmem.c, system/getstk.c, system/freemem.c, system/meminit.c, include/memory.h).

module Allocator {

  import opened Common
  import opened Heap

  /** Index i is the lowest block with room for n bytes. */
  ghost predicate FirstFit(f: seq<Range>, n: int, i: int)
  {
    0 <= i < |f| && f[i].len >= n && forall k :: 0 <= k < i ==> f[k].len < n
  }

  /** Index i is the highest block with room for n bytes. */
  ghost predicate LastFit(f: seq<Range>, n: int, i: int)
  {
    0 <= i < |f| && f[i].len >= n && forall k :: i < k < |f| ==> f[k].len < n
  }

  ghost predicate NoFit(f: seq<Range>, n: int)
  {
    forall k :: 0 <= k < |f| ==> f[k].len < n
  }

  /** The list once n bytes have been cut off block i. */
  function Cut(f: seq<Range>, i: int, n: int, low: bool): seq<Range>
    requires 0 <= i < |f|
  {
    Replace(f, i, i + 1, Rest(f[i], n, low))
  }

  lemma CutChanges(f: seq<Range>, i: int, n: int, low: bool)
    requires 0 <= i < |f| && 0 <= n <= f[i].len && f[i].len > 0
    ensures Cut(f, i, n, low) == f <==> n == 0
  {
    var g := Cut(f, i, n, low);
    if n == 0 {
      assert f == f[..i] + [f[i]] + f[i + 1..];
    } else if n < f[i].len {
      assert g[i] != f[i];
    }
  }

  // ---- what freemem writes ---------------------------------------------------------------------

  /** The writes of freemem, in its order; all sums are taken modulo 2^32. */
  function Inserted(mem: map<int, MemBlk>, blk: int, n: int, prev: int, next: int, top: int): map<int, MemBlk>
    requires MEMLIST in mem && prev in mem
  {
    var mem0 := mem[MEMLIST := mem[MEMLIST].(mlength := Sum(mem[MEMLIST].mlength, n))];
    var mem1 := if top == blk then mem0[prev := mem0[prev].(mlength := Sum(mem0[prev].mlength, n))]
                else var mem2 := mem0[blk := MemBlk(next, n)]; mem2[prev := mem2[prev].(mnext := blk)];
    var block := if top == blk then prev else blk;
    if Sum(block, mem1[block].mlength) == next && next in mem1 then
      mem1[block := MemBlk(mem1[next].mnext, Sum(mem1[block].mlength, mem1[next].mlength))]
    else mem1
  }

  /** The end of the block before element at, where freemem keeps the null pointer for none. */
  function TopAt(f: seq<Range>, at: int): int
    requires 0 <= at <= |f|
  {
    if at == 0 then NULL else End(f[at - 1])
  }

  /** The range has bytes and ends below 2^32. */
  predicate Ordinary(b: Range) { b.len > 0 && End(b) < WORD }

  /** For an ordinary range the writes amount to one rewrite of the joined stretch. */
  lemma InsertWrites(mem: map<int, MemBlk>, f: seq<Range>, min: int, skew: int, at: int, b: Range, m: int)
    requires HeapOK(mem, f, min, skew) && Room(f, at, b) && min <= b.addr && Ordinary(b)
    requires MEMLIST in mem && m == Sum(mem[MEMLIST].mlength, b.len)
    ensures PrevAddr(f, Join(f, at, b).i) in mem && PrevAddr(f, at) in mem
    ensures var p := Join(f, at, b);
            Written(mem, f, p.i, p.j, [p.block], m)
                == Inserted(mem, b.addr, b.len, PrevAddr(f, at), AddrAt(f, at), TopAt(f, at))
  {
    hide Canonical, Linked, Total, Sum;
    var p := Join(f, at, b);
    PrevIn(mem, f, min, skew, p.i);
    PrevIn(mem, f, min, skew, at);
    PrevIn(mem, f, min, skew, 0);
    SmallSum(b.addr, b.len);
    if at > 0 {
      NodeAt(mem, f, min, skew, at - 1);
      SmallSum(f[at - 1].len, b.len);
      SmallSum(f[at - 1].addr, f[at - 1].len + b.len);
    }
    if at < |f| {
      NodeAt(mem, f, min, skew, at);
      InWordAt(f, at);
      SmallSum(b.len, f[at].len);
      if at > 0 {
        SmallSum(f[at - 1].len + b.len, f[at].len);
      }
    }
  }

  lemma SmallSum(x: int, y: int)
    ensures 0 <= x + y < WORD ==> Sum(x, y) == x + y
  {
  }

  /** Whether the free list is still one after freemem has accepted range b before element at.  A range
      that is not ordinary is harmless only as a change of length of the block before it. */
  predicate Keeps(f: seq<Range>, at: int, b: Range)
    requires 0 <= at <= |f|
  {
    Ordinary(b) || (TouchesLeft(f, at, b) && Ordinary(Range(f[at - 1].addr, (f[at - 1].len + b.len) % WORD)))
  }

  /** The list in that case. */
  function Returned(f: seq<Range>, at: int, b: Range): seq<Range>
    requires 0 <= at <= |f|
  {
    if Ordinary(b) || !TouchesLeft(f, at, b) then Given(f, at, b)
    else Replace(f, at - 1, at, [Range(f[at - 1].addr, (f[at - 1].len + b.len) % WORD)])
  }

  /** What memlist points to is no free list. */
  ghost predicate NoList(mem: map<int, MemBlk>, min: int)
  {
    forall g, skew :: !HeapOK(mem, g, min, skew)
  }

  /** Range b may go before element at: what freemem looks at. */
  predicate Accepted(f: seq<Range>, at: int, b: Range)
  {
    && 0 <= at <= |f|
    && (at > 0 ==> End(f[at - 1]) <= b.addr)
    && (at < |f| ==> b.addr <= f[at].addr && End(b) % WORD <= f[at].addr)
  }

  /** The list that starts at memlist in memory mem runs through the first j blocks of f to address a. */
  lemma WalksTo(mem: map<int, MemBlk>, f: seq<Range>, g: seq<Range>, min: int, skew: int, j: int, a: int)
    requires HeapOK(mem, g, min, skew) && 0 <= j <= |f| && a > 0 && (forall i :: 0 <= i < j ==> f[i].addr > 0)
    requires MEMLIST in mem && mem[MEMLIST].mnext == if j == 0 then a else f[0].addr
    requires forall i :: 0 <= i < j - 1 ==> f[i].addr in mem && mem[f[i].addr].mnext == f[i + 1].addr
    requires j > 0 ==> f[j - 1].addr in mem && mem[f[j - 1].addr].mnext == a
    ensures |g| > j && g[j].addr == a && a in mem && mem[a].mlength == g[j].len
  {
    hide Canonical, InWord, Total;
    if j == 0 {
      NodeAt(mem, g, min, skew, 0);
    } else {
      StepsTo(mem, f, g, min, skew, j - 1);
      NodeAt(mem, g, min, skew, j - 1);
      assert AddrAt(g, j) == a;
      NodeAt(mem, g, min, skew, j);
    }
  }

  lemma {:induction false} StepsTo(mem: map<int, MemBlk>, f: seq<Range>, g: seq<Range>, min: int, skew: int, j: int)
    requires HeapOK(mem, g, min, skew) && 0 <= j < |f| && (forall i :: 0 <= i <= j ==> f[i].addr > 0)
    requires MEMLIST in mem && mem[MEMLIST].mnext == f[0].addr
    requires forall i :: 0 <= i < j ==> f[i].addr in mem && mem[f[i].addr].mnext == f[i + 1].addr
    ensures |g| > j && g[j].addr == f[j].addr
    decreases j
  {
    hide Canonical, InWord, Total;
    if j == 0 {
      assert AddrAt(g, 0) == f[0].addr;
    } else {
      StepsTo(mem, f, g, min, skew, j - 1);
      NodeAt(mem, g, min, skew, j - 1);
      assert AddrAt(g, j) == f[j].addr;
    }
  }

  /** The bytes that freemem checks for overlap: of a range that ends beyond 2^32 only the start. */
  function Checked(b: Range): Range
  {
    if End(b) < WORD then b else Range(b.addr, 0)
  }

  lemma AcceptedIs(f: seq<Range>, min: int, at: int, b: Range)
    requires Canonical(f, min) && 0 <= at <= |f| && 0 <= b.len < WORD && 0 < b.addr < WORD && End(b) != WORD
    requires (at > 0 ==> f[at - 1].addr < b.addr) && (at < |f| ==> b.addr <= f[at].addr)
    ensures Accepted(f, at, b) <==> MeetsNone(f, Checked(b))
    ensures Accepted(f, at, b) && Ordinary(b) ==> Room(f, at, b)
  {
    hide Canonical, MeetsNone;
    Neighbours(f, min, at, Checked(b));
  }

  /** What Accepted and the bounds say about a range that is not ordinary. */
  ghost predicate Odd(f: seq<Range>, min: int, at: int, b: Range)
  {
    && Accepted(f, at, b) && !Ordinary(b) && 0 < min <= b.addr < WORD && 0 <= b.len < WORD && b.len % 8 == 0
       && End(b) != WORD
  }

  lemma OddEnd(f: seq<Range>, min: int, at: int, b: Range)
    requires Odd(f, min, at, b) && Canonical(f, min)
    ensures at < |f| && !TouchesLeft(f, at, b) ==> End(b) % WORD == f[at].addr ==> b.len == 0 && b.addr == f[at].addr
    ensures at < |f| && TouchesLeft(f, at, b) ==> End(b) % WORD != f[at].addr
    ensures End(b) % WORD != 0
  {
    CloseBy(f, min, at);
    if TouchesLeft(f, at, b) && at < |f| {
      InOrder(f, min, at - 1, at);
    }
  }

  /** Linked in as a block of its own, it leaves no list: the block has no bytes or ends beyond 2^32. */
  lemma OddBlock(mem: map<int, MemBlk>, f: seq<Range>, min: int, skew: int, at: int, b: Range)
    requires HeapOK(mem, f, min, skew) && Odd(f, min, at, b) && !TouchesLeft(f, at, b)
    requires MEMLIST in mem && PrevAddr(f, at) in mem
    ensures NoList(Inserted(mem, b.addr, b.len, PrevAddr(f, at), AddrAt(f, at), TopAt(f, at)), min)
  {
    hide Canonical, InWord, Total, Linked;
    var mem' := Inserted(mem, b.addr, b.len, PrevAddr(f, at), AddrAt(f, at), TopAt(f, at));
    OddEnd(f, min, at, b);
    OddWritten(mem, f, min, skew, at, b);
    forall g, k
      ensures !HeapOK(mem', g, min, k)
    {
      if HeapOK(mem', g, min, k) {
        WalksTo(mem', f, g, min, k, at, b.addr);
        NodeAt(mem', g, min, k, at);
        InWordAt(g, at);
      }
    }
  }

  lemma OddWritten(mem: map<int, MemBlk>, f: seq<Range>, min: int, skew: int, at: int, b: Range)
    requires HeapOK(mem, f, min, skew) && Odd(f, min, at, b) && !TouchesLeft(f, at, b)
    requires MEMLIST in mem && PrevAddr(f, at) in mem
    ensures var mem' := Inserted(mem, b.addr, b.len, PrevAddr(f, at), AddrAt(f, at), TopAt(f, at));
            && MEMLIST in mem' && mem'[MEMLIST].mnext == (if at == 0 then b.addr else f[0].addr)
            && (forall i :: 0 <= i < at ==> f[i].addr > 0)
            && (forall i :: 0 <= i < at - 1 ==> f[i].addr in mem' && mem'[f[i].addr].mnext == f[i + 1].addr)
            && (at > 0 ==> f[at - 1].addr in mem' && mem'[f[at - 1].addr].mnext == b.addr)
            && b.addr in mem' && mem'[b.addr].mlength == b.len
  {
    hide Canonical, InWord, Total, Linked, Inserted;
    PrevIn(mem, f, min, skew, 0);
    if at > 0 {
      BlockBefore(mem, f, min, skew, at, b, at - 1);
    }
    OddForm(mem, f, min, skew, at, b);
    forall i | 0 <= i < at
      ensures f[i].addr > 0 && f[i].addr in mem && mem[f[i].addr].mnext == AddrAt(f, i + 1) && f[i].addr < b.addr
      ensures i < at - 1 ==> f[i].addr < f[at - 1].addr
    {
      BlockBefore(mem, f, min, skew, at, b, i);
    }
  }

  lemma BlockBefore(mem: map<int, MemBlk>, f: seq<Range>, min: int, skew: int, at: int, b: Range, i: int)
    requires HeapOK(mem, f, min, skew) && Accepted(f, at, b) && 0 <= i < at
    ensures f[i].addr in mem && mem[f[i].addr] == MemBlk(AddrAt(f, i + 1), f[i].len) && 0 < min <= f[i].addr < b.addr
    ensures i < at - 1 ==> f[i].addr < f[at - 1].addr
  {
    hide Canonical, InWord, Total, Linked;
    NodeAt(mem, f, min, skew, i);
    NodeAt(mem, f, min, skew, at - 1);
    if i < at - 1 {
      FollowsEnd(f, min, i, at - 1);
    }
  }

  lemma OddForm(mem: map<int, MemBlk>, f: seq<Range>, min: int, skew: int, at: int, b: Range)
    requires HeapOK(mem, f, min, skew) && Odd(f, min, at, b) && !TouchesLeft(f, at, b)
    requires MEMLIST in mem && PrevAddr(f, at) in mem && PrevAddr(f, at) < b.addr
    ensures var mem' := Inserted(mem, b.addr, b.len, PrevAddr(f, at), AddrAt(f, at), TopAt(f, at));
            && PrevAddr(f, at) in mem' && MEMLIST in mem' && b.addr in mem'
            && mem'[PrevAddr(f, at)].mnext == b.addr && mem'[b.addr].mlength == b.len
            && (at > 0 ==> mem'[MEMLIST].mnext == mem[MEMLIST].mnext)
            && forall x ::
               x in mem && x != PrevAddr(f, at) && x != b.addr && x != MEMLIST ==> x in mem' && mem'[x] == mem[x]
  {
    hide Canonical, InWord, Total, Linked;
    OddEnd(f, min, at, b);
    if at > 0 {
      NodeAt(mem, f, min, skew, at - 1);
    }
  }

  /** Joined with the block before it, it changes that block's length modulo 2^32, which leaves a list
      if the block keeps some bytes and still ends below 2^32 ... */
  lemma OddJoin(mem: map<int, MemBlk>, f: seq<Range>, min: int, skew: int, at: int, b: Range)
    requires HeapOK(mem, f, min, skew) && Odd(f, min, at, b) && TouchesLeft(f, at, b) && Keeps(f, at, b)
    requires MEMLIST in mem && PrevAddr(f, at) in mem
    ensures var mem' := Inserted(mem, b.addr, b.len, PrevAddr(f, at), AddrAt(f, at), TopAt(f, at));
            HeapOK(mem', Returned(f, at, b), min, skew)
  {
    hide Canonical, InWord, Total, Linked, Inserted, Replace, Written, NodeOK, Apart;
    var i := at - 1;
    var r := Range(f[i].addr, (f[i].len + b.len) % WORD);
    JoinForm(mem, f, min, skew, at, b);
    NodeAt(mem, f, min, skew, i);
    CloseBy(f, min, at);
    NoLonger(f, min, at, b);
    if at < |f| {
      InOrder(f, min, i, at);
    }
    CanonicalReplace(f, min, i, at, [r]);
    OneTotal(f, i);
    TotalOfOne(r);
    SameModulo(mem[MEMLIST].mlength, f[i].len, b.len);
    AloneAt(f, min, i, r);
    Rewritten(mem, f, min, skew, i, at, [r], (mem[MEMLIST].mlength + b.len) % WORD);
  }

  /** ... and no list otherwise. */
  lemma OddJoinBreaks(mem: map<int, MemBlk>, f: seq<Range>, min: int, skew: int, at: int, b: Range)
    requires HeapOK(mem, f, min, skew) && Odd(f, min, at, b) && TouchesLeft(f, at, b) && !Keeps(f, at, b)
    requires MEMLIST in mem && PrevAddr(f, at) in mem
    ensures NoList(Inserted(mem, b.addr, b.len, PrevAddr(f, at), AddrAt(f, at), TopAt(f, at)), min)
  {
    hide Canonical, InWord, Total, Linked, Inserted, HeapOK;
    var i := at - 1;
    var mem' := Inserted(mem, b.addr, b.len, PrevAddr(f, at), AddrAt(f, at), TopAt(f, at));
    forall g, k
      ensures !HeapOK(mem', g, min, k)
    {
      if HeapOK(mem', g, min, k) {
        JoinWalk(mem, f, min, skew, at, b);
        WalksTo(mem', f, g, min, k, i, f[i].addr);
        NodeAt(mem', g, min, k, i);
        EndAt(mem', g, min, k, i);
      }
    }
  }

  lemma EndAt(mem: map<int, MemBlk>, f: seq<Range>, min: int, skew: int, i: int)
    requires HeapOK(mem, f, min, skew) && 0 <= i < |f|
    ensures End(f[i]) < WORD
  {
    InWordAt(f, i);
  }

  lemma SameModulo(m: int, l: int, n: int)
    ensures (m + n) % WORD == (m + ((l + n) % WORD - l)) % WORD
  {
  }

  lemma NoLonger(f: seq<Range>, min: int, at: int, b: Range)
    requires Odd(f, min, at, b) && TouchesLeft(f, at, b) && Keeps(f, at, b) && 0 < f[at - 1].len && 0 < f[at - 1].addr
    ensures (f[at - 1].len + b.len) % WORD <= f[at - 1].len
  {
  }

  lemma AloneAt(f: seq<Range>, min: int, i: int, r: Range)
    requires Canonical(f, min) && 0 <= i < |f| && r.addr == f[i].addr
    ensures Apart(f, i, i + 1, [r])
  {
    hide Canonical;
    forall k | 0 <= k < |f| && k != i
      ensures f[k].addr != f[i].addr
    {
      AddrsDiffer(f, min, k, i);
    }
  }

  lemma JoinForm(mem: map<int, MemBlk>, f: seq<Range>, min: int, skew: int, at: int, b: Range)
    requires HeapOK(mem, f, min, skew) && Odd(f, min, at, b) && TouchesLeft(f, at, b)
    requires MEMLIST in mem && PrevAddr(f, at) in mem
    ensures var r := Range(f[at - 1].addr, (f[at - 1].len + b.len) % WORD);
            && PrevAddr(f, at - 1) in mem
            && Inserted(mem, b.addr, b.len, PrevAddr(f, at), AddrAt(f, at), TopAt(f, at))
               == Written(mem, f, at - 1, at, [r], (mem[MEMLIST].mlength + b.len) % WORD)
  {
    hide Canonical, InWord, Total, Linked;
    OddEnd(f, min, at, b);
    PrevIn(mem, f, min, skew, at - 1);
    NodeAt(mem, f, min, skew, at - 1);
    Congruent(f[at - 1].addr, f[at - 1].len, b.len);
  }

  lemma Congruent(a: int, l: int, n: int)
    ensures (a + (l + n) % WORD) % WORD == (a + l + n) % WORD
  {
  }

  lemma JoinWalk(mem: map<int, MemBlk>, f: seq<Range>, min: int, skew: int, at: int, b: Range)
    requires HeapOK(mem, f, min, skew) && Odd(f, min, at, b) && TouchesLeft(f, at, b)
    requires MEMLIST in mem && PrevAddr(f, at) in mem
    ensures var i := at - 1;
            var mem' := Inserted(mem, b.addr, b.len, PrevAddr(f, at), AddrAt(f, at), TopAt(f, at));
            && MEMLIST in mem' && mem'[MEMLIST].mnext == f[0].addr && (forall j :: 0 <= j <= i ==> f[j].addr > 0)
            && (forall j :: 0 <= j < i ==> f[j].addr in mem' && mem'[f[j].addr].mnext == f[j + 1].addr)
            && f[i].addr in mem' && mem'[f[i].addr].mlength == (f[i].len + b.len) % WORD
  {
    hide Canonical, InWord, Total, Linked, Inserted;
    JoinForm(mem, f, min, skew, at, b);
    PrevIn(mem, f, min, skew, 0);
    PrevIn(mem, f, min, skew, at - 1);
    forall j | 0 <= j < at
      ensures f[j].addr in mem && mem[f[j].addr] == MemBlk(AddrAt(f, j + 1), f[j].len) && 0 < f[j].addr
      ensures j < at - 1 ==> f[j].addr < f[at - 1].addr
    {
      BlockBefore(mem, f, min, skew, at, b, j);
    }
  }

  /** The block that freemem looks at for joining is there when it reads it. */
  lemma NextIn(mem: map<int, MemBlk>, f: seq<Range>, min: int, skew: int, at: int, b: Range)
    requires HeapOK(mem, f, min, skew) && Accepted(f, at, b) && 0 < b.addr < WORD && 0 <= b.len < WORD && End(b) != WORD
    ensures MEMLIST in mem && PrevAddr(f, at) in mem && PrevAddr(f, Join(f, at, b).i) in mem
    ensures at < |f| ==> f[at].addr in mem
    ensures Sum(b.addr, b.len) != NULL && PrevAddr(f, at) != b.addr
    ensures TopAt(f, at) == b.addr ==>
            PrevAddr(f, at) != MEMLIST && Sum(PrevAddr(f, at), Sum(mem[PrevAddr(f, at)].mlength, b.len)) != NULL
  {
    hide Canonical, InWord, Total, Linked;
    PrevIn(mem, f, min, skew, 0);
    PrevIn(mem, f, min, skew, at);
    PrevIn(mem, f, min, skew, Join(f, at, b).i);
    if at < |f| {
      NodeAt(mem, f, min, skew, at);
    }
    if at > 0 {
      NodeAt(mem, f, min, skew, at - 1);
      Congruent(f[at - 1].addr, f[at - 1].len, b.len);
    }
  }

  /** What the writes of freemem leave. */
  lemma InsertOutcome(mem: map<int, MemBlk>, f: seq<Range>, min: int, skew: int, at: int, b: Range)
    requires HeapOK(mem, f, min, skew) && Accepted(f, at, b) && min <= b.addr < WORD && 0 <= b.len < WORD
    requires b.len % 8 == 0 && End(b) != WORD && (Ordinary(b) ==> Room(f, at, b))
    ensures MEMLIST in mem && PrevAddr(f, at) in mem
    ensures var mem' := Inserted(mem, b.addr, b.len, PrevAddr(f, at), AddrAt(f, at), TopAt(f, at));
            if Keeps(f, at, b) then HeapOK(mem', Returned(f, at, b), min, skew) else NoList(mem', min)
  {
    hide Canonical, Linked, InWord, Total, Inserted, Written, Given, NoList, Replace;
    Positive(mem, f, min, skew);
    NextIn(mem, f, min, skew, at, b);
    if Ordinary(b) {
      InsertWrites(mem, f, min, skew, at, b, (mem[MEMLIST].mlength + b.len) % WORD);
      GiveOK(mem, f, min, skew, at, b, (mem[MEMLIST].mlength + b.len) % WORD);
    } else if TouchesLeft(f, at, b) {
      if Keeps(f, at, b) {
        OddJoin(mem, f, min, skew, at, b);
      } else {
        OddJoinBreaks(mem, f, min, skew, at, b);
      }
    } else {
      OddBlock(mem, f, min, skew, at, b);
    }
  }

  lemma Between(f: seq<Range>, at: int, b: Range)
    requires Accepted(f, at, b)
    ensures 0 <= at <= |f|
  {
  }

  lemma Positive(mem: map<int, MemBlk>, f: seq<Range>, min: int, skew: int)
    requires HeapOK(mem, f, min, skew)
    ensures min > 0
  {
  }

  class Store {
    const minheap: int
    const maxheap: int
    var mem: map<int, MemBlk>
    ghost var free: seq<Range>
    ghost const skew: int

    ghost predicate Valid()
      reads this
    {
      0 < minheap <= maxheap < WORD && HeapOK(mem, free, minheap, skew)
    }

    /** meminit: one block, the whole heap.  The list head's length is whatever it was. */
    constructor (min: int, max: int, junk: int)
      requires 0 < min < max < WORD && min % 8 == 0 && max % 8 == 0
      ensures Valid() && free == [Range(min, max - min)] && minheap == min && maxheap == max
    {
      minheap, maxheap := min, max;
      mem := map[MEMLIST := MemBlk(min, junk), min := MemBlk(NULL, max - min)];
      free := [Range(min, max - min)];
      skew := (junk - (max - min)) % WORD;
      new;
      TotalOfOne(free[0]);
    }

    /** getmem: first fit, from the low end of the block.  A request of more than 2^32 - 8 bytes rounds
        to none and is answered with a block that stays on the list. */
    method GetMem(nbytes: int) returns (r: int, ghost i: int)
      requires Valid() && 0 <= nbytes < WORD
      modifies this
      ensures Valid()
      ensures r == SYSERR <==> nbytes == 0 || NoFit(old(free), Rounded(nbytes))
      ensures r == SYSERR ==> free == old(free) && mem == old(mem)
      ensures r != SYSERR ==> FirstFit(old(free), Rounded(nbytes), i) && r == old(free)[i].addr
      ensures r != SYSERR ==> free == Cut(old(free), i, Rounded(nbytes), true)
      ensures r != SYSERR ==> (free == old(free) <==> nbytes > WORD - 8)
    {
      hide HeapOK, Replace, Canonical, Linked, Total, InWord, NodeOK;
      i := 0;
      if nbytes == 0 {
        return SYSERR, i;
      }
      var n := Rounded(nbytes);
      var prev := MEMLIST;
      PrevIn(mem, free, minheap, skew, 0);
      var curr := mem[MEMLIST].mnext;
      while curr != NULL
        invariant Valid() && mem == old(mem) && free == old(free)
        invariant 0 <= i <= |free| && prev == PrevAddr(free, i) && curr == AddrAt(free, i)
        invariant forall k :: 0 <= k < i ==> free[k].len < n
        decreases |free| - i
      {
        NullAtEnd(mem, free, minheap, skew, i);
        NodeAt(mem, free, minheap, skew, i);
        PrevIn(mem, free, minheap, skew, i);
        if mem[curr].mlength == n {
          CutOK(mem, free, minheap, skew, i, n, true, (mem[MEMLIST].mlength - n) % WORD);
          mem := mem[prev := mem[prev].(mnext := mem[curr].mnext)];
          mem := mem[MEMLIST := mem[MEMLIST].(mlength := (mem[MEMLIST].mlength - n) % WORD)];
          assert mem == Written(old(mem), free, i, i + 1, Rest(free[i], n, true),
                 (old(mem)[MEMLIST].mlength - n) % WORD);
          CutChanges(free, i, n, true);
          free := Cut(free, i, n, true);
          return curr, i;
        } else if mem[curr].mlength > n {
          CutOK(mem, free, minheap, skew, i, n, true, (mem[MEMLIST].mlength - n) % WORD);
          var leftover := curr + n;
          mem := mem[prev := mem[prev].(mnext := leftover)];
          mem := mem[leftover := MemBlk(mem[curr].mnext, mem[curr].mlength - n)];
          mem := mem[MEMLIST := mem[MEMLIST].(mlength := (mem[MEMLIST].mlength - n) % WORD)];
          assert mem == Written(old(mem), free, i, i + 1, Rest(free[i], n, true),
                 (old(mem)[MEMLIST].mlength - n) % WORD);
          CutChanges(free, i, n, true);
          free := Cut(free, i, n, true);
          return curr, i;
        }
        prev := curr;
        curr := mem[curr].mnext;
        i := i + 1;
      }
      NullAtEnd(mem, free, minheap, skew, i);
      return SYSERR, i;
    }

    /** getstk: last fit, from the high end of the block; the highest word's address is returned. */
    method GetStk(nbytes: int) returns (r: int, ghost i: int)
      requires Valid() && 0 <= nbytes < WORD
      modifies this
      ensures Valid()
      ensures r == SYSERR <==> nbytes == 0 || NoFit(old(free), Rounded(nbytes))
      ensures r == SYSERR ==> free == old(free) && mem == old(mem)
      ensures r != SYSERR ==> LastFit(old(free), Rounded(nbytes), i) && r == End(old(free)[i]) - 4
      ensures r != SYSERR ==> free == Cut(old(free), i, Rounded(nbytes), false)
      ensures r != SYSERR ==> (free == old(free) <==> nbytes > WORD - 8)
    {
      hide HeapOK, Replace, Canonical, Linked, Total, InWord, NodeOK;
      i := 0;
      if nbytes == 0 {
        return SYSERR, i;
      }
      var n := Rounded(nbytes);
      var prev := MEMLIST;
      PrevIn(mem, free, minheap, skew, 0);
      var curr := mem[MEMLIST].mnext;
      var fits, fitsprev := NULL, NULL;
      ghost var k := 0;
      while curr != NULL
        invariant Valid() && mem == old(mem) && free == old(free)
        invariant 0 <= k <= |free| && prev == PrevAddr(free, k) && curr == AddrAt(free, k)
        invariant fits == NULL ==> forall l :: 0 <= l < k ==> free[l].len < n
        invariant fits != NULL ==>
                  0 <= i < k && fits == free[i].addr && fitsprev == PrevAddr(free, i) && free[i].len >= n
        invariant fits != NULL ==> forall l :: i < l < k ==> free[l].len < n
        decreases |free| - k
      {
        NullAtEnd(mem, free, minheap, skew, k);
        NodeAt(mem, free, minheap, skew, k);
        if mem[curr].mlength >= n {
          fits, fitsprev, i := curr, prev, k;
        }
        prev := curr;
        curr := mem[curr].mnext;
        k := k + 1;
      }
      NullAtEnd(mem, free, minheap, skew, k);
      if fits == NULL {
        return SYSERR, i;
      }
      NodeAt(mem, free, minheap, skew, i);
      PrevIn(mem, free, minheap, skew, i);
      CutOK(mem, free, minheap, skew, i, n, false, (mem[MEMLIST].mlength - n) % WORD);
      ghost var m0 := mem;
      if n == mem[fits].mlength {
        mem := mem[fitsprev := mem[fitsprev].(mnext := mem[fits].mnext)];
      } else {
        mem := mem[fits := mem[fits].(mlength := mem[fits].mlength - n)];
        fits := fits + mem[fits].mlength;
      }
      mem := mem[MEMLIST := mem[MEMLIST].(mlength := (mem[MEMLIST].mlength - n) % WORD)];
      assert mem == Written(m0, free, i, i + 1, Rest(free[i], n, false), (m0[MEMLIST].mlength - n) % WORD);
      CutChanges(free, i, n, false);
      free := Cut(free, i, n, false);
      return fits + n - 4, i;
    }

    /** The linking half of freemem: the block goes before element at, joined with the blocks that it
        touches. */
    method Insert(blk: int, n: int, prev: int, next: int, top: int, ghost at: int)
      requires Valid() && Accepted(free, at, Range(blk, n)) && minheap <= blk < WORD && 0 <= n < WORD && n % 8 == 0
               && blk + n != WORD
      requires Ordinary(Range(blk, n)) ==> Room(free, at, Range(blk, n))
      requires prev == PrevAddr(free, at) && next == AddrAt(free, at) && top == TopAt(free, at)
      modifies this
      ensures if Keeps(old(free), at, Range(blk, n)) then Valid() && free == Returned(old(free), at, Range(blk, n))
              else NoList(mem, minheap)
    {
      hide HeapOK, Room, NoList, Returned, Keeps, Accepted, Sum;
      ghost var b := Range(blk, n);
      Between(free, at, b);
      NextIn(mem, free, minheap, skew, at, b);
      InsertOutcome(mem, free, minheap, skew, at, b);
      var block := blk;
      mem := mem[MEMLIST := mem[MEMLIST].(mlength := Sum(mem[MEMLIST].mlength, n))];
      if top == block {
        mem := mem[prev := mem[prev].(mlength := Sum(mem[prev].mlength, n))];
        block := prev;
      } else {
        mem := mem[block := MemBlk(next, n)];
        mem := mem[prev := mem[prev].(mnext := block)];
      }
      if Sum(block, mem[block].mlength) == next {
        mem := mem[block := MemBlk(mem[next].mnext, Sum(mem[block].mlength, mem[next].mlength))];
      }
      assert mem == Inserted(old(mem), blk, n, prev, next, top);
      free := Returned(free, at, b);
    }

    /** freemem, for every address and every unsigned size: refused for no bytes, for a start outside the
        heap's bounds, or when it meets a free block; otherwise the bytes join the free list if that is
        possible.  A range that ends exactly at 2^32 is left out: it may be joined with a block at
        address zero. */
    method FreeMem(blkaddr: int, nbytes: int) returns (r: int, ghost at: int)
      requires Valid() && 0 <= nbytes < WORD && 0 <= blkaddr < WORD && blkaddr + Rounded(nbytes) != WORD
      modifies this
      ensures r == OK || r == SYSERR
      ensures var b := Range(blkaddr, Rounded(nbytes));
              && (r == OK <==> nbytes != 0 && minheap <= blkaddr <= maxheap && MeetsNone(old(free), Checked(b)))
              && (r == OK ==> Accepted(old(free), at, b) && (Ordinary(b) ==> Room(old(free), at, b)))
              && (r == OK ==>
                 if Keeps(old(free), at, b) then Valid() && free == Returned(old(free), at, b)
                    else NoList(mem, minheap))
              && (r == OK && Ordinary(b) && Below(old(free), maxheap) ==> (Below(free, maxheap) <==> End(b) <= maxheap))
      ensures r == SYSERR ==> Valid() && free == old(free) && mem == old(mem)
    {
      hide Replace, Canonical, Linked, Total, InWord, Below, NoList, MeetsNone, Given;
      at := 0;
      if nbytes == 0 || blkaddr < minheap || blkaddr > maxheap {
        return SYSERR, at;
      }
      var n := Rounded(nbytes);
      ghost var b := Range(blkaddr, n);
      var block := blkaddr;
      var prev := MEMLIST;
      PrevIn(mem, free, minheap, skew, 0);
      var next := mem[MEMLIST].mnext;
      while next != NULL && next < block
        invariant Valid() && mem == old(mem) && free == old(free)
        invariant 0 <= at <= |free| && prev == PrevAddr(free, at) && next == AddrAt(free, at)
        invariant at > 0 ==> free[at - 1].addr < block
        decreases |free| - at
      {
        NullAtEnd(mem, free, minheap, skew, at);
        NodeAt(mem, free, minheap, skew, at);
        prev := next;
        next := mem[next].mnext;
        at := at + 1;
      }
      NullAtEnd(mem, free, minheap, skew, at);
      PrevIn(mem, free, minheap, skew, at);
      if at > 0 {
        NodeAt(mem, free, minheap, skew, at - 1);
      }
      if at < |free| {
        NodeAt(mem, free, minheap, skew, at);
      }
      AcceptedIs(free, minheap, at, b);
      var top := if prev == MEMLIST then NULL else prev + mem[prev].mlength;
      if (prev != MEMLIST && block < top) || (next != NULL && Sum(block, n) > next) {
        return SYSERR, at;
      }
      if Below(free, maxheap) && Ordinary(b) {
        GivenBelow(free, minheap, maxheap, at, b);
      }
      Insert(block, n, prev, next, top, at);
      return OK, at;
    }

    /** freestk, for every address and every unsigned size: from the highest word of a stack block back
        to the block. */
    method FreeStk(p: int, len: int) returns (r: int, ghost at: int)
      requires Valid() && 0 <= p < WORD && 0 <= len < WORD && (p - Rounded(len) + 4) % WORD + Rounded(len) != WORD
      modifies this
      ensures r == OK || r == SYSERR
      ensures var b := Range((p - Rounded(len) + 4) % WORD, Rounded(len));
              && (r == OK <==> b.len != 0 && minheap <= b.addr <= maxheap && MeetsNone(old(free), Checked(b)))
              && (r == OK ==> Accepted(old(free), at, b) && (Ordinary(b) ==> Room(old(free), at, b)))
              && (r == OK ==>
                 if Keeps(old(free), at, b) then Valid() && free == Returned(old(free), at, b)
                    else NoList(mem, minheap))
              && (r == OK && Ordinary(b) && Below(old(free), maxheap) ==> (Below(free, maxheap) <==> End(b) <= maxheap))
      ensures r == SYSERR ==> Valid() && free == old(free) && mem == old(mem)
    {
      hide RoundMb, Valid, MeetsNone, Room, Below, Accepted, Keeps, Ordinary, NoList, Returned, Checked;
      r, at := FreeMem((p - Rounded(len) + 4) % WORD, Rounded(len));
    }
  }
}
