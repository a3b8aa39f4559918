// Whole runs of the allocator: who owns which byte, round trips, and the order of frees.

module HeapRun {

  import opened Common
  import opened Heap
  import opened Allocator

  /** A process holds this block; stack blocks were taken with getstk and go back through freestk. */
  datatype Held = Held(block: Range, asked: int, stack: bool)

  datatype Call = Get(n: int) | Stk(n: int) | Give(k: nat)

  // ---- ownership of bytes -----------------------------------------------------------------

  /** Held blocks and free blocks are pairwise disjoint and together cover the heap. */
  ghost predicate Shared(held: seq<Held>, f: seq<Range>, min: int, max: int)
  {
    && Below(f, max)
    && (forall i :: 0 <= i < |held| ==> HeldOK(held[i], f, min, max))
    && (forall i, j :: 0 <= i < j < |held| ==> !Meets(held[i].block, held[j].block))
    && (forall x :: min <= x < max ==> InAny(f, x) || HeldByte(held, x))
  }

  ghost predicate HeldOK(h: Held, f: seq<Range>, min: int, max: int)
  {
    && min <= h.block.addr && End(h.block) <= max && h.asked > 0 && h.block.len == RoundMb(h.asked)
    && MeetsNone(f, h.block)
  }

  ghost predicate HeldByte(held: seq<Held>, x: int)
  {
    exists i :: 0 <= i < |held| && Covers(held[i].block, x)
  }

  lemma CommonByte(a: Range, b: Range, x: int)
    requires a.len > 0 && b.len > 0
    ensures Meets(a, b) ==> var y := if a.addr < b.addr then b.addr else a.addr; Covers(a, y) && Covers(b, y)
    ensures Covers(a, x) && Covers(b, x) ==> Meets(a, b)
  {
  }

  /** No block of f meets b exactly when f and b share no byte. */
  lemma MeetsByBytes(f: seq<Range>, min: int, b: Range)
    requires Canonical(f, min) && b.len > 0
    ensures MeetsNone(f, b) <==> forall x :: Covers(b, x) ==> !InAny(f, x)
  {
    if forall x :: Covers(b, x) ==> !InAny(f, x) {
      forall k | 0 <= k < |f|
        ensures !Meets(f[k], b)
      {
        var y := if f[k].addr < b.addr then b.addr else f[k].addr;
        CommonByte(f[k], b, y);
        assert Covers(f[k], y) ==> InAny(f, y);
      }
    }
    if MeetsNone(f, b) {
      forall x | Covers(b, x)
        ensures !InAny(f, x)
      {
        forall k | 0 <= k < |f|
          ensures !Covers(f[k], x)
        {
          CommonByte(f[k], b, x);
        }
      }
    }
  }

  /** If g has no byte that f lacks, what met no block of f meets none of g. */
  lemma MeetsFewer(f: seq<Range>, g: seq<Range>, min: int, b: Range)
    requires Canonical(f, min) && Canonical(g, min) && b.len > 0 && MeetsNone(f, b)
    requires forall x :: Covers(b, x) && InAny(g, x) ==> InAny(f, x)
    ensures MeetsNone(g, b)
  {
    hide Canonical, InAny, Covers, MeetsNone;
    MeetsByBytes(f, min, b);
    MeetsByBytes(g, min, b);
  }

  /** A block is taken: it moves from the free bytes to the held ones. */
  lemma TakeShared(held: seq<Held>, f: seq<Range>, g: seq<Range>, min: int, max: int, i: int, h: Held)
    requires Shared(held, f, min, max) && Canonical(f, min) && Canonical(g, min) && Below(g, max)
    requires 0 <= i < |f| && f[i].addr <= h.block.addr && End(h.block) <= End(f[i])
    requires h.asked > 0 && h.block.len == RoundMb(h.asked)
    requires forall x :: InAny(g, x) <==> InAny(f, x) && !Covers(h.block, x)
    ensures Shared(held + [h], g, min, max)
  {
    hide Canonical, MeetsNone;
    var held' := held + [h];
    forall k | 0 <= k < |held'|
      ensures HeldOK(held'[k], g, min, max)
    {
      if k < |held| {
        assert HeldOK(held[k], f, min, max);
        MeetsFewer(f, g, min, held[k].block);
      } else {
        MeetsByBytes(g, min, h.block);
        AtLeast(f, min, i);
      }
    }
    forall k | 0 <= k < |held|
      ensures !Meets(held[k].block, h.block)
    {
      assert HeldOK(held[k], f, min, max);
      NotMet(f, i, held[k].block);
    }
    forall x | min <= x < max
      ensures InAny(g, x) || HeldByte(held', x)
    {
      if HeldByte(held, x) {
        var k :| 0 <= k < |held| && Covers(held[k].block, x);
        assert held'[k] == held[k];
      } else {
        assert held'[|held|] == h;
      }
    }
  }

  lemma AtLeast(f: seq<Range>, min: int, i: int)
    requires Canonical(f, min) && 0 <= i < |f|
    ensures min <= f[i].addr && f[i].len >= 8
  {
  }

  lemma NotMet(f: seq<Range>, i: int, b: Range)
    requires MeetsNone(f, b) && 0 <= i < |f|
    ensures !Meets(f[i], b)
  {
  }

  function Without(held: seq<Held>, k: int): seq<Held>
    requires 0 <= k < |held|
  {
    held[..k] + held[k + 1..]
  }

  /** A held block is given back: it moves from the held bytes to the free ones. */
  lemma GiveShared(held: seq<Held>, f: seq<Range>, g: seq<Range>, min: int, max: int, k: int)
    requires Shared(held, f, min, max) && Canonical(f, min) && Canonical(g, min) && Below(g, max) && 0 <= k < |held|
    requires forall x :: InAny(g, x) <==> InAny(f, x) || Covers(held[k].block, x)
    ensures Shared(Without(held, k), g, min, max)
  {
    hide Canonical, MeetsNone;
    var held' := Without(held, k);
    assert HeldOK(held[k], f, min, max);
    forall i | 0 <= i < |held'|
      ensures HeldOK(held'[i], g, min, max)
    {
      var o := if i < k then i else i + 1;
      assert held'[i] == held[o] && HeldOK(held[o], f, min, max);
      forall x | Covers(held[o].block, x)
        ensures !Covers(held[k].block, x)
      {
        CommonByte(held[o].block, held[k].block, x);
      }
      MeetsFewer(f, g, min, held[o].block);
    }
    forall x | min <= x < max
      ensures InAny(g, x) || HeldByte(held', x)
    {
      if HeldByte(held, x) && !Covers(held[k].block, x) {
        var i :| 0 <= i < |held| && Covers(held[i].block, x);
        assert held'[if i < k then i else i - 1] == held[i];
      }
    }
  }

  /** With nothing held the list is one block, the whole heap. */
  lemma NothingHeld(f: seq<Range>, min: int, max: int)
    requires Shared([], f, min, max) && Canonical(f, min) && min < max && (max - min) % 8 == 0
    ensures f == [Range(min, max - min)]
  {
    var whole := [Range(min, max - min)];
    forall x
      ensures InAny(f, x) <==> InAny(whole, x)
    {
      BytesOfOne(whole[0], x);
      assert !HeldByte([], x);
    }
    CanonicalUnique(f, whole, min);
  }

  // ---- runs ------------------------------------------------------------------------------

  lemma CutShared(held: seq<Held>, f: seq<Range>, min: int, max: int, i: int, asked: int, low: bool)
    requires Shared(held, f, min, max) && Canonical(f, min) && 0 <= i < |f| && asked > 0 && RoundMb(asked) <= f[i].len
    ensures var h := Held(Taken(f[i], RoundMb(asked), low), asked, !low);
            Shared(held + [h], Cut(f, i, RoundMb(asked), low), min, max)
  {
    hide Shared, Canonical, Below, Replace, InAny;
    var n := RoundMb(asked);
    var r := Rest(f[i], n, low);
    SharedBelow(held, f, min, max, i);
    Carve(f, min, i, n, low);
    BoundReplaced(f, i, i + 1, r, max);
    forall x
      ensures InAny(Cut(f, i, n, low), x) <==> InAny(f, x) && !Covers(Taken(f[i], n, low), x)
    {
      CarvedBytes(f, min, i, n, low, x);
    }
    TakeShared(held, f, Cut(f, i, n, low), min, max, i, Held(Taken(f[i], n, low), asked, !low));
  }

  lemma SharedBelow(held: seq<Held>, f: seq<Range>, min: int, max: int, i: int)
    requires Shared(held, f, min, max) && 0 <= i < |f|
    ensures Below(f, max) && End(f[i]) <= max
  {
  }

  lemma GivenShared(held: seq<Held>, f: seq<Range>, min: int, max: int, k: int, at: int)
    requires Shared(held, f, min, max) && Canonical(f, min) && 0 <= k < |held| && Room(f, at, held[k].block)
    ensures Shared(Without(held, k), Given(f, at, held[k].block), min, max)
  {
    hide Shared, Canonical, Below, Replace, InAny;
    var b := held[k].block;
    HeldAt(held, f, min, max, k);
    Coalesce(f, min, at, b);
    GivenBelow(f, min, max, at, b);
    forall x
      ensures InAny(Given(f, at, b), x) <==> InAny(f, x) || Covers(b, x)
    {
      PositiveLengths(f, min);
      GivenBytes(f, at, b, x);
    }
    GiveShared(held, f, Given(f, at, b), min, max, k);
  }

  lemma PositiveLengths(f: seq<Range>, min: int)
    requires Canonical(f, min)
    ensures forall k :: 0 <= k < |f| ==> f[k].len > 0
  {
  }

  lemma HeldSize(asked: int)
    requires 0 < asked && RoundMb(asked) < WORD
    ensures asked <= WORD - 8 && Rounded(asked) == RoundMb(asked) > 0
  {
  }

  lemma HeldAt(held: seq<Held>, f: seq<Range>, min: int, max: int, k: int)
    requires Shared(held, f, min, max) && 0 <= k < |held|
    ensures HeldOK(held[k], f, min, max) && Below(f, max)
  {
  }

  /** Sizes are unsigned 32-bit numbers. */
  predicate CallOK(c: Call)
  {
    c.Give? || 0 <= c.n < WORD
  }

  /** What one call may do to the blocks held.  A size that rounds to none is answered with an address
      and nothing to hold. */
  ghost predicate Answer(c: Call, r: int, held: seq<Held>, held': seq<Held>, f: seq<Range>)
    requires CallOK(c)
  {
    match c
    case Get(n) =>
      if n == 0 || NoFit(f, Rounded(n)) then r == SYSERR && held' == held
      else r != SYSERR && held' == if Rounded(n) == 0 then held else held + [Held(Range(r, Rounded(n)), n, false)]
    case Stk(n) =>
      if n == 0 || NoFit(f, Rounded(n)) then r == SYSERR && held' == held
      else r != SYSERR && held' == if Rounded(n) == 0 then held
          else held + [Held(Range(r + 4 - Rounded(n), Rounded(n)), n, true)]
    case Give(k) =>
      if k < |held| then r == OK && held' == Without(held, k) else r == SYSERR && held' == held
  }

  /** One call by a program that frees only what it holds: nothing is ever refused for want of
      ownership, and the bytes stay shared out. */
  method Step(s: Store, held: seq<Held>, c: Call) returns (r: int, held': seq<Held>)
    requires s.Valid() && CallOK(c) && Shared(held, s.free, s.minheap, s.maxheap)
    modifies s
    ensures s.Valid() && Shared(held', s.free, s.minheap, s.maxheap)
    ensures Answer(c, r, held, held', old(s.free))
  {
    hide Shared, Canonical, InWord, Linked, MeetsNone, Below, Replace, NoFit, Total, InAny;
    ghost var i, f := 0, s.free;
    held' := held;
    match c {
      case Get(n) =>
        r, i := s.GetMem(n);
        if r != SYSERR && Rounded(n) != 0 {
          held' := held + [Held(Range(r, RoundMb(n)), n, false)];
          CutShared(held, f, s.minheap, s.maxheap, i, n, true);
        }
      case Stk(n) =>
        r, i := s.GetStk(n);
        if r != SYSERR && Rounded(n) != 0 {
          held' := held + [Held(Range(r + 4 - RoundMb(n), RoundMb(n)), n, true)];
          CutShared(held, f, s.minheap, s.maxheap, i, n, false);
        }
      case Give(k) =>
        if k >= |held| {
          return SYSERR, held;
        }
        var h := held[k];
        HeldAt(held, s.free, s.minheap, s.maxheap, k);
        HeldSize(h.asked);
        if h.stack {
          r, i := s.FreeStk(End(h.block) - 4, h.asked);
        } else {
          r, i := s.FreeMem(h.block.addr, h.asked);
        }
        held' := Without(held, k);
        GivenShared(held, f, s.minheap, s.maxheap, k, i);
    }
  }

  /** Any run from a fresh heap.  Once nothing is held any more, the heap is one block again. */
  method Execute(min: int, max: int, junk: int, calls: seq<Call>) returns (s: Store, held: seq<Held>)
    requires 0 < min < max < WORD && min % 8 == 0 && max % 8 == 0
    requires forall t :: 0 <= t < |calls| ==> CallOK(calls[t])
    ensures s.Valid() && s.minheap == min && s.maxheap == max && Shared(held, s.free, min, max)
    ensures held == [] ==> s.free == [Range(min, max - min)]
  {
    hide Shared, Canonical, InWord, Linked, Answer;
    s := new Store(min, max, junk);
    held := [];
    FreshShared(min, max);
    var t := 0;
    while t < |calls|
      invariant 0 <= t <= |calls| && fresh(s)
      invariant s.Valid() && s.minheap == min && s.maxheap == max && Shared(held, s.free, min, max)
    {
      var r;
      r, held := Step(s, held, calls[t]);
      t := t + 1;
    }
    if held == [] {
      NothingHeld(s.free, min, max);
    }
  }

  lemma FreshShared(min: int, max: int)
    ensures Shared([], [Range(min, max - min)], min, max)
  {
    forall x | min <= x < max
      ensures InAny([Range(min, max - min)], x) || HeldByte([], x)
    {
      BytesOfOne(Range(min, max - min), x);
    }
  }

  // ---- round trips ------------------------------------------------------------------------

  /** Giving back what was just cut off restores the list. */
  lemma CutThenGive(f: seq<Range>, min: int, i: int, n: int, low: bool, at: int)
    requires Canonical(f, min) && 0 <= i < |f| && 0 < n <= f[i].len && n % 8 == 0
    requires Room(Cut(f, i, n, low), at, Taken(f[i], n, low))
    ensures Given(Cut(f, i, n, low), at, Taken(f[i], n, low)) == f
  {
    hide Canonical, InAny, Replace, Covers;
    var g, t := Cut(f, i, n, low), Taken(f[i], n, low);
    AtLeast(f, min, i);
    Carve(f, min, i, n, low);
    Coalesce(g, min, at, t);
    PositiveLengths(g, min);
    forall x
      ensures InAny(Given(g, at, t), x) <==> InAny(f, x)
    {
      CarvedBytes(f, min, i, n, low, x);
      GivenBytes(g, at, t, x);
      InBlock(f, i, n, low, x);
    }
    CanonicalUnique(Given(g, at, t), f, min);
  }

  lemma InBlock(f: seq<Range>, i: int, n: int, low: bool, x: int)
    requires 0 <= i < |f| && 0 < n <= f[i].len
    ensures Covers(Taken(f[i], n, low), x) ==> InAny(f, x)
  {
    assert Covers(Taken(f[i], n, low), x) ==> Covers(f[i], x);
  }

  /** What was cut off meets no block that is left. */
  lemma CutMeetsNone(f: seq<Range>, min: int, i: int, n: int, low: bool)
    requires Canonical(f, min) && 0 <= i < |f| && 0 < n <= f[i].len && n % 8 == 0
    ensures MeetsNone(Cut(f, i, n, low), Taken(f[i], n, low))
  {
    hide Canonical, InAny, Replace, Covers, MeetsNone;
    Carve(f, min, i, n, low);
    forall x | Covers(Taken(f[i], n, low), x)
      ensures !InAny(Cut(f, i, n, low), x)
    {
      CarvedBytes(f, min, i, n, low, x);
    }
    MeetsByBytes(Cut(f, i, n, low), min, Taken(f[i], n, low));
  }

  /** getmem followed by freemem restores the free list, unless the size rounds to none: then it
      leaves no list. */
  method GetThenFree(s: Store, nbytes: int) returns (p: int, r: int)
    requires s.Valid() && Below(s.free, s.maxheap) && 0 <= nbytes < WORD
    modifies s
    ensures p == SYSERR ==> s.Valid() && s.free == old(s.free)
    ensures p != SYSERR ==> r == OK
    ensures p != SYSERR ==> if nbytes <= WORD - 8 then s.Valid() && s.free == old(s.free) else NoList(s.mem, s.minheap)
  {
    hide Canonical, InWord, Linked, MeetsNone, Replace, NoFit, Total, InAny, NoList;
    ghost var i, at, f := 0, 0, s.free;
    p, i := s.GetMem(nbytes);
    r := SYSERR;
    if p != SYSERR {
      InWordAt(f, i);
      AtLeast(f, s.minheap, i);
      if nbytes <= WORD - 8 {
        CutMeetsNone(f, s.minheap, i, RoundMb(nbytes), true);
      } else {
        NothingMeets(f, s.minheap, i);
      }
      r, at := s.FreeMem(p, nbytes);
      if nbytes <= WORD - 8 {
        CutThenGive(f, s.minheap, i, RoundMb(nbytes), true, at);
      } else {
        NotBehind(f, s.minheap, i, at);
      }
    }
  }

  /** No bytes at the start of a block meet no block. */
  lemma NothingMeets(f: seq<Range>, min: int, i: int)
    requires Canonical(f, min) && 0 <= i < |f|
    ensures MeetsNone(f, Range(f[i].addr, 0))
  {
    forall k | 0 <= k < |f|
      ensures !Meets(f[k], Range(f[i].addr, 0))
    {
      if k < i {
        InOrder(f, min, k, i);
      } else if k > i {
        InOrder(f, min, i, k);
      }
    }
  }

  lemma NotBehind(f: seq<Range>, min: int, i: int, at: int)
    requires Canonical(f, min) && 0 <= i < |f| && 0 <= at <= |f|
    ensures !TouchesLeft(f, at, Range(f[i].addr, 0))
  {
    if at > 0 && i < at - 1 {
      InOrder(f, min, i, at - 1);
    }
  }

  /** getstk followed by freestk restores the free list for any size; one that rounds to none is
      handed out but not taken back. */
  method StackThenFree(s: Store, nbytes: int) returns (p: int, r: int)
    requires s.Valid() && Below(s.free, s.maxheap) && 0 <= nbytes < WORD
    modifies s
    ensures s.Valid() && s.free == old(s.free) && (r == OK <==> p != SYSERR && nbytes <= WORD - 8)
  {
    hide Canonical, InWord, Linked, MeetsNone, Replace, NoFit, Total, InAny, NoList;
    ghost var i, at, f := 0, 0, s.free;
    p, i := s.GetStk(nbytes);
    r := SYSERR;
    if p != SYSERR {
      InWordAt(f, i);
      AtLeast(f, s.minheap, i);
      if nbytes <= WORD - 8 {
        CutMeetsNone(f, s.minheap, i, RoundMb(nbytes), false);
      }
      r, at := s.FreeStk(p, nbytes);
      if nbytes <= WORD - 8 {
        CutThenGive(f, s.minheap, i, RoundMb(nbytes), false, at);
      }
    }
  }

  // ---- the order of frees ------------------------------------------------------------------

  /** The list g results from giving back the blocks bs, in this order, to the list f. */
  ghost predicate Freed(f: seq<Range>, bs: seq<Range>, g: seq<Range>)
    decreases |bs|
  {
    if bs == [] then g == f
    else exists at :: Room(f, at, bs[0]) && Freed(Given(f, at, bs[0]), bs[1..], g)
  }

  lemma {:induction false} FreedBytes(f: seq<Range>, bs: seq<Range>, g: seq<Range>, min: int)
    requires Canonical(f, min) && Freed(f, bs, g)
    requires forall b :: b in bs ==> min <= b.addr && b.len > 0 && b.len % 8 == 0
    ensures Canonical(g, min) && forall x :: InAny(g, x) <==> InAny(f, x) || InAny(bs, x)
    decreases |bs|
  {
    hide Canonical, InAny, Replace, Covers;
    if bs == [] {
      forall x
        ensures !InAny(bs, x)
      {
        NoBytes(x);
      }
    } else {
      var at :| Room(f, at, bs[0]) && Freed(Given(f, at, bs[0]), bs[1..], g);
      Coalesce(f, min, at, bs[0]);
      PositiveLengths(f, min);
      FreedBytes(Given(f, at, bs[0]), bs[1..], g, min);
      forall x
        ensures InAny(g, x) <==> InAny(f, x) || InAny(bs, x)
      {
        GivenBytes(f, at, bs[0], x);
        BytesOfConcat([bs[0]], bs[1..], x);
        BytesOfOne(bs[0], x);
        assert bs == [bs[0]] + bs[1..];
      }
    }
  }

  lemma SameBytes(bs: seq<Range>, cs: seq<Range>, x: int)
    requires multiset(bs) == multiset(cs)
    ensures InAny(bs, x) ==> InAny(cs, x)
  {
    if InAny(bs, x) {
      var i :| 0 <= i < |bs| && Covers(bs[i], x);
      assert bs[i] in multiset(cs);
      var j :| 0 <= j < |cs| && cs[j] == bs[i];
    }
  }

  /** Freeing the same blocks in any order gives the same list. */
  lemma OrderOfFrees(f: seq<Range>, bs: seq<Range>, cs: seq<Range>, g: seq<Range>, h: seq<Range>, min: int)
    requires Canonical(f, min) && Freed(f, bs, g) && Freed(f, cs, h) && multiset(bs) == multiset(cs)
    requires forall b :: b in bs ==> min <= b.addr && b.len > 0 && b.len % 8 == 0
    ensures g == h
  {
    hide Canonical, InAny, Freed;
    forall c | c in cs
      ensures c in bs
    {
      assert c in multiset(cs);
    }
    FreedBytes(f, bs, g, min);
    FreedBytes(f, cs, h, min);
    forall x
      ensures InAny(g, x) <==> InAny(h, x)
    {
      SameBytes(bs, cs, x);
      SameBytes(cs, bs, x);
    }
    CanonicalUnique(g, h, min);
  }

  /** After start-up the eight bytes behind the heap are given back without complaint, and getmem
      may hand them out from then on. */
  method FreeBehindTheHeap() returns (s: Store, r: int)
    ensures fresh(s) && s.Valid() && s.minheap == 8 && s.maxheap == 16 && r == OK
    ensures s.free == [Range(8, 16)] && !Below(s.free, s.maxheap)
  {
    s := new Store(8, 16, 0);
    ghost var at;
    r, at := s.FreeMem(16, 8);
  }
}
